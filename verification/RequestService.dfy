// The store and the service of collection requests. Each public method of the service is one
// transaction; an error rolls it back.

module RequestService {
  import opened Common
  import opened Requests

  datatype ServiceError =
    | TooManyOpenRequests
    | RequestNotFound
    | RequestNotWithdrawable
    | RequestNotPending
    | RejectionNoteRequired
    | RejectionNoteTooLong

  const MAX_REASON_CHARS := 500

  // The requests among ids that a view would close, with the progress it would record.
  function EndsOf(w: World, ids: set<Id>, registration: bool): map<Id, Progress> {
    map i | i in ids && i in w.requests
    && Finishing(w, w.requests[i], registration) :: LiveProgress(w, w.requests[i], registration)
  }

  lemma EndsOfAreEnds(w: World, ids: set<Id>, registration: bool)
    requires Sound(w)
    ensures Ends(w, EndsOf(w, ids, registration))
  {
    forall i | i in EndsOf(w, ids, registration)
      ensures w.requests[i].status.Approved?
    {
      assert Shape(w.requests[i]);
    }
  }

  // Viewing some requests: those found at their end are closed.
  function Viewed(w: World, ids: set<Id>, registration: bool, at: int): World {
    ClosedAll(w, EndsOf(w, ids, registration), at)
  }

  // The requests among ids that are not at their end.
  function LiveAmong(w: World, ids: set<Id>, registration: bool): set<Id> {
    set i | i in ids && i in w.requests && !Finishing(w, w.requests[i], registration)
  }

  // What the requester really waits for.
  function LiveOf(w: World, actor: Actor, registration: bool): set<Id> {
    LiveAmong(w, OpenOf(w, actor), registration)
  }

  lemma LiveOneMore(w: World, ids: set<Id>, registration: bool, i: Id)
    requires i in w.requests && i !in ids
    ensures |LiveAmong(w, ids + {i}, registration)| == |LiveAmong(w, ids, registration)|
            + if Finishing(w, w.requests[i], registration) then 0 else 1
  {
    var more := if Finishing(w, w.requests[i], registration) then {} else {i};
    assert LiveAmong(w, ids + {i}, registration) == LiveAmong(w, ids, registration) + more;
  }

  lemma ViewingKeeps(w: World, ids: set<Id>, registration: bool, at: int)
    requires Sound(w)
    ensures Sound(Viewed(w, ids, registration, at)) && Progressed(w, Viewed(w, ids, registration, at))
  {
    EndsOfAreEnds(w, ids, registration);
    ClosingKeeps(w, EndsOf(w, ids, registration), at);
  }

  // A view takes from a requester exactly the viewed requests that are at their end, and so changes
  // nothing about what the requester really waits for.
  lemma ViewingOpenOf(w: World, ids: set<Id>, registration: bool, at: int, actor: Actor)
    ensures OpenOf(Viewed(w, ids, registration, at), actor) == OpenOf(w, actor) - EndsOf(w, ids, registration).Keys
    ensures LiveOf(Viewed(w, ids, registration, at), actor, registration) == LiveOf(w, actor, registration)
    ensures OpenOf(w, actor) <= ids ==> OpenOf(Viewed(w, ids, registration, at), actor) ==
                                        LiveOf(w, actor, registration)
  {
  }

  lemma ViewingRow(w: World, ids: set<Id>, registration: bool, at: int, i: Id)
    requires i in w.requests
    ensures i in Viewed(w, ids, registration, at).requests
    ensures i !in ids || !Finishing(w, w.requests[i], registration) ==>
            Viewed(w, ids, registration, at).requests[i] == w.requests[i]
    ensures i in ids && Finishing(w, w.requests[i], registration) ==> !Viewed(w, ids, registration, at).requests[i].open
  {
  }

  // ---------------------------------------------------------------- submit

  datatype Submission = Submission(answer: Result<Id, ServiceError>, after: World)

  // The request a submit would join: open, and not found at its end.
  ghost function Current(w: World, registration: bool, code: string): Option<Id> {
    var found := OpenFor(w, code);
    if found.Some? && !Finishing(w, w.requests[found.value], registration) then found else None
  }

  ghost function Seen(w: World, code: string): set<Id> {
    var found := OpenFor(w, code);
    if found.Some? then {found.value} else {}
  }

  // After looking at the company's open request, and then at everything the requester waits for.
  ghost function Looked(w: World, registration: bool, code: string, at: int): World {
    Viewed(w, Seen(w, code), registration, at)
  }

  ghost function Counted(w: World, registration: bool, code: string, actor: Actor, at: int): World {
    Viewed(Looked(w, registration, code, at), OpenOf(Looked(w, registration, code, at), actor), registration, at)
  }

  ghost function Submitted(w: World, max: nat, registration: bool, code: string, actor: Actor, at: int, id: Id,
      ingestion: Id): Submission {
    var current := Current(w, registration, code);
    if current.Some? && Active(w.requests[current.value], actor)
    then Submission(Ok(current.value), Looked(w, registration, code, at))
    else if |LiveOf(w, actor, registration)| >= max then Submission(Err(TooManyOpenRequests), w)
    else
      var counted := Counted(w, registration, code, actor, at);
      if current.Some? && current.value in counted.requests
      then Submission(Ok(current.value), Joined(counted, current.value, actor, at))
      else Submission(Ok(id), Opened(counted, id, ingestion, code, actor, at))
  }

  // Looking and counting close what is at its end and nothing else: nobody gains a request, and
  // afterwards the requester waits exactly for what was live.
  lemma CountedKeeps(w: World, registration: bool, code: string, actor: Actor, at: int)
    requires Sound(w)
    ensures var looked, counted := Looked(w, registration, code, at), Counted(w, registration, code, actor, at);
            && Sound(looked) && Progressed(w, looked) && Sound(counted) && Progressed(w, counted)
            && LiveOf(looked, actor, registration) == LiveOf(w, actor, registration) == OpenOf(counted, actor)
  {
    var looked := Looked(w, registration, code, at);
    ViewingKeeps(w, Seen(w, code), registration, at);
    ViewingKeeps(looked, OpenOf(looked, actor), registration, at);
    ProgressedTransitive(w, looked, Counted(w, registration, code, actor, at));
    ViewingOpenOf(w, Seen(w, code), registration, at, actor);
    ViewingOpenOf(looked, OpenOf(looked, actor), registration, at, actor);
  }

  lemma CountedShrinks(w: World, registration: bool, code: string, actor: Actor, at: int, any: Actor)
    ensures OpenOf(Counted(w, registration, code, actor, at), any) <= OpenOf(Looked(w, registration, code, at),
        any) <= OpenOf(w, any)
  {}

  lemma CountedAddsNone(w: World, registration: bool, code: string, actor: Actor, at: int)
    ensures Counted(w, registration, code, actor, at).requests.Keys == w.requests.Keys
    ensures Counted(w, registration, code, actor, at).ingestions == w.ingestions
  {
  }

  // Afterwards the open request of the company is the current one, untouched; without one, none is open.
  lemma CurrentStays(w: World, registration: bool, code: string, actor: Actor, at: int)
    requires Sound(w)
    ensures var current, looked, counted :=
              Current(w, registration, code), Looked(w, registration, code, at),
              Counted(w, registration, code, actor, at);
            && (current.Some? ==> current.value in looked.requests
                                  && looked.requests[current.value] == w.requests[current.value])
            && (current.Some? ==> current.value in counted.requests
                                  && counted.requests[current.value] == w.requests[current.value])
            && (current.Some? ==> IsOpenFor(counted, current.value, code))
            && (current.None? ==> forall i :: !IsOpenFor(counted, i, code))
  {
    var looked, counted := Looked(w, registration, code, at), Counted(w, registration, code, actor, at);
    var current := Current(w, registration, code);
    if current.Some? {
      ViewingRow(w, Seen(w, code), registration, at, current.value);
      ViewingRow(looked, OpenOf(looked, actor), registration, at, current.value);
    } else {
      forall i: Id
        ensures !IsOpenFor(counted, i, code)
      {
        if IsOpenFor(counted, i, code) {
          assert IsOpenFor(looked, i, code);
          assert IsOpenFor(w, i, code);
          assert OpenFor(w, code) == Some(i);
          ViewingRow(w, Seen(w, code), registration, at, i);
        }
      }
    }
  }

  lemma SubmitKeeps(w: World, max: nat, registration: bool, code: string, actor: Actor, at: int, id: Id, ingestion: Id)
    requires Sound(w) && id !in w.requests && ingestion !in w.ingestions
    ensures var s := Submitted(w, max, registration, code, actor, at, id, ingestion);
            Sound(s.after) && Progressed(w, s.after)
  {
    var s := Submitted(w, max, registration, code, actor, at, id, ingestion);
    var counted := Counted(w, registration, code, actor, at);
    var current := Current(w, registration, code);
    CountedKeeps(w, registration, code, actor, at);
    CurrentStays(w, registration, code, actor, at);
    if s.after == w || s.after == Looked(w, registration, code, at) {
    } else if current.Some? {
      JoiningKeeps(counted, current.value, actor, at);
      ProgressedTransitive(w, counted, s.after);
    } else {
      OpeningKeeps(counted, id, ingestion, code, actor, at);
      ProgressedTransitive(w, counted, s.after);
    }
  }

  // A submit that succeeds leaves the actor waiting for the company; one that fails does so because
  // the actor has no room, and changes nothing.
  lemma {:induction false} SubmitServes(w: World, max: nat, registration: bool, code: string, actor: Actor, at: int,
      id: Id, ingestion: Id)
    requires Sound(w) && id !in w.requests && ingestion !in w.ingestions
    ensures var s := Submitted(w, max, registration, code, actor, at, id, ingestion);
            && (s.answer.Ok? ==> IsOpenFor(s.after, s.answer.value, code)
                                 && Active(s.after.requests[s.answer.value], actor))
            && (s.answer.Err? ==> s.answer.error.TooManyOpenRequests? && |LiveOf(w, actor, registration)| >= max
                                  && s.after == w)
  {
    CurrentStays(w, registration, code, actor, at);
  }

  // No submit takes anybody over the quota, and it gives nobody but the actor a request.
  lemma SubmitKeepsQuota(w: World, max: nat, registration: bool, code: string, actor: Actor, at: int, id: Id,
      ingestion: Id, any: Actor)
    requires Sound(w) && id !in w.requests && ingestion !in w.ingestions
    ensures var s := Submitted(w, max, registration, code, actor, at, id, ingestion);
            && (any != actor ==> OpenOf(s.after, any) <= OpenOf(w, any))
            && (|OpenOf(w, any)| <= max ==> |OpenOf(s.after, any)| <= max)
  {
    var s := Submitted(w, max, registration, code, actor, at, id, ingestion);
    var counted := Counted(w, registration, code, actor, at);
    var current := Current(w, registration, code);
    CountedKeeps(w, registration, code, actor, at);
    CountedShrinks(w, registration, code, actor, at, any);
    CurrentStays(w, registration, code, actor, at);
    if s.answer.Err? || (current.Some? && Active(w.requests[current.value], actor)) {
      SmallerSet(OpenOf(s.after, any), OpenOf(w, any));
    } else {
      if current.Some? {
        JoiningKeeps(counted, current.value, actor, at);
      } else {
        OpeningKeeps(counted, id, ingestion, code, actor, at);
      }
      if any != actor {
        SmallerSet(OpenOf(s.after, any), OpenOf(w, any));
      } else {
        assert OpenOf(s.after, actor) == LiveOf(w, actor, registration) + {s.answer.value};
        OneMoreElement(LiveOf(w, actor, registration), s.answer.value);
      }
    }
  }

  lemma OneMoreElement<T>(a: set<T>, x: T)
    ensures |a + {x}| <= |a| + 1
  {}

  // _pending: a decision needs an open request that is still pending; shown is what the view says after it.
  function NotReviewable(w: World, i: Id, shown: Progress): Result<Progress, ServiceError> {
    if i !in w.requests then Err(RequestNotFound)
    else if !w.requests[i].open || !w.requests[i].status.Pending? then Err(RequestNotPending)
    else Ok(shown)
  }

  lemma WatchingKeeps(a: World, b: World, c: World)
    requires Sound(b) && Progressed(a, b) && c == b.(watchlist := c.watchlist)
    ensures Sound(c) && Progressed(a, c)
  {
    forall i | i in c.requests
      ensures Shape(c.requests[i])
    {
      assert Shape(b.requests[i]);
    }
    SoundFrom(b, c);
  }

  class RequestStore {
    var requests: map<Id, Request>
    var ingestions: map<Id, Ingestion>
    var datasets: map<Id, Dataset>
    var published: set<string>
    var watchlist: set<string>

    constructor ()
      ensures Snapshot() == World(map[], map[], map[], {}, {})
    {
      requests, ingestions, datasets, published, watchlist := map[], map[], map[], {}, {};
    }

    function Snapshot(): World
      reads this
    {
      World(requests, ingestions, datasets, published, watchlist)
    }

    // rollback
    method Restore(w: World)
      modifies this
      ensures Snapshot() == w
    {
      requests, ingestions, datasets, published, watchlist :=
          w.requests, w.ingestions, w.datasets, w.published, w.watchlist;
    }

    // find_open: the partial unique index allows at most one.
    method FindOpen(code: string) returns (found: Option<Id>)
      requires OneOpenPerCode(Snapshot())
      ensures found == OpenFor(Snapshot(), code)
    {
      var ids := set i | i in requests && IsOpenFor(Snapshot(), i, code);
      if ids == {} {
        assert forall i :: i in ids <==> IsOpenFor(Snapshot(), i, code);
        return None;
      }
      var i :| i in ids;
      found := Some(i);
    }

    // close: write once
    method Close(i: Id, outcome: Progress, at: int)
      requires i in requests
      modifies this`requests
      ensures Snapshot() == Closed(old(Snapshot()), i, outcome, at)
    {
      var row := requests[i];
      if !row.open {
        assert requests == requests[i := row];
        return;
      }
      requests := requests[i := row.(open := false, outcome := Some(outcome), closedAt := Some(at))];
    }

    method Join(i: Id, actor: Actor, at: int)
      requires i in requests
      modifies this`requests
      ensures Snapshot() == Joined(old(Snapshot()), i, actor, at)
    {
      requests := requests[i := requests[i].(requesters := requests[i].requesters[actor := Requester(at, None)])];
    }

    method Create(i: Id, kind: Kind, code: string, actor: Actor, at: int)
      requires i !in requests && kind == (if code in published then Refresh else Initial)
      modifies this`requests
      ensures Snapshot() == Created(old(Snapshot()), i, code, actor, at)
    {
      requests := requests[i := Request(code, kind, Pending, true, map[actor := Requester(at, None)], None, None,
                                        None, None, None, None)];
    }

    method WithdrawRequester(i: Id, actor: Actor, at: int)
      requires i in requests && actor in requests[i].requesters
      modifies this`requests
      ensures Snapshot() == Put(old(Snapshot()), i, Left(old(requests)[i], actor, at))
    {
      var withdrawn := requests[i].requesters[actor].(withdrawnAt := Some(at));
      requests := requests[i := requests[i].(requesters := requests[i].requesters[actor := withdrawn])];
    }

    method Decide(i: Id, status: Status, who: string, at: int, note: Option<string>, ingestion: Option<Id>)
      requires i in requests
      modifies this`requests
      ensures Snapshot() == Decided(old(Snapshot()), i, status, who, at, note, ingestion)
    {
      var row := requests[i].(status := status, decidedBy := Some(if |who| <= 64 then who else who[..64]),
                              decidedAt := Some(at), note := note);
      if ingestion.Some? {
        row := row.(ingestion := ingestion);
      }
      requests := requests[i := row];
    }

    method Watch(code: string)
      modifies this`watchlist
      ensures Snapshot() == old(Snapshot()).(watchlist := old(watchlist) + {code})
    {
      watchlist := watchlist + {code};
    }

    method StartIngestion(g: Id)
      requires g !in ingestions
      modifies this`ingestions
      ensures Snapshot() == old(Snapshot()).(ingestions := old(ingestions)[g := Ingestion(Waiting, None)])
    {
      ingestions := ingestions[g := Ingestion(Waiting, None)];
    }
  }

  lemma ViewedNothing(w: World, registration: bool, at: int)
    ensures Viewed(w, {}, registration, at) == w && LiveAmong(w, {}, registration) == {}
  {}

  // Viewing one more: the row is still as it was, and the view closes it exactly when it is at its end.
  lemma ViewOneMore(w: World, done: set<Id>, registration: bool, i: Id, at: int)
    requires Sound(w) && i in w.requests && i !in done && w.requests[i].open
    ensures var now, r := Viewed(w, done, registration, at), w.requests[i];
            && i in now.requests && now.requests[i] == r
            && Shown(now, r, registration) == Shown(w, r, registration)
            && Finishing(now, r, registration) == Finishing(w, r, registration)
            && (Final(Shown(w, r, registration)) <==> Finishing(w, r, registration))
            && Viewed(w, done + {i}, registration, at) == if Finishing(w, r, registration)
                                                          then Closed(now, i, Shown(w, r, registration), at) else now
  {
    var now, r := Viewed(w, done, registration, at), w.requests[i];
    assert Shape(r);
    ViewingRow(w, done, registration, at, i);
    var a, b := EndsOf(w, done, registration), EndsOf(w, done + {i}, registration);
    if Finishing(w, r, registration) {
      assert b == a[i := LiveProgress(w, r, registration)];
      assert ClosedAll(w, b, at).requests == Closed(now, i, b[i], at).requests;
    } else {
      assert b == a;
    }
  }

  // The view that ends a submit finds nothing to close: the ingestion just registered is waiting, and
  // the request just joined was not at its end.
  lemma FreshNotFinishing(w: World, max: nat, registration: bool, code: string, actor: Actor, at: int, id: Id,
      ingestion: Id)
    requires Sound(w)
    ensures var s := Submitted(w, max, registration, code, actor, at, id, ingestion);
            s.answer.Ok? && s.answer.value in s.after.requests ==> !Finishing(s.after,
                s.after.requests[s.answer.value], registration)
  {
    CurrentStays(w, registration, code, actor, at);
  }

  class SecurityRequestService {
    const store: RequestStore
    const maxOpen: nat
    const registration: bool
    const strip: string -> string  // how surrounding blanks are cut off

    constructor (store: RequestStore, maxOpen: nat, registration: bool, strip: string -> string)
      ensures this.store == store && this.maxOpen == maxOpen && this.registration == registration && this.strip == strip
    {
      this.store, this.maxOpen, this.registration, this.strip := store, maxOpen, registration, strip;
    }

    // A quota below one is refused.
    static method Make(store: RequestStore, maxOpen: int, registration: bool, strip: string -> string)
        returns (s: SecurityRequestService?)
      ensures s != null <==> maxOpen >= 1
      ensures s != null ==> fresh(s) && s.store == store && s.maxOpen == maxOpen && s.registration == registration
    {
      if maxOpen < 1 {
        return null;
      }
      s := new SecurityRequestService(store, maxOpen, registration, strip);
    }

    // _view: compute the progress, and record it when it is an end.
    method View(i: Id, at: int) returns (g: Progress)
      requires i in store.requests
      modifies store
      ensures g == Shown(old(store.Snapshot()), old(store.requests)[i], registration)
      ensures store.Snapshot() == if Finishing(old(store.Snapshot()), old(store.requests)[i], registration)
                                  then Closed(old(store.Snapshot()), i, g, at) else old(store.Snapshot())
    {
      var r := store.requests[i];
      if !r.open || r.outcome.Some? {
        return if r.outcome.Some? then r.outcome.value else ClosedProgress(r.status);
      }
      if r.status.Pending? {
        return InReview;
      }
      g := LiveProgress(store.Snapshot(), r, registration);
      if Final(g) {
        store.Close(i, g, at);
      }
    }

    // _my_open_count: views every open request of the actor, closing those at their end.
    method MyOpenCount(actor: Actor, at: int) returns (n: nat)
      requires Sound(store.Snapshot())
      modifies store
      ensures store.Snapshot() == Viewed(old(store.Snapshot()), OpenOf(old(store.Snapshot()), actor), registration, at)
      ensures n == |LiveOf(old(store.Snapshot()), actor, registration)|
    {
      hide Viewed, Shown, Finishing, Closed, LiveAmong, Final, Sound;
      ghost var before := store.Snapshot();
      var todo := OpenOf(store.Snapshot(), actor);
      ghost var all, done := todo, {};
      n := 0;
      ViewedNothing(before, registration, at);
      while todo != {}
        invariant todo !! done && todo + done == all
        invariant store.Snapshot() == Viewed(before, done, registration, at)
        invariant n == |LiveAmong(before, done, registration)|
        decreases todo
      {
        var i :| i in todo;
        ViewOneMore(before, done, registration, i, at);
        LiveOneMore(before, done, registration, i);
        var g := View(i, at);
        assert store.Snapshot() == Viewed(before, done + {i}, registration, at);
        n := if Final(g) then n else n + 1;
        todo, done := todo - {i}, done + {i};
      }
      assert done == all;
    }

    // _open_for: find, lock and view the company's open request; at its end it is gone.
    method OpenForViewed(code: string, at: int) returns (current: Option<Id>)
      requires Sound(store.Snapshot())
      modifies store
      ensures store.Snapshot() == Looked(old(store.Snapshot()), registration, code, at)
      ensures current == Current(old(store.Snapshot()), registration, code)
    {
      ghost var before := store.Snapshot();
      current := store.FindOpen(code);
      ViewedNothing(before, registration, at);
      if current.Some? {
        ViewOneMore(before, {}, registration, current.value, at);
        assert {} + {current.value} == Seen(before, code);
        var g := View(current.value, at);
        if Final(g) {
          current := None;
        }
      }
    }

    // _create: a company on the watchlist is approved at once.
    method Open(code: string, actor: Actor, at: int, newId: Id, newIngestion: Id)
      requires newId !in store.requests && newIngestion !in store.ingestions
      modifies store
      ensures store.Snapshot() == Opened(old(store.Snapshot()), newId, newIngestion, code, actor, at)
    {
      store.Create(newId, if code in store.published then Refresh else Initial, code, actor, at);
      if code in store.watchlist {
        StartApproval(newId, newIngestion, SYSTEM_WATCHLIST, at);
      }
    }

    method Submit(code: string, actor: Actor, at: int, newId: Id, newIngestion: Id)
        returns (r: Result<(Id, Progress), ServiceError>)
      requires Sound(store.Snapshot()) && newId !in store.requests && newIngestion !in store.ingestions
      modifies store
      ensures store.Snapshot() ==
              Submitted(old(store.Snapshot()), maxOpen, registration, code, actor, at, newId, newIngestion).after
      ensures Answers(r, Submitted(old(store.Snapshot()), maxOpen, registration, code, actor, at, newId, newIngestion))
    {
      hide Finishing, Shown, Sound, Progressed, Viewed, Looked, Current, LiveOf, OpenOf;
      var begun := store.Snapshot();
      CountedKeeps(begun, registration, code, actor, at);
      CurrentStays(begun, registration, code, actor, at);
      CountedAddsNone(begun, registration, code, actor, at);
      FreshNotFinishing(begun, maxOpen, registration, code, actor, at, newId, newIngestion);
      var current := OpenForViewed(code, at);
      if current.Some? && Active(store.requests[current.value], actor) {
        var shown := View(current.value, at);
        return Ok((current.value, shown));
      }
      var waiting := MyOpenCount(actor, at);
      if waiting >= maxOpen {
        store.Restore(begun);
        return Err(TooManyOpenRequests);
      }
      if current.None? {
        Open(code, actor, at, newId, newIngestion);
        current := Some(newId);
      } else {
        store.Join(current.value, actor, at);
      }
      var shown := View(current.value, at);
      r := Ok((current.value, shown));
    }

    // The submission's answer, with what the view of the request shows.
    ghost predicate Answers(r: Result<(Id, Progress), ServiceError>, s: Submission) {
      match r
      case Ok(v) => s.answer == Ok(v.0) && v.0 in s.after.requests
      && v.1 == Shown(s.after, s.after.requests[v.0], registration)
      case Err(e) => s.answer == Err(e)
    }

    // _approve
    method StartApproval(i: Id, newIngestion: Id, who: string, at: int)
      requires i in store.requests && newIngestion !in store.ingestions
      modifies store
      ensures store.Snapshot() == ApprovedBy(old(store.Snapshot()), i, newIngestion, who, at)
    {
      store.StartIngestion(newIngestion);
      store.Decide(i, Approved, who, at, None, Some(newIngestion));
    }

    // Only a requester of the request may see or leave it, and only before it is decided.
    method Withdraw(i: Id, actor: Actor, at: int) returns (r: Result<Progress, ServiceError>)
      requires Sound(store.Snapshot())
      modifies store
      ensures Sound(store.Snapshot()) && Progressed(old(store.Snapshot()), store.Snapshot())
      ensures r == Err(RequestNotFound) <==> i !in old(store.requests) || actor !in old(store.requests)[i].requesters
      ensures r == Err(RequestNotWithdrawable) <==> i in old(store.requests)
                                                    && actor in old(store.requests)[i].requesters
                                                       && !CanWithdraw(old(store.requests)[i], actor)
      ensures r.Err? ==> store.Snapshot() == old(store.Snapshot())
      ensures r.Ok? ==> store.Snapshot() == WithdrawnBy(old(store.Snapshot()), i, actor, at)
      ensures r.Ok? ==> r.value == if ActiveOnes(old(store.requests)[i]) == {actor} then Retracted else InReview
    {
      if i !in store.requests || actor !in store.requests[i].requesters {
        return Err(RequestNotFound);
      }
      var request := store.requests[i];
      if !CanWithdraw(request, actor) {
        return Err(RequestNotWithdrawable);
      }
      WithdrawingKeeps(store.Snapshot(), i, actor, at);
      WithdrawnRow(store.Snapshot(), i, actor, at);
      store.WithdrawRequester(i, actor, at);
      if |ActiveOnes(request)| <= 1 {
        store.Decide(i, Withdrawn, actor, at, None, None);
        store.Close(i, Retracted, at);
      }
      var progress := View(i, at);
      r := Ok(progress);
    }

    method Approve(i: Id, who: string, addToWatchlist: bool, at: int, newIngestion: Id)
        returns (r: Result<Progress, ServiceError>)
      requires Sound(store.Snapshot()) && newIngestion !in store.ingestions
      modifies store
      ensures Sound(store.Snapshot()) && Progressed(old(store.Snapshot()), store.Snapshot())
      ensures r == NotReviewable(old(store.Snapshot()), i, Queued)
      ensures r.Err? ==> store.Snapshot() == old(store.Snapshot())
      ensures r.Ok? ==> var approved := ApprovedBy(old(store.Snapshot()), i, newIngestion, who, at);
                        store.Snapshot() == approved.(watchlist := approved.watchlist + if addToWatchlist
                            then {approved.requests[i].code} else {})
    {
      r := NotReviewable(store.Snapshot(), i, Queued);
      if r.Err? {
        return;
      }
      ghost var before := store.Snapshot();
      assert Shape(before.requests[i]);
      ApprovingKeeps(before, i, newIngestion, who, at);
      StartApproval(i, newIngestion, who, at);
      ghost var approved := store.Snapshot();
      if addToWatchlist {
        store.Watch(store.requests[i].code);
      }
      WatchingKeeps(before, approved, store.Snapshot());
      var progress := View(i, at);
      r := Ok(progress);
    }

    method Reject(i: Id, who: string, note: Option<string>, at: int) returns (r: Result<Progress, ServiceError>)
      requires Sound(store.Snapshot())
      modifies store
      ensures Sound(store.Snapshot()) && Progressed(old(store.Snapshot()), store.Snapshot())
      ensures var reason := strip(if note.Some? then note.value else "");
              && r == (if reason == "" then Err(RejectionNoteRequired)
                       else if |reason| > 500 then Err(RejectionNoteTooLong)
                       else NotReviewable(old(store.Snapshot()), i, Declined))
              && store.Snapshot() == if r.Ok? then RejectedBy(old(store.Snapshot()), i, who, at, reason)
                                     else old(store.Snapshot())
    {
      var reason := strip(if note.Some? then note.value else "");
      if reason == "" {
        return Err(RejectionNoteRequired);
      }
      if |reason| > MAX_REASON_CHARS {
        return Err(RejectionNoteTooLong);
      }
      r := NotReviewable(store.Snapshot(), i, Declined);
      if r.Err? {
        return;
      }
      RejectingKeeps(store.Snapshot(), i, who, at, reason);
      store.Decide(i, Rejected, who, at, Some(reason), None);
      store.Close(i, Declined, at);
      var progress := View(i, at);
      r := Ok(progress);
    }
  }
}
