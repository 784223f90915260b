// Collection requests: the domain rules, and the effect of each store operation on the tables.

module Requests {
  import opened Common

  type Id = nat
  type Actor = string

  datatype Kind = Initial | Refresh

  // What is stored on the request: only whether it was approved.
  datatype Status = Pending | Approved | Rejected | Withdrawn

  // What is shown; after approval it is derived from the ingestion and the dataset.
  datatype Progress =
    | InReview | Declined | Retracted
    | Queued | Collecting | Building | Registering
    | Available | QualityFailed | Failed | RegistrationFailed

  predicate Final(g: Progress) {
    g.Declined? || g.Retracted? || g.Available? || g.QualityFailed? || g.Failed? || g.RegistrationFailed?
  }

  datatype Stage = Waiting | Running | Succeeded | Broken

  datatype Ingestion = Ingestion(stage: Stage, buildError: Option<string>)

  datatype Dataset = Dataset(published: bool, registered: bool, registrationError: Option<string>)

  // Python truth of an optional string.
  predicate Said(text: Option<string>) {
    text.Some? && text.value != ""
  }

  function ProgressAfterApproval(ingestion: Option<Ingestion>, dataset: Option<Dataset>, registration: bool): Progress {
    if ingestion.None? || ingestion.value.stage.Waiting? then Queued
    else if ingestion.value.stage.Running? then Collecting
    else if ingestion.value.stage.Broken? then Failed
    else if dataset.None? then (if Said(ingestion.value.buildError) then Failed else Building)
    else if !dataset.value.published then QualityFailed
    else if !registration || dataset.value.registered then Available
    else if Said(dataset.value.registrationError) then RegistrationFailed
    else Registering
  }

  datatype Requester = Requester(requestedAt: int, withdrawnAt: Option<int>)

  datatype Request = Request(
    code: string, kind: Kind, status: Status, open: bool,
    requesters: map<Actor, Requester>, ingestion: Option<Id>,
    decidedBy: Option<string>, decidedAt: Option<int>, note: Option<string>,
    outcome: Option<Progress>, closedAt: Option<int>)

  datatype World = World(
    requests: map<Id, Request>, ingestions: map<Id, Ingestion>,
    datasets: map<Id, Dataset>,  // the latest dataset built by an ingestion
    published: set<string>, watchlist: set<string>)

  predicate Active(r: Request, actor: Actor) {
    actor in r.requesters && r.requesters[actor].withdrawnAt.None?
  }

  function ActiveOnes(r: Request): set<Actor> {
    set a | a in r.requesters && Active(r, a)
  }

  predicate CanWithdraw(r: Request, actor: Actor) {
    r.open && r.status.Pending? && Active(r, actor)
  }

  // The requests an actor still waits for.
  function OpenOf(w: World, actor: Actor): set<Id> {
    set i | i in w.requests && w.requests[i].open && Active(w.requests[i], actor)
  }

  predicate IsOpenFor(w: World, i: Id, code: string) {
    i in w.requests && w.requests[i].open && w.requests[i].code == code
  }

  // The partial unique index allows at most one.
  ghost function OpenFor(w: World, code: string): (r: Option<Id>)
    ensures r.Some? ==> IsOpenFor(w, r.value, code)
    ensures r.None? ==> forall i :: !IsOpenFor(w, i, code)
  {
    if exists i :: IsOpenFor(w, i, code) then
      var i :| IsOpenFor(w, i, code);
      Some(i)
    else None
  }

  // ---------------------------------------------------------------- viewing

  function ClosedProgress(status: Status): Progress {
    if status.Rejected? then Declined else if status.Withdrawn? then Retracted else Failed
  }

  function LiveProgress(w: World, r: Request, registration: bool): (g: Progress)
    ensures AfterApproval(g)
  {
    var i := r.ingestion;
    ProgressAfterApproval(
      if i.Some? && i.value in w.ingestions then Some(w.ingestions[i.value]) else None,
      if i.Some? && i.value in w.datasets then Some(w.datasets[i.value]) else None,
      registration)
  }

  function Shown(w: World, r: Request, registration: bool): Progress {
    if !r.open || r.outcome.Some? then (if r.outcome.Some? then r.outcome.value else ClosedProgress(r.status))
    else if r.status.Pending? then InReview
    else LiveProgress(w, r, registration)
  }

  // A view of this request would close it.
  predicate Finishing(w: World, r: Request, registration: bool) {
    r.open && r.outcome.None? && !r.status.Pending? && Final(LiveProgress(w, r, registration))
  }

  // ---------------------------------------------------------------- store operations

  function Put(w: World, i: Id, r: Request): World {
    w.(requests := w.requests[i := r])
  }

  function Closing(r: Request, outcome: Progress, at: int): Request {
    if r.open then r.(open := false, outcome := Some(outcome), closedAt := Some(at)) else r
  }

  function Closed(w: World, i: Id, outcome: Progress, at: int): World
    requires i in w.requests
  {
    Put(w, i, Closing(w.requests[i], outcome, at))
  }

  // Closing every request that is found at its end; ends says how each ended.
  function ClosedAll(w: World, ends: map<Id, Progress>, at: int): World {
    w.(requests := map i | i in w.requests :: if i in ends then Closing(w.requests[i], ends[i], at) else w.requests[i])
  }

  function Joined(w: World, i: Id, actor: Actor, at: int): World
    requires i in w.requests
  {
    var r := w.requests[i];
    Put(w, i, r.(requesters := r.requesters[actor := Requester(at, None)]))
  }

  function Created(w: World, i: Id, code: string, actor: Actor, at: int): World {
    Put(w, i, Request(code, if code in w.published then Refresh else Initial, Pending, true,
                      map[actor := Requester(at, None)], None, None, None, None, None, None))
  }

  function Decided(w: World, i: Id, status: Status, who: string, at: int, note: Option<string>,
      ingestion: Option<Id>): World
    requires i in w.requests
  {
    var r := w.requests[i];
    Put(w, i, r.(status := status, decidedBy := Some(if |who| <= 64 then who else who[..64]), decidedAt := Some(at),
        note := note,
                 ingestion := if ingestion.Some? then ingestion else r.ingestion))
  }

  // start_ingestion and decide in one transaction; g is the new ingestion's id.
  function ApprovedBy(w: World, i: Id, g: Id, who: string, at: int): World
    requires i in w.requests
  {
    Decided(w.(ingestions := w.ingestions[g := Ingestion(Waiting, None)]), i, Approved, who, at, None, Some(g))
  }

  const SYSTEM_WATCHLIST := "system:watchlist"

  // _create: a company on the watchlist is approved at once.
  function Opened(w: World, i: Id, g: Id, code: string, actor: Actor, at: int): World {
    if code in w.watchlist then ApprovedBy(Created(w, i, code, actor, at), i, g, SYSTEM_WATCHLIST, at)
    else Created(w, i, code, actor, at)
  }

  function Left(r: Request, actor: Actor, at: int): Request
    requires actor in r.requesters
  {
    r.(requesters := r.requesters[actor := r.requesters[actor].(withdrawnAt := Some(at))])
  }

  function WithdrawnBy(w: World, i: Id, actor: Actor, at: int): World
    requires i in w.requests && actor in w.requests[i].requesters
  {
    var left := Put(w, i, Left(w.requests[i], actor, at));
    if |ActiveOnes(w.requests[i])| <= 1
    then Closed(Decided(left, i, Withdrawn, actor, at, None, None), i, Retracted, at)
    else left
  }

  function RejectedBy(w: World, i: Id, who: string, at: int, note: string): World
    requires i in w.requests
  {
    Closed(Decided(w, i, Rejected, who, at, Some(note), None), i, Declined, at)
  }

  // ---------------------------------------------------------------- shape of the table

  predicate AfterApproval(g: Progress) {
    !g.InReview? && !g.Declined? && !g.Retracted?
  }

  predicate OutcomeFits(status: Status, outcome: Progress) {
    && Final(outcome)
    && (status.Rejected? <==> outcome.Declined?)
    && (status.Withdrawn? <==> outcome.Retracted?)
    && !status.Pending?
  }

  predicate Shape(r: Request) {
    && (r.open <==> r.outcome.None?)
    && (r.outcome.None? <==> r.closedAt.None?)
    && (r.status.Approved? <==> r.ingestion.Some?)
    && (r.open ==> r.status.Pending? || r.status.Approved?)
    && (r.status.Pending? ==> r.open && ActiveOnes(r) != {})
    && (r.outcome.Some? ==> OutcomeFits(r.status, r.outcome.value))
  }

  ghost predicate OneOpenPerCode(w: World) {
    forall i, j, code :: IsOpenFor(w, i, code) && IsOpenFor(w, j, code) ==> i == j
  }

  predicate Started(w: World, i: Id, g: Id) {
    i in w.requests && w.requests[i].ingestion == Some(g)
  }

  // No two requests share an ingestion.
  ghost predicate OwnIngestions(w: World) {
    && (forall i, g :: Started(w, i, g) ==> g in w.ingestions)
    && (forall i, j, g :: Started(w, i, g) && Started(w, j, g) ==> i == j)
  }

  ghost predicate Sound(w: World) {
    && (forall i {:trigger Shape(w.requests[i])} :: i in w.requests ==> Shape(w.requests[i]))
    && OneOpenPerCode(w) && OwnIngestions(w)
  }

  ghost predicate WithinQuota(w: World, max: nat) {
    forall actor :: |OpenOf(w, actor)| <= max
  }

  // What no transaction ever undoes: a closed request is frozen, a decided one keeps its decision.
  ghost predicate Progressed(a: World, b: World) {
    && (forall i :: i in a.requests ==>
                      && i in b.requests
                      && b.requests[i].code == a.requests[i].code
                      && (!a.requests[i].open ==> b.requests[i] == a.requests[i])
                      && (!a.requests[i].status.Pending? ==>
                            b.requests[i].status == a.requests[i].status
                            && b.requests[i].ingestion == a.requests[i].ingestion))
    && a.ingestions.Keys <= b.ingestions.Keys
  }

  lemma ProgressedTransitive(a: World, b: World, c: World)
    requires Progressed(a, b) && Progressed(b, c)
    ensures Progressed(a, c)
  {
  }

  // ---------------------------------------------------------------- each operation

  // Changing one request: the new row is well shaped, keeps its code, opens nothing and takes at
  // most a new ingestion.
  ghost predicate Refines(a: World, b: World, i: Id) {
    && i in a.requests && i in b.requests && b.requests == a.requests[i := b.requests[i]]
    && a.ingestions.Keys <= b.ingestions.Keys
    && Shape(b.requests[i])
    && b.requests[i].code == a.requests[i].code
    && (b.requests[i].open ==> a.requests[i].open)
    && (|| b.requests[i].ingestion == a.requests[i].ingestion
        || (b.requests[i].ingestion.Some? && b.requests[i].ingestion.value in b.ingestions.Keys - a.ingestions.Keys))
  }

  // A table whose rows were all there before, opened no later and started by the same ingestions.
  lemma SoundFrom(a: World, b: World)
    requires Sound(a) && a.ingestions.Keys <= b.ingestions.Keys
    requires forall i {:trigger Shape(b.requests[i])} :: i in b.requests ==> Shape(b.requests[i])
    requires forall i, code :: IsOpenFor(b, i, code) ==> IsOpenFor(a, i, code)
    requires forall i, g :: Started(b, i, g) ==> Started(a, i, g)
    ensures Sound(b)
  {
  }

  lemma RefinesKeeps(a: World, b: World, i: Id)
    requires Sound(a) && Refines(a, b, i)
    ensures Sound(b)
  {
    forall k | k in b.requests
      ensures Shape(b.requests[k])
    {
      assert k != i ==> Shape(a.requests[k]);
    }
    forall x, y, code | IsOpenFor(b, x, code) && IsOpenFor(b, y, code)
      ensures x == y
    {
      assert IsOpenFor(a, x, code) && IsOpenFor(a, y, code);
    }
    forall x, g | Started(b, x, g)
      ensures g in b.ingestions && (Started(a, x, g) || (x == i && g !in a.ingestions))
    {
      assert x != i || b.requests[i].ingestion == a.requests[i].ingestion ==> Started(a, x, g);
    }
  }

  lemma RefinesOpenOf(a: World, b: World, i: Id, actor: Actor)
    requires Refines(a, b, i)
    ensures OpenOf(b, actor) == if b.requests[i].open && Active(b.requests[i], actor) then OpenOf(a, actor) + {i}
                                else OpenOf(a, actor) - {i}
  {
  }

  predicate Ends(w: World, ends: map<Id, Progress>) {
    forall i :: i in ends ==> i in w.requests && w.requests[i].status.Approved? && Final(ends[i])
                              && AfterApproval(ends[i])
  }

  lemma ClosingKeeps(w: World, ends: map<Id, Progress>, at: int)
    requires Sound(w) && Ends(w, ends)
    ensures Sound(ClosedAll(w, ends, at)) && Progressed(w, ClosedAll(w, ends, at))
  {
    var after := ClosedAll(w, ends, at);
    forall i | i in after.requests
      ensures Shape(after.requests[i])
    {
      assert Shape(w.requests[i]);
    }
    SoundFrom(w, after);
  }

  lemma ClosingOpenOf(w: World, ends: map<Id, Progress>, at: int, actor: Actor)
    ensures OpenOf(ClosedAll(w, ends, at), actor) == OpenOf(w, actor) - ends.Keys
  {
  }

  lemma JoiningKeeps(w: World, i: Id, actor: Actor, at: int)
    requires Sound(w) && i in w.requests && w.requests[i].open
    ensures Sound(Joined(w, i, actor, at)) && Progressed(w, Joined(w, i, actor, at))
    ensures OpenOf(Joined(w, i, actor, at), actor) == OpenOf(w, actor) + {i}
    ensures forall other :: other != actor ==> OpenOf(Joined(w, i, actor, at), other) == OpenOf(w, other)
  {
    var after := Joined(w, i, actor, at);
    assert Shape(w.requests[i]);
    assert actor in ActiveOnes(after.requests[i]);
    RefinesKeeps(w, after, i);
    forall other
      ensures OpenOf(after, other) == if other == actor then OpenOf(w, other) + {i} else OpenOf(w, other)
    {
      RefinesOpenOf(w, after, i, other);
      assert Active(w.requests[i], other) <==> i in OpenOf(w, other);
    }
  }

  lemma CreatingKeeps(w: World, i: Id, code: string, actor: Actor, at: int)
    requires Sound(w) && i !in w.requests
    requires forall k :: !IsOpenFor(w, k, code)
    ensures Sound(Created(w, i, code, actor, at)) && Progressed(w, Created(w, i, code, actor, at))
    ensures OpenOf(Created(w, i, code, actor, at), actor) == OpenOf(w, actor) + {i}
    ensures forall other :: other != actor ==> OpenOf(Created(w, i, code, actor, at), other) == OpenOf(w, other)
  {
    var after := Created(w, i, code, actor, at);
    assert actor in ActiveOnes(after.requests[i]);
    forall k | k in after.requests
      ensures Shape(after.requests[k])
    {
      assert k != i ==> Shape(w.requests[k]);
    }
    forall x, y, c | IsOpenFor(after, x, c) && IsOpenFor(after, y, c)
      ensures x == y
    {
      assert x != i ==> IsOpenFor(w, x, c);
      assert y != i ==> IsOpenFor(w, y, c);
    }
    forall x, g | Started(after, x, g)
      ensures Started(w, x, g)
    {
    }
  }

  // The request is approved with one new ingestion, and no other request changes.
  ghost predicate StartedBy(a: World, b: World, i: Id, g: Id) {
    && i in b.requests && b.requests[i].status.Approved? && b.requests[i].ingestion == Some(g) && b.requests[i].open
    && g !in a.ingestions && b.ingestions == a.ingestions[g := Ingestion(Waiting, None)]
    && forall k :: k in a.requests && k != i ==> k in b.requests && b.requests[k] == a.requests[k]
  }

  lemma ApprovingKeeps(w: World, i: Id, g: Id, who: string, at: int)
    requires Sound(w) && i in w.requests && w.requests[i].open && w.requests[i].status.Pending? && g !in w.ingestions
    ensures Sound(ApprovedBy(w, i, g, who, at)) && Progressed(w, ApprovedBy(w, i, g, who, at))
    ensures forall actor :: OpenOf(ApprovedBy(w, i, g, who, at), actor) == OpenOf(w, actor)
    ensures StartedBy(w, ApprovedBy(w, i, g, who, at), i, g)
  {
    var after := ApprovedBy(w, i, g, who, at);
    assert Shape(w.requests[i]);
    RefinesKeeps(w, after, i);
    forall actor
      ensures OpenOf(after, actor) == OpenOf(w, actor)
    {
      RefinesOpenOf(w, after, i, actor);
    }
  }

  lemma OpeningKeeps(w: World, i: Id, g: Id, code: string, actor: Actor, at: int)
    requires Sound(w) && i !in w.requests && g !in w.ingestions
    requires forall k :: !IsOpenFor(w, k, code)
    ensures Sound(Opened(w, i, g, code, actor, at)) && Progressed(w, Opened(w, i, g, code, actor, at))
    ensures OpenOf(Opened(w, i, g, code, actor, at), actor) == OpenOf(w, actor) + {i}
    ensures forall other :: other != actor ==> OpenOf(Opened(w, i, g, code, actor, at), other) == OpenOf(w, other)
    ensures IsOpenFor(Opened(w, i, g, code, actor, at), i, code)
    ensures code in w.watchlist ==> StartedBy(w, Opened(w, i, g, code, actor, at), i, g)
    ensures code !in w.watchlist ==>
              && Opened(w, i, g, code, actor, at).requests[i].status.Pending?
              && Opened(w, i, g, code, actor, at).ingestions == w.ingestions
  {
    CreatingKeeps(w, i, code, actor, at);
    var created := Created(w, i, code, actor, at);
    if code in w.watchlist {
      ApprovingKeeps(created, i, g, SYSTEM_WATCHLIST, at);
      ProgressedTransitive(w, created, ApprovedBy(created, i, g, SYSTEM_WATCHLIST, at));
    }
  }

  lemma RejectingKeeps(w: World, i: Id, who: string, at: int, note: string)
    requires Sound(w) && i in w.requests && w.requests[i].open && w.requests[i].status.Pending?
    ensures Sound(RejectedBy(w, i, who, at, note)) && Progressed(w, RejectedBy(w, i, who, at, note))
    ensures forall actor :: OpenOf(RejectedBy(w, i, who, at, note), actor) == OpenOf(w, actor) - {i}
  {
    var after := RejectedBy(w, i, who, at, note);
    assert Shape(w.requests[i]);
    RefinesKeeps(w, after, i);
    forall actor
      ensures OpenOf(after, actor) == OpenOf(w, actor) - {i}
    {
      RefinesOpenOf(w, after, i, actor);
    }
  }

  // Withdrawing the last active requester closes the request; otherwise somebody is left.
  lemma WithdrawingKeeps(w: World, i: Id, actor: Actor, at: int)
    requires Sound(w) && i in w.requests && CanWithdraw(w.requests[i], actor)
    ensures Sound(WithdrawnBy(w, i, actor, at)) && Progressed(w, WithdrawnBy(w, i, actor, at))
    ensures OpenOf(WithdrawnBy(w, i, actor, at), actor) == OpenOf(w, actor) - {i}
    ensures forall other :: OpenOf(WithdrawnBy(w, i, actor, at), other) <= OpenOf(w, other)
    ensures ActiveOnes(w.requests[i]) == {actor} <==> !WithdrawnBy(w, i, actor, at).requests[i].open
  {
    var after := WithdrawnBy(w, i, actor, at);
    WithdrawnRow(w, i, actor, at);
    RefinesKeeps(w, after, i);
    forall other
      ensures OpenOf(after, other) <= OpenOf(w, other)
    {
      RefinesOpenOf(w, after, i, other);
    }
    RefinesOpenOf(w, after, i, actor);
  }

  lemma WithdrawnRow(w: World, i: Id, actor: Actor, at: int)
    requires i in w.requests && Shape(w.requests[i]) && CanWithdraw(w.requests[i], actor)
    ensures var r, after := w.requests[i], WithdrawnBy(w, i, actor, at);
            && Refines(w, after, i)
            && (forall other :: Active(after.requests[i], other) <==> other != actor && Active(r, other))
            && (ActiveOnes(r) == {actor} <==> !after.requests[i].open)
            && after.requests[i].ingestion == r.ingestion
  {
    var r, after := w.requests[i], WithdrawnBy(w, i, actor, at);
    assert actor in ActiveOnes(r);
    assert ActiveOnes(after.requests[i]) == ActiveOnes(r) - {actor};
    if |ActiveOnes(r)| <= 1 {
      assert |ActiveOnes(r) - {actor}| == 0;
      assert ActiveOnes(r) == {actor};
    } else {
      assert |ActiveOnes(r) - {actor}| == |ActiveOnes(r)| - 1;
    }
  }

  // A closed request shows the recorded outcome, whatever the ingestion and dataset tables say.
  lemma ClosedShowsOutcome(a: World, b: World, i: Id, registration: bool)
    requires Sound(a) && i in a.requests && !a.requests[i].open && Progressed(a, b)
    ensures a.requests[i].outcome == Some(Shown(b, b.requests[i], registration))
    ensures !Finishing(b, b.requests[i], registration)
  {
    assert Shape(a.requests[i]);
  }
}
