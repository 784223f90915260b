// Collection requests under concurrency. A submit is several steps: it takes the requester's
// advisory lock, finds and locks the company's open request, counts the requester's open requests,
// then joins or creates and commits. Everything else runs in between, blocked only by row locks.
// What a transaction will close is held back until it commits, since others cannot see it before.

module RequestRuns {
  import opened Common
  import opened Requests

  type Pid = nat

  datatype Step = Locked | Found | Roomy

  datatype Submit = Submit(
    actor: Actor, code: string, at: int, step: Step,
    current: Option<Id>,          // the open request found, locked FOR UPDATE
    closing: map<Id, Progress>)   // requests this transaction found at their end and locked

  datatype State = State(w: World, submits: map<Pid, Submit>)

  datatype Action =
    | Begin(pid: Pid, actor: Actor, code: string, at: int)
    | Find(pid: Pid, seen: Progress)                   // seen: what the ingestion tables said about it
    | CountOpen(pid: Pid, ends: map<Id, Progress>)     // ends: the counted requests found at their end
    | Commit(pid: Pid, id: Id, ingestion: Id, ended: Option<Progress>)
    | FindAgain(pid: Pid, seen: Progress)              // creation lost the race on the unique index
    | Abort(pid: Pid)
    | Withdraw(id: Id, actor: Actor, at: int)
    | Approve(id: Id, ingestion: Id, who: string, watch: bool, at: int)
    | Reject(id: Id, who: string, at: int, note: string)
    | Look(ends: map<Id, Progress>, at: int)           // any read: it closes what it finds at its end
    | Watch(code: string, on: bool)
    | Collect(ingestions: map<Id, Ingestion>, datasets: map<Id, Dataset>, published: set<string>)

  function Rows(t: Submit): set<Id> {
    t.closing.Keys + (if t.current.Some? then {t.current.value} else {})
  }

  predicate RowFree(s: State, i: Id) {
    forall q :: q in s.submits ==> i !in Rows(s.submits[q])
  }

  function With(s: State, pid: Pid, t: Submit): State {
    s.(submits := s.submits[pid := t])
  }

  function Without(s: State, pid: Pid, w: World): State {
    State(w, s.submits - {pid})
  }

  // What _open_for makes of the row it locked: gone when it is at its end, else the current request.
  function Located(t: Submit, r: Request, i: Id, seen: Progress): Submit {
    if r.status.Approved? && AfterApproval(seen) && Final(seen)
    then t.(step := Found, current := None, closing := t.closing[i := seen])
    else t.(step := Found, current := Some(i))
  }

  ghost function Finding(s: State, pid: Pid, seen: Progress): State {
    if pid !in s.submits || !s.submits[pid].step.Locked? then s
    else
      var t := s.submits[pid];
      var found := OpenFor(s.w, t.code);
      if found.None? then With(s, pid, t.(step := Found))
      else if !RowFree(s, found.value) then s
      else if Active(s.w.requests[found.value], t.actor)
              && Located(t, s.w.requests[found.value], found.value, seen).current.Some?
      then Without(s, pid, s.w)  // a repeated submit returns the request as it is
      else With(s, pid, Located(t, s.w.requests[found.value], found.value, seen))
  }

  ghost predicate MayEnd(s: State, ends: map<Id, Progress>) {
    Ends(s.w, ends) && forall i :: i in ends ==> s.w.requests[i].open && RowFree(s, i)
  }

  ghost function Counting(s: State, max: nat, pid: Pid, ends: map<Id, Progress>): State {
    if pid !in s.submits || !s.submits[pid].step.Found? then s
    else
      var t := s.submits[pid];
      if !MayEnd(s, ends) || !(ends.Keys <= OpenOf(s.w, t.actor)) then s
      // too_many_open_requests
      else if |OpenOf(s.w, t.actor) - (t.closing + ends).Keys| >= max then Without(s, pid, s.w)
      else With(s, pid, t.(step := Roomy, closing := t.closing + ends))
  }

  // Another open request of the company is in the way of creating one.
  ghost predicate InTheWay(w: World, t: Submit) {
    exists i :: IsOpenFor(w, i, t.code) && i !in t.closing
  }

  ghost function Committing(s: State, pid: Pid, id: Id, ingestion: Id, ended: Option<Progress>): State {
    if pid !in s.submits || !s.submits[pid].step.Roomy? then s
    else
      var t := s.submits[pid];
      var closed := ClosedAll(s.w, t.closing, t.at);
      if t.current.Some? then
        if t.current.value !in s.w.requests then s
        else
          var joined := Joined(closed, t.current.value, t.actor, t.at);
          var end := if ended.Some? then map[t.current.value := ended.value] else map[];
          Without(s, pid, if Ends(joined, end) then ClosedAll(joined, end, t.at) else joined)
      else if InTheWay(s.w, t) || id in s.w.requests || ingestion in s.w.ingestions then s
      else Without(s, pid, Opened(closed, id, ingestion, t.code, t.actor, t.at))
  }

  ghost function FindingAgain(s: State, pid: Pid, seen: Progress): State {
    if pid !in s.submits || !s.submits[pid].step.Roomy? || s.submits[pid].current.Some? then s
    else
      var t := s.submits[pid];
      var found := OpenFor(s.w, t.code);
      if found.None? then Without(s, pid, s.w)  // request_conflict
      else if !RowFree(s, found.value) then s
      // request_conflict
      else if Located(t, s.w.requests[found.value], found.value, seen).current.None? then Without(s, pid, s.w)
      else With(s, pid, t.(current := found))
  }

  ghost predicate Busy(s: State, actor: Actor) {
    exists q :: q in s.submits && s.submits[q].actor == actor
  }

  ghost function Beginning(s: State, pid: Pid, actor: Actor, code: string, at: int): State {
    // pg_advisory_xact_lock on the requester
    if pid in s.submits || Busy(s, actor) then s
    else With(s, pid, Submit(actor, code, at, Locked, None, map[]))
  }

  predicate Reviewable(s: State, id: Id) {
    id in s.w.requests && RowFree(s, id) && s.w.requests[id].open && s.w.requests[id].status.Pending?
  }

  function Withdrawing(s: State, id: Id, actor: Actor, at: int): State {
    if id !in s.w.requests || !RowFree(s, id) || !CanWithdraw(s.w.requests[id], actor) then s
    else s.(w := WithdrawnBy(s.w, id, actor, at))
  }

  function Approving(s: State, id: Id, ingestion: Id, who: string, watch: bool, at: int): State {
    if !Reviewable(s, id) || ingestion in s.w.ingestions then s
    else
      var approved := ApprovedBy(s.w, id, ingestion, who, at);
      s.(w := approved.(watchlist := if watch then approved.watchlist + {s.w.requests[id].code}
                                     else approved.watchlist))
  }

  function Rejecting(s: State, id: Id, who: string, at: int, note: string): State {
    if !Reviewable(s, id) || note == "" then s else s.(w := RejectedBy(s.w, id, who, at, note))
  }

  ghost function Looking(s: State, ends: map<Id, Progress>, at: int): State {
    if MayEnd(s, ends) then s.(w := ClosedAll(s.w, ends, at)) else s
  }

  function Watching(s: State, code: string, on: bool): State {
    s.(w := s.w.(watchlist := if on then s.w.watchlist + {code} else s.w.watchlist - {code}))
  }

  // The collection pipeline changes its own tables in any way, but deletes no ingestion.
  function Collecting(s: State, ingestions: map<Id, Ingestion>, datasets: map<Id, Dataset>,
      published: set<string>): State {
    if s.w.ingestions.Keys <= ingestions.Keys
    then s.(w := s.w.(ingestions := ingestions, datasets := datasets, published := published))
    else s
  }

  ghost function Next(s: State, max: nat, a: Action): State {
    match a
    case Begin(pid, actor, code, at) => Beginning(s, pid, actor, code, at)
    case Find(pid, seen) => Finding(s, pid, seen)
    case CountOpen(pid, ends) => Counting(s, max, pid, ends)
    case Commit(pid, id, ingestion, ended) => Committing(s, pid, id, ingestion, ended)
    case FindAgain(pid, seen) => FindingAgain(s, pid, seen)
    case Abort(pid) => Without(s, pid, s.w)
    case Withdraw(id, actor, at) => Withdrawing(s, id, actor, at)
    case Approve(id, ingestion, who, watch, at) => Approving(s, id, ingestion, who, watch, at)
    case Reject(id, who, at, note) => Rejecting(s, id, who, at, note)
    case Look(ends, at) => Looking(s, ends, at)
    case Watch(code, on) => Watching(s, code, on)
    case Collect(ingestions, datasets, published) => Collecting(s, ingestions, datasets, published)
  }

  ghost function Run(s: State, max: nat, actions: seq<Action>): State
    decreases |actions|
  {
    if actions == [] then s else Run(Next(s, max, actions[0]), max, actions[1..])
  }

  const EMPTY: State := State(World(map[], map[], map[], {}, {}), map[])

  // ---------------------------------------------------------------- invariants

  // The rows a submit holds are what it took them for.
  ghost predicate HeldSound(w: World, t: Submit) {
    && Ends(w, t.closing)
    && (forall i :: i in t.closing ==> w.requests[i].open)
    && (t.current.Some? ==> IsOpenFor(w, t.current.value, t.code) && t.current.value !in t.closing && !t.step.Locked?)
  }

  ghost predicate HasRoom(w: World, max: nat, t: Submit) {
    t.step.Roomy? ==> |OpenOf(w, t.actor) - t.closing.Keys| < max
  }

  ghost predicate SubmitSound(w: World, max: nat, t: Submit) {
    HeldSound(w, t) && HasRoom(w, max, t)
  }

  // Two submits never share a requester or a locked row.
  predicate Apart(t: Submit, u: Submit) {
    t.actor != u.actor && Rows(t) !! Rows(u)
  }

  ghost predicate ApartFrom(s: State, pid: Pid, t: Submit) {
    forall q {:trigger Apart(s.submits[q], t)} :: q in s.submits && q != pid ==> Apart(s.submits[q], t)
  }

  ghost predicate LocksSound(s: State) {
    forall p {:trigger s.submits[p]} :: p in s.submits ==> ApartFrom(s, p, s.submits[p])
  }

  ghost predicate Inv(s: State, max: nat) {
    && Sound(s.w)
    && WithinQuota(s.w, max)
    && LocksSound(s)
    && forall q {:trigger SubmitSound(s.w, max, s.submits[q])} :: q in s.submits ==> SubmitSound(s.w, max, s.submits[q])
  }

  // Another transaction changed only rows this submit does not hold, and gave its requester nothing.
  ghost predicate RowsKept(a: World, b: World, t: Submit) {
    forall i :: i in Rows(t) && i in a.requests ==>
                  && i in b.requests && b.requests[i].code == a.requests[i].code
                  && b.requests[i].status == a.requests[i].status && b.requests[i].open == a.requests[i].open
  }

  ghost predicate Elsewhere(a: World, b: World, t: Submit) {
    RowsKept(a, b, t) && OpenOf(b, t.actor) <= OpenOf(a, t.actor)
  }

  lemma HeldKept(a: World, b: World, t: Submit)
    requires HeldSound(a, t) && RowsKept(a, b, t)
    ensures HeldSound(b, t)
  {
    forall i | i in t.closing
      ensures i in b.requests && b.requests[i].status.Approved? && b.requests[i].open
    {
      assert i in Rows(t) && i in a.requests;
    }
    if t.current.Some? {
      assert t.current.value in Rows(t) && t.current.value in a.requests;
    }
  }

  lemma RoomKept(a: World, b: World, max: nat, t: Submit)
    requires HasRoom(a, max, t) && OpenOf(b, t.actor) <= OpenOf(a, t.actor)
    ensures HasRoom(b, max, t)
  {
    SmallerSet(OpenOf(b, t.actor) - t.closing.Keys, OpenOf(a, t.actor) - t.closing.Keys);
  }

  lemma ElsewhereKeeps(a: World, b: World, max: nat, t: Submit)
    requires SubmitSound(a, max, t) && Elsewhere(a, b, t)
    ensures SubmitSound(b, max, t)
  {
    HeldKept(a, b, t);
    RoomKept(a, b, max, t);
  }

  lemma FewerApart(s: State, b: State)
    requires LocksSound(s)
    requires b.submits.Keys <= s.submits.Keys && forall q :: q in b.submits ==> b.submits[q] == s.submits[q]
    ensures LocksSound(b)
  {
    forall p | p in b.submits
      ensures ApartFrom(b, p, b.submits[p])
    {
      assert ApartFrom(s, p, s.submits[p]);
      forall q | q in b.submits && q != p
        ensures Apart(b.submits[q], b.submits[p])
      {
        assert Apart(s.submits[q], s.submits[p]);
      }
    }
  }

  // A step that changes the tables and at most ends one submit.
  lemma TablesKeep(s: State, max: nat, b: State)
    requires Inv(s, max) && Sound(b.w)
    requires b.submits.Keys <= s.submits.Keys && forall q :: q in b.submits ==> b.submits[q] == s.submits[q]
    requires forall q :: q in b.submits ==> Elsewhere(s.w, b.w, s.submits[q])
    requires forall actor :: |OpenOf(b.w, actor)| <= max
    ensures Inv(b, max)
  {
    forall q | q in b.submits
      ensures SubmitSound(b.w, max, b.submits[q])
    {
      assert SubmitSound(s.w, max, s.submits[q]);
      ElsewhereKeeps(s.w, b.w, max, s.submits[q]);
    }
    FewerApart(s, b);
  }

  // A step that only shrinks what requesters wait for.
  lemma ShrinkKeeps(s: State, max: nat, w: World)
    requires Inv(s, max) && Sound(w)
    requires forall actor :: OpenOf(w, actor) <= OpenOf(s.w, actor)
    requires forall q, i :: q in s.submits && i in Rows(s.submits[q]) && i in s.w.requests ==>
             i in w.requests && w.requests[i] == s.w.requests[i]
    ensures Inv(s.(w := w), max)
  {
    forall actor
      ensures |OpenOf(w, actor)| <= max
    {
      SmallerSet(OpenOf(w, actor), OpenOf(s.w, actor));
    }
    forall q | q in s.submits
      ensures Elsewhere(s.w, w, s.submits[q])
    {
      assert SubmitSound(s.w, max, s.submits[q]);
    }
    TablesKeep(s, max, s.(w := w));
  }

  // A step of one submit that writes nothing yet.
  lemma SubmitKeeps(s: State, max: nat, pid: Pid, t: Submit)
    requires Inv(s, max) && SubmitSound(s.w, max, t) && ApartFrom(s, pid, t)
    ensures Inv(With(s, pid, t), max)
  {
    var b := With(s, pid, t);
    forall q | q in b.submits
      ensures SubmitSound(b.w, max, b.submits[q])
    {
      assert q != pid ==> SubmitSound(s.w, max, s.submits[q]);
    }
    forall p, q | p in b.submits && q in b.submits && p != q
      ensures Apart(b.submits[q], b.submits[p])
    {
      if p == pid {
        assert Apart(s.submits[q], t);
      } else if q == pid {
        assert Apart(s.submits[p], t);
      } else {
        assert ApartFrom(s, p, s.submits[p]);
        assert Apart(s.submits[q], s.submits[p]);
      }
    }
    assert forall p :: p in b.submits ==> ApartFrom(b, p, b.submits[p]);
  }

  lemma EndKeeps(s: State, max: nat, pid: Pid)
    requires Inv(s, max)
    ensures Inv(Without(s, pid, s.w), max)
  {
    var b := Without(s, pid, s.w);
    FewerApart(s, b);
    forall q | q in b.submits
      ensures SubmitSound(b.w, max, b.submits[q])
    {
      assert SubmitSound(s.w, max, s.submits[q]);
    }
  }

  lemma FindingKeeps(s: State, max: nat, pid: Pid, seen: Progress)
    requires Inv(s, max)
    ensures Inv(Finding(s, pid, seen), max)
  {
    if pid in s.submits && s.submits[pid].step.Locked? {
      var found := OpenFor(s.w, s.submits[pid].code);
      assert SubmitSound(s.w, max, s.submits[pid]);
      if found.None? {
        NothingFoundKeeps(s, max, pid);
      } else if RowFree(s, found.value) {
        EndKeeps(s, max, pid);
        LocatingKeeps(s, max, pid, found.value, seen);
      }
    }
  }

  lemma NothingFoundKeeps(s: State, max: nat, pid: Pid)
    requires Inv(s, max) && pid in s.submits && s.submits[pid].step.Locked?
    ensures Inv(With(s, pid, s.submits[pid].(step := Found)), max)
  {
    var t := s.submits[pid];
    assert SubmitSound(s.w, max, t);
    StaysApart(s, pid, t.(step := Found), {});
    SubmitKeeps(s, max, pid, t.(step := Found));
  }

  lemma LocatingKeeps(s: State, max: nat, pid: Pid, i: Id, seen: Progress)
    requires Inv(s, max) && pid in s.submits && s.submits[pid].current.None?
    requires IsOpenFor(s.w, i, s.submits[pid].code) && RowFree(s, i)
    ensures Inv(With(s, pid, Located(s.submits[pid], s.w.requests[i], i, seen)), max)
  {
    var t := s.submits[pid];
    assert SubmitSound(s.w, max, t);
    assert i !in Rows(t);
    LocatedSound(s.w, t, i, seen);
    StaysApart(s, pid, Located(t, s.w.requests[i], i, seen), {i});
    SubmitKeeps(s, max, pid, Located(t, s.w.requests[i], i, seen));
  }

  lemma LocatedSound(w: World, t: Submit, i: Id, seen: Progress)
    requires HeldSound(w, t) && t.current.None? && IsOpenFor(w, i, t.code) && i !in Rows(t)
    ensures var u := Located(t, w.requests[i], i, seen);
            && HeldSound(w, u) && u.actor == t.actor && u.step.Found?
            && (u.current.Some? ==> u.closing == t.closing)
            && Rows(u) == Rows(t) + {i}
  {
  }

  // Locking more free rows keeps submits apart.
  lemma StaysApart(s: State, pid: Pid, t: Submit, more: set<Id>)
    requires LocksSound(s) && pid in s.submits && t.actor == s.submits[pid].actor
    requires Rows(t) == Rows(s.submits[pid]) + more && forall i :: i in more ==> RowFree(s, i)
    ensures ApartFrom(s, pid, t)
  {
    forall q | q in s.submits && q != pid
      ensures Apart(s.submits[q], t)
    {
      assert ApartFrom(s, pid, s.submits[pid]);
      assert Apart(s.submits[q], s.submits[pid]);
    }
  }

  lemma CountedSound(s: State, max: nat, t: Submit, ends: map<Id, Progress>)
    requires HeldSound(s.w, t) && MayEnd(s, ends) && forall i :: i in ends ==> i !in Rows(t)
    ensures HeldSound(s.w, t.(step := Roomy, closing := t.closing + ends))
    ensures Rows(t.(step := Roomy, closing := t.closing + ends)) == Rows(t) + ends.Keys
  {
    assert t.current.Some? ==> t.current.value in Rows(t);
  }

  lemma CountingKeeps(s: State, max: nat, pid: Pid, ends: map<Id, Progress>)
    requires Inv(s, max)
    ensures Inv(Counting(s, max, pid, ends), max)
  {
    EndKeeps(s, max, pid);
    if pid in s.submits && s.submits[pid].step.Found? {
      var t := s.submits[pid];
      assert SubmitSound(s.w, max, t);
      if MayEnd(s, ends) && ends.Keys <= OpenOf(s.w, t.actor)
         && |OpenOf(s.w, t.actor) - (t.closing + ends).Keys| < max {
        var more := t.(step := Roomy, closing := t.closing + ends);
        CountedSound(s, max, t, ends);
        StaysApart(s, pid, more, ends.Keys);
        SubmitKeeps(s, max, pid, more);
      }
    }
  }

  lemma FindingAgainKeeps(s: State, max: nat, pid: Pid, seen: Progress)
    requires Inv(s, max)
    ensures Inv(FindingAgain(s, pid, seen), max)
  {
    if pid in s.submits && s.submits[pid].step.Roomy? && s.submits[pid].current.None? {
      var t := s.submits[pid];
      assert SubmitSound(s.w, max, t);
      var found := OpenFor(s.w, t.code);
      EndKeeps(s, max, pid);
      if found.Some? && RowFree(s, found.value)
         && Located(t, s.w.requests[found.value], found.value, seen).current.Some? {
        assert found.value !in Rows(t);
        LocatedSound(s.w, t, found.value, seen);
        StaysApart(s, pid, t.(current := found), {found.value});
        SubmitKeeps(s, max, pid, t.(current := found));
      }
    }
  }

  // The heart of the quota: a committing submit adds one request to its own requester, who had room
  // when counted, and nobody else could have given that requester another one since.
  lemma CommittingKeeps(s: State, max: nat, pid: Pid, id: Id, ingestion: Id, ended: Option<Progress>)
    requires Inv(s, max)
    ensures Inv(Committing(s, pid, id, ingestion, ended), max)
    ensures Progressed(s.w, Committing(s, pid, id, ingestion, ended).w)
  {
    if pid in s.submits && s.submits[pid].step.Roomy? {
      var t := s.submits[pid];
      assert SubmitSound(s.w, max, t);
      if t.current.Some? {
        CommitJoin(s, max, pid, ended);
      } else if !InTheWay(s.w, t) && id !in s.w.requests && ingestion !in s.w.ingestions {
        CommitCreate(s, max, pid, id, ingestion);
      }
    }
  }

  lemma CommitCreate(s: State, max: nat, pid: Pid, id: Id, ingestion: Id)
    requires Inv(s, max) && pid in s.submits && s.submits[pid].step.Roomy? && s.submits[pid].current.None?
    requires !InTheWay(s.w, s.submits[pid]) && id !in s.w.requests && ingestion !in s.w.ingestions
    ensures var t := s.submits[pid];
            var w := Opened(ClosedAll(s.w, t.closing, t.at), id, ingestion, t.code, t.actor, t.at);
            Inv(Without(s, pid, w), max) && Progressed(s.w, w)
  {
    var t := s.submits[pid];
    assert SubmitSound(s.w, max, t);
    var closed := ClosedAll(s.w, t.closing, t.at);
    ClosingKeeps(s.w, t.closing, t.at);
    forall k
      ensures !IsOpenFor(closed, k, t.code)
    {
      if IsOpenFor(closed, k, t.code) {
        assert IsOpenFor(s.w, k, t.code) && k !in t.closing;
      }
    }
    OpeningKeeps(closed, id, ingestion, t.code, t.actor, t.at);
    var w := Opened(closed, id, ingestion, t.code, t.actor, t.at);
    ProgressedTransitive(s.w, closed, w);
    OpenedElsewhere(closed, id, ingestion, t.code, t.actor, t.at);
    CommitKeeps(s, max, pid, id, w);
  }

  lemma OpenedElsewhere(w: World, i: Id, g: Id, code: string, actor: Actor, at: int)
    ensures forall k :: k in w.requests && k != i ==> k in Opened(w, i, g, code, actor, at).requests
                                                      && Opened(w, i, g, code, actor, at).requests[k] == w.requests[k]
  {
  }

  lemma CommitJoin(s: State, max: nat, pid: Pid, ended: Option<Progress>)
    requires Inv(s, max) && pid in s.submits && s.submits[pid].step.Roomy? && s.submits[pid].current.Some?
    ensures Inv(Committing(s, pid, 0, 0, ended), max)
    ensures Progressed(s.w, Committing(s, pid, 0, 0, ended).w)
    ensures forall id, ingestion :: Committing(s, pid, id, ingestion, ended) == Committing(s, pid, 0, 0, ended)
  {
    var t := s.submits[pid];
    assert SubmitSound(s.w, max, t);
    var i := t.current.value;
    var closed := ClosedAll(s.w, t.closing, t.at);
    ClosingKeeps(s.w, t.closing, t.at);
    JoiningKeeps(closed, i, t.actor, t.at);
    var joined := Joined(closed, i, t.actor, t.at);
    ProgressedTransitive(s.w, closed, joined);
    var end := if ended.Some? then map[i := ended.value] else map[];
    var w := if Ends(joined, end) then ClosedAll(joined, end, t.at) else joined;
    if Ends(joined, end) {
      ClosingKeeps(joined, end, t.at);
      ProgressedTransitive(s.w, joined, w);
    }
    forall actor
      ensures OpenOf(w, actor) <= OpenOf(joined, actor)
    {
      ClosingOpenOf(joined, end, t.at, actor);
    }
    CommitKeeps(s, max, pid, i, w);
  }

  lemma CommitKeeps(s: State, max: nat, pid: Pid, i: Id, w: World)
    requires Inv(s, max) && pid in s.submits && s.submits[pid].step.Roomy? && Sound(w)
    requires var t := s.submits[pid]; var closed := ClosedAll(s.w, t.closing, t.at);
             && OpenOf(w, t.actor) <= OpenOf(closed, t.actor) + {i}
             && (forall other :: other != t.actor ==> OpenOf(w, other) <= OpenOf(closed, other))
             && (t.current.Some? ==> t.current.value == i) && (i in s.w.requests ==> t.current == Some(i))
    requires forall k :: k in s.w.requests && k !in Rows(s.submits[pid]) ==>
             k in w.requests && w.requests[k] == s.w.requests[k]
    ensures Inv(Without(s, pid, w), max)
  {
    var t := s.submits[pid];
    var b := Without(s, pid, w);
    assert SubmitSound(s.w, max, t);
    forall actor
      ensures |OpenOf(w, actor)| <= max
      ensures actor != t.actor ==> OpenOf(w, actor) <= OpenOf(s.w, actor)
    {
      ClosingOpenOf(s.w, t.closing, t.at, actor);
      if actor == t.actor {
        var room := OpenOf(s.w, actor) - t.closing.Keys;
        SmallerSet(OpenOf(w, actor), room + {i});
        assert |room + {i}| <= |room| + 1;
      } else {
        SmallerSet(OpenOf(w, actor), OpenOf(s.w, actor));
      }
    }
    forall q | q in b.submits
      ensures Elsewhere(s.w, w, s.submits[q])
    {
      assert SubmitSound(s.w, max, s.submits[q]);
      assert ApartFrom(s, pid, t) && Apart(s.submits[q], t);
    }
    TablesKeep(s, max, b);
  }

  lemma WithdrawingPreserves(s: State, max: nat, id: Id, actor: Actor, at: int)
    requires Inv(s, max)
    ensures Inv(Withdrawing(s, id, actor, at), max) && Progressed(s.w, Withdrawing(s, id, actor, at).w)
  {
    if id in s.w.requests && RowFree(s, id) && CanWithdraw(s.w.requests[id], actor) {
      WithdrawingKeeps(s.w, id, actor, at);
      ShrinkKeeps(s, max, WithdrawnBy(s.w, id, actor, at));
    }
  }

  lemma ApprovingPreserves(s: State, max: nat, id: Id, g: Id, who: string, watch: bool, at: int)
    requires Inv(s, max)
    ensures Inv(Approving(s, id, g, who, watch, at), max) && Progressed(s.w, Approving(s, id, g, who, watch, at).w)
  {
    if Reviewable(s, id) && g !in s.w.ingestions {
      ApprovingKeeps(s.w, id, g, who, at);
      var approved := s.(w := ApprovedBy(s.w, id, g, who, at));
      ShrinkKeeps(s, max, approved.w);
      var b := Approving(s, id, g, who, watch, at);
      OtherTablesKeep(approved, max, b.w);
      ProgressedTransitive(s.w, approved.w, b.w);
    }
  }

  lemma RejectingPreserves(s: State, max: nat, id: Id, who: string, at: int, note: string)
    requires Inv(s, max)
    ensures Inv(Rejecting(s, id, who, at, note), max) && Progressed(s.w, Rejecting(s, id, who, at, note).w)
  {
    if Reviewable(s, id) {
      RejectingKeeps(s.w, id, who, at, note);
      ShrinkKeeps(s, max, RejectedBy(s.w, id, who, at, note));
    }
  }

  lemma LookingPreserves(s: State, max: nat, ends: map<Id, Progress>, at: int)
    requires Inv(s, max)
    ensures Inv(Looking(s, ends, at), max) && Progressed(s.w, Looking(s, ends, at).w)
  {
    if MayEnd(s, ends) {
      ClosingKeeps(s.w, ends, at);
      forall actor
        ensures OpenOf(ClosedAll(s.w, ends, at), actor) <= OpenOf(s.w, actor)
      {
        ClosingOpenOf(s.w, ends, at, actor);
      }
      ShrinkKeeps(s, max, ClosedAll(s.w, ends, at));
    }
  }

  // Tables the requests do not live in.
  lemma OtherTablesKeep(s: State, max: nat, w: World)
    requires Inv(s, max) && w.requests == s.w.requests && s.w.ingestions.Keys <= w.ingestions.Keys
    ensures Inv(s.(w := w), max) && Progressed(s.w, w)
  {
    forall i | i in w.requests
      ensures Shape(w.requests[i])
    {
      assert Shape(s.w.requests[i]);
    }
    SoundFrom(s.w, w);
    forall actor
      ensures OpenOf(w, actor) == OpenOf(s.w, actor)
    {
    }
    ShrinkKeeps(s, max, w);
  }

  lemma FreshSubmit(s: State, max: nat, pid: Pid, actor: Actor, code: string, at: int)
    requires !Busy(s, actor)
    ensures SubmitSound(s.w, max, Submit(actor, code, at, Locked, None, map[]))
    ensures ApartFrom(s, pid, Submit(actor, code, at, Locked, None, map[]))
  {
    assert Rows(Submit(actor, code, at, Locked, None, map[])) == {};
  }

  lemma BeginningKeeps(s: State, max: nat, pid: Pid, actor: Actor, code: string, at: int)
    requires Inv(s, max)
    ensures Inv(Beginning(s, pid, actor, code, at), max)
  {
    if pid !in s.submits && !Busy(s, actor) {
      var t := Submit(actor, code, at, Locked, None, map[]);
      FreshSubmit(s, max, pid, actor, code, at);
      SubmitKeeps(s, max, pid, t);
    }
  }

  lemma NextInv(s: State, max: nat, a: Action)
    requires Inv(s, max)
    ensures Inv(Next(s, max, a), max)
  {
    match a
    case Begin(pid, actor, code, at) => BeginningKeeps(s, max, pid, actor, code, at);
    case Find(pid, seen) => FindingKeeps(s, max, pid, seen);
    case CountOpen(pid, ends) => CountingKeeps(s, max, pid, ends);
    case Commit(pid, id, ingestion, ended) => CommittingKeeps(s, max, pid, id, ingestion, ended);
    case FindAgain(pid, seen) => FindingAgainKeeps(s, max, pid, seen);
    case Abort(pid) => EndKeeps(s, max, pid);
    case Withdraw(id, actor, at) => WithdrawingPreserves(s, max, id, actor, at);
    case Approve(id, ingestion, who, watch, at) => ApprovingPreserves(s, max, id, ingestion, who, watch, at);
    case Reject(id, who, at, note) => RejectingPreserves(s, max, id, who, at, note);
    case Look(ends, at) => LookingPreserves(s, max, ends, at);
    case Watch(code, on) => OtherTablesKeep(s, max, Watching(s, code, on).w);
    case Collect(ingestions, datasets, published) =>
      OtherTablesKeep(s, max, Collecting(s, ingestions, datasets, published).w);
  }

  lemma ProgressedSame(w: World)
    ensures Progressed(w, w)
  {
  }

  lemma NextProgresses(s: State, max: nat, a: Action)
    requires Inv(s, max)
    ensures Progressed(s.w, Next(s, max, a).w)
  {
    hide Inv, Progressed;
    ProgressedSame(s.w);
    match a
    case Begin(pid, actor, code, at) =>
    case Find(pid, seen) =>
    case CountOpen(pid, ends) =>
    case Commit(pid, id, ingestion, ended) => CommittingKeeps(s, max, pid, id, ingestion, ended);
    case FindAgain(pid, seen) =>
    case Abort(pid) =>
    case Withdraw(id, actor, at) => WithdrawingPreserves(s, max, id, actor, at);
    case Approve(id, ingestion, who, watch, at) => ApprovingPreserves(s, max, id, ingestion, who, watch, at);
    case Reject(id, who, at, note) => RejectingPreserves(s, max, id, who, at, note);
    case Look(ends, at) => LookingPreserves(s, max, ends, at);
    case Watch(code, on) => OtherTablesKeep(s, max, Watching(s, code, on).w);
    case Collect(ingestions, datasets, published) =>
      OtherTablesKeep(s, max, Collecting(s, ingestions, datasets, published).w);
  }

  lemma {:induction false} RunInv(s: State, max: nat, actions: seq<Action>)
    requires Inv(s, max)
    ensures Inv(Run(s, max, actions), max) && Progressed(s.w, Run(s, max, actions).w)
    decreases |actions|
  {
    if actions != [] {
      NextInv(s, max, actions[0]);
      NextProgresses(s, max, actions[0]);
      RunInv(Next(s, max, actions[0]), max, actions[1..]);
      ProgressedTransitive(s.w, Next(s, max, actions[0]).w, Run(s, max, actions).w);
    }
  }

  lemma EmptyInv(max: nat)
    ensures Inv(EMPTY, max)
  {
    assert forall actor :: OpenOf(EMPTY.w, actor) == {};
  }

  // ---------------------------------------------------------------- theorems

  // In every committed state of every run, nobody waits for more than max_open requests.
  lemma Quota(max: nat, actions: seq<Action>, actor: Actor)
    ensures |OpenOf(Run(EMPTY, max, actions).w, actor)| <= max
  {
    EmptyInv(max);
    RunInv(EMPTY, max, actions);
  }

  // How a request can end: rejected, withdrawn by everybody, or approved and then done in one way or another.
  predicate EndFits(status: Status, outcome: Progress) {
    match status
    case Pending => false
    case Rejected => outcome == Declined
    case Withdrawn => outcome == Retracted
    case Approved => outcome in {Available, QualityFailed, Failed, RegistrationFailed}
  }

  // One open request per company; a pending one is open and somebody still wants it; open, no
  // outcome and no closing time are the same thing; approved and having an ingestion are the same
  // thing; the outcome fits the decision; no two requests share an ingestion.
  lemma RequestShape(max: nat, actions: seq<Action>, i: Id, j: Id)
    requires var w := Run(EMPTY, max, actions).w; i in w.requests && j in w.requests
    ensures var w := Run(EMPTY, max, actions).w; var r := w.requests[i];
            && (r.open && w.requests[j].open && r.code == w.requests[j].code ==> i == j)
            && (r.status.Pending? ==> r.open && exists actor :: Active(r, actor))
            && (r.open <==> r.outcome.None? && r.closedAt.None?)
            && (r.open || (r.outcome.Some? && r.closedAt.Some? && EndFits(r.status, r.outcome.value)))
            && (r.status.Approved? <==> r.ingestion.Some?)
            && (r.ingestion.Some? && r.ingestion == w.requests[j].ingestion ==> i == j)
  {
    EmptyInv(max);
    RunInv(EMPTY, max, actions);
    var w := Run(EMPTY, max, actions).w;
    assert Shape(w.requests[i]) && Shape(w.requests[j]);
    assert IsOpenFor(w, i, w.requests[i].code) <==> w.requests[i].open;
    assert IsOpenFor(w, j, w.requests[j].code) <==> w.requests[j].open;
    if w.requests[i].ingestion.Some? {
      assert Started(w, i, w.requests[i].ingestion.value);
      assert w.requests[j].ingestion == w.requests[i].ingestion ==> Started(w, j, w.requests[i].ingestion.value);
    }
    if w.requests[i].status.Pending? {
      var actor :| actor in ActiveOnes(w.requests[i]);
      assert Active(w.requests[i], actor);
    }
  }

  // Once decided, a decision and its ingestion stay; once closed, every later view shows the recorded
  // outcome whatever became of ingestions and datasets, and the whole row stays as it was.
  lemma WrittenOnce(max: nat, actions: seq<Action>, more: seq<Action>, i: Id, registration: bool)
    requires i in Run(EMPTY, max, actions).w.requests
    ensures var a, b := Run(EMPTY, max, actions).w, Run(Run(EMPTY, max, actions), max, more).w;
            && i in b.requests
            && (!a.requests[i].status.Pending? ==> b.requests[i].status == a.requests[i].status
                                                   && b.requests[i].ingestion == a.requests[i].ingestion)
            && (!a.requests[i].open ==> b.requests[i] == a.requests[i]
                                        && a.requests[i].outcome == Some(Shown(b, b.requests[i], registration)))
  {
    EmptyInv(max);
    RunInv(EMPTY, max, actions);
    RunInv(Run(EMPTY, max, actions), max, more);
    if !Run(EMPTY, max, actions).w.requests[i].open {
      ClosedShowsOutcome(Run(EMPTY, max, actions).w, Run(Run(EMPTY, max, actions), max, more).w, i, registration);
    }
  }
}
