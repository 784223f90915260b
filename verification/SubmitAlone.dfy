// The two pictures of a submit agree: with nobody else at work, the steps of the state machine end in
// the tables that the method submit promises.

module SubmitAlone {
  import opened Common
  import opened Requests
  import opened RequestRuns
  import RequestService

  datatype Call = Call(
    max: nat, registration: bool, pid: Pid, code: string, actor: Actor, at: int, id: Id, ingestion: Id)

  function Quiet(w: World): State {
    State(w, map[])
  }

  ghost function Found(w: World, c: Call): Option<Id> {
    RequestService.Current(w, c.registration, c.code)
  }

  // The company's request, if the submit finds it at its end.
  ghost function LookedEnds(w: World, c: Call): map<Id, Progress> {
    RequestService.EndsOf(w, RequestService.Seen(w, c.code), c.registration)
  }

  // The requester's other requests that the count finds at their end.
  ghost function CountedEnds(w: World, c: Call): map<Id, Progress> {
    var looked := RequestService.Looked(w, c.registration, c.code, c.at);
    RequestService.EndsOf(looked, OpenOf(looked, c.actor), c.registration)
  }

  ghost function Promised(w: World, c: Call): RequestService.Submission {
    RequestService.Submitted(w, c.max, c.registration, c.code, c.actor, c.at, c.id, c.ingestion)
  }

  // What the ingestion tables say about the company's request.
  ghost function SeenProgress(w: World, c: Call): Progress {
    var found := OpenFor(w, c.code);
    if found.Some? then LiveProgress(w, w.requests[found.value], c.registration) else Queued
  }

  ghost function StepsOf(w: World, c: Call): seq<Action> {
    [Begin(c.pid, c.actor, c.code, c.at), Find(c.pid, SeenProgress(w, c)),
     CountOpen(c.pid, CountedEnds(w, c)), Commit(c.pid, c.id, c.ingestion, None)]
  }

  function Only(w: World, c: Call, step: Step, current: Option<Id>, closing: map<Id, Progress>): State {
    State(w, map[c.pid := Submit(c.actor, c.code, c.at, step, current, closing)])
  }

  lemma RunFour(s: State, max: nat, a: Action, b: Action, c: Action, d: Action)
    ensures Run(s, max, [a, b, c, d]) == Next(Next(Next(Next(s, max, a), max, b), max, c), max, d)
  {
    assert [a, b, c, d][1..] == [b, c, d];
    assert [b, c, d][1..] == [c, d];
    assert [c, d][1..] == [d];
    assert [d][1..] == [];
    var third := Next(Next(Next(s, max, a), max, b), max, c);
    assert Run(third, max, [d]) == Run(Next(third, max, d), max, []);
    assert Run(Next(Next(s, max, a), max, b), max, [c, d]) == Run(third, max, [d]);
  }

  // Without a current request, the look closes the company's open request if there is one.
  lemma LookedMeans(w: World, c: Call)
    requires Sound(w)
    ensures var found := OpenFor(w, c.code);
            && (Found(w, c).Some? ==> Found(w, c) == found && LookedEnds(w, c) == map[])
            && (found.None? ==> LookedEnds(w, c) == map[])
            && (found.Some? && Found(w, c).None? ==> LookedEnds(w, c) == map[found.value := SeenProgress(w, c)])
            && (found.Some? ==> (Found(w, c).None? <==> w.requests[found.value].status.Approved?
                                                        && Final(SeenProgress(w, c))))
    ensures Found(w, c).Some? ==> RequestService.Looked(w, c.registration, c.code, c.at) == w
  {
    var found := OpenFor(w, c.code);
    if found.Some? {
      assert Shape(w.requests[found.value]);
    }
    if LookedEnds(w, c) == map[] {
      assert RequestService.Looked(w, c.registration, c.code, c.at).requests == w.requests;
    }
  }

  // After the second step the submit is over, or knows the current request and what it closes.
  lemma FindAlone(w: World, c: Call)
    requires Sound(w)
    ensures var current, begun := Found(w, c), Next(Quiet(w), c.max, Begin(c.pid, c.actor, c.code, c.at));
            Next(begun, c.max, Find(c.pid, SeenProgress(w, c))) ==
            if current.Some? && Active(w.requests[current.value], c.actor) then Quiet(w)
            else Only(w, c, Step.Found, current, LookedEnds(w, c))
  {
    hide Sound, Found, LookedEnds, With, Without, Active;
    var begun, found := Only(w, c, Locked, None, map[]), OpenFor(w, c.code);
    LookedMeans(w, c);
    OnlyOne(w, c, begun.submits[c.pid], Submit(c.actor, c.code, c.at, Step.Found, Found(w, c), LookedEnds(w, c)));
    assert With(Quiet(w), c.pid, Submit(c.actor, c.code, c.at, Locked, None, map[])) == begun by {
      BegunAlone(w, c);
    }
    assert found.Some? ==> RowFree(begun, found.value);
  }

  lemma BegunAlone(w: World, c: Call)
    ensures With(Quiet(w), c.pid, Submit(c.actor, c.code, c.at, Locked, None, map[])) == Only(w, c, Locked, None, map[])
  {
  }

  lemma ClosedTwice(w: World, a: map<Id, Progress>, b: map<Id, Progress>, at: int)
    requires a.Keys !! b.Keys
    ensures ClosedAll(ClosedAll(w, a, at), b, at) == ClosedAll(w, a + b, at)
  {
  }

  // What is counted as at its end is still open, and was not closed by the look before.
  lemma CountedMayEnd(w: World, c: Call)
    requires Sound(w)
    ensures var ends := CountedEnds(w, c);
            && Ends(w, ends) && ends.Keys <= OpenOf(w, c.actor) && ends.Keys !! LookedEnds(w, c).Keys
            && ClosedAll(w, LookedEnds(w, c) + ends, c.at) ==
               RequestService.Counted(w, c.registration, c.code, c.actor, c.at)
  {
    hide RequestService.Seen, OpenFor, Sound, Finishing;
    var ids, ends := RequestService.Seen(w, c.code), CountedEnds(w, c);
    var seen := RequestService.Viewed(w, ids, c.registration, c.at);
    RequestService.ViewingKeeps(w, ids, c.registration, c.at);
    RequestService.EndsOfAreEnds(seen, OpenOf(seen, c.actor), c.registration);
    forall i | i in ends
      ensures i in w.requests && w.requests[i] == seen.requests[i] && i !in LookedEnds(w, c)
    {
      RequestService.ViewingRow(w, ids, c.registration, c.at, i);
    }
    ClosedTwice(w, LookedEnds(w, c), ends, c.at);
  }

  lemma FoundIsNotCounted(w: World, c: Call)
    requires Sound(w) && Found(w, c).Some?
    ensures Found(w, c).value !in CountedEnds(w, c)
  {
    LookedMeans(w, c);
  }

  // Counting leaves the requester exactly what is live.
  lemma CountedLive(w: World, c: Call)
    requires Sound(w)
    ensures OpenOf(w, c.actor) - (LookedEnds(w, c) + CountedEnds(w, c)).Keys ==
            RequestService.LiveOf(w, c.actor, c.registration)
  {
    hide Sound, RequestService.Counted, LookedEnds, CountedEnds;
    CountedMayEnd(w, c);
    RequestService.CountedKeeps(w, c.registration, c.code, c.actor, c.at);
    ClosingOpenOf(w, LookedEnds(w, c) + CountedEnds(w, c), c.at, c.actor);
  }

  // The third step, from the state the first two leave.
  lemma CountStep(w: World, c: Call, current: Option<Id>, closing: map<Id, Progress>, ends: map<Id, Progress>)
    requires Ends(w, ends) && ends.Keys <= OpenOf(w, c.actor) && ends.Keys !! closing.Keys
    requires current.Some? ==> current.value !in ends
    ensures Next(Only(w, c, Step.Found, current, closing), c.max, CountOpen(c.pid, ends)) ==
            if |OpenOf(w, c.actor) - (closing + ends).Keys| >= c.max then Quiet(w)
            else Only(w, c, Roomy, current, closing + ends)
  {
    hide OpenOf, Ends, MayEnd, With, Without;
    var found := Only(w, c, Step.Found, current, closing);
    NothingLocked(w, c, current, closing, ends);
    OnlyOne(w, c, found.submits[c.pid], found.submits[c.pid].(step := Roomy, closing := closing + ends));
  }

  lemma OnlyOne(w: World, c: Call, t: Submit, u: Submit)
    ensures With(State(w, map[c.pid := t]), c.pid, u) == State(w, map[c.pid := u])
    ensures Without(State(w, map[c.pid := t]), c.pid, w) == Quiet(w)
  {
  }

  lemma NothingLocked(w: World, c: Call, current: Option<Id>, closing: map<Id, Progress>, ends: map<Id, Progress>)
    requires Ends(w, ends) && ends.Keys <= OpenOf(w, c.actor) && ends.Keys !! closing.Keys
    requires current.Some? ==> current.value !in ends
    ensures MayEnd(Only(w, c, Step.Found, current, closing), ends)
  {
    hide Ends;
    var found := Only(w, c, Step.Found, current, closing);
    forall i | i in ends
      ensures i in w.requests && w.requests[i].open && RowFree(found, i)
    {
      assert i in OpenOf(w, c.actor);
    }
  }

  // The last one.
  lemma CommitStep(w: World, c: Call, current: Option<Id>, closing: map<Id, Progress>)
    requires current.Some? ==> current.value in w.requests
    requires current.None? ==> c.id !in w.requests && c.ingestion !in w.ingestions
    requires current.None? ==> forall i :: !IsOpenFor(ClosedAll(w, closing, c.at), i, c.code)
    ensures var closed := ClosedAll(w, closing, c.at);
            Next(Only(w, c, Roomy, current, closing), c.max, Commit(c.pid, c.id, c.ingestion, None)) ==
            Quiet(if current.Some? then Joined(closed, current.value, c.actor, c.at)
                  else Opened(closed, c.id, c.ingestion, c.code, c.actor, c.at))
  {
    hide Joined, Opened;
    var roomy, t := Only(w, c, Roomy, current, closing), Submit(c.actor, c.code, c.at, Roomy, current, closing);
    var closed := ClosedAll(w, closing, c.at);
    assert roomy.submits - {c.pid} == map[];
    if current.Some? {
      var joined := Joined(closed, current.value, c.actor, c.at);
      assert ClosedAll(joined, map[], c.at).requests == joined.requests;
    } else {
      OpenStays(w, closing, c.at, c.code);
      assert !InTheWay(w, t);
    }
  }

  lemma OpenStays(w: World, closing: map<Id, Progress>, at: int, code: string)
    ensures forall i :: IsOpenFor(w, i, code) && i !in closing ==> IsOpenFor(ClosedAll(w, closing, at), i, code)
  {
  }

  // A submit begins when neither its process nor its requester is at work already.
  lemma BeginMeans(s: State, max: nat, pid: Pid, actor: Actor, code: string, at: int)
    ensures var begun := Next(s, max, Begin(pid, actor, code, at));
            if pid in s.submits || exists q :: q in s.submits && s.submits[q].actor == actor then begun == s
            else begun == State(s.w, s.submits[pid := Submit(actor, code, at, Locked, None, map[])])
  {
  }

  // Whatever else is going on, decisions, reads and the collection write what their transactions do, if
  // no submit holds the request.
  lemma OthersAreTransactions(s: State, max: nat, i: Id, g: Id, who: string, at: int, note: string)
    requires i in s.w.requests && RowFree(s, i)
    ensures CanWithdraw(s.w.requests[i], who) ==> Next(s, max, Withdraw(i, who, at)).w == WithdrawnBy(s.w, i, who, at)
    ensures s.w.requests[i].open && s.w.requests[i].status.Pending? && g !in s.w.ingestions ==>
              && Next(s, max, Approve(i, g, who, false, at)).w == ApprovedBy(s.w, i, g, who, at)
              && Next(s, max, Approve(i, g, who, true, at)).w ==
                 ApprovedBy(s.w, i, g, who, at).(watchlist := s.w.watchlist + {s.w.requests[i].code})
    ensures s.w.requests[i].open && s.w.requests[i].status.Pending? && note != "" ==>
              Next(s, max, Reject(i, who, at, note)).w == RejectedBy(s.w, i, who, at, note)
  {
  }

  // The watchlist and the collection's own tables change freely.
  lemma TablesChange(s: State, max: nat, code: string, ingestions: map<Id, Ingestion>, datasets: map<Id, Dataset>,
      published: set<string>)
    ensures Next(s, max, Watch(code, true)).w == s.w.(watchlist := s.w.watchlist + {code})
    ensures Next(s, max, Watch(code, false)).w == s.w.(watchlist := s.w.watchlist - {code})
    ensures s.w.ingestions.Keys <= ingestions.Keys ==>
              Next(s, max, Collect(ingestions, datasets, published)).w ==
              s.w.(ingestions := ingestions, datasets := datasets, published := published)
  {
  }

  // A view in the machine closes what the view of the service closes.
  lemma LookIsView(s: State, max: nat, ids: set<Id>, registration: bool, at: int)
    requires Sound(s.w) && forall i :: i in ids ==> RowFree(s, i)
    ensures Next(s, max, Look(RequestService.EndsOf(s.w, ids, registration), at)).w ==
            RequestService.Viewed(s.w, ids, registration, at)
  {
    RequestService.EndsOfAreEnds(s.w, ids, registration);
    assert MayEnd(s, RequestService.EndsOf(s.w, ids, registration));
  }

  // A creation that lost the race goes on with the request that won it, if that is still live, and ends
  // in a conflict otherwise.
  lemma LostRace(s: State, max: nat, pid: Pid, seen: Progress)
    requires pid in s.submits && s.submits[pid].step == Roomy && s.submits[pid].current == None
    ensures var t := s.submits[pid]; var found := OpenFor(s.w, t.code); var after := Next(s, max, FindAgain(pid, seen));
            && after.w == s.w
            && (found == None ==> pid !in after.submits)
            && (found != None && RowFree(s, found.value) ==>
                  if s.w.requests[found.value].status == Approved && AfterApproval(seen) && Final(seen)
                  then pid !in after.submits
                  else pid in after.submits && after.submits[pid] == t.(current := found))
  {
  }

  // With nobody else at work, the steps end in the tables of the method, whatever branch it takes.
  lemma SubmitIsARun(w: World, c: Call)
    requires Sound(w) && c.id !in w.requests && c.ingestion !in w.ingestions
    ensures Run(Quiet(w), c.max, StepsOf(w, c)) == Quiet(Promised(w, c).after)
  {
    hide Sound, Next, Run, LookedEnds, CountedEnds, Joined, Opened, OpenOf, ClosedAll, Ends, IsOpenFor, Active,
    LiveProgress;
    hide RequestService.LiveOf, RequestService.Current, RequestService.Looked, RequestService.Counted;
    var steps := StepsOf(w, c);
    var current := Found(w, c);
    RunFour(Quiet(w), c.max, steps[0], steps[1], steps[2], steps[3]);
    LookedMeans(w, c);
    FindAlone(w, c);
    RequestService.CurrentStays(w, c.registration, c.code, c.actor, c.at);
    if current.Some? && Active(w.requests[current.value], c.actor) {
      Over(w, c);
    } else {
      CountedMayEnd(w, c);
      CountedLive(w, c);
      if current.Some? {
        FoundIsNotCounted(w, c);
      }
      CountStep(w, c, current, LookedEnds(w, c), CountedEnds(w, c));
      if |RequestService.LiveOf(w, c.actor, c.registration)| >= c.max {
        Over(w, c);
      } else {
        CommitStep(w, c, current, LookedEnds(w, c) + CountedEnds(w, c));
      }
    }
  }

  // Steps of a submit that is over do nothing.
  lemma Over(w: World, c: Call)
    ensures Next(Quiet(w), c.max, CountOpen(c.pid, CountedEnds(w, c))) == Quiet(w)
    ensures Next(Quiet(w), c.max, Commit(c.pid, c.id, c.ingestion, None)) == Quiet(w)
  {
  }
}
