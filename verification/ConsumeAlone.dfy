// The two pictures of a consume call agree: nothing between its steps, the state machine ends in the
// tables and with the commits that the method consume promises.

module ConsumeAlone {
  import opened Common
  import opened Clock
  import opened Outbox
  import opened Delivery
  import opened Tasks
  import opened DeliveryRuns

  // What the handler commits itself, one step each.
  function OwnCommits(pid: Pid, steps: seq<string>): seq<Action> {
    seq(|steps|, k requires 0 <= k < |steps| => Progress(pid, steps[k]))
  }

  function StepsOf(pid: Pid, i: Id, owner: Owner, steps: seq<string>, last: string, ending: Ending): seq<Action> {
    [Read(pid, i), Grant(pid, owner)] + OwnCommits(pid, steps)
    + [if ending.Returned? then Final(pid, last) else Stop(pid), Release(pid)]
  }

  function Recorded(commits: seq<Commit>): seq<Event> {
    seq(|commits|, k requires 0 <= k < |commits| => Committed(commits[k]))
  }

  lemma {:induction false} RunConcat(p: Policy, s: State, a: seq<Action>, b: seq<Action>)
    ensures Run(p, s, a + b) == Run(p, Run(p, s, a), b)
    decreases |a|
  {
    if a == [] {
      assert a + b == b;
    } else {
      assert (a + b)[1..] == a[1..] + b;
      RunConcat(p, Next(p, s, a[0]), a[1..], b);
    }
  }

  lemma RunTwo(p: Policy, s: State, a: Action, b: Action)
    ensures Run(p, s, [a, b]) == Next(p, Next(p, s, a), b)
  {
    assert [a, b][1..] == [b];
    assert [b][1..] == [];
    assert Run(p, Next(p, s, a), [b]) == Run(p, Next(p, Next(p, s, a), b), []);
  }

  lemma {:induction false} OwnCommitsRun(p: Policy, s: State, pid: Pid, steps: seq<string>)
    requires MayCommit(s, pid)
    ensures Run(p, s, OwnCommits(pid, steps)) ==
            s.(history := s.history + Recorded(CommitsOf(s.consumers[pid].lease, steps, "", false)))
    decreases |steps|
  {
    var l := s.consumers[pid].lease;
    if steps == [] {
      assert s.history + Recorded(CommitsOf(l, steps, "", false)) == s.history;
    } else {
      var next := Progressing(s, pid, steps[0]);
      assert OwnCommits(pid, steps)[1..] == OwnCommits(pid, steps[1..]);
      OwnCommitsRun(p, next, pid, steps[1..]);
      assert next.history + Recorded(CommitsOf(l, steps[1..], "", false)) == s.history
             + Recorded(CommitsOf(l, steps, "", false));
    }
  }

  // A call that gets no lease leaves tables and history alone.
  lemma {:induction false} RefusedRun(p: Policy, s: State, pid: Pid, actions: seq<Action>)
    requires pid in s.consumers ==> s.consumers[pid].Refused?
    requires forall a :: a in actions ==> OfProcess(a, pid)
    ensures Run(p, s, actions) == s
    decreases |actions|
  {
    if actions != [] {
      assert OfProcess(actions[0], pid);
      RefusedRun(p, s, pid, actions[1..]);
    }
  }

  // A later step of the process.
  predicate OfProcess(a: Action, pid: Pid) {
    match a
    case Grant(q, _) => q == pid
    case Progress(q, _) => q == pid
    case Final(q, _) => q == pid
    case Stop(q) => q == pid
    case Release(q) => q == pid
    case _ => false
  }

  lemma ClaimRun(p: Policy, s: State, pid: Pid, i: Id, owner: Owner)
    requires Sound(p) && Consumable(p, s.db, i) && pid !in s.consumers
    ensures var l, intent := LeaseFor(s.db, i, owner), s.db.messages[i].intent;
            var claimed := Next(p, Next(p, s, Read(pid, i)), Grant(pid, owner));
            && claimed.consumers == s.consumers[pid := Running(l, intent)]
            && claimed.history == s.history + [Leased(l, s.db.now, s.db.now)]
            && claimed.db == s.db.(executions := s.db.executions[l.resource := Execution(i, owner, l.epoch,
                At(s.db.now + Ttl(p)))])
            && MayCommit(claimed, pid)
  {
  }

  lemma EndRun(p: Policy, s: State, pid: Pid, last: string, ending: Ending)
    requires MayCommit(s, pid)
    ensures var l, intent := s.consumers[pid].lease, s.consumers[pid].intent;
            var after := Next(p, Next(p, s, if ending.Returned? then Final(pid, last) else Stop(pid)), Release(pid));
            && after.db == Expiring(s.db, l.resource, MinusInfinity).(
                             inbox := if ending.Returned? then s.db.inbox + {(intent.topic, l.message)} else s.db.inbox)
            && after.history == s.history + if ending.Returned? then [Committed(Commit(l, true, last))] else []
  {
  }

  // A consume call with nothing between its steps: refused exactly when the method is, and otherwise the
  // same tables and the same commits, in order, under the same lease.
  lemma ConsumeIsARun(p: Policy, s: State, pid: Pid, i: Id, owner: Owner, steps: seq<string>, last: string,
      ending: Ending)
    requires Sound(p) && pid !in s.consumers
    ensures var after := Run(p, s, StepsOf(pid, i, owner, steps, last, ending));
            && (!Consumable(p, s.db, i) ==> after.db == s.db && after.history == s.history)
            && (Consumable(p, s.db, i) ==>
                  var l := LeaseFor(s.db, i, owner);
                  && after.db == AfterConsume(s.db, i, owner, ending.Returned?)
                  && after.history == s.history + [Leased(l, s.db.now, s.db.now)]
                     + Recorded(CommitsOf(l, steps, last, ending.Returned?)))
  {
    var actions := StepsOf(pid, i, owner, steps, last, ending);
    if !Consumable(p, s.db, i) {
      NotClaimedRun(p, s, pid, i, owner, actions);
    } else {
      var l := LeaseFor(s.db, i, owner);
      var claimed := Next(p, Next(p, s, Read(pid, i)), Grant(pid, owner));
      var worked := Run(p, claimed, OwnCommits(pid, steps));
      var end := if ending.Returned? then Final(pid, last) else Stop(pid);
      RunConcat(p, s, [Read(pid, i), Grant(pid, owner)] + OwnCommits(pid, steps), [end, Release(pid)]);
      RunConcat(p, s, [Read(pid, i), Grant(pid, owner)], OwnCommits(pid, steps));
      RunTwo(p, s, Read(pid, i), Grant(pid, owner));
      RunTwo(p, worked, end, Release(pid));
      ClaimRun(p, s, pid, i, owner);
      OwnCommitsRun(p, claimed, pid, steps);
      EndRun(p, worked, pid, last, ending);
      RecordedEnd(l, steps, last, ending.Returned?);
    }
  }

  lemma RecordedEnd(l: Lease, steps: seq<string>, last: string, done: bool)
    ensures Recorded(CommitsOf(l, steps, last, done)) ==
            Recorded(CommitsOf(l, steps, "", false)) + if done then [Committed(Commit(l, true, last))] else []
  {
  }

  lemma NotClaimedRun(p: Policy, s: State, pid: Pid, i: Id, owner: Owner, actions: seq<Action>)
    requires pid !in s.consumers && !Consumable(p, s.db, i)
    requires |actions| >= 2 && actions[0] == Read(pid, i) && actions[1] == Grant(pid, owner)
    requires forall a :: a in actions[1..] ==> OfProcess(a, pid)
    ensures Run(p, s, actions).db == s.db && Run(p, s, actions).history == s.history
  {
    var read := Next(p, s, Read(pid, i));
    if Executable(p, s.db, i) {
      var refused := Next(p, read, Grant(pid, owner));
      assert actions[1..][1..] == actions[2..];
      RefusedRun(p, refused, pid, actions[2..]);
    } else {
      RefusedRun(p, read, pid, actions[1..]);
    }
  }
}
