// What durable delivery guarantees over every run of the state machine.

module DeliveryTheorems {
  import opened Common
  import opened Clock
  import opened Outbox
  import opened Delivery
  import opened Tasks
  import opened DeliveryRuns

  ghost function After(p: Policy, now: int, actions: seq<Action>): State {
    Run(p, Init(now), actions)
  }

  lemma Reachable(p: Policy, now: int, actions: seq<Action>)
    requires Sound(p)
    ensures Inv(p, After(p, now, actions))
  {
    InitInv(p, now);
    RunInv(p, Init(now), actions);
  }

  predicate CommitsAt(h: seq<Event>, k: int, l: Lease) {
    0 <= k < |h| && h[k].Committed? && h[k].commit.lease == l
  }

  // All an action can write to a message that is there: it is handed out, finished, settled by a
  // reconcile, or replayed.
  ghost predicate RowWritten(p: Policy, s: State, a: Action, i: Id, m: Message, dead: bool)
    requires i in s.db.messages
  {
    var was, died := s.db.messages[i], ActiveDead(s.db, i);
    || (m == was && dead == died)
    || (a.ClaimNext? && a.owner !in s.claims && Claimable(p, s.db, i) && dead == died
        && m == Taken(p, s.db, i, a.owner).messages[i])
    || (a.Finish? && a.owner in s.claims && s.claims[a.owner].id == i && Owns(s.db, s.claims[a.owner])
        && m == Settled(s.db, s.claims[a.owner], a.error)
        && dead == (died || (Failed(a.error) && s.claims[a.owner].attempts >= p.maxAttempts)))
    || (a.Reconcile? && Judge(p, s.db, i).Bury? && m == was && dead)
    || (a.Reconcile? && Judge(p, s.db, i).Requeue? && m == Requeued(was) && dead == died)
    || (a.Replay? && a.id == i && died && !dead && m == Revived(was))
  }

  lemma ClaimWrites(p: Policy, s: State, owner: Owner, locked: set<Id>, i: Id)
    requires i in s.db.messages
    ensures var after := Claiming(p, s, owner, locked).db;
            i in after.messages && RowWritten(p, s, ClaimNext(owner, locked), i, after.messages[i],
                                              ActiveDead(after, i))
  {}

  lemma FinishWrites(p: Policy, s: State, owner: Owner, error: Option<string>, i: Id)
    requires i in s.db.messages
    ensures var after := Finishing(p, s, owner, error).db;
            i in after.messages && RowWritten(p, s, Finish(owner, error), i, after.messages[i], ActiveDead(after, i))
  {}

  lemma ReconcileWrites(p: Policy, s: State, locked: set<Id>, i: Id)
    requires i in s.db.messages
    ensures var after := Reconciling(p, s, locked).db;
            i in after.messages && RowWritten(p, s, Action.Reconcile(locked), i, after.messages[i],
                                              ActiveDead(after, i))
  {}

  lemma ReplayWrites(p: Policy, s: State, id: Id, i: Id)
    requires i in s.db.messages
    ensures var after := Replaying(p, s, id).db;
            i in after.messages && RowWritten(p, s, Replay(id), i, after.messages[i], ActiveDead(after, i))
  {}

  lemma ProduceWrites(p: Policy, s: State, id: Id, dedup: string, intent: Intent, i: Id)
    requires i in s.db.messages
    ensures var after := Producing(s, id, dedup, intent).db;
            i in after.messages && RowWritten(p, s, Produce(id, dedup, intent), i, after.messages[i],
                                              ActiveDead(after, i))
  {}

  lemma NextWrites(p: Policy, s: State, a: Action, i: Id)
    requires i in s.db.messages
    ensures i in Next(p, s, a).db.messages
    ensures RowWritten(p, s, a, i, Next(p, s, a).db.messages[i], ActiveDead(Next(p, s, a).db, i))
  {
    hide Claiming, Finishing, Reconciling, Replaying, Producing;
    match a
    case Produce(id, dedup, intent) => ProduceWrites(p, s, id, dedup, intent, i);
    case ClaimNext(owner, locked) => ClaimWrites(p, s, owner, locked, i);
    case Finish(owner, error) => FinishWrites(p, s, owner, error, i);
    case Reconcile(locked) => ReconcileWrites(p, s, locked, i);
    case Replay(id) => ReplayWrites(p, s, id, i);
    case _ =>
  }

  lemma NextAdds(p: Policy, s: State, a: Action, i: Id)
    requires i !in s.db.messages && i in Next(p, s, a).db.messages
    ensures a.Produce? && Next(p, s, a).db.messages[i] == NewMessage(a.dedup, a.intent, s.db.now)
  {
    if a.Produce? {
      var _ := Producing(s, a.id, a.dedup, a.intent);
    }
  }

  // ---------------------------------------------------------------- fencing

  // Under one resource key, commits through guarded sessions carry non-decreasing epochs.
  lemma EpochsNeverDecrease(p: Policy, now: int, actions: seq<Action>, j: int, k: int, a: Lease, b: Lease)
    requires Sound(p)
    requires var h := After(p, now, actions).history; CommitsAt(h, j, a) && CommitsAt(h, k, b)
    requires j < k && a.resource == b.resource
    ensures a.epoch <= b.epoch
  {
    Reachable(p, now, actions);
  }

  // A lease that was overtaken or released is over for good: in no continuation of the run, whatever
  // the clock does, does it pass the guard, renew, or appear in a further commit.
  lemma OverForGood(p: Policy, s: State, actions: seq<Action>, l: Lease)
    requires Over(s.db, l)
    ensures Over(Run(p, s, actions).db, l) && !Current(Run(p, s, actions).db, l)
    ensures Renewed(p, Run(p, s, actions).db, l) == None
    ensures forall k :: |s.history| <= k ==> !CommitsAt(Run(p, s, actions).history, k, l)
  {
    RunKeeps(p, s, actions);
    NoCommitEver(p, s, actions, l);
  }

  lemma {:induction false} NoCommitEver(p: Policy, s: State, actions: seq<Action>, l: Lease)
    requires Over(s.db, l)
    ensures forall k :: |s.history| <= k ==> !CommitsAt(Run(p, s, actions).history, k, l)
    decreases |actions|
  {
    if actions != [] {
      var next := Next(p, s, actions[0]);
      NextKeeps(p, s, actions[0]);
      NoCommitWhenOver(p, s, actions[0], l);
      NoCommitEver(p, next, actions[1..], l);
      RunKeeps(p, next, actions[1..]);
      PrefixCommits(next.history, Run(p, next, actions[1..]).history, |s.history|, l);
    }
  }

  lemma PrefixCommits(h: seq<Event>, longer: seq<Event>, from: nat, l: Lease)
    requires h <= longer
    requires forall k :: from <= k ==> !CommitsAt(h, k, l)
    requires forall k :: |h| <= k ==> !CommitsAt(longer, k, l)
    ensures forall k :: from <= k ==> !CommitsAt(longer, k, l)
  {
    forall k | from <= k
      ensures !CommitsAt(longer, k, l)
    {
      assert !CommitsAt(h, k, l);
    }
  }

  lemma NoCommitWhenOver(p: Policy, s: State, a: Action, l: Lease)
    requires Over(s.db, l)
    ensures forall k :: |s.history| <= k ==> !CommitsAt(Next(p, s, a).history, k, l)
  {}

  // Releasing a lease any process ever held puts it in that state, and so does the next grant.
  lemma ReleaseIsOver(p: Policy, now: int, actions: seq<Action>, pid: Pid)
    requires Sound(p) && Holds(After(p, now, actions), pid)
    ensures Over(Released(After(p, now, actions).db, After(p, now, actions).consumers[pid].lease),
                 After(p, now, actions).consumers[pid].lease)
  {
    Reachable(p, now, actions);
  }

  lemma GrantOvertakes(p: Policy, now: int, actions: seq<Action>, pid: Pid, i: Id, intent: Intent, owner: Owner)
    requires Sound(p) && Holds(After(p, now, actions), pid)
    requires After(p, now, actions).consumers[pid].lease.resource == Resource(intent)
    requires Granted(p, After(p, now, actions).db, i, intent, owner).1.Some?
    ensures Over(Granted(p, After(p, now, actions).db, i, intent, owner).0, After(p, now, actions).consumers[pid].lease)
  {
    Reachable(p, now, actions);
  }

  // At any moment at most one process passes the guard of a resource.
  lemma OneHolder(p: Policy, now: int, actions: seq<Action>, a: Pid, b: Pid)
    requires Sound(p) && Holds(After(p, now, actions), a) && Holds(After(p, now, actions), b)
    requires var s := After(p, now, actions);
             && Current(s.db, s.consumers[a].lease) && Current(s.db, s.consumers[b].lease)
             && s.consumers[a].lease.resource == s.consumers[b].lease.resource
    ensures a == b
  {
    Reachable(p, now, actions);
  }

  // ---------------------------------------------------------------- at most one final commit

  // Handler effects and inbox marker of a message commit together at most once in any run, and
  // the marker is there exactly when they did.
  lemma FinalCommitOnce(p: Policy, now: int, actions: seq<Action>, i: Id)
    requires Sound(p)
    ensures var s := After(p, now, actions);
            && (forall j, k :: 0 <= j < |s.history| && 0 <= k < |s.history| && IsFinal(s.history[j], i)
                               && IsFinal(s.history[k], i) ==>
                                  j == k)
            && ((i in s.db.messages
                 && Acknowledged(s.db, i)) <==> exists k :: 0 <= k < |s.history| && IsFinal(s.history[k], i))
  {
    Reachable(p, now, actions);
    var s := After(p, now, actions);
    if i in s.db.messages && Acknowledged(s.db, i) {
      assert (s.db.messages[i].intent.topic, i) in s.db.inbox;
    }
  }

  // Whenever a final commit passes the guard its marker is new, so the result of
  // claim_inbox_once carries no information.
  lemma MarkerAlwaysNew(p: Policy, now: int, actions: seq<Action>, pid: Pid)
    requires Sound(p) && MayCommit(After(p, now, actions), pid)
    ensures (After(p, now, actions).consumers[pid].intent.topic,
             After(p, now, actions).consumers[pid].lease.message) !in After(p, now, actions).db.inbox
  {
    Reachable(p, now, actions);
    FinalFindsNoMarker(After(p, now, actions), pid);
  }

  // Work on a message: a lease for it, or a commit under one.
  predicate WorksOn(e: Event, i: Id) {
    (e.Leased? && e.lease.message == i) || (e.Committed? && e.commit.lease.message == i)
  }

  ghost predicate Done(h: seq<Event>) {
    forall i, j, k :: 0 <= j < k < |h| && IsFinal(h[j], i) ==> !WorksOn(h[k], i)
  }

  // In every run the final commit is the last thing done for a message: no lease and no commit follow.
  lemma NothingAfterFinal(p: Policy, now: int, actions: seq<Action>, i: Id, j: int, k: int)
    requires Sound(p) && 0 <= j < k < |After(p, now, actions).history| && IsFinal(After(p, now, actions).history[j], i)
    ensures !WorksOn(After(p, now, actions).history[k], i)
  {
    InitInv(p, now);
    DoneStays(p, Init(now), actions);
  }

  lemma {:induction false} DoneStays(p: Policy, s: State, actions: seq<Action>)
    requires Sound(p) && Inv(p, s) && Done(s.history)
    ensures Done(Run(p, s, actions).history)
    decreases |actions|
  {
    if actions != [] {
      NextInv(p, s, actions[0]);
      DoneStep(p, s, actions[0]);
      DoneStays(p, Next(p, s, actions[0]), actions[1..]);
    }
  }

  lemma DoneStep(p: Policy, s: State, a: Action)
    requires Inv(p, s) && Done(s.history)
    ensures Done(Next(p, s, a).history)
  {
    hide Publishing, Timely, UniqueKeys, Claiming, Finishing, Reconciling, Replaying, Producing, Renewing;
    match a
    case Produce(id, dedup, intent) => ProducingFrame(s, id, dedup, intent);
    case ClaimNext(owner, locked) => ClaimingFrame(p, s, owner, locked);
    case Finish(owner, error) => FinishingFrame(p, s, owner, error);
    case Reconcile(locked) => ReconcilingFrame(p, s, locked);
    case Replay(id) => ReplayingFrame(p, s, id);
    case Grant(pid, owner) => GrantedUndone(p, s, pid, owner);
    case Renew(pid) => RenewingHistory(p, s, pid);
    case Progress(pid, effect) => CommittedUndone(s, pid, effect);
    case Final(pid, effect) => CommittedUndone(s, pid, effect);
    case _ =>
  }

  lemma RenewingHistory(p: Policy, s: State, pid: Pid)
    ensures Renewing(p, s, pid).history == s.history
  {}

  lemma GrantedUndone(p: Policy, s: State, pid: Pid, owner: Owner)
    requires Consuming(s) && Done(s.history)
    ensures Done(Granting(p, s, pid, owner).history)
  {
    var after := Granting(p, s, pid, owner);
    forall i, j | 0 <= j < |s.history| < |after.history| && IsFinal(s.history[j], i)
      ensures !WorksOn(after.history[|s.history|], i)
    {
      assert Acknowledged(s.db, i);
    }
  }

  lemma CommittedUndone(s: State, pid: Pid, effect: string)
    requires Consuming(s) && Done(s.history)
    ensures Done(Progressing(s, pid, effect).history) && Done(Finalizing(s, pid, effect).history)
  {
    if MayCommit(s, pid) {
      FinalFindsNoMarker(s, pid);
    }
  }

  // ---------------------------------------------------------------- attempts

  lemma {:induction false} CountsAreHistory(p: Policy, s: State, actions: seq<Action>, i: Id)
    requires CountOf(s, i) == Count(HandedTimes(s.history, i), Reclaims(s.history, i))
    ensures CountOf(Run(p, s, actions), i) ==
            Count(HandedTimes(Run(p, s, actions).history, i), Reclaims(Run(p, s, actions).history, i))
    decreases |actions|
  {
    if actions != [] {
      CountsFollow(p, s, actions[0], i);
      CountsAreHistory(p, Next(p, s, actions[0]), actions[1..], i);
    }
  }

  lemma {:induction false} CountsFollow(p: Policy, s: State, a: Action, i: Id)
    requires CountOf(s, i) == Count(HandedTimes(s.history, i), Reclaims(s.history, i))
    ensures CountOf(Next(p, s, a), i) ==
            Count(HandedTimes(Next(p, s, a).history, i), Reclaims(Next(p, s, a).history, i))
  {
    match a
    case ClaimNext(owner, locked) =>
      var r := Claimed(p, s.db, owner, locked);
      if owner !in s.claims && r.1.Some? {
        HandingCounts(p, s, r.1.value.id, owner, i);
      }
    case Replay(id) =>
      if Replayed(p, s.db, id).Ok? {
        Appended(s.history, Reset(id), i);
      }
    case _ => OthersCountNothing(p, s, a, i);
  }

  lemma {:induction false} HandingCounts(p: Policy, s: State, j: Id, owner: Owner, i: Id)
    requires CountOf(s, i) == Count(HandedTimes(s.history, i), Reclaims(s.history, i)) && j in s.db.messages
    ensures CountOf(Handing(p, s, j, owner), i) ==
            Count(HandedTimes(Handing(p, s, j, owner).history, i), Reclaims(Handing(p, s, j, owner).history, i))
  {
    Appended(s.history, Handed(j, s.db.now, s.db.messages[j].status.Delivering?), i);
  }

  lemma {:induction false} OthersCountNothing(p: Policy, s: State, a: Action, i: Id)
    requires !a.ClaimNext? && !a.Replay?
    ensures CountOf(Next(p, s, a), i) == CountOf(s, i)
    ensures HandedTimes(Next(p, s, a).history, i) == HandedTimes(s.history, i)
            && Reclaims(Next(p, s, a).history, i) == Reclaims(s.history, i)
  {
    hide HandedTimes, Reclaims, Current, Granted;
    match a
    case Grant(pid, owner) =>
      if pid in s.consumers && s.consumers[pid].Reading? {
        var r := Granted(p, s.db, s.consumers[pid].id, s.consumers[pid].intent, owner);
        if r.1.Some? {
          Appended(s.history, Leased(r.1.value, s.consumers[pid].readAt, s.db.now), i);
        }
      }
    case Progress(pid, effect) =>
      if MayCommit(s, pid) {
        Appended(s.history, Committed(Commit(s.consumers[pid].lease, false, effect)), i);
      }
    case Final(pid, effect) =>
      if MayCommit(s, pid) {
        Appended(s.history, Committed(Commit(s.consumers[pid].lease, true, effect)), i);
      }
    case _ =>
  }

  // A message's attempt count is the number of times it was handed to a publisher since it was
  // enqueued or replayed; a pending message that is not dead-lettered is below the maximum; and no
  // message is above it by more than the expired leases reclaimed since it last left pending.
  lemma AttemptBound(p: Policy, now: int, actions: seq<Action>, i: Id)
    requires Sound(p) && i in After(p, now, actions).db.messages
    ensures var s := After(p, now, actions); var m := s.db.messages[i];
            && m.attempts == HandedTimes(s.history, i)
            && m.attempts <= p.maxAttempts + Reclaims(s.history, i)
            && (m.status.Pending? && !ActiveDead(s.db, i) ==> m.attempts < p.maxAttempts)
  {
    Reachable(p, now, actions);
    CountsAreHistory(p, Init(now), actions, i);
    assert RowSound(p, After(p, now, actions), i);
  }

  // Exactly which claim takes a message above the maximum: reclaiming the expired lease of an attempt
  // that was the last. Such a row is one that the next reconcile buries.
  lemma ClaimExceeds(p: Policy, now: int, actions: seq<Action>, i: Id, owner: Owner)
    requires Sound(p) && Claimable(p, After(p, now, actions).db, i)
    ensures var db := After(p, now, actions).db; var m := db.messages[i];
            && (Taken(p, db, i, owner).messages[i].attempts > p.maxAttempts <==>
                m.status.Delivering? && m.attempts >= p.maxAttempts)
            && (m.status.Delivering? && m.attempts >= p.maxAttempts <==> Exhausted(p, db, i))
  {
    Reachable(p, now, actions);
    assert RowSound(p, After(p, now, actions), i);
  }

  // So the maximum holds throughout every run that claims only straight after an unobstructed reconcile.
  ghost predicate Reconciles(actions: seq<Action>) {
    forall k :: 0 <= k < |actions| && actions[k].ClaimNext? ==> k > 0 && actions[k - 1] == Action.Reconcile({})
  }

  lemma {:induction false} AttemptsWithinMaximum(p: Policy, now: int, actions: seq<Action>, i: Id)
    requires Sound(p) && Reconciles(actions) && i in After(p, now, actions).db.messages
    ensures After(p, now, actions).db.messages[i].attempts <= p.maxAttempts
    decreases |actions|
  {
    if actions != [] {
      var n := |actions| - 1;
      var before, a := actions[..n], actions[n];
      assert actions == before + [a];
      RunAppend(p, Init(now), before, a);
      var s := After(p, now, before);
      if i in s.db.messages {
        AttemptsWithinMaximum(p, now, before, i);
        if a.ClaimNext? {
          assert before == before[..n - 1] + [Action.Reconcile({})];
          RunAppend(p, Init(now), before[..n - 1], Action.Reconcile({}));
          Reachable(p, now, before[..n - 1]);
          ClaimAfterReconcile(p, After(p, now, before[..n - 1]), a.owner, a.locked, i);
        } else {
          NextWrites(p, s, a, i);
        }
      } else {
        NextAdds(p, s, a, i);
      }
    }
  }

  lemma {:induction false} RunAppend(p: Policy, s: State, actions: seq<Action>, a: Action)
    ensures Run(p, s, actions + [a]) == Next(p, Run(p, s, actions), a)
    decreases |actions|
  {
    if actions == [] {
      assert [a][1..] == [];
      assert Run(p, s, [a]) == Run(p, Next(p, s, a), []);
    } else {
      RunAppend(p, Next(p, s, actions[0]), actions[1..], a);
      assert (actions + [a])[1..] == actions[1..] + [a];
    }
  }

  // A claim straight after an unobstructed reconcile never takes a message above the maximum.
  lemma ClaimAfterReconcile(p: Policy, s: State, owner: Owner, locked: set<Id>, i: Id)
    requires Sound(p) && Inv(p, s) && i in s.db.messages
    ensures var swept := Next(p, s, Action.Reconcile({})); var after := Next(p, swept, ClaimNext(owner, locked));
            && i in swept.db.messages && i in after.db.messages
            && (after.db.messages[i].attempts == swept.db.messages[i].attempts
                || after.db.messages[i].attempts <= p.maxAttempts)
  {
    hide Next, Claimable, RowSound, Exhausted, Inv;
    var swept := Next(p, s, Action.Reconcile({}));
    SweptRow(p, s, i);
    NextWrites(p, swept, ClaimNext(owner, locked), i);
    WithinMaximum(p, swept, i);
  }

  lemma WithinMaximum(p: Policy, s: State, i: Id)
    requires i in s.db.messages && RowSound(p, s, i) && !Exhausted(p, s.db, i)
    ensures Claimable(p, s.db, i) ==> s.db.messages[i].attempts < p.maxAttempts
  {}

  lemma SweptRow(p: Policy, s: State, i: Id)
    requires Sound(p) && Inv(p, s) && i in s.db.messages
    ensures var swept := Next(p, s, Action.Reconcile({}));
            && i in swept.db.messages && RowSound(p, swept, i)
            && !Exhausted(p, swept.db, i)
  {
    hide Reconciled, RowSound, Exhausted, Consuming, Timely, UniqueKeys;
    ReconcileStep(p, s, i);
    SweptIsNotExhausted(p, s.db, i);
    NextPublishes(p, s, Action.Reconcile({}));
  }

  lemma SweptIsNotExhausted(p: Policy, db: Db, i: Id)
    requires i in db.messages
    ensures var after := Reconciled(p, db, db.messages.Keys - {});
            i in after.messages && !Exhausted(p, after, i)
  {
    var after := Reconciled(p, db, db.messages.Keys - {});
    if Exhausted(p, db, i) {
      assert Judge(p, db, i).Bury?;
      assert ActiveDead(after, i);
    }
    assert !Judge(p, db, i).Bury? ==> ActiveDead(after, i) == ActiveDead(db, i);
  }

  // The plain bound attempt_count <= max_attempts is false: a lease that expires before a reconcile
  // runs can be reclaimed.
  ghost predicate Exceeds(p: Policy, actions: seq<Action>, i: Id) {
    Sound(p) && i in After(p, 0, actions).db.messages && After(p, 0, actions).db.messages[i].attempts > p.maxAttempts
  }

  lemma AttemptsCanExceedMaximum()
    ensures exists p, actions, i :: Exceeds(p, actions, i)
  {
    ReclaimedTwice();
    assert Exceeds(ONE_TRY, [Produce(7, "d", NOTE), ClaimNext(1, {}), SetClock(2 * SECOND), ClaimNext(2, {})], 7);
  }

  const ONE_TRY := Policy(map["t" := Some("t")], 1, 1)
  const NOTE := Intent("t", "k", "", map[], None)

  // One message, handed to one publisher for its only attempt.
  lemma HandedOnce()
    ensures var s := Next(ONE_TRY, Next(ONE_TRY, Init(0), Produce(7, "d", NOTE)), ClaimNext(1, {}));
            && s.db == Db(0, map[7 := Message(NOTE, "d", 0, Delivering, 1, MinusInfinity, Some(1), Some(SECOND), None,
                                              None)], map[], {}, map[])
            && s.claims == map[1 := Claim(7, 1, 1)]
  {
    var s := Next(ONE_TRY, Init(0), Produce(7, "d", NOTE));
    assert forall i :: !HoldsKey(Init(0).db, i, "d");
    assert s.db.messages == map[7 := NewMessage("d", NOTE, 0)];
    OnlyCandidate(ONE_TRY, s, 7, 1);
  }

  lemma ReclaimedTwice()
    ensures var s := After(ONE_TRY, 0,
                           [Produce(7, "d", NOTE), ClaimNext(1, {}), SetClock(2 * SECOND), ClaimNext(2, {})]);
            7 in s.db.messages && s.db.messages[7].attempts == 2
  {
    hide Run;
    HandedOnce();
    var taken := Next(ONE_TRY, Next(ONE_TRY, Init(0), Produce(7, "d", NOTE)), ClaimNext(1, {}));
    OnlyCandidate(ONE_TRY, Next(ONE_TRY, taken, SetClock(2 * SECOND)), 7, 2);
    RunFour(ONE_TRY, Init(0), Produce(7, "d", NOTE), ClaimNext(1, {}), SetClock(2 * SECOND), ClaimNext(2, {}));
  }

  lemma OnlyCandidate(p: Policy, s: State, i: Id, owner: Owner)
    requires s.db.messages.Keys == {i} && Claimable(p, s.db, i) && owner !in s.claims
    ensures Next(p, s, ClaimNext(owner, {})) == Handing(p, s, i, owner)
  {}

  lemma RunFour(p: Policy, s: State, a: Action, b: Action, c: Action, d: Action)
    ensures Run(p, s, [a, b, c, d]) == Next(p, Next(p, Next(p, Next(p, s, a), b), c), d)
  {
    assert [a, b, c, d][1..] == [b, c, d];
    assert [b, c, d][1..] == [c, d];
    assert [c, d][1..] == [d];
    assert [d][1..] == [];
    var s3 := Next(p, Next(p, Next(p, s, a), b), c);
    assert Run(p, s3, [d]) == Next(p, s3, d);
    assert Run(p, Next(p, Next(p, s, a), b), [c, d]) == Next(p, s3, d);
  }

  // ---------------------------------------------------------------- publisher fencing

  // A publisher whose message was taken over, settled or replayed writes nothing, then and ever after.
  lemma {:induction false} SupersededForGood(p: Policy, s: State, actions: seq<Action>, owner: Owner,
      error: Option<string>)
    requires owner in s.claims && s.claims[owner].owner == owner
    requires s.claims[owner].id in s.db.messages && s.db.messages[s.claims[owner].id].leaseOwner != Some(owner)
    ensures owner in Run(p, s, actions).claims && Run(p, s, actions).claims[owner] == s.claims[owner]
    ensures Finished(p, Run(p, s, actions).db, s.claims[owner], error) == None
    decreases |actions|
  {
    if actions != [] {
      SupersededStep(p, s, actions[0], owner);
      SupersededForGood(p, Next(p, s, actions[0]), actions[1..], owner, error);
    }
  }

  // A claim handed to a publisher stays as it was.
  lemma ClaimStays(p: Policy, s: State, a: Action, owner: Owner)
    requires owner in s.claims
    ensures owner in Next(p, s, a).claims && Next(p, s, a).claims[owner] == s.claims[owner]
  {}

  lemma SupersededStep(p: Policy, s: State, a: Action, owner: Owner)
    requires owner in s.claims
    requires s.claims[owner].id in s.db.messages && s.db.messages[s.claims[owner].id].leaseOwner != Some(owner)
    ensures owner in Next(p, s, a).claims && Next(p, s, a).claims[owner] == s.claims[owner]
    ensures s.claims[owner].id in Next(p, s, a).db.messages
            && Next(p, s, a).db.messages[s.claims[owner].id].leaseOwner != Some(owner)
  {
    hide Next;
    ClaimStays(p, s, a, owner);
    NextWrites(p, s, a, s.claims[owner].id);
  }

  // ---------------------------------------------------------------- no message is lost

  // The clock is past every backoff, publisher lease, publish timeout and execution lease.
  ghost predicate Elapsed(p: Policy, db: Db) {
    && (forall i :: i in db.messages ==>
                      && Due(db.messages[i].availableAt, db.now)
                      && (db.messages[i].leaseExpires.Some? ==> db.messages[i].leaseExpires.value <= db.now)
                      && (db.messages[i].publishedAt.Some? ==> db.messages[i].publishedAt.value < db.now - Ttl(p)))
    && forall r :: r in db.executions ==> Due(db.executions[r].expiresAt, db.now)
  }

  predicate Consumed(p: Policy, db: Db, i: Id)
    requires i in db.messages && Registered(p, db.messages[i])
  {
    var consumer := p.topics[db.messages[i].intent.topic];
    // a rebuildable hint counts as done once it is published
    if consumer.Some? then (consumer.value, i) in db.inbox else db.messages[i].status.Published?
  }

  predicate Dealt(p: Policy, db: Db, i: Id)
    requires i in db.messages && Registered(p, db.messages[i])
  {
    Consumed(p, db, i) || ActiveDead(db, i) || Claimable(p, db, i)
  }

  // Recorded as published, but with no time at which it was, and still to be acknowledged.
  predicate Untimed(p: Policy, db: Db, i: Id)
    requires i in db.messages && Registered(p, db.messages[i])
  {
    var m := db.messages[i];
    && m.status.Published? && m.publishedAt.None?
    && p.topics[m.intent.topic].Some? && (p.topics[m.intent.topic].value, i) !in db.inbox
    && !ActiveDead(db, i)
  }

  // From every reachable state, once everything has elapsed, one reconcile that meets no lock leaves a
  // due message of a registered topic acknowledged, dead-lettered or claimable exactly when it was not
  // left published without a time.
  lemma NoMessageLost(p: Policy, now: int, actions: seq<Action>, i: Id)
    requires Sound(p)
    requires var db := After(p, now, actions).db;
             && Elapsed(p, db) && i in db.messages && Registered(p, db.messages[i])
             && NotBeforeDue(db.messages[i].intent, db.now)
    ensures var db := After(p, now, actions).db;
            var after := Next(p, After(p, now, actions), Action.Reconcile({})).db;
            && i in after.messages && Registered(p, after.messages[i])
            && (Dealt(p, after, i) <==> !Untimed(p, db, i))
  {
    Reachable(p, now, actions);
    ReconcileRecovers(p, After(p, now, actions), i);
  }

  lemma ReconcileRecovers(p: Policy, s: State, i: Id)
    requires i in s.db.messages && RowSound(p, s, i) && Elapsed(p, s.db)
    requires Registered(p, s.db.messages[i]) && NotBeforeDue(s.db.messages[i].intent, s.db.now)
    ensures var after := Reconciled(p, s.db, s.db.messages.Keys - {});
            && i in after.messages && Registered(p, after.messages[i])
            && (Dealt(p, after, i) <==> !Untimed(p, s.db, i))
  {
    var after := Reconciled(p, s.db, s.db.messages.Keys - {});
    assert !Executing(s.db, i);
    assert !Judge(p, s.db, i).Bury? ==> ActiveDead(after, i) == ActiveDead(s.db, i);
  }

  lemma ReconcileStep(p: Policy, s: State, i: Id)
    requires i in s.db.messages
    ensures var after := Next(p, s, Action.Reconcile({})).db;
            && after == Reconciled(p, s.db, s.db.messages.Keys - {})
            && i in after.messages && after.messages[i].intent == s.db.messages[i].intent
  {}

  predicate EmptyError(a: Action) {
    a.Finish? && a.error == Some("")
  }

  // As long as nobody finishes with an empty error text, as pump never does, no message is lost.
  lemma {:induction false} NoEmptyError(p: Policy, s: State, actions: seq<Action>)
    requires forall a :: a in actions ==> !EmptyError(a)
    requires forall i :: i in s.db.messages ==> s.db.messages[i].lastError != Some("")
    ensures forall i :: i in Run(p, s, actions).db.messages ==> Run(p, s, actions).db.messages[i].lastError != Some("")
    decreases |actions|
  {
    if actions != [] {
      assert !EmptyError(actions[0]);
      NoEmptyStep(p, s, actions[0]);
      NoEmptyError(p, Next(p, s, actions[0]), actions[1..]);
    }
  }

  lemma NoEmptyStep(p: Policy, s: State, a: Action)
    requires !EmptyError(a)
    requires forall i :: i in s.db.messages ==> s.db.messages[i].lastError != Some("")
    ensures forall i :: i in Next(p, s, a).db.messages ==> Next(p, s, a).db.messages[i].lastError != Some("")
  {
    hide Next;
    forall i | i in Next(p, s, a).db.messages
      ensures Next(p, s, a).db.messages[i].lastError != Some("")
    {
      if i in s.db.messages {
        NextWrites(p, s, a, i);
      } else {
        NextAdds(p, s, a, i);
      }
    }
  }

  lemma PumpLosesNothing(p: Policy, now: int, actions: seq<Action>, i: Id)
    requires Sound(p) && forall a :: a in actions ==> !EmptyError(a)
    requires var db := After(p, now, actions).db;
             && Elapsed(p, db) && i in db.messages && Registered(p, db.messages[i])
             && NotBeforeDue(db.messages[i].intent, db.now)
    ensures var after := Next(p, After(p, now, actions), Action.Reconcile({})).db;
            i in after.messages && Registered(p, after.messages[i]) && Dealt(p, after, i)
  {
    Reachable(p, now, actions);
    NoEmptyError(p, Init(now), actions);
    NoMessageLost(p, now, actions, i);
    assert RowSound(p, After(p, now, actions), i);
  }

  lemma EmptyFinish(p: Policy, s: State, owner: Owner, clock: int)
    requires Sound(p) && Inv(p, s) && owner in s.claims && Owns(s.db, s.claims[owner])
    ensures var i := s.claims[owner].id; var m := s.db.messages[i];
            var late := Next(p, Next(p, s, Finish(owner, Some(""))), SetClock(clock));
            && late.db.now == clock && i in late.db.messages && RowSound(p, late, i)
            && late.db.messages[i].intent == m.intent && late.db.messages[i].publishedAt == m.publishedAt
            && late.db.messages[i].status.Published?
            && late.db.inbox == s.db.inbox && ActiveDead(late.db, i) == ActiveDead(s.db, i)
  {
    var finished := Next(p, s, Finish(owner, Some("")));
    NextPublishes(p, s, Finish(owner, Some("")));
    NextPublishes(p, finished, SetClock(clock));
  }

  // A publisher that finishes with an empty error text: whatever the clock is when the next reconcile
  // finds everything elapsed, the message is dealt with exactly when it had been published before, or
  // needs no acknowledgement, or has one, or was dead-lettered meanwhile.
  lemma EmptyErrorLosesMessage(p: Policy, now: int, actions: seq<Action>, owner: Owner, clock: int)
    requires Sound(p)
    requires var s := After(p, now, actions);
             owner in s.claims && Owns(s.db, s.claims[owner]) && Registered(p, s.db.messages[s.claims[owner].id])
    requires var s := After(p, now, actions); var i := s.claims[owner].id;
             var late := Next(p, Next(p, s, Finish(owner, Some(""))), SetClock(clock)).db;
             Elapsed(p, late) && NotBeforeDue(s.db.messages[i].intent, clock)
    ensures var s := After(p, now, actions); var i := s.claims[owner].id; var m := s.db.messages[i];
            var late := Next(p, Next(p, s, Finish(owner, Some(""))), SetClock(clock));
            var after := Next(p, late, Action.Reconcile({})).db; var consumer := p.topics[m.intent.topic];
            && i in after.messages && after.messages[i].intent == m.intent
            && (Dealt(p, after, i) <==>
                m.publishedAt.Some? || consumer.None? || (consumer.value, i) in s.db.inbox || ActiveDead(s.db, i))
  {
    hide Next, RowSound, Elapsed, Claimable, Run, Inv;
    var s := After(p, now, actions);
    var finished := Next(p, s, Finish(owner, Some("")));
    var late := Next(p, finished, SetClock(clock));
    Reachable(p, now, actions);
    EmptyFinish(p, s, owner, clock);
    ReconcileStep(p, late, s.claims[owner].id);
    ReconcileRecovers(p, late, s.claims[owner].id);
  }

  // A lost message stays lost: in no continuation is its row written or dead-lettered again; only a
  // consumer that got it nevertheless can still acknowledge it.
  lemma {:induction false} LostForGood(p: Policy, s: State, actions: seq<Action>, i: Id)
    requires Sound(p) && Inv(p, s) && i in s.db.messages && Registered(p, s.db.messages[i]) && Untimed(p, s.db, i)
    ensures var db := Run(p, s, actions).db;
            && i in db.messages && db.messages[i] == s.db.messages[i]
            && !ActiveDead(db, i) && !Claimable(p, db, i)
            && (Untimed(p, db, i) || Consumed(p, db, i))
    decreases |actions|
  {
    assert RowSound(p, s, i);
    StuckForGood(p, s, actions, i);
  }

  predicate Stuck(p: Policy, db: Db, i: Id) {
    && i in db.messages && db.messages[i].status.Published? && db.messages[i].publishedAt.None?
    && db.messages[i].leaseOwner.None? && !ActiveDead(db, i)
  }

  lemma {:induction false} StuckForGood(p: Policy, s: State, actions: seq<Action>, i: Id)
    requires Stuck(p, s.db, i)
    ensures Stuck(p, Run(p, s, actions).db, i) && Run(p, s, actions).db.messages[i] == s.db.messages[i]
    decreases |actions|
  {
    if actions != [] {
      StuckStep(p, s, actions[0], i);
      StuckForGood(p, Next(p, s, actions[0]), actions[1..], i);
    }
  }

  lemma StuckStep(p: Policy, s: State, a: Action, i: Id)
    requires Stuck(p, s.db, i)
    ensures Stuck(p, Next(p, s, a).db, i) && Next(p, s, a).db.messages[i] == s.db.messages[i]
  {
    hide Next;
    NextWrites(p, s, a, i);
  }

  lemma FinishedEmpty(s: State)
    requires s.db == Db(0,
                        map[7 := Message(NOTE, "d", 0, Delivering, 1, MinusInfinity, Some(1), Some(SECOND), None,
                                         None)], map[], {}, map[])
    requires s.claims == map[1 := Claim(7, 1, 1)]
    ensures Next(ONE_TRY, s, Finish(1, Some(""))).db ==
            s.db.(messages := map[7 := Message(NOTE, "d", 0, Published, 1, At(2 * SECOND), None, None, None, Some(""))])
  {
    assert Backoff(1) == 2 by {
      assert Pow2(1) == 2 * Pow2(0);
    }
  }

  // And one is reachable: published to nobody, with no time.
  lemma UntimedIsReachable() returns (p: Policy, actions: seq<Action>)
    ensures Sound(p) && Elapsed(p, After(p, 0, actions).db)
    ensures 7 in After(p, 0, actions).db.messages && Registered(p, After(p, 0, actions).db.messages[7])
    ensures Untimed(p, After(p, 0, actions).db, 7)
  {
    hide Run, Finishing, Producing, Claiming;
    p := ONE_TRY;
    actions := [Produce(7, "d", NOTE), ClaimNext(1, {}), Finish(1, Some("")), SetClock(4 * SECOND)];
    RunFour(p, Init(0), actions[0], actions[1], actions[2], actions[3]);
    HandedOnce();
    FinishedEmpty(Next(p, Next(p, Init(0), actions[0]), actions[1]));
  }

  // ---------------------------------------------------------------- schedule and intent

  // No delivery claim happens before a message's not-before time, and no execution claim is made on
  // a read before it. An execution lease starts before it only if the clock went back after that read.
  lemma NeverBeforeTime(p: Policy, now: int, actions: seq<Action>, k: int)
    requires Sound(p) && 0 <= k < |After(p, now, actions).history|
    ensures var s := After(p, now, actions); var e := s.history[k];
            && (e.Handed? ==> e.id in s.db.messages && NotBeforeDue(s.db.messages[e.id].intent, e.at))
            && (e.Leased? ==>
                  && e.lease.message in s.db.messages
                  && NotBeforeDue(s.db.messages[e.lease.message].intent, e.readAt)
                  && (NotBeforeDue(s.db.messages[e.lease.message].intent, e.at) || e.at < e.readAt))
  {
    Reachable(p, now, actions);
    assert OnTime(After(p, now, actions).db, After(p, now, actions).history[k]);
  }

  // Topic, key, payload and headers never change; and re-enqueueing a stored deduplication key at any
  // later time returns the stored id exactly when the intent is equal, and changes nothing.
  lemma IntentIsFixed(p: Policy, now: int, actions: seq<Action>, more: seq<Action>, first: Id, id: Id, intent: Intent)
    requires Sound(p) && first in After(p, now, actions).db.messages
    requires id !in Run(p, After(p, now, actions), more).db.messages
    ensures var was := After(p, now, actions).db; var db := Run(p, After(p, now, actions), more).db;
            && first in db.messages && db.messages[first].intent == was.messages[first].intent
            && Enqueued(db, id, was.messages[first].dedup, intent).0 == db
            && (Enqueued(db, id, was.messages[first].dedup, intent).1 == Some(first) <==>
               intent == was.messages[first].intent)
            && (Enqueued(db, id, was.messages[first].dedup, intent).1 == None <==> intent != was.messages[first].intent)
  {
    Reachable(p, now, actions);
    RunInv(p, After(p, now, actions), more);
    RunKeeps(p, After(p, now, actions), more);
    EnqueueAgain(Run(p, After(p, now, actions), more).db, first, id, After(p, now, actions).db.messages[first].dedup,
                 intent);
  }
}
