// The delivery protocol as a state machine. Publishers, consumers, the reconciler, the operator's
// replay, crashes (a process that takes no further step) and the clock interleave freely; each
// action is one transaction. An action whose condition does not hold writes nothing.

module DeliveryRuns {
  import opened Common
  import opened Clock
  import opened Outbox
  import opened Delivery
  import opened Tasks

  type Pid = nat

  // Where one consume call stands.
  datatype Phase =
    | Reading(id: Id, intent: Intent, readAt: int)  // after the first SELECT of claim_execution
    | Refused                                       // claim_execution returned None
    | Running(lease: Lease, intent: Intent)
    | Closing(lease: Lease, intent: Intent)         // finished, failed or cancelled; release pending or done

  datatype Event =
    | Handed(id: Id, at: int, again: bool)          // claim_delivery; again: from an expired publisher
    | Reset(id: Id)                                 // replay
    | Leased(lease: Lease, readAt: int, at: int)    // claim_execution
    | Committed(commit: Commit)                     // a guarded session committed

  // Times a message was handed to a publisher since it was enqueued or last replayed, and
  // consecutive reclaims of an expired delivering lease since the last claim out of pending.
  datatype Count = Count(handed: nat, reclaims: nat)

  datatype State = State(db: Db, claims: map<Owner, Claim>, consumers: map<Pid, Phase>, history: seq<Event>,
      counts: map<Id, Count>)

  function CountOf(s: State, i: Id): Count {
    if i in s.counts then s.counts[i] else Count(0, 0)
  }

  datatype Action =
    | SetClock(now: int)                            // any value: the clock may jump either way
    | Produce(id: Id, dedup: string, intent: Intent)
    | ClaimNext(owner: Owner, locked: set<Id>)
    | Finish(owner: Owner, error: Option<string>)
    | Reconcile(locked: set<Id>)
    | Replay(id: Id)
    | Read(pid: Pid, id: Id)
    | Grant(pid: Pid, owner: Owner)
    | Renew(pid: Pid)
    | Progress(pid: Pid, effect: string)            // a commit made by the handler itself
    | Final(pid: Pid, effect: string)               // handler effects and inbox marker together
    | Stop(pid: Pid)                                // the handler raised, or was cancelled
    | Release(pid: Pid)

  function Init(now: int): State {
    State(Db(now, map[], map[], {}, map[]), map[], map[], [], map[])
  }

  predicate Holds(s: State, pid: Pid) {
    pid in s.consumers && (s.consumers[pid].Running? || s.consumers[pid].Closing?)
  }

  // A fresh uuid4 names every claim, so an owner is never handed out twice.
  ghost function Claiming(p: Policy, s: State, owner: Owner, locked: set<Id>): State {
    var r := Claimed(p, s.db, owner, locked);
    if owner in s.claims || r.1.None? then s else Handing(p, s, r.1.value.id, owner)
  }

  function Handing(p: Policy, s: State, i: Id, owner: Owner): State
    requires i in s.db.messages
  {
    var again := s.db.messages[i].status.Delivering?;
    var count := CountOf(s, i);
    s.(db := Taken(p, s.db, i, owner),
       claims := s.claims[owner := Claim(i, owner, s.db.messages[i].attempts + 1)],
       history := s.history + [Handed(i, s.db.now, again)],
       counts := s.counts[i := Count(count.handed + 1, if again then count.reclaims + 1 else 0)])
  }

  // pump passes None or the name of an exception class; other callers may pass any text.
  function Finishing(p: Policy, s: State, owner: Owner, error: Option<string>): State {
    if owner !in s.claims then s else
    var written := Finished(p, s.db, s.claims[owner], error);
    if written.None? then s else s.(db := written.value)
  }

  function Replaying(p: Policy, s: State, id: Id): State {
    var written := Replayed(p, s.db, id);
    if written.Err? then s
    else s.(db := written.value, history := s.history + [Reset(id)],
            counts := s.counts[id := CountOf(s, id).(handed := 0)])
  }

  function ReadingStep(p: Policy, s: State, pid: Pid, id: Id): State {
    if pid in s.consumers || !Executable(p, s.db, id) then s
    else s.(consumers := s.consumers[pid := Reading(id, s.db.messages[id].intent, s.db.now)])
  }

  function Granting(p: Policy, s: State, pid: Pid, owner: Owner): State {
    if pid !in s.consumers || !s.consumers[pid].Reading? then s
    else
      var Reading(id, intent, readAt) := s.consumers[pid];
      var r := Granted(p, s.db, id, intent, owner);
      if r.1.None? then s.(db := r.0, consumers := s.consumers[pid := Refused])
      else s.(db := r.0, consumers := s.consumers[pid := Running(r.1.value, intent)],
           history := s.history + [Leased(r.1.value, readAt, s.db.now)])
  }

  function Renewing(p: Policy, s: State, pid: Pid): State {
    if !Holds(s, pid) then s else
    var written := Renewed(p, s.db, s.consumers[pid].lease);
    if written.None? then s else s.(db := written.value)
  }

  predicate MayCommit(s: State, pid: Pid) {
    pid in s.consumers && s.consumers[pid].Running? && Current(s.db, s.consumers[pid].lease)
  }

  function Progressing(s: State, pid: Pid, effect: string): State {
    if !MayCommit(s, pid) then s
    else s.(history := s.history + [Committed(Commit(s.consumers[pid].lease, false, effect))])
  }

  function Finalizing(s: State, pid: Pid, effect: string): State {
    if !MayCommit(s, pid) then s
    else
      var Running(l, intent) := s.consumers[pid];
      s.(db := Marked(s.db, intent.topic, l.message), consumers := s.consumers[pid := Closing(l, intent)],
      history := s.history + [Committed(Commit(l, true, effect))])
  }

  function Stopping(s: State, pid: Pid): State {
    if pid !in s.consumers || !s.consumers[pid].Running? then s
    else s.(consumers := s.consumers[pid := Closing(s.consumers[pid].lease, s.consumers[pid].intent)])
  }

  function Releasing(s: State, pid: Pid): State {
    if pid !in s.consumers || !s.consumers[pid].Closing? then s
    else s.(db := Released(s.db, s.consumers[pid].lease))
  }

  ghost function Producing(s: State, id: Id, dedup: string, intent: Intent): State {
    if id in s.db.messages then s else s.(db := Enqueued(s.db, id, dedup, intent).0)
  }

  function Reconciling(p: Policy, s: State, locked: set<Id>): State {
    s.(db := Reconciled(p, s.db, s.db.messages.Keys - locked))
  }

  ghost function Next(p: Policy, s: State, a: Action): State {
    match a
    case SetClock(now) => s.(db := s.db.(now := now))
    case Produce(id, dedup, intent) => Producing(s, id, dedup, intent)
    case ClaimNext(owner, locked) => Claiming(p, s, owner, locked)
    case Finish(owner, error) => Finishing(p, s, owner, error)
    case Reconcile(locked) => Reconciling(p, s, locked)
    case Replay(id) => Replaying(p, s, id)
    case Read(pid, id) => ReadingStep(p, s, pid, id)
    case Grant(pid, owner) => Granting(p, s, pid, owner)
    case Renew(pid) => Renewing(p, s, pid)
    case Progress(pid, effect) => Progressing(s, pid, effect)
    case Final(pid, effect) => Finalizing(s, pid, effect)
    case Stop(pid) => Stopping(s, pid)
    case Release(pid) => Releasing(s, pid)
  }

  ghost function Run(p: Policy, s: State, actions: seq<Action>): State
    decreases |actions|
  {
    if actions == [] then s else Run(p, Next(p, s, actions[0]), actions[1..])
  }

  // ---------------------------------------------------------------- what the history says

  function HandedTimes(h: seq<Event>, i: Id): nat {
    if h == [] then 0
    else
      var before, e := HandedTimes(h[..|h| - 1], i), h[|h| - 1];
      if e.Handed? && e.id == i then before + 1 else if e.Reset? && e.id == i then 0 else before
  }

  function Reclaims(h: seq<Event>, i: Id): nat {
    if h == [] then 0
    else
      var before, e := Reclaims(h[..|h| - 1], i), h[|h| - 1];
      if e.Handed? && e.id == i then (if e.again then before + 1 else 0) else before
  }

  lemma Appended(h: seq<Event>, e: Event, i: Id)
    ensures HandedTimes(h + [e], i) ==
            if e.Handed? && e.id == i then HandedTimes(h, i) + 1 else if e.Reset? && e.id == i then 0
            else HandedTimes(h, i)
    ensures Reclaims(h + [e], i) == if e.Handed? && e.id == i then (if e.again then Reclaims(h, i) + 1 else 0)
                                    else Reclaims(h, i)
  {}

  // ---------------------------------------------------------------- invariants: publishers

  // A delivering message, and no other, has a lease; its owner is a claim that saw this attempt count.
  predicate LeasedRight(s: State, i: Id)
    requires i in s.db.messages
  {
    var m := s.db.messages[i];
    && (m.status.Delivering? <==> m.leaseOwner.Some?)
    && (m.leaseOwner.Some? <==> m.leaseExpires.Some?)
    && (m.status.Published? ==> m.publishedAt.Some? || m.lastError == Some(""))
    && (m.leaseOwner.Some? ==> m.leaseOwner.value in s.claims
                               && s.claims[m.leaseOwner.value] == Claim(i, m.leaseOwner.value, m.attempts))
  }

  predicate Bounded(p: Policy, s: State, i: Id)
    requires i in s.db.messages
  {
    var m := s.db.messages[i];
    && m.attempts == CountOf(s, i).handed
    && m.attempts <= p.maxAttempts + CountOf(s, i).reclaims
    && (m.status.Pending? && !ActiveDead(s.db, i) ==> m.attempts < p.maxAttempts)
  }

  predicate RowSound(p: Policy, s: State, i: Id)
    requires i in s.db.messages
  {
    LeasedRight(s, i) && Bounded(p, s, i)
  }

  ghost predicate Publishing(p: Policy, s: State) {
    && s.db.dead.Keys <= s.db.messages.Keys
    && (forall o :: o in s.claims ==> s.claims[o].owner == o)
    && s.counts.Keys <= s.db.messages.Keys
    && forall i {:trigger RowSound(p, s, i)} :: i in s.db.messages ==> RowSound(p, s, i)
  }

  // ---------------------------------------------------------------- invariants: consumers

  predicate LeaseSound(db: Db, l: Lease, intent: Intent) {
    && l.message in db.messages && db.messages[l.message].intent == intent
    && l.resource == Resource(intent)
    && l.resource in db.executions
    && l.epoch <= db.executions[l.resource].epoch
    && (l.epoch == db.executions[l.resource].epoch ==> Matches(db, l))
  }

  ghost predicate HoldersSound(s: State) {
    && (forall pid :: Holds(s, pid) ==> LeaseSound(s.db, s.consumers[pid].lease, s.consumers[pid].intent))
    && (forall pid :: pid in s.consumers && s.consumers[pid].Reading? ==>
                        s.consumers[pid].id in s.db.messages
                        && s.db.messages[s.consumers[pid].id].intent == s.consumers[pid].intent)
    && forall x, y :: Holds(s, x) && Holds(s, y) && x != y
                      && s.consumers[x].lease.resource == s.consumers[y].lease.resource ==>
                        s.consumers[x].lease.epoch != s.consumers[y].lease.epoch
  }

  // Commits under one resource carry non-decreasing epochs, none above the row's.
  ghost predicate Fenced(s: State) {
    && (forall k :: 0 <= k < |s.history| && s.history[k].Committed? ==>
                      var l := s.history[k].commit.lease;
                      l.resource in s.db.executions && l.epoch <= s.db.executions[l.resource].epoch)
    && forall j, k :: 0 <= j < k < |s.history| && s.history[j].Committed? && s.history[k].Committed?
                      && s.history[j].commit.lease.resource == s.history[k].commit.lease.resource ==>
                        s.history[j].commit.lease.epoch <= s.history[k].commit.lease.epoch
  }

  predicate IsFinal(e: Event, i: Id) {
    e.Committed? && e.commit.final && e.commit.lease.message == i
  }

  // Inbox markers are exactly the final commits, and no message has two.
  ghost predicate MarkedOnce(s: State) {
    && (forall k :: 0 <= k < |s.history| && s.history[k].Committed? && s.history[k].commit.final ==>
                      var i := s.history[k].commit.lease.message;
                      i in s.db.messages && Acknowledged(s.db, i))
    && (forall t, i :: (t, i) in s.db.inbox ==>
                         i in s.db.messages && s.db.messages[i].intent.topic == t
                         && exists k :: 0 <= k < |s.history| && IsFinal(s.history[k], i))
    && forall i, j, k :: 0 <= j < k < |s.history| && IsFinal(s.history[j], i) ==> !IsFinal(s.history[k], i)
  }

  // Whoever still holds the row's epoch and has not finished works on an unacknowledged message.
  ghost predicate HoldersUndone(s: State) {
    forall pid :: pid in s.consumers && s.consumers[pid].Running?
                  && LeaseSound(s.db, s.consumers[pid].lease, s.consumers[pid].intent)
                  && s.consumers[pid].lease.epoch == s.db.executions[s.consumers[pid].lease.resource].epoch ==>
                    !Acknowledged(s.db, s.consumers[pid].lease.message)
  }

  ghost predicate Consuming(s: State) {
    HoldersSound(s) && Fenced(s) && MarkedOnce(s) && HoldersUndone(s)
  }

  // ---------------------------------------------------------------- invariants: schedule

  ghost predicate OnTime(db: Db, e: Event) {
    && (e.Handed? ==> e.id in db.messages && NotBeforeDue(db.messages[e.id].intent, e.at))
    && (e.Leased? ==> e.lease.message in db.messages && NotBeforeDue(db.messages[e.lease.message].intent, e.readAt))
  }

  ghost predicate Timely(s: State) {
    && (forall k :: 0 <= k < |s.history| ==> OnTime(s.db, s.history[k]))
    && forall pid :: pid in s.consumers && s.consumers[pid].Reading? ==>
                       NotBeforeDue(s.consumers[pid].intent, s.consumers[pid].readAt)
  }

  ghost predicate Inv(p: Policy, s: State) {
    UniqueKeys(s.db) && Publishing(p, s) && Consuming(s) && Timely(s)
  }

  // ---------------------------------------------------------------- what never changes

  ghost predicate IntentsKept(a: Db, b: Db) {
    forall i :: i in a.messages ==>
                  && i in b.messages && b.messages[i].intent == a.messages[i].intent
                  && b.messages[i].dedup == a.messages[i].dedup && b.messages[i].createdAt == a.messages[i].createdAt
  }

  ghost predicate EpochsKept(a: Db, b: Db) {
    forall r :: r in a.executions ==>
                  && r in b.executions
                  && (|| b.executions[r].epoch > a.executions[r].epoch
                      || (b.executions[r].epoch == a.executions[r].epoch
                          && (a.executions[r].expiresAt.MinusInfinity? ==> b.executions[r].expiresAt.MinusInfinity?)))
  }

  ghost predicate Kept(a: State, b: State) {
    IntentsKept(a.db, b.db) && EpochsKept(a.db, b.db) && a.history <= b.history
  }

  // An action of the publishing side: it reads the consumer tables but does not write them.
  ghost predicate ConsumersUntouched(a: State, b: State) {
    && b.db.executions == a.db.executions && b.db.inbox == a.db.inbox && b.consumers == a.consumers
    && (b.history == a.history || exists e :: b.history == a.history + [e] && (e.Handed? || e.Reset?))
  }

  // An action of the consuming side.
  ghost predicate PublishersUntouched(a: State, b: State) {
    && b.db.messages == a.db.messages && b.db.dead == a.db.dead && b.claims == a.claims && b.counts == a.counts
    && (b.history == a.history || exists e :: b.history == a.history + [e] && (e.Leased? || e.Committed?))
  }

  ghost predicate PublisherFrame(a: State, b: State) {
    IntentsKept(a.db, b.db) && ConsumersUntouched(a, b)
  }

  ghost predicate ConsumerFrame(a: State, b: State) {
    EpochsKept(a.db, b.db) && PublishersUntouched(a, b)
  }

  lemma ProducingFrame(s: State, id: Id, dedup: string, intent: Intent)
    ensures PublisherFrame(s, Producing(s, id, dedup, intent))
  {
  }

  lemma ClaimingFrame(p: Policy, s: State, owner: Owner, locked: set<Id>)
    ensures PublisherFrame(s, Claiming(p, s, owner, locked))
  {
  }

  lemma SettledIntent(db: Db, c: Claim, error: Option<string>)
    requires c.id in db.messages
    ensures Settled(db, c, error).intent == db.messages[c.id].intent
    ensures Settled(db, c, error).dedup == db.messages[c.id].dedup
            && Settled(db, c, error).createdAt == db.messages[c.id].createdAt
  {
  }

  lemma FinishingFrame(p: Policy, s: State, owner: Owner, error: Option<string>)
    ensures PublisherFrame(s, Finishing(p, s, owner, error))
  {
    if owner in s.claims && Owns(s.db, s.claims[owner]) {
      var c := s.claims[owner];
      SettledIntent(s.db, c, error);
      assert Finishing(p, s, owner, error).db.messages == s.db.messages[c.id := Settled(s.db, c, error)];
    }
  }

  lemma ReconcilingFrame(p: Policy, s: State, locked: set<Id>)
    ensures PublisherFrame(s, Reconciling(p, s, locked))
  {
  }

  lemma ReplayingFrame(p: Policy, s: State, id: Id)
    ensures PublisherFrame(s, Replaying(p, s, id))
  {
  }

  lemma GrantingFrame(p: Policy, s: State, pid: Pid, owner: Owner)
    ensures ConsumerFrame(s, Granting(p, s, pid, owner))
  {
  }

  lemma RenewingFrame(p: Policy, s: State, pid: Pid)
    ensures ConsumerFrame(s, Renewing(p, s, pid))
  {
  }

  lemma CommittingFrame(s: State, pid: Pid, effect: string)
    ensures ConsumerFrame(s, Progressing(s, pid, effect))
    ensures ConsumerFrame(s, Finalizing(s, pid, effect))
  {
  }

  lemma ReleasingFrame(s: State, pid: Pid)
    ensures ConsumerFrame(s, Releasing(s, pid))
  {
  }

  lemma NextKeeps(p: Policy, s: State, a: Action)
    ensures Kept(s, Next(p, s, a))
  {
    hide Claiming, Finishing, Reconciling, Replaying, Producing, Granting, Renewing, Progressing, Finalizing, Releasing;
    match a
    case SetClock(_) =>
    case Produce(id, dedup, intent) => ProducingFrame(s, id, dedup, intent);
    case ClaimNext(owner, locked) => ClaimingFrame(p, s, owner, locked);
    case Finish(owner, error) => FinishingFrame(p, s, owner, error);
    case Reconcile(locked) => ReconcilingFrame(p, s, locked);
    case Replay(id) => ReplayingFrame(p, s, id);
    case Read(pid, id) =>
    case Grant(pid, owner) => GrantingFrame(p, s, pid, owner);
    case Renew(pid) => RenewingFrame(p, s, pid);
    case Progress(pid, effect) => CommittingFrame(s, pid, effect);
    case Final(pid, effect) => CommittingFrame(s, pid, effect);
    case Stop(pid) =>
    case Release(pid) => ReleasingFrame(s, pid);
  }

  lemma {:induction false} RunKeeps(p: Policy, s: State, actions: seq<Action>)
    ensures Kept(s, Run(p, s, actions))
    decreases |actions|
  {
    if actions != [] {
      NextKeeps(p, s, actions[0]);
      RunKeeps(p, Next(p, s, actions[0]), actions[1..]);
      KeptTransitive(s, Next(p, s, actions[0]), Run(p, s, actions));
    }
  }

  lemma KeptTransitive(a: State, b: State, c: State)
    requires Kept(a, b) && Kept(b, c)
    ensures Kept(a, c)
  {
  }

  // ---------------------------------------------------------------- preservation: publishers

  lemma NextKeepsKeysUnique(p: Policy, s: State, a: Action)
    requires UniqueKeys(s.db)
    ensures UniqueKeys(Next(p, s, a).db)
  {
    if a.Produce? {
      var _ := Producing(s, a.id, a.dedup, a.intent);
    } else {
      NextKeeps(p, s, a);
      assert Next(p, s, a).db.messages.Keys == s.db.messages.Keys;
    }
  }

  lemma ProducingPublishes(p: Policy, s: State, id: Id, dedup: string, intent: Intent)
    requires Sound(p) && Publishing(p, s)
    ensures Publishing(p, Producing(s, id, dedup, intent))
  {
    hide Due, Registered;
    var after := Producing(s, id, dedup, intent);
    ProducingFrame(s, id, dedup, intent);
    forall i | i in after.db.messages
      ensures RowSound(p, after, i)
    {
      if i in s.db.messages {
        RowFrame(p, s, after, i);
      } else {
        assert after.db.messages[i] == NewMessage(dedup, intent, s.db.now);
      }
    }
  }

  // A row the step did not touch stays sound.
  lemma RowFrame(p: Policy, a: State, b: State, k: Id)
    requires k in a.db.messages && k in b.db.messages && RowSound(p, a, k)
    requires b.db.messages[k] == a.db.messages[k]
    requires ActiveDead(b.db, k) == ActiveDead(a.db, k)
    requires CountOf(b, k) == CountOf(a, k)
    requires forall o :: o in a.claims ==> o in b.claims && b.claims[o] == a.claims[o]
    ensures RowSound(p, b, k)
  {
  }

  lemma HandingRow(p: Policy, s: State, i: Id, owner: Owner)
    requires Sound(p) && Claimable(p, s.db, i) && RowSound(p, s, i)
    ensures RowSound(p, Handing(p, s, i, owner), i)
  {
  }

  lemma ClaimingPublishes(p: Policy, s: State, owner: Owner, locked: set<Id>)
    requires Sound(p) && Publishing(p, s)
    ensures Publishing(p, Claiming(p, s, owner, locked))
  {
    var r := Claimed(p, s.db, owner, locked);
    if owner !in s.claims && r.1.Some? {
      HandingPublishes(p, s, r.1.value.id, owner);
    }
  }

  lemma HandingPublishes(p: Policy, s: State, i: Id, owner: Owner)
    requires Sound(p) && Publishing(p, s) && Claimable(p, s.db, i) && owner !in s.claims
    ensures Publishing(p, Handing(p, s, i, owner))
  {
    var after := Handing(p, s, i, owner);
    forall k | k in after.db.messages
      ensures RowSound(p, after, k)
    {
      if k == i {
        HandingRow(p, s, i, owner);
      } else {
        RowFrame(p, s, after, k);
      }
    }
  }

  lemma SettledRow(p: Policy, s: State, after: State, c: Claim, error: Option<string>)
    requires Sound(p) && Owns(s.db, c) && RowSound(p, s, c.id) && c.owner in s.claims && s.claims[c.owner] == c
    requires c.id in after.db.messages && after.db.messages[c.id] == Settled(s.db, c, error)
    requires CountOf(after, c.id) == CountOf(s, c.id)
    requires Failed(error) && c.attempts >= p.maxAttempts ==> ActiveDead(after.db, c.id)
    ensures RowSound(p, after, c.id)
  {
  }

  lemma FinishingPublishes(p: Policy, s: State, owner: Owner, error: Option<string>)
    requires Sound(p) && Publishing(p, s)
    ensures Publishing(p, Finishing(p, s, owner, error))
  {
    hide RowSound, Settled;
    if owner in s.claims && Owns(s.db, s.claims[owner]) {
      var c := s.claims[owner];
      var after := Finishing(p, s, owner, error);
      FinishingFrame(p, s, owner, error);
      SettledRow(p, s, after, c, error);
      forall k | k in after.db.messages
        ensures RowSound(p, after, k)
      {
        if k != c.id {
          assert ActiveDead(after.db, k) == ActiveDead(s.db, k);
          RowFrame(p, s, after, k);
        }
      }
    }
  }

  lemma ReconcilingPublishes(p: Policy, s: State, locked: set<Id>)
    requires Sound(p) && Publishing(p, s)
    ensures Publishing(p, Reconciling(p, s, locked))
  {
    var after := Reconciling(p, s, locked);
    forall k | k in after.db.messages
      ensures RowSound(p, after, k)
    {
      assert RowSound(p, s, k);
      assert !Judge(p, s.db, k).Bury? ==> ActiveDead(after.db, k) == ActiveDead(s.db, k);
    }
  }

  lemma ReplayingPublishes(p: Policy, s: State, id: Id)
    requires Sound(p) && Publishing(p, s)
    ensures Publishing(p, Replaying(p, s, id))
  {
    if Replayed(p, s.db, id).Ok? {
      var after := Replaying(p, s, id);
      forall k | k in after.db.messages
        ensures RowSound(p, after, k)
      {
        assert RowSound(p, s, k);
        if k != id {
          RowFrame(p, s, after, k);
        }
      }
    }
  }

  lemma UntouchedPublishes(p: Policy, a: State, b: State)
    requires Publishing(p, a) && PublishersUntouched(a, b)
    ensures Publishing(p, b)
  {
    forall k | k in b.db.messages
      ensures RowSound(p, b, k)
    {
      RowFrame(p, a, b, k);
    }
  }

  // ---------------------------------------------------------------- preservation: consumers

  lemma UntouchedConsumes(a: State, b: State)
    requires Consuming(a) && ConsumersUntouched(a, b) && IntentsKept(a.db, b.db)
    ensures Consuming(b)
  {
    UntouchedHolders(a, b);
    UntouchedFenced(a, b);
    UntouchedMarked(a, b);
  }

  lemma UntouchedHolders(a: State, b: State)
    requires HoldersSound(a) && HoldersUndone(a) && ConsumersUntouched(a, b) && IntentsKept(a.db, b.db)
    ensures HoldersSound(b) && HoldersUndone(b)
  {}

  lemma UntouchedFenced(a: State, b: State)
    requires Fenced(a) && ConsumersUntouched(a, b)
    ensures Fenced(b)
  {
  }

  lemma UntouchedMarked(a: State, b: State)
    requires MarkedOnce(a) && ConsumersUntouched(a, b) && IntentsKept(a.db, b.db)
    ensures MarkedOnce(b)
  {
    forall t, i | (t, i) in b.db.inbox
      ensures exists k :: 0 <= k < |b.history| && IsFinal(b.history[k], i)
    {
      var k :| 0 <= k < |a.history| && IsFinal(a.history[k], i);
      assert IsFinal(b.history[k], i);
    }
  }

  lemma ReadingConsumes(p: Policy, s: State, pid: Pid, id: Id)
    requires Consuming(s)
    ensures Consuming(ReadingStep(p, s, pid, id))
  {
    var after := ReadingStep(p, s, pid, id);
    assert forall q :: Holds(after, q) <==> Holds(s, q);
    assert Fenced(after) && MarkedOnce(after);
  }

  // Raising the row's epoch overtakes every holder of the resource.
  lemma RaisedLease(p: Policy, db: Db, i: Id, intent: Intent, owner: Owner, l: Lease, held: Intent)
    requires LeaseSound(db, l, held)
    ensures LeaseSound(Granted(p, db, i, intent, owner).0, l, held)
    ensures l.resource == Resource(intent) ==> l.epoch < NextEpoch(db, Resource(intent))
  {
  }

  lemma GrantedLease(p: Policy, db: Db, i: Id, intent: Intent, owner: Owner)
    requires i in db.messages && db.messages[i].intent == intent
    ensures var r := Granted(p, db, i, intent, owner);
            && r.0.messages == db.messages
            && (r.1.Some? ==> LeaseSound(r.0, r.1.value, intent) && r.1.value.resource == Resource(intent)
                              && r.1.value.epoch == NextEpoch(db, Resource(intent)))
  {
  }

  lemma GrantingHolders(p: Policy, s: State, pid: Pid, owner: Owner)
    requires HoldersSound(s)
    ensures HoldersSound(Granting(p, s, pid, owner))
  {
    hide LeaseSound, Granted, NextEpoch, Resource;
    if pid in s.consumers && s.consumers[pid].Reading? {
      var Reading(id, intent, readAt) := s.consumers[pid];
      var after := Granting(p, s, pid, owner);
      GrantedLease(p, s.db, id, intent, owner);
      forall q | Holds(after, q)
        ensures LeaseSound(after.db, after.consumers[q].lease, after.consumers[q].intent)
        ensures q != pid ==> Holds(s, q) && after.consumers[q] == s.consumers[q]
        ensures q != pid && after.consumers[q].lease.resource == Resource(intent) ==>
                after.consumers[q].lease.epoch < NextEpoch(s.db, Resource(intent))
      {
        if q != pid {
          assert Holds(s, q);
          RaisedLease(p, s.db, id, intent, owner, s.consumers[q].lease, s.consumers[q].intent);
        }
      }
    }
  }

  lemma GrantingUndone(p: Policy, s: State, pid: Pid, owner: Owner)
    requires HoldersSound(s) && HoldersUndone(s)
    ensures HoldersUndone(Granting(p, s, pid, owner))
  {}

  lemma GrantingHistory(p: Policy, s: State, pid: Pid, owner: Owner)
    requires Fenced(s) && MarkedOnce(s)
    ensures Fenced(Granting(p, s, pid, owner)) && MarkedOnce(Granting(p, s, pid, owner))
  {
    GrantingFrame(p, s, pid, owner);
    QuietHistory(s, Granting(p, s, pid, owner));
  }

  // A consumer action that commits nothing.
  lemma QuietHistory(a: State, b: State)
    requires Fenced(a) && MarkedOnce(a) && ConsumerFrame(a, b) && b.db.inbox == a.db.inbox
    requires b.history == a.history || exists e :: b.history == a.history + [e] && e.Leased?
    ensures Fenced(b) && MarkedOnce(b)
  {
    forall t, i | (t, i) in b.db.inbox
      ensures exists k :: 0 <= k < |b.history| && IsFinal(b.history[k], i)
    {
      var k :| 0 <= k < |a.history| && IsFinal(a.history[k], i);
      assert IsFinal(b.history[k], i);
    }
  }

  // Renew, stop and release keep every epoch, message and owner, and start no lease.
  lemma SameEpochs(a: State, b: State)
    requires HoldersSound(a) && HoldersUndone(a)
    requires b.db.messages == a.db.messages && b.db.inbox == a.db.inbox
    requires b.db.executions.Keys == a.db.executions.Keys
    requires forall r ::
               r in a.db.executions ==> b.db.executions[r].(expiresAt := MinusInfinity) ==
                                        a.db.executions[r].(expiresAt := MinusInfinity)
    requires b.consumers.Keys == a.consumers.Keys
    requires forall q :: q in a.consumers ==> b.consumers[q] == a.consumers[q]
                                              || (a.consumers[q].Running?
                                                  && b.consumers[q] ==
                                                     Closing(a.consumers[q].lease, a.consumers[q].intent))
    ensures HoldersSound(b) && HoldersUndone(b)
  {
    forall q | Holds(b, q)
      ensures Holds(a, q) && LeaseSound(b.db, b.consumers[q].lease, b.consumers[q].intent)
    {
      assert Holds(a, q);
    }
  }

  lemma RenewingConsumes(p: Policy, s: State, pid: Pid)
    requires Consuming(s)
    ensures Consuming(Renewing(p, s, pid))
  {
    SameEpochs(s, Renewing(p, s, pid));
    RenewingFrame(p, s, pid);
    QuietHistory(s, Renewing(p, s, pid));
  }

  lemma StoppingConsumes(s: State, pid: Pid)
    requires Consuming(s)
    ensures Consuming(Stopping(s, pid))
  {
    SameEpochs(s, Stopping(s, pid));
    QuietHistory(s, Stopping(s, pid));
  }

  lemma ReleasingConsumes(s: State, pid: Pid)
    requires Consuming(s)
    ensures Consuming(Releasing(s, pid))
  {
    SameEpochs(s, Releasing(s, pid));
    ReleasingFrame(s, pid);
    QuietHistory(s, Releasing(s, pid));
  }

  // A guarded commit carries the row's own epoch, so it is not below any earlier one.
  lemma CommitFenced(s: State, after: State, pid: Pid, c: Commit)
    requires Fenced(s) && MayCommit(s, pid) && c.lease == s.consumers[pid].lease
    requires after.history == s.history + [Committed(c)] && after.db.executions == s.db.executions
    ensures Fenced(after)
  {
  }

  lemma ProgressingConsumes(s: State, pid: Pid, effect: string)
    requires Consuming(s)
    ensures Consuming(Progressing(s, pid, effect))
  {
    if MayCommit(s, pid) {
      var c := Commit(s.consumers[pid].lease, false, effect);
      var after := Progressing(s, pid, effect);
      CommitFenced(s, after, pid, c);
      SameEpochs(s, after);
      forall t, i | (t, i) in after.db.inbox
        ensures exists k :: 0 <= k < |after.history| && IsFinal(after.history[k], i)
      {
        var k :| 0 <= k < |s.history| && IsFinal(s.history[k], i);
        assert IsFinal(after.history[k], i);
      }
    }
  }

  // The marker is absent when a final commit passes the guard: claim_inbox_once returns True,
  // and consume may ignore what it returns.
  lemma FinalFindsNoMarker(s: State, pid: Pid)
    requires Consuming(s) && MayCommit(s, pid)
    ensures s.consumers[pid].lease.message in s.db.messages
    ensures s.consumers[pid].intent == s.db.messages[s.consumers[pid].lease.message].intent
    ensures !Acknowledged(s.db, s.consumers[pid].lease.message)
    ensures forall k :: 0 <= k < |s.history| ==> !IsFinal(s.history[k], s.consumers[pid].lease.message)
  {}

  lemma FinalizingHolders(s: State, pid: Pid, effect: string)
    requires HoldersSound(s) && HoldersUndone(s)
    ensures HoldersSound(Finalizing(s, pid, effect)) && HoldersUndone(Finalizing(s, pid, effect))
  {
    if MayCommit(s, pid) {
      var after := Finalizing(s, pid, effect);
      assert Holds(s, pid);
      forall q | Holds(after, q)
        ensures Holds(s, q) && LeaseSound(after.db, after.consumers[q].lease, after.consumers[q].intent)
      {
        assert Holds(s, q);
      }
      forall q | q in after.consumers && after.consumers[q].Running?
      && LeaseSound(after.db, after.consumers[q].lease, after.consumers[q].intent)
        && after.consumers[q].lease.epoch == after.db.executions[after.consumers[q].lease.resource].epoch
        ensures !Acknowledged(after.db, after.consumers[q].lease.message)
      {
        // a runner of the same message would hold the same resource at the same epoch
        assert Holds(s, q) && q != pid;
      }
    }
  }

  lemma FinalizingConsumes(s: State, pid: Pid, effect: string)
    requires Consuming(s)
    ensures Consuming(Finalizing(s, pid, effect))
  {
    FinalizingHolders(s, pid, effect);
    if MayCommit(s, pid) {
      var Running(l, intent) := s.consumers[pid];
      var after := Finalizing(s, pid, effect);
      CommitFenced(s, after, pid, Commit(l, true, effect));
      FinalFindsNoMarker(s, pid);
      FinalizingMarked(s, after, l, intent, effect);
    }
  }

  lemma FinalizingMarked(s: State, after: State, l: Lease, intent: Intent, effect: string)
    requires MarkedOnce(s) && l.message in s.db.messages && s.db.messages[l.message].intent == intent
    requires !Acknowledged(s.db, l.message)
    requires after.db == Marked(s.db, intent.topic, l.message)
    requires after.history == s.history + [Committed(Commit(l, true, effect))]
    ensures MarkedOnce(after)
  {
    forall t, i | (t, i) in after.db.inbox
      ensures i in after.db.messages && after.db.messages[i].intent.topic == t
      ensures exists k :: 0 <= k < |after.history| && IsFinal(after.history[k], i)
    {
      if i == l.message && t == intent.topic {
        assert IsFinal(after.history[|s.history|], i);
      } else {
        var k :| 0 <= k < |s.history| && IsFinal(s.history[k], i);
        assert IsFinal(after.history[k], i);
      }
    }
    forall i, j, k | 0 <= j < k < |after.history| && IsFinal(after.history[j], i)
      ensures !IsFinal(after.history[k], i)
    {
      assert IsFinal(s.history[j], i);
    }
  }

  // ---------------------------------------------------------------- preservation: schedule

  lemma UntouchedTimely(a: State, b: State)
    requires Timely(a) && IntentsKept(a.db, b.db) && b.history == a.history
    requires forall pid :: pid in b.consumers && b.consumers[pid].Reading? ==>
             pid in a.consumers && a.consumers[pid] == b.consumers[pid]
    ensures Timely(b)
  {}

  lemma AppendTimely(a: State, b: State, e: Event)
    requires Timely(a) && IntentsKept(a.db, b.db) && b.history == a.history + [e] && OnTime(b.db, e)
    requires forall pid :: pid in b.consumers && b.consumers[pid].Reading? ==>
             pid in a.consumers && a.consumers[pid] == b.consumers[pid]
    ensures Timely(b)
  {}

  lemma ClaimingTimely(p: Policy, s: State, owner: Owner, locked: set<Id>)
    requires Timely(s)
    ensures Timely(Claiming(p, s, owner, locked))
  {}

  lemma GrantingTimely(p: Policy, s: State, pid: Pid, owner: Owner)
    requires Timely(s) && HoldersSound(s)
    ensures Timely(Granting(p, s, pid, owner))
  {}

  lemma CommittingTimely(s: State, pid: Pid, effect: string)
    requires Timely(s)
    ensures Timely(Progressing(s, pid, effect)) && Timely(Finalizing(s, pid, effect))
  {}

  lemma ReplayingTimely(p: Policy, s: State, id: Id)
    requires Timely(s)
    ensures Timely(Replaying(p, s, id))
  {
    ReplayingFrame(p, s, id);
    if Replayed(p, s.db, id).Ok? {
      AppendTimely(s, Replaying(p, s, id), Reset(id));
    }
  }

  lemma ClockTimely(s: State, clock: int)
    requires Timely(s)
    ensures Timely(s.(db := s.db.(now := clock)))
  {
  }

  lemma ReadingTimely(p: Policy, s: State, pid: Pid, id: Id)
    requires Timely(s)
    ensures Timely(ReadingStep(p, s, pid, id))
  {
  }

  lemma NextTimely(p: Policy, s: State, a: Action)
    requires Timely(s) && HoldersSound(s)
    ensures Timely(Next(p, s, a))
  {
    hide Timely, HoldersSound, Claiming, Replaying, ReadingStep, Granting, Progressing, Finalizing;
    match a
    case SetClock(clock) => ClockTimely(s, clock);
    case Produce(id, dedup, intent) => ProducingFrame(s, id, dedup, intent);
      UntouchedTimely(s, Producing(s, id, dedup, intent));
    case ClaimNext(owner, locked) => ClaimingTimely(p, s, owner, locked);
    case Finish(owner, error) => FinishingFrame(p, s, owner, error); UntouchedTimely(s, Finishing(p, s, owner, error));
    case Reconcile(locked) => ReconcilingFrame(p, s, locked); UntouchedTimely(s, Reconciling(p, s, locked));
    case Replay(id) => ReplayingTimely(p, s, id);
    case Read(pid, id) => ReadingTimely(p, s, pid, id);
    case Grant(pid, owner) => GrantingTimely(p, s, pid, owner);
    case Renew(pid) => UntouchedTimely(s, Renewing(p, s, pid));
    case Progress(pid, effect) => CommittingTimely(s, pid, effect);
    case Final(pid, effect) => CommittingTimely(s, pid, effect);
    case Stop(pid) => UntouchedTimely(s, Stopping(s, pid));
    case Release(pid) => UntouchedTimely(s, Releasing(s, pid));
  }

  // ---------------------------------------------------------------- every step, every run

  lemma NextPublishes(p: Policy, s: State, a: Action)
    requires Sound(p) && Publishing(p, s)
    ensures Publishing(p, Next(p, s, a))
  {
    match a
    case SetClock(now) =>
      forall i | i in s.db.messages
        ensures RowSound(p, Next(p, s, a), i)
      {
        RowFrame(p, s, Next(p, s, a), i);
      }
    case Produce(id, dedup, intent) => ProducingPublishes(p, s, id, dedup, intent);
    case ClaimNext(owner, locked) => ClaimingPublishes(p, s, owner, locked);
    case Finish(owner, error) => FinishingPublishes(p, s, owner, error);
    case Reconcile(locked) => ReconcilingPublishes(p, s, locked);
    case Replay(id) => ReplayingPublishes(p, s, id);
    case Read(pid, id) => UntouchedPublishes(p, s, ReadingStep(p, s, pid, id));
    case Grant(pid, owner) => GrantingFrame(p, s, pid, owner); UntouchedPublishes(p, s, Granting(p, s, pid, owner));
    case Renew(pid) => RenewingFrame(p, s, pid); UntouchedPublishes(p, s, Renewing(p, s, pid));
    case Progress(pid, effect) => CommittingFrame(s, pid, effect);
      UntouchedPublishes(p, s, Progressing(s, pid, effect));
    case Final(pid, effect) => CommittingFrame(s, pid, effect); UntouchedPublishes(p, s, Finalizing(s, pid, effect));
    case Stop(pid) => UntouchedPublishes(p, s, Stopping(s, pid));
    case Release(pid) => ReleasingFrame(s, pid); UntouchedPublishes(p, s, Releasing(s, pid));
  }

  lemma NextConsumes(p: Policy, s: State, a: Action)
    requires Consuming(s)
    ensures Consuming(Next(p, s, a))
  {
    match a
    case SetClock(now) => UntouchedConsumes(s, s.(db := s.db.(now := now)));
    case Produce(id, dedup, intent) => ProducingFrame(s, id, dedup, intent);
      UntouchedConsumes(s, Producing(s, id, dedup, intent));
    case ClaimNext(owner, locked) => ClaimingFrame(p, s, owner, locked);
      UntouchedConsumes(s, Claiming(p, s, owner, locked));
    case Finish(owner, error) => FinishingFrame(p, s, owner, error);
      UntouchedConsumes(s, Finishing(p, s, owner, error));
    case Reconcile(locked) => ReconcilingFrame(p, s, locked); UntouchedConsumes(s, Reconciling(p, s, locked));
    case Replay(id) => ReplayingFrame(p, s, id); UntouchedConsumes(s, Replaying(p, s, id));
    case Read(pid, id) => ReadingConsumes(p, s, pid, id);
    case Grant(pid, owner) =>
      GrantingHolders(p, s, pid, owner);
      GrantingUndone(p, s, pid, owner);
      GrantingHistory(p, s, pid, owner);
    case Renew(pid) => RenewingConsumes(p, s, pid);
    case Progress(pid, effect) => ProgressingConsumes(s, pid, effect);
    case Final(pid, effect) => FinalizingConsumes(s, pid, effect);
    case Stop(pid) => StoppingConsumes(s, pid);
    case Release(pid) => ReleasingConsumes(s, pid);
  }

  lemma NextInv(p: Policy, s: State, a: Action)
    requires Sound(p) && Inv(p, s)
    ensures Inv(p, Next(p, s, a))
  {
    NextKeepsKeysUnique(p, s, a);
    NextPublishes(p, s, a);
    NextConsumes(p, s, a);
    NextTimely(p, s, a);
  }

  lemma {:induction false} RunInv(p: Policy, s: State, actions: seq<Action>)
    requires Sound(p) && Inv(p, s)
    ensures Inv(p, Run(p, s, actions))
    decreases |actions|
  {
    if actions != [] {
      NextInv(p, s, actions[0]);
      RunInv(p, Next(p, s, actions[0]), actions[1..]);
    }
  }

  lemma InitInv(p: Policy, now: int)
    ensures Inv(p, Init(now))
  {
  }
}
