// Publisher side of durable delivery: claim, finish, reconcile, replay.
// Each function below is the effect of one SQL transaction on the tables; each method of
// DurableDelivery performs that transaction on the database in place.

module Delivery {
  import opened Common
  import opened Clock
  import opened Outbox

  // topics maps a topic to the consumer that acknowledges it; None marks a rebuildable hint.
  datatype Policy = Policy(topics: map<string, Option<string>>, lease: int, maxAttempts: int)

  predicate Sound(p: Policy) {
    1 <= p.lease <= 3600 && 1 <= p.maxAttempts <= 100
  }

  function Ttl(p: Policy): int {
    p.lease * SECOND
  }

  // What claim_delivery hands to the publisher, as far as finish_delivery reads it.
  datatype Claim = Claim(id: Id, owner: Owner, attempts: nat)

  predicate Registered(p: Policy, m: Message) {
    m.intent.topic in p.topics
  }

  // lease_expires_at <= clock_timestamp(); unknown when the column is NULL, so not satisfied.
  predicate LeaseExpired(m: Message, now: int) {
    m.leaseExpires.Some? && m.leaseExpires.value <= now
  }

  // Waiting to be handed out: pending, or abandoned by a publisher whose lease ran out.
  predicate Waiting(m: Message, now: int) {
    m.status.Pending? || (m.status.Delivering? && LeaseExpired(m, now))
  }

  predicate Claimable(p: Policy, db: Db, i: Id) {
    && i in db.messages
    && Registered(p, db.messages[i])
    && Due(db.messages[i].availableAt, db.now)
    && NotBeforeDue(db.messages[i].intent, db.now)
    && Waiting(db.messages[i], db.now)
    && !ActiveDead(db, i)
  }

  // ---------------------------------------------------------------- claim

  // ORDER BY created_at, id
  predicate NotAfter(db: Db, i: Id, j: Id)
    requires i in db.messages && j in db.messages
  {
    || db.messages[i].createdAt < db.messages[j].createdAt
    || (db.messages[i].createdAt == db.messages[j].createdAt && i <= j)
  }

  // FOR UPDATE SKIP LOCKED: rows locked by another transaction are not candidates.
  function Candidates(p: Policy, db: Db, locked: set<Id>): (c: set<Id>)
    ensures forall i :: i in c <==> i !in locked && Claimable(p, db, i)
  {
    set i | i in db.messages && i !in locked && Claimable(p, db, i)
  }

  predicate First(db: Db, ids: set<Id>, i: Id)
    requires ids <= db.messages.Keys
  {
    i in ids && forall j :: j in ids ==> NotAfter(db, i, j)
  }

  lemma {:induction false} FirstExists(db: Db, ids: set<Id>)
    requires ids <= db.messages.Keys && ids != {}
    ensures exists i :: First(db, ids, i)
    decreases ids
  {
    var k :| k in ids;
    if ids == {k} {
      assert First(db, ids, k);
    } else {
      var rest := ids - {k};
      FirstExists(db, rest);
      var i :| First(db, rest, i);
      if NotAfter(db, i, k) {
        assert First(db, ids, i);
      } else {
        forall j | j in ids
          ensures NotAfter(db, k, j)
        {
          assert j in rest ==> NotAfter(db, i, j);
        }
        assert First(db, ids, k);
      }
    }
  }

  function Taken(p: Policy, db: Db, i: Id, owner: Owner): Db
    requires i in db.messages
  {
    var m := db.messages[i];
    db.(messages := db.messages[i := m.(status := Delivering, leaseOwner := Some(owner),
                                        leaseExpires := Some(db.now + Ttl(p)), attempts := m.attempts + 1)])
  }

  ghost function Claimed(p: Policy, db: Db, owner: Owner, locked: set<Id>): (r: (Db, Option<Claim>))
    ensures r.1.None? <==> Candidates(p, db, locked) == {}
    ensures r.1.Some? ==> First(db, Candidates(p, db, locked), r.1.value.id)
  {
    var ids := Candidates(p, db, locked);
    if ids == {} then (db, None)
    else
      FirstExists(db, ids);
      var i :| First(db, ids, i);
      (Taken(p, db, i, owner), Some(Claim(i, owner, db.messages[i].attempts + 1)))
  }

  // ---------------------------------------------------------------- finish

  function Pow2(n: nat): nat {
    if n == 0 then 1 else 2 * Pow2(n - 1)
  }

  function Backoff(attempts: nat): int {
    Min(300, Pow2(Min(attempts, 8)))
  }

  // Python truth of `error`: None and the empty string are both false.
  predicate Failed(error: Option<string>) {
    error.Some? && error.value != ""
  }

  predicate Owns(db: Db, c: Claim) {
    && c.id in db.messages
    && db.messages[c.id].leaseOwner == Some(c.owner)
    && db.messages[c.id].status.Delivering?
    && db.messages[c.id].leaseExpires.Some?
    && db.messages[c.id].leaseExpires.value > db.now
  }

  function Buried(db: Db, i: Id, error: string): Db {
    db.(dead := db.dead[i := DeadLetter(if |error| <= 256 then error else error[..256], db.now, None)])
  }

  function Settled(db: Db, c: Claim, error: Option<string>): Message
    requires c.id in db.messages
  {
    var m := db.messages[c.id];
    m.(status := if Failed(error) then Pending else Published,
       publishedAt := if error.None? then Some(db.now) else m.publishedAt,
       leaseOwner := None, leaseExpires := None, lastError := error,
       availableAt := At(db.now + Backoff(c.attempts) * SECOND))
  }

  // None is DeliveryLeaseLost: nothing is written.
  function Finished(p: Policy, db: Db, c: Claim, error: Option<string>): Option<Db> {
    if !Owns(db, c) then None
    else
      var written := db.(messages := db.messages[c.id := Settled(db, c, error)]);
      Some(if Failed(error) && c.attempts >= p.maxAttempts then Buried(written, c.id, error.value) else written)
  }

  // ---------------------------------------------------------------- reconcile

  datatype Verdict = Leave | Bury(reason: string) | Requeue

  predicate Exhausted(p: Policy, db: Db, i: Id)
    requires i in db.messages
  {
    && Registered(p, db.messages[i])
    && db.messages[i].attempts >= p.maxAttempts
    && Waiting(db.messages[i], db.now)
    && !ActiveDead(db, i)
  }

  predicate Executing(db: Db, i: Id) {
    exists r :: r in db.executions && db.executions[r].message == i && !Due(db.executions[r].expiresAt, db.now)
  }

  predicate Unacknowledged(p: Policy, db: Db, i: Id)
    requires i in db.messages
  {
    var m := db.messages[i];
    && m.intent.topic in p.topics
    && p.topics[m.intent.topic].Some?
    && m.status.Published?
    && m.publishedAt.Some? && m.publishedAt.value < db.now - Ttl(p)
    && (p.topics[m.intent.topic].value, i) !in db.inbox
    && !Executing(db, i)
    && !ActiveDead(db, i)
  }

  function Judge(p: Policy, db: Db, i: Id): Verdict
    requires i in db.messages
  {
    if Exhausted(p, db, i) then Bury("delivery_attempts_exhausted")
    else if !Unacknowledged(p, db, i) then Leave
    else if db.messages[i].attempts >= p.maxAttempts then Bury("consumer_unacknowledged")
    else Requeue
  }

  function Requeued(m: Message): Message {
    m.(status := Pending, availableAt := MinusInfinity)
  }

  // The pass restricted to the given rows: every other row was locked and skipped.
  function Reconciled(p: Policy, db: Db, rows: set<Id>): Db {
    db.(messages := map i | i in db.messages ::
          if i in rows && Judge(p, db, i).Requeue? then Requeued(db.messages[i]) else db.messages[i],
        dead := map i | i in db.dead.Keys + (set i | i in db.messages && i in rows && Judge(p, db, i).Bury?) ::
          if i in db.messages && i in rows && Judge(p, db, i).Bury?
          then DeadLetter(Judge(p, db, i).reason, db.now, None)
          else db.dead[i])
  }

  function RequeuedIds(p: Policy, db: Db, rows: set<Id>): set<Id> {
    set i | i in db.messages && i in rows && Judge(p, db, i).Requeue?
  }

  function UnacknowledgedOf(p: Policy, db: Db, topic: string, locked: set<Id>): set<Id> {
    set i | i in db.messages && i !in locked && db.messages[i].intent.topic == topic && Unacknowledged(p, db, i)
  }

  // ---------------------------------------------------------------- replay

  datatype ReplayError = OutsidePolicy | NotDead

  function Revived(m: Message): Message {
    m.(status := Pending, attempts := 0, availableAt := MinusInfinity,
       lastError := None, leaseOwner := None, leaseExpires := None)
  }

  function Replayed(p: Policy, db: Db, i: Id): Result<Db, ReplayError> {
    if !(i in db.messages && Registered(p, db.messages[i])) then Err(OutsidePolicy)
    else if !ActiveDead(db, i) then Err(NotDead)
    else
      Ok(db.(dead := db.dead[i := db.dead[i].(replayedAt := Some(db.now))],
             messages := db.messages[i := Revived(db.messages[i])]))
  }

  // ---------------------------------------------------------------- facts about single transactions

  lemma BackoffBounds(attempts: nat)
    ensures 1 <= Backoff(attempts) <= 256
  {}

  // Judging a row does not depend on what the same pass did to other rows.
  lemma JudgeFrame(p: Policy, db: Db, rows: set<Id>, i: Id)
    requires i in db.messages && i !in rows
    ensures i in Reconciled(p, db, rows).messages && Reconciled(p, db, rows).messages[i] == db.messages[i]
    ensures Judge(p, Reconciled(p, db, rows), i) == Judge(p, db, i)
  {
    var after := Reconciled(p, db, rows);
    assert ActiveDead(after, i) == ActiveDead(db, i);
    assert Executing(after, i) == Executing(db, i);
  }

  // One more row to bury.
  lemma ReconciledBury(p: Policy, db: Db, rows: set<Id>, i: Id)
    requires i in db.messages && i !in rows && Judge(p, db, i).Bury?
    ensures Reconciled(p, db, rows + {i}) == Buried(Reconciled(p, db, rows), i, Judge(p, db, i).reason)
  {
    var a, b := Reconciled(p, db, rows), Reconciled(p, db, rows + {i});
    var d := Buried(a, i, Judge(p, db, i).reason).dead;
    assert a.messages == b.messages;
    assert d.Keys == b.dead.Keys;
    assert d == b.dead;
  }

  // One more row to requeue.
  lemma ReconciledRequeue(p: Policy, db: Db, rows: set<Id>, i: Id)
    requires i in db.messages && i !in rows && Judge(p, db, i).Requeue?
    ensures Reconciled(p, db, rows + {i}) ==
            Reconciled(p, db, rows).(messages := Reconciled(p, db, rows).messages[i := Requeued(db.messages[i])])
  {
    var a, b := Reconciled(p, db, rows), Reconciled(p, db, rows + {i});
    assert a.messages[i := Requeued(db.messages[i])] == b.messages;
    assert a.dead.Keys == b.dead.Keys;
    assert a.dead == b.dead;
  }

  lemma ReconciledNothing(p: Policy, db: Db)
    ensures Reconciled(p, db, {}) == db
  {}

  lemma UnacknowledgedVerdict(p: Policy, db: Db, i: Id)
    requires i in db.messages && Unacknowledged(p, db, i)
    ensures Judge(p, db, i) == if db.messages[i].attempts >= p.maxAttempts then Bury("consumer_unacknowledged")
                               else Requeue
  {}

  lemma SettledCount(p: Policy, db: Db, rows: set<Id>, i: Id)
    requires i in db.messages && i !in rows
    ensures |RequeuedIds(p, db, rows + {i})| == |RequeuedIds(p, db, rows)| + if Judge(p, db, i).Requeue? then 1 else 0
  {
    hide Judge;
    assert RequeuedIds(p, db, rows + {i}) == RequeuedIds(p, db, rows) + if Judge(p, db, i).Requeue? then {i} else {};
  }

  // The second loop's query for one topic sees the same rows whatever was settled before it.
  lemma UnacknowledgedFrame(p: Policy, db: Db, rows: set<Id>, topic: string, locked: set<Id>)
    requires rows <= db.messages.Keys
    requires forall i :: i in rows && db.messages[i].intent.topic == topic ==> Exhausted(p, db, i)
    ensures UnacknowledgedOf(p, Reconciled(p, db, rows), topic, locked) == UnacknowledgedOf(p, db, topic, locked)
    ensures UnacknowledgedOf(p, db, topic, locked) !! rows
  {
    var after := Reconciled(p, db, rows);
    forall i | i in db.messages && db.messages[i].intent.topic == topic
      ensures Unacknowledged(p, after, i) == Unacknowledged(p, db, i)
      ensures i in rows ==> !Unacknowledged(p, db, i)
    {
      if i !in rows {
        assert ActiveDead(after, i) == ActiveDead(db, i);
        assert Executing(after, i) == Executing(db, i);
      }
    }
  }

  // Rows the pass leaves alone do not matter.
  lemma ReconciledOnly(p: Policy, db: Db, rows: set<Id>, more: set<Id>)
    requires rows <= more
    requires forall i :: i in db.messages && i in more && i !in rows ==> Judge(p, db, i).Leave?
    ensures Reconciled(p, db, more) == Reconciled(p, db, rows)
    ensures RequeuedIds(p, db, more) == RequeuedIds(p, db, rows)
  {}

  class DurableDelivery {
    const db: Database
    const policy: Policy

    constructor (db: Database, policy: Policy)
      ensures this.db == db && this.policy == policy
    {
      this.db, this.policy := db, policy;
    }

    // null stands for ValueError("invalid delivery policy").
    static method Create(db: Database, policy: Policy) returns (made: DurableDelivery?)
      ensures made == null <==> !(1 <= policy.lease <= 3600 && 1 <= policy.maxAttempts <= 100)
      ensures made != null ==> fresh(made) && made.db == db && made.policy == policy
    {
      if !Sound(policy) {
        return null;
      }
      made := new DurableDelivery(db, policy);
    }

    method ClaimDelivery(owner: Owner, locked: set<Id>) returns (row: Option<Claim>)
      modifies db
      ensures (db.Snapshot(), row) == Claimed(policy, old(db.Snapshot()), owner, locked)
    {
      var s := db.Snapshot();
      var ids := Candidates(policy, s, locked);
      if policy.topics == map[] || ids == {} {
        return None;
      }
      FirstExists(s, ids);
      var i :| First(s, ids, i);
      var m := db.messages[i];
      db.messages := db.messages[i := m.(status := Delivering, leaseOwner := Some(owner),
      leaseExpires := Some(db.now + Ttl(policy)), attempts := m.attempts + 1)];
      row := Some(Claim(i, owner, m.attempts + 1));
    }

    // false is DeliveryLeaseLost.
    method FinishDelivery(c: Claim, error: Option<string>) returns (kept: bool)
      modifies db
      ensures kept <==> Finished(policy, old(db.Snapshot()), c, error).Some?
      ensures kept ==> db.Snapshot() == Finished(policy, old(db.Snapshot()), c, error).value
      ensures !kept ==> db.Snapshot() == old(db.Snapshot())
    {
      if !Owns(db.Snapshot(), c) {
        return false;
      }
      db.messages := db.messages[c.id := Settled(db.Snapshot(), c, error)];
      if Failed(error) && c.attempts >= policy.maxAttempts {
        PutDead(c.id, error.value);
      }
      kept := true;
    }

    // _dead_letter: insert the journal entry, or reopen it.
    method PutDead(i: Id, error: string)
      modifies db
      ensures db.Snapshot() == Buried(old(db.Snapshot()), i, error)
    {
      db.dead := db.dead[i := DeadLetter(if |error| <= 256 then error else error[..256], db.now, None)];
    }

    method Reconcile(locked: set<Id>) returns (count: nat)
      modifies db
      ensures db.Snapshot() == Reconciled(policy, old(db.Snapshot()), old(db.messages.Keys) - locked)
      ensures count == |RequeuedIds(policy, old(db.Snapshot()), old(db.messages.Keys) - locked)|
    {
      ghost var before := db.Snapshot();
      ghost var rows := BuryExhausted(locked);
      count := 0;
      assert RequeuedIds(policy, before, rows) == {};
      var topics := policy.topics.Keys;
      while topics != {}
        invariant topics <= policy.topics.Keys
        invariant db.Snapshot() == Reconciled(policy, before, rows)
        invariant rows <= before.messages.Keys - locked
        invariant forall i :: i in rows && !Exhausted(policy, before, i) ==> before.messages[i].intent.topic !in topics
        invariant forall i :: i in before.messages.Keys - locked - rows
                              && before.messages[i].intent.topic !in topics ==>
                                 Judge(policy, before, i).Leave?
        invariant forall i :: i in before.messages.Keys - locked - rows ==> !Exhausted(policy, before, i)
        invariant count == |RequeuedIds(policy, before, rows)|
        decreases topics
      {
        var topic :| topic in topics;
        if policy.topics[topic].Some? {
          count, rows := ReconcileTopic(topic, locked, before, rows, count);
        }
        topics := topics - {topic};
      }
      ReconciledOnly(policy, before, rows, before.messages.Keys - locked);
    }

    // The first loop: messages whose attempts ran out before a publish was recorded.
    method BuryExhausted(locked: set<Id>) returns (ghost rows: set<Id>)
      modifies db
      ensures db.Snapshot() == Reconciled(policy, old(db.Snapshot()), rows)
      ensures forall i :: i in rows <==> i in old(db.messages) && i !in locked
                                         && Exhausted(policy, old(db.Snapshot()), i)
    {
      ghost var before := db.Snapshot();
      rows := {};
      ReconciledNothing(policy, before);
      var exhausted := set i | i in db.messages && i !in locked && Exhausted(policy, db.Snapshot(), i);
      ghost var all := exhausted;
      while exhausted != {}
        invariant exhausted <= all && rows == all - exhausted
        invariant db.Snapshot() == Reconciled(policy, before, rows)
        decreases exhausted
      {
        var i :| i in exhausted;
        ReconciledBury(policy, before, rows, i);
        PutDead(i, "delivery_attempts_exhausted");
        exhausted, rows := exhausted - {i}, rows + {i};
      }
    }

    // The inner loop: published messages of one acknowledged topic.
    method ReconcileTopic(topic: string, locked: set<Id>, ghost before: Db, ghost rows: set<Id>, counted: nat)
      returns (count: nat, ghost done: set<Id>)
      requires topic in policy.topics && policy.topics[topic].Some?
      requires db.Snapshot() == Reconciled(policy, before, rows)
      requires rows <= before.messages.Keys
      requires forall i :: i in rows && before.messages[i].intent.topic == topic ==> Exhausted(policy, before, i)
      requires counted == |RequeuedIds(policy, before, rows)|
      modifies db
      ensures db.Snapshot() == Reconciled(policy, before, done)
      ensures done == rows + UnacknowledgedOf(policy, before, topic, locked)
      ensures count == |RequeuedIds(policy, before, done)|
    {
      hide Reconciled, RequeuedIds, Unacknowledged, Exhausted;
      var found := UnacknowledgedOf(policy, db.Snapshot(), topic, locked);
      UnacknowledgedFrame(policy, before, rows, topic, locked);
      done, count := rows, counted;
      ghost var all := found;
      while found != {}
        invariant found <= all && done == rows + (all - found)
        invariant db.Snapshot() == Reconciled(policy, before, done)
        invariant count == |RequeuedIds(policy, before, done)|
        decreases found
      {
        var i :| i in found;
        var requeued := SettleUnacknowledged(i, before, done);
        count := count + requeued;
        found, done := found - {i}, done + {i};
      }
    }

    method SettleUnacknowledged(i: Id, ghost before: Db, ghost done: set<Id>) returns (requeued: nat)
      requires db.Snapshot() == Reconciled(policy, before, done)
      requires i in before.messages && i !in done && Unacknowledged(policy, before, i)
      modifies db
      ensures db.Snapshot() == Reconciled(policy, before, done + {i})
      ensures |RequeuedIds(policy, before, done + {i})| == |RequeuedIds(policy, before, done)| + requeued
    {
      hide Reconciled, RequeuedIds, Unacknowledged;
      JudgeFrame(policy, before, done, i);
      SettledCount(policy, before, done, i);
      UnacknowledgedVerdict(policy, before, i);
      if db.messages[i].attempts >= policy.maxAttempts {
        ReconciledBury(policy, before, done, i);
        PutDead(i, "consumer_unacknowledged");
        requeued := 0;
      } else {
        ReconciledRequeue(policy, before, done, i);
        db.messages := db.messages[i := Requeued(db.messages[i])];
        requeued := 1;
      }
    }

    method Replay(i: Id) returns (outcome: Result<(), ReplayError>)
      modifies db
      ensures outcome.Ok? <==> Replayed(policy, old(db.Snapshot()), i).Ok?
      ensures outcome.Ok? ==> db.Snapshot() == Replayed(policy, old(db.Snapshot()), i).value
      ensures outcome.Err? ==> db.Snapshot() == old(db.Snapshot())
                               && outcome.error == Replayed(policy, old(db.Snapshot()), i).error
    {
      if i !in db.messages || !Registered(policy, db.messages[i]) {
        return Err(OutsidePolicy);
      }
      if !ActiveDead(db.Snapshot(), i) {
        return Err(NotDead);
      }
      db.dead := db.dead[i := db.dead[i].(replayedAt := Some(db.now))];
      db.messages := db.messages[i := Revived(db.messages[i])];
      outcome := Ok(());
    }
  }
}
