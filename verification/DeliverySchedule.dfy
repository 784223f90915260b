// When a message comes round again: after a finish, after a replay, and in one pass of the pump.

module DeliverySchedule {
  import opened Common
  import opened Clock
  import opened Outbox
  import opened Delivery
  import opened Tasks
  import opened DeliveryRuns
  import opened DeliveryTheorems
  import opened Pump

  function Later(db: Db, clock: int): Db {
    db.(now := clock)
  }

  // A successful publish is final for the publisher, whatever the clock does. A failed one comes round
  // again exactly after its backoff, or is dead-lettered once its attempts are used up.
  lemma FinishSchedules(p: Policy, db: Db, c: Claim, error: Option<string>, clock: int)
    requires Sound(p) && Owns(db, c) && c.attempts == db.messages[c.id].attempts
    requires Registered(p, db.messages[c.id]) && !ActiveDead(db, c.id)
    ensures Finished(p, db, c, error).Some?
    ensures var after := Later(Finished(p, db, c, error).value, clock); var intent := db.messages[c.id].intent;
            && c.id in after.messages && after.messages[c.id].intent == intent
               && after.messages[c.id].attempts == c.attempts
            && (!Failed(error) ==> after.messages[c.id].status.Published? && !Claimable(p, after, c.id))
            && (Failed(error) && c.attempts >= p.maxAttempts ==> ActiveDead(after, c.id) && !Claimable(p, after, c.id))
            && (Failed(error) && c.attempts < p.maxAttempts ==>
                  (Claimable(p, after, c.id) <==> clock >= db.now + Backoff(c.attempts) * SECOND
                                                  && NotBeforeDue(intent, clock)))
    ensures forall i :: i != c.id && i in db.messages ==>
                          i in Finished(p, db, c, error).value.messages
                          && Finished(p, db, c, error).value.messages[i] == db.messages[i]
  {
  }

  // A replayed message starts over: no attempts, no longer dead, and due at once, but never before its
  // not-before time; what was consumed stays consumed.
  lemma ReplayRevives(p: Policy, db: Db, i: Id, clock: int)
    requires Replayed(p, db, i).Ok?
    ensures var after := Replayed(p, db, i).value;
            && after.messages[i].attempts == 0 && after.messages[i].intent == db.messages[i].intent
               && !ActiveDead(after, i)
            && (Claimable(p, Later(after, clock), i) <==> NotBeforeDue(db.messages[i].intent, clock))
            && after.inbox == db.inbox && after.executions == db.executions
            && (forall k :: k in db.messages && k != i ==> after.messages[k] == db.messages[k])
  {
  }

  // Once everything has elapsed, one undisturbed pump with a large enough limit deals with every due
  // message of a registered topic: it is consumed, dead-lettered, or handed to a publisher once more.
  lemma PumpServesAll(p: Policy, now: int, actions: seq<Action>, i: Id, first: Owner, errors: seq<Option<string>>)
    requires Sound(p)
    requires var db := After(p, now, actions).db;
             && Elapsed(p, db) && i in db.messages && Registered(p, db.messages[i])
                && NotBeforeDue(db.messages[i].intent, db.now)
             && |Candidates(p, Reconciled(p, db, db.messages.Keys), {})| <= |errors|
    ensures var db := After(p, now, actions).db;
            var start := Reconciled(p, db, db.messages.Keys); var after := Drained(p, start, first, errors, 0).0;
            && i in start.messages && i in after.messages && Registered(p, start.messages[i])
            && ((|| DeliveryTheorems.Consumed(p, start, i) || ActiveDead(start, i)
                 || after.messages[i].attempts == start.messages[i].attempts + 1) <==> !Untimed(p, db, i))
            && Candidates(p, after, {}) == {}
  {
    var db := After(p, now, actions).db;
    var start := Reconciled(p, db, db.messages.Keys);
    Reachable(p, now, actions);
    assert db.messages.Keys - {} == db.messages.Keys;
    ReconcileRecovers(p, After(p, now, actions), i);
    DrainAttemptsEachOnce(p, start, first, errors, 0);
    assert Claimable(p, start, i) ==> i in Candidates(p, start, {});
  }
}
