// What the delivery statements do, told in the columns of the tables alone: which rows a claim, a finish,
// a reconcile, a replay or an execution claim picks, and every column it writes.

module DeliveryFields {
  import opened Common
  import opened Clock
  import opened Outbox
  import opened Delivery
  import opened Tasks
  import opened DeliveryRuns
  import opened DeliveryTheorems

  // ---------------------------------------------------------------- enqueue and claim

  // A new message is pending, has had no attempt, and waits for its not-before time if it has one.
  lemma EnqueueWrites(db: Db, id: Id, dedup: string, intent: Intent)
    requires id !in db.messages && forall i :: i in db.messages ==> db.messages[i].dedup != dedup
    ensures var after := Enqueued(db, id, dedup, intent).0;
            && after.messages.Keys == db.messages.Keys + {id}
            && after.dead == db.dead && after.inbox == db.inbox
            && after.executions == db.executions && after.now == db.now
            && var m := after.messages[id];
               && m.intent == intent && m.dedup == dedup && m.createdAt == db.now
               && m.status == Pending && m.attempts == 0
               && (intent.notBefore.None? ==> m.availableAt == MinusInfinity)
               && (intent.notBefore.Some? ==> m.availableAt == At(intent.notBefore.value))
               && m.leaseOwner == None && m.leaseExpires == None && m.publishedAt == None && m.lastError == None
  {
    assert forall i :: !HoldsKey(db, i, dedup);
  }

  // A row of the candidate query of claim_delivery.
  predicate Ready(p: Policy, db: Db, i: Id) {
    && i in db.messages
    && var m := db.messages[i];
       && m.intent.topic in p.topics
       && (m.availableAt == MinusInfinity || m.availableAt.at <= db.now)
       && (m.intent.notBefore == None || m.intent.notBefore.value <= db.now)
       && (m.status == Pending
           || (m.status == Delivering && m.leaseExpires != None && m.leaseExpires.value <= db.now))
       && !(i in db.dead && db.dead[i].replayedAt == None)
  }

  // The oldest ready, unlocked row is leased for the policy's time, with one more attempt.
  lemma ClaimWrites(p: Policy, db: Db, owner: Owner, locked: set<Id>)
    ensures var (after, row) := Claimed(p, db, owner, locked);
            && (row == None <==> forall i :: Ready(p, db, i) ==> i in locked)
            && (row == None ==> after == db)
            && (row != None ==>
                  var i := row.value.id;
                  && Ready(p, db, i) && i !in locked && row.value.owner == owner
                  && row.value.attempts == db.messages[i].attempts + 1
                  && (forall j :: Ready(p, db, j) && j !in locked ==>
                        || db.messages[i].createdAt < db.messages[j].createdAt
                        || (db.messages[i].createdAt == db.messages[j].createdAt && i <= j))
                  && after == db.(messages := db.messages[i := db.messages[i].(
                                    status := Delivering, leaseOwner := Some(owner),
                                    leaseExpires := Some(db.now + p.lease * 1_000_000),
                                    attempts := db.messages[i].attempts + 1)]))
  {
    forall i
      ensures Ready(p, db, i) <==> Claimable(p, db, i)
    {
    }
  }

  // ---------------------------------------------------------------- finish

  // min(300, 2 ** min(attempts, 8)): one second, doubled with every attempt up to the eighth.
  lemma BackoffDoubles(attempts: nat)
    ensures Backoff(0) == 1
    ensures attempts < 8 ==> Backoff(attempts + 1) == 2 * Backoff(attempts)
    ensures attempts >= 8 ==> Backoff(attempts) == 256
  {
    assert Pow2(8) == 256;
  }

  // The journal's column is 256 characters wide.
  function Cut(error: string): string {
    if |error| > 256 then error[..256] else error
  }

  // A finish writes exactly when the row is delivering under the claim's owner and its lease still runs:
  // published at this time, or, with an error, pending again after the backoff and dead-lettered if that
  // was the last attempt.
  lemma FinishWrites(p: Policy, db: Db, c: Claim, error: Option<string>)
    ensures var r := Finished(p, db, c, error); var i := c.id;
            && (r != None <==>
                  && i in db.messages && db.messages[i].status == Delivering
                  && db.messages[i].leaseOwner == Some(c.owner)
                  && db.messages[i].leaseExpires != None && db.messages[i].leaseExpires.value > db.now)
            && (r != None ==>
                  var after, was, delay := r.value, db.messages[i], At(db.now + Backoff(c.attempts) * 1_000_000);
                  && after.messages == db.messages[i := after.messages[i]]
                  && after.now == db.now && after.inbox == db.inbox && after.executions == db.executions
                  && (error == None ==>
                        && after.dead == db.dead
                        && after.messages[i] == was.(status := Published, publishedAt := Some(db.now),
                                                     leaseOwner := None, leaseExpires := None, lastError := None,
                                                     availableAt := delay))
                  && (error == Some("") ==>
                        && after.dead == db.dead
                        && after.messages[i] == was.(status := Published, leaseOwner := None,
                                                     leaseExpires := None, lastError := error, availableAt := delay))
                  && (error != None && error != Some("") ==>
                        && after.messages[i] == was.(status := Pending, leaseOwner := None,
                                                     leaseExpires := None, lastError := error, availableAt := delay)
                        && after.dead == if c.attempts < p.maxAttempts then db.dead
                                         else db.dead[i := DeadLetter(Cut(error.value), db.now, None)]))
  {
  }

  // ---------------------------------------------------------------- reconcile

  // Published to a consumer more than a lease ago, without its marker, not being executed, not dead.
  predicate Overdue(p: Policy, db: Db, i: Id) {
    && i in db.messages
    && var m := db.messages[i];
       && m.status == Published && m.publishedAt != None && m.publishedAt.value + p.lease * 1_000_000 < db.now
       && m.intent.topic in p.topics && p.topics[m.intent.topic] != None
       && (p.topics[m.intent.topic].value, i) !in db.inbox
       && (forall r :: r in db.executions && db.executions[r].message == i ==>
             db.executions[r].expiresAt == MinusInfinity || db.executions[r].expiresAt.at <= db.now)
       && !(i in db.dead && db.dead[i].replayedAt == None)
  }

  // Never recorded as published in as many attempts as there may be, and not dead.
  predicate WornOut(p: Policy, db: Db, i: Id) {
    && i in db.messages
    && var m := db.messages[i];
       && m.intent.topic in p.topics && m.attempts >= p.maxAttempts
       && (m.status == Pending
           || (m.status == Delivering && m.leaseExpires != None && m.leaseExpires.value <= db.now))
       && !(i in db.dead && db.dead[i].replayedAt == None)
  }

  // Of the rows it could lock, reconcile requeues the overdue ones below the maximum, dead-letters the
  // other overdue ones and those worn out, and writes nothing else; it counts what it requeues.
  lemma ReconcileWrites(p: Policy, db: Db, rows: set<Id>, i: Id)
    ensures var after := Reconciled(p, db, rows);
            && after.now == db.now && after.inbox == db.inbox && after.executions == db.executions
            && after.messages.Keys == db.messages.Keys
            && (i in db.messages ==>
                  after.messages[i] == if i in rows && Overdue(p, db, i) && db.messages[i].attempts < p.maxAttempts
                                       then db.messages[i].(status := Pending, availableAt := MinusInfinity)
                                       else db.messages[i])
            && (if i in rows && WornOut(p, db, i) then
                  i in after.dead && after.dead[i] == DeadLetter("delivery_attempts_exhausted", db.now, None)
                else if i in rows && Overdue(p, db, i) && db.messages[i].attempts >= p.maxAttempts then
                  i in after.dead && after.dead[i] == DeadLetter("consumer_unacknowledged", db.now, None)
                else (i in after.dead <==> i in db.dead) && (i in db.dead ==> after.dead[i] == db.dead[i]))
            && (i in RequeuedIds(p, db, rows) <==>
                i in rows && Overdue(p, db, i) && db.messages[i].attempts < p.maxAttempts)
  {
    if i in db.messages {
      assert Unacknowledged(p, db, i) <==> Overdue(p, db, i) by {
        assert Executing(db, i) <==> exists r :: r in db.executions && db.executions[r].message == i
                                                 && !(db.executions[r].expiresAt == MinusInfinity
                                                      || db.executions[r].expiresAt.at <= db.now);
      }
      assert Exhausted(p, db, i) <==> WornOut(p, db, i);
    }
  }

  // A published message whose consumer has marked it is neither requeued nor dead-lettered by any
  // reconcile.
  lemma ReconcileSparesAcknowledged(p: Policy, s: State, locked: set<Id>, i: Id)
    requires i in s.db.messages && s.db.messages[i].status == Published
    requires var topic := s.db.messages[i].intent.topic;
             topic in p.topics && p.topics[topic] != None && (p.topics[topic].value, i) in s.db.inbox
    ensures var after := Next(p, s, Action.Reconcile(locked)).db;
            && i in after.messages && after.messages[i] == s.db.messages[i]
            && (i in after.dead <==> i in s.db.dead) && (i in s.db.dead ==> after.dead[i] == s.db.dead[i])
  {
    ReconcileWrites(p, s.db, s.db.messages.Keys - locked, i);
  }

  // And once it is neither dead-lettered nor lost its marker, it stays as it is in every continuation.
  lemma {:induction false} AcknowledgedForGood(p: Policy, s: State, actions: seq<Action>, i: Id)
    requires AtRest(p, s, i)
    ensures AtRest(p, Run(p, s, actions), i)
    ensures Run(p, s, actions).db.messages[i] == s.db.messages[i]
    decreases |actions|
  {
    if actions != [] {
      RestStep(p, s, actions[0], i);
      AcknowledgedForGood(p, Next(p, s, actions[0]), actions[1..], i);
    }
  }

  // Published, marked by its consumer, not dead, and leased to no publisher.
  predicate AtRest(p: Policy, s: State, i: Id) {
    && i in s.db.messages
    && var m := s.db.messages[i];
       && m.status == Published && m.leaseOwner == None && m.intent.topic in p.topics
       && p.topics[m.intent.topic] != None && (p.topics[m.intent.topic].value, i) in s.db.inbox
       && !(i in s.db.dead && s.db.dead[i].replayedAt == None)
  }

  lemma RestStep(p: Policy, s: State, a: Action, i: Id)
    requires AtRest(p, s, i)
    ensures AtRest(p, Next(p, s, a), i) && Next(p, s, a).db.messages[i] == s.db.messages[i]
  {
    InboxGrows(p, s, a);
    NextWrites(p, s, a, i);
    hide Next;
    if a.Reconcile? {
      ReconcileSparesAcknowledged(p, s, a.locked, i);
    }
  }

  lemma InboxGrows(p: Policy, s: State, a: Action)
    ensures s.db.inbox <= Next(p, s, a).db.inbox
  {
    hide Claiming, Finishing, Reconciling, Replaying, Producing;
    match a
    case Produce(id, dedup, intent) => ProducingFrame(s, id, dedup, intent);
    case ClaimNext(owner, locked) => ClaimingFrame(p, s, owner, locked);
    case Finish(owner, error) => FinishingFrame(p, s, owner, error);
    case Reconcile(locked) => ReconcilingFrame(p, s, locked);
    case Replay(id) => ReplayingFrame(p, s, id);
    case _ =>
  }

  // ---------------------------------------------------------------- steps of the machine

  // Each step of the state machine is its transaction, whenever the process may take it.
  lemma StepsAreTransactions(p: Policy, s: State)
    ensures forall id, dedup, intent :: id !in s.db.messages ==>
              Next(p, s, Produce(id, dedup, intent)).db == Enqueued(s.db, id, dedup, intent).0
    ensures forall owner, locked :: owner !in s.claims ==>
              var (db, row) := Claimed(p, s.db, owner, locked); var after := Next(p, s, ClaimNext(owner, locked));
              after.db == db && (row != None ==> owner in after.claims && after.claims[owner] == row.value)
    ensures forall owner, error :: owner in s.claims && Finished(p, s.db, s.claims[owner], error) != None ==>
              Next(p, s, Finish(owner, error)).db == Finished(p, s.db, s.claims[owner], error).value
    ensures forall locked :: Next(p, s, Action.Reconcile(locked)).db == Reconciled(p, s.db, s.db.messages.Keys - locked)
    ensures forall id :: Replayed(p, s.db, id).Ok? ==> Next(p, s, Replay(id)).db == Replayed(p, s.db, id).value
    ensures forall pid :: Holds(s, pid) && Renewed(p, s.db, s.consumers[pid].lease) != None ==>
              Next(p, s, Renew(pid)).db == Renewed(p, s.db, s.consumers[pid].lease).value
    ensures forall clock :: Next(p, s, SetClock(clock)).db == s.db.(now := clock)
  {
    hide Enqueued, Finished, Reconciled, Replayed, Renewed;
  }

  // ---------------------------------------------------------------- replay

  // A registered message with an open journal entry starts over; everything else is refused.
  lemma ReplayWrites(p: Policy, db: Db, i: Id)
    ensures var r := Replayed(p, db, i); var registered := i in db.messages && db.messages[i].intent.topic in p.topics;
            && (r == Err(OutsidePolicy) <==> !registered)
            && (r == Err(NotDead) <==> registered && !(i in db.dead && db.dead[i].replayedAt == None))
            && (r.Ok? ==> r.value == db.(
                            dead := db.dead[i := DeadLetter(db.dead[i].error, db.dead[i].failedAt, Some(db.now))],
                            messages := db.messages[i := db.messages[i].(
                              status := Pending, attempts := 0, availableAt := MinusInfinity, lastError := None,
                              leaseOwner := None, leaseExpires := None)]))
  {
  }

  // ---------------------------------------------------------------- execution leases

  // Every topic with a handler is acknowledged by a consumer of its own name, and no other is handled.
  lemma HandlersAcknowledge(handlers: set<string>, lease: int, maxAttempts: int, topic: string)
    ensures var p := TaskPolicy(handlers, lease, maxAttempts);
            && (topic in p.topics <==> topic in handlers) && (topic in handlers ==> p.topics[topic] == Some(topic))
            && p.lease == lease && p.maxAttempts == maxAttempts
  {
  }

  // Nobody executes under the resource: it has no row, or one whose lease is over.
  predicate Idle(db: Db, resource: string) {
    resource in db.executions ==>
      db.executions[resource].expiresAt == MinusInfinity || db.executions[resource].expiresAt.at <= db.now
  }

  // What claim_execution demands, over both its reads.
  predicate MayExecute(p: Policy, db: Db, i: Id) {
    && i in db.messages
    && var m := db.messages[i];
       && m.intent.topic in p.topics
       && (m.intent.notBefore == None || m.intent.notBefore.value <= db.now)
       && (m.intent.topic, i) !in db.inbox
       && !(i in db.dead && db.dead[i].replayedAt == None)
       && Idle(db, m.intent.topic + ":" + m.intent.key)
  }

  // An undisturbed claim gets a lease exactly then: one epoch above the row's, for the policy's time.
  lemma ExecutionClaimWrites(p: Policy, db: Db, i: Id, owner: Owner)
    ensures Consumable(p, db, i) <==> MayExecute(p, db, i)
    ensures MayExecute(p, db, i) ==>
              var intent := db.messages[i].intent; var (after, lease) := Granted(p, db, i, intent, owner);
              var resource := intent.topic + ":" + intent.key;
              var epoch := if resource in db.executions then db.executions[resource].epoch + 1 else 1;
              && lease == Some(Lease(resource, i, owner, epoch))
              && after == db.(executions := db.executions[
                                resource := Execution(i, owner, epoch, At(db.now + p.lease * 1_000_000))])
  {
  }

  // The upsert on its own, after a first read that may be stale: nothing over a running lease; over an
  // idle resource the epoch rises, and the lease is given back at once if the marker has come meanwhile.
  lemma UpsertWrites(p: Policy, db: Db, i: Id, intent: Intent, owner: Owner)
    ensures var (after, lease) := Granted(p, db, i, intent, owner); var resource := intent.topic + ":" + intent.key;
            && (!Idle(db, resource) ==> lease == None && after == db)
            && (Idle(db, resource) ==>
                  && after == db.(executions := after.executions)
                  && after.executions == db.executions[resource := after.executions[resource]]
                  && var row := after.executions[resource];
                     && row.message == i && row.owner == owner
                     && row.epoch == (if resource in db.executions then db.executions[resource].epoch + 1 else 1)
                     && (lease == None <==> (intent.topic, i) in db.inbox)
                     && (lease == None ==> row.expiresAt == MinusInfinity)
                     && (lease != None ==> lease == Some(Lease(resource, i, owner, row.epoch))
                                           && row.expiresAt == At(db.now + p.lease * 1_000_000)))
  {
  }

  // The row is this lease's own: same message, owner and epoch.
  predicate OwnRow(db: Db, l: Lease) {
    l.resource in db.executions && var row := db.executions[l.resource];
    row.message == l.message && row.owner == l.owner && row.epoch == l.epoch
  }

  // The guard passes exactly for the row's own lease while it runs; renewing and releasing write only
  // the end of that row's lease, and releasing does so even when it is over.
  lemma LeaseWrites(p: Policy, db: Db, l: Lease)
    ensures Current(db, l) <==> OwnRow(db, l) && db.executions[l.resource].expiresAt != MinusInfinity
                                && db.executions[l.resource].expiresAt.at > db.now
    ensures Renewed(p, db, l) != None <==> Current(db, l)
    ensures Current(db, l) ==>
              Renewed(p, db, l).value == db.(executions := db.executions[l.resource :=
                  Execution(l.message, l.owner, l.epoch, At(db.now + p.lease * 1_000_000))])
    ensures Released(db, l) == if !OwnRow(db, l) then db
                               else db.(executions := db.executions[l.resource :=
                                            Execution(l.message, l.owner, l.epoch, MinusInfinity)])
  {
  }
}
