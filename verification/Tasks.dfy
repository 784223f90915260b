// Consumer side of durable delivery: execution leases with fencing epochs, the guarded
// session, and consume.

module Tasks {
  import opened Common
  import opened Clock
  import opened Outbox
  import opened Delivery

  datatype Lease = Lease(resource: string, message: Id, owner: Owner, epoch: nat)

  // DurableTasks: every topic with a handler is acknowledged by a consumer of the same name.
  function TaskPolicy(handlers: set<string>, lease: int, maxAttempts: int): Policy {
    Policy(map t | t in handlers :: Some(t), lease, maxAttempts)
  }

  predicate Acknowledged(db: Db, i: Id)
    requires i in db.messages
  {
    (db.messages[i].intent.topic, i) in db.inbox
  }

  // The first SELECT of claim_execution.
  predicate Executable(p: Policy, db: Db, i: Id) {
    && i in db.messages
    && Registered(p, db.messages[i])
    && NotBeforeDue(db.messages[i].intent, db.now)
    && !Acknowledged(db, i)
    && !ActiveDead(db, i)
  }

  // Free to take: no row, or a row whose lease is over.
  predicate Free(db: Db, resource: string) {
    resource !in db.executions || Due(db.executions[resource].expiresAt, db.now)
  }

  function NextEpoch(db: Db, resource: string): nat {
    if resource in db.executions then db.executions[resource].epoch + 1 else 1
  }

  // The upsert and the second inbox check: one step, since the row lock is held between them.
  // The intent is the one the first SELECT returned.
  function Granted(p: Policy, db: Db, i: Id, intent: Intent, owner: Owner): (r: (Db, Option<Lease>)) {
    var resource := Resource(intent);
    if !Free(db, resource) then (db, None)
    else
      var epoch := NextEpoch(db, resource);
      if (intent.topic, i) in db.inbox then
        (db.(executions := db.executions[resource := Execution(i, owner, epoch, MinusInfinity)]), None)
      else
        (db.(executions := db.executions[resource := Execution(i, owner, epoch, At(db.now + Ttl(p)))]),
         Some(Lease(resource, i, owner, epoch)))
  }

  predicate Matches(db: Db, l: Lease) {
    && l.resource in db.executions
    && db.executions[l.resource].message == l.message
    && db.executions[l.resource].owner == l.owner
    && db.executions[l.resource].epoch == l.epoch
  }

  // CHECK_LEASE finds a row.
  predicate Current(db: Db, l: Lease) {
    Matches(db, l) && !Due(db.executions[l.resource].expiresAt, db.now)
  }

  function Expiring(db: Db, resource: string, at: Instant): Db
    requires resource in db.executions
  {
    db.(executions := db.executions[resource := db.executions[resource].(expiresAt := at)])
  }

  function Renewed(p: Policy, db: Db, l: Lease): Option<Db> {
    if Current(db, l) then Some(Expiring(db, l.resource, At(db.now + Ttl(p)))) else None
  }

  function Released(db: Db, l: Lease): Db {
    if Matches(db, l) then Expiring(db, l.resource, MinusInfinity) else db
  }

  function Marked(db: Db, topic: string, i: Id): Db {
    db.(inbox := db.inbox + {(topic, i)})
  }

  // A lease that is over for good: overtaken by a later epoch, or released.
  predicate Over(db: Db, l: Lease) {
    && l.resource in db.executions
    && (|| db.executions[l.resource].epoch > l.epoch
        || (db.executions[l.resource].epoch == l.epoch && db.executions[l.resource].expiresAt.MinusInfinity?))
  }

  // What a handler does with its session: commits in between, then returns or raises.
  datatype Ending = Returned | Raised

  // How an undisturbed consume ends.
  datatype Consumed = NotClaimed | Done | Abandoned

  // One commit through a guarded session, in commit order.
  datatype Commit = Commit(lease: Lease, final: bool, effect: string)

  // ---------------------------------------------------------------- an undisturbed consume

  // claim_execution gets a lease when nothing comes between its two reads.
  predicate Consumable(p: Policy, db: Db, i: Id) {
    Executable(p, db, i) && Free(db, Resource(db.messages[i].intent))
  }

  function LeaseFor(db: Db, i: Id, owner: Owner): Lease
    requires i in db.messages
  {
    var resource := Resource(db.messages[i].intent);
    Lease(resource, i, owner, NextEpoch(db, resource))
  }

  // The lease is taken and released again, and the marker is set if the handler returned.
  function AfterConsume(db: Db, i: Id, owner: Owner, done: bool): Db
    requires i in db.messages
  {
    var l := LeaseFor(db, i, owner);
    db.(executions := db.executions[l.resource := Execution(i, owner, l.epoch, MinusInfinity)],
        inbox := if done then db.inbox + {(db.messages[i].intent.topic, i)} else db.inbox)
  }

  // What is committed on the way: the handler's own commits, then the final one.
  function CommitsOf(l: Lease, steps: seq<string>, last: string, done: bool): seq<Commit> {
    seq(|steps|, k requires 0 <= k < |steps| => Commit(l, false, steps[k])) + if done then [Commit(l, true, last)]
        else []
  }

  class DurableTasks {
    const db: Database
    const policy: Policy
    var commits: seq<Commit>  // the business writes committed through guarded sessions

    constructor (db: Database, handlers: set<string>, lease: int, maxAttempts: int)
      ensures this.db == db && policy == TaskPolicy(handlers, lease, maxAttempts) && commits == []
    {
      this.db, policy, commits := db, TaskPolicy(handlers, lease, maxAttempts), [];
    }

    method ReadExecution(i: Id) returns (row: Option<Intent>)
      ensures row.Some? <==> Executable(policy, db.Snapshot(), i)
      ensures row.Some? ==> row.value == db.messages[i].intent
    {
      row := if Executable(policy, db.Snapshot(), i) then Some(db.messages[i].intent) else None;
    }

    method GrantExecution(i: Id, intent: Intent, owner: Owner) returns (lease: Option<Lease>)
      modifies db
      ensures (db.Snapshot(), lease) == Granted(policy, old(db.Snapshot()), i, intent, owner)
    {
      var resource := Resource(intent);
      if !Free(db.Snapshot(), resource) {
        return None;
      }
      var epoch := NextEpoch(db.Snapshot(), resource);
      db.executions := db.executions[resource := Execution(i, owner, epoch, At(db.now + Ttl(policy)))];
      if (intent.topic, i) in db.inbox {
        db.executions := db.executions[resource := db.executions[resource].(expiresAt := MinusInfinity)];
        assert db.executions == old(db.executions)[resource := Execution(i, owner, epoch, MinusInfinity)];
        return None;
      }
      lease := Some(Lease(resource, i, owner, epoch));
    }

    // claim_execution when nothing interrupts it between its two reads.
    method ClaimExecution(i: Id, owner: Owner) returns (lease: Option<Lease>)
      modifies db
      ensures !Executable(policy, old(db.Snapshot()), i) ==> lease == None && db.Snapshot() == old(db.Snapshot())
      ensures Executable(policy, old(db.Snapshot()), i) ==>
                (db.Snapshot(), lease) == Granted(policy, old(db.Snapshot()), i, old(db.messages)[i].intent, owner)
    {
      var row := ReadExecution(i);
      if row.None? {
        return None;
      }
      lease := GrantExecution(i, row.value, owner);
    }

    // false is DeliveryLeaseLost.
    method Renew(l: Lease) returns (kept: bool)
      modifies db
      ensures kept <==> Renewed(policy, old(db.Snapshot()), l).Some?
      ensures db.Snapshot() == if kept then Renewed(policy, old(db.Snapshot()), l).value else old(db.Snapshot())
    {
      kept := Current(db.Snapshot(), l);
      if kept {
        db.executions := db.executions[l.resource := db.executions[l.resource].(expiresAt := At(db.now + Ttl(policy)))];
      }
    }

    method Release(l: Lease)
      modifies db
      ensures db.Snapshot() == Released(old(db.Snapshot()), l)
    {
      if Matches(db.Snapshot(), l) {
        db.executions := db.executions[l.resource := db.executions[l.resource].(expiresAt := MinusInfinity)];
      }
    }

    // A commit of the guarded session: the before_commit hook runs CHECK_LEASE first.
    method CommitGuarded(l: Lease, effect: string, marker: Option<string>) returns (kept: bool)
      modifies db, this
      ensures kept <==> Current(old(db.Snapshot()), l)
      ensures kept ==> commits == old(commits) + [Commit(l, marker.Some?, effect)]
      ensures kept ==> db.Snapshot() == if marker.Some? then Marked(old(db.Snapshot()), marker.value, l.message)
                                        else old(db.Snapshot())
      ensures !kept ==> db.Snapshot() == old(db.Snapshot()) && commits == old(commits)
    {
      kept := Current(db.Snapshot(), l);
      if !kept {
        return;
      }
      if marker.Some? {
        var _ := db.ClaimInboxOnce(marker.value, l.message);
      }
      commits := commits + [Commit(l, marker.Some?, effect)];
    }

    // consume, undisturbed by other processes and with a still clock. steps are the handler's
    // own commits; last is what the final commit carries together with the inbox marker.
    method Consume(i: Id, owner: Owner, steps: seq<string>, last: string, ending: Ending) returns (r: Consumed)
      requires Sound(policy)
      modifies db, this
      ensures r.NotClaimed? <==> !Consumable(policy, old(db.Snapshot()), i)
      ensures r.NotClaimed? ==> db.Snapshot() == old(db.Snapshot()) && commits == old(commits)
      ensures r.Done? ==> ending.Returned? && i in db.messages && Acknowledged(db.Snapshot(), i)
      ensures r.Abandoned? ==> ending.Raised? && db.inbox == old(db.inbox)
      ensures !r.NotClaimed? ==> db.Snapshot() == AfterConsume(old(db.Snapshot()), i, owner, r.Done?)
      ensures !r.NotClaimed? ==>
                var l := LeaseFor(old(db.Snapshot()), i, owner);
                Over(db.Snapshot(), l) && commits == old(commits) + CommitsOf(l, steps, last, r.Done?)
    {
      var claimed := ClaimExecution(i, owner);
      if claimed.None? {
        return NotClaimed;
      }
      var l := claimed.value;
      ghost var leased := db.Snapshot();
      var topic := db.messages[i].intent.topic;
      var k := 0;
      while k < |steps|
        invariant 0 <= k <= |steps|
        invariant db.Snapshot() == leased
        invariant commits == old(commits) + CommitsOf(l, steps[..k], last, false)
      {
        var kept := CommitGuarded(l, steps[k], None);
        assert steps[..k + 1] == steps[..k] + [steps[k]];
        k := k + 1;
      }
      assert steps[..k] == steps;
      if ending.Returned? {
        var kept := CommitGuarded(l, last, Some(topic));
        r := Done;
      } else {
        r := Abandoned;
      }
      Release(l);
    }
  }
}
