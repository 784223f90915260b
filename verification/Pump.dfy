// pump: one pass of reconcile, then claim, publish and finish up to a limit.

module Pump {
  import opened Common
  import opened Outbox
  import opened Delivery

  // One turn of the loop: false when there was nothing to claim.
  ghost function Turned(p: Policy, db: Db, owner: Owner, error: Option<string>): (Db, bool) {
    var claimed := Claimed(p, db, owner, {});
    if claimed.1.None? then (db, false)
    else
      var written := Finished(p, claimed.0, claimed.1.value, error);
      // a lost lease is swallowed: a later owner is authoritative
      (if written.Some? then written.value else claimed.0, true)
  }

  // The loop of pump from its k-th turn on, when no other process interferes and the clock stands
  // still. Owner first + k and publish outcome errors[k] belong to that turn.
  ghost function Drained(p: Policy, db: Db, first: Owner, errors: seq<Option<string>>, k: nat): (Db, nat)
    requires k <= |errors|
    decreases |errors| - k
  {
    if k == |errors| then (db, 0)
    else
      var turn := Turned(p, db, first + k, errors[k]);
      if !turn.1 then (db, 0)
      else
        var rest := Drained(p, turn.0, first, errors, k + 1);
        (rest.0, rest.1 + 1)
  }

  // errors[k] is None for a publish that succeeded and the exception's class name otherwise.
  method Pump(delivery: DurableDelivery, first: Owner, errors: seq<Option<string>>) returns (count: nat)
    modifies delivery.db
    ensures var start := Reconciled(delivery.policy, old(delivery.db.Snapshot()), old(delivery.db.messages.Keys) - {});
            && delivery.db.Snapshot() == Drained(delivery.policy, start, first, errors, 0).0
            && count == Drained(delivery.policy, start, first, errors, 0).1
  {
    var _ := delivery.Reconcile({});
    count := Drain(delivery, first, errors);
  }

  method Drain(delivery: DurableDelivery, first: Owner, errors: seq<Option<string>>) returns (count: nat)
    modifies delivery.db
    ensures delivery.db.Snapshot() == Drained(delivery.policy, old(delivery.db.Snapshot()), first, errors, 0).0
    ensures count == Drained(delivery.policy, old(delivery.db.Snapshot()), first, errors, 0).1
  {
    hide Drained, Turned;
    ghost var here := delivery.db.Snapshot();
    ghost var all := Drained(delivery.policy, here, first, errors, 0);
    count := 0;
    while count < |errors|
      invariant 0 <= count <= |errors|
      invariant delivery.db.Snapshot() == here
      invariant all.0 == Drained(delivery.policy, here, first, errors, count).0
      invariant all.1 == Drained(delivery.policy, here, first, errors, count).1 + count
    {
      DrainedStep(delivery.policy, here, first, errors, count);
      var claimed := Turn(delivery, first + count, errors[count]);
      if !claimed {
        break;
      }
      here := Turned(delivery.policy, here, first + count, errors[count]).0;
      count := count + 1;
    }
    if count == |errors| {
      DrainedEnd(delivery.policy, here, first, errors);
    }
  }

  lemma DrainedEnd(p: Policy, db: Db, first: Owner, errors: seq<Option<string>>)
    ensures Drained(p, db, first, errors, |errors|) == (db, 0)
  {
  }

  lemma DrainedStep(p: Policy, db: Db, first: Owner, errors: seq<Option<string>>, k: nat)
    requires k < |errors|
    ensures var turn := Turned(p, db, first + k, errors[k]); var here := Drained(p, db, first, errors, k);
            if turn.1 then here.0 == Drained(p, turn.0, first, errors, k + 1).0
               && here.1 == Drained(p, turn.0, first, errors, k + 1).1 + 1
            else here.0 == db && here.1 == 0 && turn.0 == db
  {
  }

  method Turn(delivery: DurableDelivery, owner: Owner, error: Option<string>) returns (claimed: bool)
    modifies delivery.db
    ensures delivery.db.Snapshot() == Turned(delivery.policy, old(delivery.db.Snapshot()), owner, error).0
    ensures claimed == Turned(delivery.policy, old(delivery.db.Snapshot()), owner, error).1
  {
    var claim := delivery.ClaimDelivery(owner, {});
    if claim.None? {
      return false;
    }
    var _ := delivery.FinishDelivery(claim.value, error);
    claimed := true;
  }

  // One turn takes exactly the claimed message out of the claimable set, whatever publish did.
  lemma TurnRemovesOne(p: Policy, db: Db, owner: Owner, error: Option<string>) returns (i: Id)
    requires Sound(p) && Candidates(p, db, {}) != {}
    ensures First(db, Candidates(p, db, {}), i) && Turned(p, db, owner, error).1
    ensures var after := Turned(p, db, owner, error).0;
            && Candidates(p, after, {}) == Candidates(p, db, {}) - {i}
            && after.messages.Keys == db.messages.Keys && after.messages[i].attempts == db.messages[i].attempts + 1
            && (forall k :: k in db.messages && k != i ==> after.messages[k] == db.messages[k])
  {
    var r := Claimed(p, db, owner, {});
    var c := r.1.value;
    i := c.id;
    assert Claimable(p, db, i);
    assert Owns(r.0, c);
    var after := Turned(p, db, owner, error).0;
    BackoffBounds(c.attempts);
    assert after.messages == r.0.messages[i := Settled(r.0, c, error)];
    assert !Claimable(p, after, i);
    forall k | k != i
      ensures Claimable(p, after, k) == Claimable(p, db, k)
    {
      assert ActiveDead(after, k) == ActiveDead(db, k);
    }
  }

  lemma NothingToDrain(p: Policy, db: Db, first: Owner, errors: seq<Option<string>>, k: nat)
    requires k <= |errors| && (k == |errors| || Candidates(p, db, {}) == {})
    ensures Drained(p, db, first, errors, k) == (db, 0)
  {
  }

  // With a limit at least the number of claimable messages, the loop attempts every one of them
  // exactly once, leaves none claimable and touches no other message.
  lemma {:induction false} DrainAttemptsEachOnce(p: Policy, db: Db, first: Owner, errors: seq<Option<string>>, k: nat)
    requires Sound(p) && k <= |errors|
    requires |Candidates(p, db, {})| <= |errors| - k
    ensures var r := Drained(p, db, first, errors, k);
            && r.1 == |Candidates(p, db, {})|
            && Candidates(p, r.0, {}) == {}
            && r.0.messages.Keys == db.messages.Keys
            && (forall i :: i in Candidates(p, db, {}) ==> r.0.messages[i].attempts == db.messages[i].attempts + 1)
            && (forall i :: i in db.messages && i !in Candidates(p, db, {}) ==> r.0.messages[i] == db.messages[i])
    decreases |errors| - k
  {
    hide Drained, Turned;
    var ids := Candidates(p, db, {});
    if k == |errors| || ids == {} {
      NothingToDrain(p, db, first, errors, k);
    } else {
      var i := TurnRemovesOne(p, db, first + k, errors[k]);
      var after := Turned(p, db, first + k, errors[k]).0;
      assert |ids - {i}| == |ids| - 1;
      DrainedStep(p, db, first, errors, k);
      DrainAttemptsEachOnce(p, after, first, errors, k + 1);
    }
  }
}
