// The tables of the delivery protocol and the writes of the outbox repository:
// enqueueing an intent under a deduplication key, and the inbox marker.

module Outbox {
  import opened Common
  import opened Clock

  type Id = nat
  type Owner = nat

  // What the producer asked for. notBefore travels as a reserved header, so two intents
  // have equal stored headers exactly when headers and notBefore are both equal.
  datatype Intent = Intent(
    topic: string, key: string, payload: string,
    headers: map<string, string>, notBefore: Option<int>)

  datatype Status = Pending | Delivering | Published

  datatype Message = Message(
    intent: Intent, dedup: string, createdAt: int,
    status: Status, attempts: nat, availableAt: Instant,
    leaseOwner: Option<Owner>, leaseExpires: Option<int>,
    publishedAt: Option<int>, lastError: Option<string>)

  datatype DeadLetter = DeadLetter(error: string, failedAt: int, replayedAt: Option<int>)

  datatype Execution = Execution(message: Id, owner: Owner, epoch: nat, expiresAt: Instant)

  // One snapshot of all tables, together with the database clock.
  datatype Db = Db(
    now: int,
    messages: map<Id, Message>,
    dead: map<Id, DeadLetter>,
    inbox: set<(string, Id)>,
    executions: map<string, Execution>)

  predicate NotBeforeDue(intent: Intent, now: int) {
    intent.notBefore.None? || intent.notBefore.value <= now
  }

  // An entry of the dead-letter journal that has not been replayed.
  predicate ActiveDead(db: Db, id: Id) {
    id in db.dead && db.dead[id].replayedAt.None?
  }

  // The resource a message executes under: topic, colon, aggregate key.
  function Resource(intent: Intent): string {
    intent.topic + ":" + intent.key
  }

  // The unique constraint on deduplication_key.
  ghost predicate UniqueKeys(db: Db) {
    forall i, j :: i in db.messages && j in db.messages && db.messages[i].dedup == db.messages[j].dedup ==> i == j
  }

  predicate HoldsKey(db: Db, id: Id, dedup: string) {
    id in db.messages && db.messages[id].dedup == dedup
  }

  function NewMessage(dedup: string, intent: Intent, now: int): Message {
    Message(intent, dedup, now, Pending, 0,
            if intent.notBefore.Some? then At(intent.notBefore.value) else MinusInfinity,
            None, None, None, None)
  }

  // INSERT .. ON CONFLICT (deduplication_key) DO UPDATE .. WHERE the stored intent is equal.
  // None stands for a ValueError: the key is taken by a different intent.
  ghost function Enqueued(db: Db, id: Id, dedup: string, intent: Intent): (r: (Db, Option<Id>))
    requires id !in db.messages
    ensures r.1.Some? ==> r.1.value in r.0.messages && r.0.messages[r.1.value].intent == intent
    ensures UniqueKeys(db) ==> UniqueKeys(r.0)
    ensures forall i :: i in db.messages ==> i in r.0.messages && r.0.messages[i] == db.messages[i]
    ensures (exists i :: HoldsKey(db, i, dedup)) ==> r.0 == db
    ensures !(exists i :: HoldsKey(db, i, dedup)) ==> r.1 == Some(id) && r.0.messages.Keys == db.messages.Keys + {id}
  {
    if exists i :: HoldsKey(db, i, dedup) then
      var i :| HoldsKey(db, i, dedup);
      (db, if db.messages[i].intent == intent then Some(i) else None)
    else
      assert forall i :: i in db.messages ==> !HoldsKey(db, i, dedup);
      (db.(messages := db.messages[id := NewMessage(dedup, intent, db.now)]), Some(id))
  }

  // Once a key is stored, enqueueing it again yields the stored id exactly when the intent is equal,
  // and never changes a table.
  lemma EnqueueAgain(db: Db, first: Id, id: Id, dedup: string, intent: Intent)
    requires UniqueKeys(db) && id !in db.messages && HoldsKey(db, first, dedup)
    ensures Enqueued(db, id, dedup, intent).0 == db
    ensures Enqueued(db, id, dedup, intent).1 == Some(first) <==> intent == db.messages[first].intent
    ensures Enqueued(db, id, dedup, intent).1 == None <==> intent != db.messages[first].intent
  {}

  // The outbox seen by key alone: what each deduplication key stands for.
  type Intents = map<string, Intent>

  function StoredKeys(db: Db): set<string> {
    set i | i in db.messages :: db.messages[i].dedup
  }

  ghost function ByKey(db: Db): Intents {
    map dedup | dedup in StoredKeys(db) :: IntentFor(db, dedup)
  }

  ghost function IntentFor(db: Db, dedup: string): Intent
    requires dedup in StoredKeys(db)
  {
    var i :| i in db.messages && db.messages[i].dedup == dedup;
    db.messages[i].intent
  }

  lemma KeyMeansIntent(db: Db, i: Id)
    requires UniqueKeys(db) && i in db.messages
    ensures db.messages[i].dedup in ByKey(db) && ByKey(db)[db.messages[i].dedup] == db.messages[i].intent
  {}

  // None is the ValueError of a key that stands for something else.
  function Noted(intents: Intents, dedup: string, intent: Intent): Option<Intents> {
    if dedup !in intents then Some(intents[dedup := intent]) else if intents[dedup] == intent then Some(intents)
    else None
  }

  // Enqueueing into the table does exactly this to the keys.
  lemma EnqueueNotes(db: Db, id: Id, dedup: string, intent: Intent)
    requires UniqueKeys(db) && id !in db.messages
    ensures Noted(ByKey(db), dedup, intent) == if Enqueued(db, id, dedup, intent).1.None? then None
                                               else Some(ByKey(Enqueued(db, id, dedup, intent).0))
  {
    var after := Enqueued(db, id, dedup, intent).0;
    if i :| HoldsKey(db, i, dedup) {
      EnqueueAgain(db, i, id, dedup, intent);
      KeyMeansIntent(db, i);
    } else {
      assert after.messages == db.messages[id := NewMessage(dedup, intent, db.now)];
      assert dedup !in StoredKeys(db);
      assert StoredKeys(after) == StoredKeys(db) + {dedup} by {
        assert forall i :: i in db.messages ==> after.messages[i] == db.messages[i];
        assert after.messages[id].dedup == dedup;
      }
      forall other | other in StoredKeys(after)
        ensures ByKey(after)[other] == ByKey(db)[dedup := intent][other]
      {
        var i :| i in after.messages && after.messages[i].dedup == other;
        KeyMeansIntent(after, i);
        if i != id {
          KeyMeansIntent(db, i);
        }
      }
      assert ByKey(after) == ByKey(db)[dedup := intent];
    }
  }

  // The database: one field per table. Each method of the classes built on it is one transaction.
  class Database {
    var now: int
    var messages: map<Id, Message>
    var dead: map<Id, DeadLetter>
    var inbox: set<(string, Id)>
    var executions: map<string, Execution>

    constructor (now: int)
      ensures Snapshot() == Db(now, map[], map[], {}, map[])
    {
      this.now := now;
      messages, dead, inbox, executions := map[], map[], {}, map[];
    }

    function Snapshot(): Db
      reads this
    {
      Db(now, messages, dead, inbox, executions)
    }

    method Enqueue(id: Id, dedup: string, intent: Intent) returns (stored: Option<Id>)
      requires id !in messages && UniqueKeys(Snapshot())
      modifies this`messages
      ensures (Snapshot(), stored) == Enqueued(old(Snapshot()), id, dedup, intent)
      ensures UniqueKeys(Snapshot())
    {
      var holders := set i | i in messages && HoldsKey(Snapshot(), i, dedup);
      if holders == {} {
        assert forall i :: HoldsKey(Snapshot(), i, dedup) ==> i in holders;
        messages := messages[id := NewMessage(dedup, intent, now)];
        stored := Some(id);
      } else {
        var i :| i in holders;
        stored := if messages[i].intent == intent then Some(i) else None;
      }
    }

    // claim_inbox_once: false when the marker was already there.
    method ClaimInboxOnce(consumer: string, id: Id) returns (first: bool)
      modifies this`inbox
      ensures inbox == old(inbox) + {(consumer, id)}
      ensures first <==> (consumer, id) !in old(inbox)
    {
      first := (consumer, id) !in inbox;
      inbox := inbox + {(consumer, id)};
    }
  }
}
