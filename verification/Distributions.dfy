// Distributing document versions: one record per version and dataset, dispatch messages deduplicated by
// retry generation, and a payload whose document part never changes.

module Distributions {
  import opened Common
  import opened Outbox

  type VersionId = string
  type RecordId = string
  type Pid = nat

  datatype Json = Text(text: string) | Arr(items: seq<Json>) | Fields(fields: map<string, Json>)

  type Payload = map<string, Json>

  // Keys kept for ourselves and never sent.
  const INTERNAL: set<string> :=
      {"status_history", "last_status_update", "retry_history", "last_retry", "audit_log", "last_audit"}

  const TOPIC := "knowfeed.distribution.dispatch.v1"

  datatype Record = Record(version: VersionId, target: Option<string>, status: string, payload: Payload)

  datatype DistributionError =
    | InvalidDataset
    | VersionNotFound
    | DistributionNotFound
    | OnlyFailedCanBeRetried
    | KeyTaken

  // ---------------------------------------------------------------- payloads

  // _knowledge_ingestion_payload
  function Sent(payload: Payload): Payload {
    map k | k in payload && k !in INTERNAL :: payload[k]
  }

  function ItemsAt(payload: Payload, key: string): seq<Json> {
    if key in payload && payload[key].Arr? then payload[key].items else []
  }

  function Appended(payload: Payload, history: string, last: string, entry: Json): Payload {
    payload[history := Arr(ItemsAt(payload, history) + [entry])][last := entry]
  }

  // Without an operation context nothing is audited.
  function Audited(payload: Payload, audit: Option<Json>): Payload {
    if audit.None? then payload else Appended(payload, "audit_log", "last_audit", audit.value)
  }

  function StatusNoted(payload: Payload, entry: Json, audit: Option<Json>): Payload {
    Audited(Appended(payload, "status_history", "last_status_update", entry), audit)
  }

  function RetryNoted(payload: Payload, entry: Json, audit: Option<Json>): Payload {
    Audited(Appended(payload, "retry_history", "last_retry", entry), audit)
  }

  function Generation(payload: Payload): nat {
    |ItemsAt(payload, "retry_history")|
  }

  lemma SentIgnoresNotes(payload: Payload, entry: Json, audit: Option<Json>)
    ensures Sent(Audited(payload, audit)) == Sent(payload)
    ensures Sent(StatusNoted(payload, entry, audit)) == Sent(payload)
    ensures Sent(RetryNoted(payload, entry, audit)) == Sent(payload)
  {
  }

  lemma GenerationCountsRetries(payload: Payload, entry: Json, audit: Option<Json>)
    ensures Generation(Audited(payload, audit)) == Generation(payload)
    ensures Generation(StatusNoted(payload, entry, audit)) == Generation(payload)
    ensures Generation(RetryNoted(payload, entry, audit)) == Generation(payload) + 1
  {}

  // ---------------------------------------------------------------- dispatch messages

  function DispatchKey(id: RecordId, generation: nat): string {
    "info.distribution:" + id + ":dispatch-v1" + if generation == 0 then "" else ":retry:" + Digits(generation)
  }

  function DispatchIntent(id: RecordId): Intent {
    Intent(TOPIC, id, id, map[], None)
  }

  // The dispatch messages ever enqueued for a record.
  function Messages(intents: Intents, id: RecordId): set<string> {
    set dedup | dedup in intents && intents[dedup] == DispatchIntent(id)
  }

  function KeysUpTo(id: RecordId, n: nat): set<string> {
    if n == 0 then {DispatchKey(id, 0)} else KeysUpTo(id, n - 1) + {DispatchKey(id, n)}
  }

  lemma {:induction false} KeysAreFew(id: RecordId, n: nat)
    ensures |KeysUpTo(id, n)| <= n + 1
  {
    if n > 0 {
      KeysAreFew(id, n - 1);
    }
  }

  lemma {:induction false} KeysGrow(id: RecordId, g: nat, n: nat)
    requires g <= n
    ensures DispatchKey(id, g) in KeysUpTo(id, n) && KeysUpTo(id, g) <= KeysUpTo(id, n)
  {
    if g < n {
      KeysGrow(id, g, n - 1);
    }
  }

  // ensure_distribution_dispatch_outbox
  function Dispatched(intents: Intents, id: RecordId, payload: Payload): Option<Intents> {
    Noted(intents, DispatchKey(id, Generation(payload)), DispatchIntent(id))
  }

  // ---------------------------------------------------------------- the tables and who works on them

  // coalesce(nullif(target_dataset, ''), 'default') in the unique index, target_dataset or "default" in the service
  function DatasetOf(target: Option<string>): string {
    if target.None? || target.value == "" then "default" else target.value
  }

  predicate InitialChar(c: char) {
    'a' <= c <= 'z' || '0' <= c <= '9'
  }

  predicate ValidKey(key: string) {
    && 1 <= |key| <= 120 && InitialChar(key[0])
    && forall k :: 1 <= k < |key| ==> InitialChar(key[k]) || key[k] == '.' || key[k] == '_' || key[k] == '-'
  }

  // A creator holds the version's row; found is the record that was already there.
  datatype Creator = Creator(version: VersionId, dataset: string, found: Option<RecordId>)

  // A sender works on the payload it read after marking the record as running.
  datatype Sender = Sender(record: RecordId, read: Option<Payload>)

  // retried and sent are the history: the retries of each record, and every payload ever sent.
  datatype State = State(
    versions: set<VersionId>, records: map<RecordId, Record>, intents: Intents,
    creators: map<Pid, Creator>, senders: map<Pid, Sender>,
    retried: map<RecordId, nat>, sent: seq<(RecordId, Payload)>)

  datatype Action =
    | AddVersion(version: VersionId)
    | Create(pid: Pid, version: VersionId, target: Option<string>)
    // the contract has none of our own keys
    | Finish(pid: Pid, id: RecordId, contract: Payload, audit: Option<Json>, dispatch: bool)
    | Abort(pid: Pid)
    | UpdateStatus(id: RecordId, status: string, entry: Json, audit: Option<Json>)
    | StartSending(pid: Pid, id: RecordId, entry: Json, audit: Option<Json>)
    | Send(pid: Pid)
    | EndSending(pid: Pid, status: string, entry: Json, audit: Option<Json>)
    | Retry(id: RecordId, entry: Json, audit: Option<Json>)
    | Request(id: RecordId)
    | Enqueue(dedup: string, intent: Intent)  // other topics share the outbox

  const EMPTY: State := State({}, map[], map[], map[], map[], map[], [])

  predicate IsFor(r: Record, version: VersionId, dataset: string) {
    r.version == version && DatasetOf(r.target) == dataset
  }

  predicate RowFree(s: State, version: VersionId) {
    forall pid :: pid in s.creators ==> s.creators[pid].version != version
  }

  ghost function Existing(records: map<RecordId, Record>, version: VersionId,
      dataset: string): (found: Option<RecordId>)
    ensures found.Some? ==> found.value in records && IsFor(records[found.value], version, dataset)
    ensures found.None? ==> forall id :: id in records ==> !IsFor(records[id], version, dataset)
  {
    if id :| id in records && IsFor(records[id], version, dataset) then Some(id) else None
  }

  ghost function Creating(s: State, pid: Pid, version: VersionId, target: Option<string>): State {
    if pid in s.creators || !ValidKey(DatasetOf(target)) || version !in s.versions || !RowFree(s, version) then s
    else s.(creators := s.creators[pid := Creator(version, DatasetOf(target),
                                                  Existing(s.records, version, DatasetOf(target)))])
  }

  function Finishing(s: State, pid: Pid, id: RecordId, contract: Payload, audit: Option<Json>, dispatch: bool): State {
    if pid !in s.creators then s
    else
      var c := s.creators[pid];
      var ended := s.(creators := s.creators - {pid});
      if c.found.Some? then
        (if dispatch && c.found.value in s.records && s.records[c.found.value].status == "pending" then
           var intents := Dispatched(s.intents, c.found.value, s.records[c.found.value].payload);
           if intents.Some? then ended.(intents := intents.value) else ended
         else ended)
      else if id in s.records || contract.Keys * INTERNAL != {} then s
      else
        Making(ended, id, Record(c.version, Some(c.dataset), "pending", Audited(contract, audit)), dispatch)
  }

  // Record and message are stored together or not at all.
  function Making(s: State, id: RecordId, r: Record, dispatch: bool): State {
    var intents := if dispatch then Dispatched(s.intents, id, r.payload) else Some(s.intents);
    if intents.None? then s
    else s.(records := s.records[id := r], intents := intents.value, retried := s.retried[id := 0])
  }

  function Updating(s: State, id: RecordId, status: string, entry: Json, audit: Option<Json>): State {
    if id !in s.records then s
    else Outcome(s, id, s.records[id].payload, status, entry, audit)
  }

  function Starting(s: State, pid: Pid, id: RecordId, entry: Json, audit: Option<Json>): State {
    if id !in s.records || pid in s.senders || s.records[id].status == "succeeded" then s
    else Updating(s, id, "running", entry, audit).(senders := s.senders[pid := Sender(id, None)])
  }

  // After the commit the row is read again without a lock, and what was read is sent.
  function Sending(s: State, pid: Pid): State {
    if pid !in s.senders || s.senders[pid].read.Some? || s.senders[pid].record !in s.records then s
    else
      var id := s.senders[pid].record;
      s.(senders := s.senders[pid := Sender(id, Some(s.records[id].payload))],
         sent := s.sent + [(id, Sent(s.records[id].payload))])
  }

  function Outcome(s: State, id: RecordId, read: Payload, status: string, entry: Json, audit: Option<Json>): State
    requires id in s.records
  {
    s.(records := s.records[id := s.records[id].(status := status, payload := StatusNoted(read, entry, audit))])
  }

  // The outcome is noted on the payload that was read, whatever the row holds by now.
  function Ending(s: State, pid: Pid, status: string, entry: Json, audit: Option<Json>): State {
    if pid !in s.senders || s.senders[pid].read.None? || s.senders[pid].record !in s.records then s
    else
      var noted := Outcome(s, s.senders[pid].record, s.senders[pid].read.value, status, entry, audit);
      noted.(senders := noted.senders - {pid})
  }

  function Retrying(s: State, id: RecordId, entry: Json, audit: Option<Json>): State {
    if id !in s.records || s.records[id].status != "failed" then s
    else
      var payload := RetryNoted(s.records[id].payload, entry, audit);
      var intents := Dispatched(s.intents, id, payload);
      if intents.None? then s
      else s.(records := s.records[id := s.records[id].(status := "pending", payload := payload)],
                         intents := intents.value,
              retried := s.retried[id := (if id in s.retried then s.retried[id] else 0) + 1])
  }

  function Requesting(s: State, id: RecordId): State {
    if id !in s.records || s.records[id].status == "succeeded" then s
    else
      var intents := Dispatched(s.intents, id, s.records[id].payload);
      if intents.None? then s else s.(intents := intents.value)
  }

  function Adding(s: State, version: VersionId): State {
    s.(versions := s.versions + {version})
  }

  function Aborting(s: State, pid: Pid): State {
    s.(creators := s.creators - {pid}, senders := s.senders - {pid})
  }

  function Sharing(s: State, dedup: string, intent: Intent): State {
    if intent.topic == TOPIC || Noted(s.intents, dedup, intent).None? then s
    else s.(intents := Noted(s.intents, dedup, intent).value)
  }

  ghost function Next(s: State, a: Action): State {
    match a
    case AddVersion(version) => Adding(s, version)
    case Create(pid, version, target) => Creating(s, pid, version, target)
    case Finish(pid, id, contract, audit, dispatch) => Finishing(s, pid, id, contract, audit, dispatch)
    case Abort(pid) => Aborting(s, pid)
    case UpdateStatus(id, status, entry, audit) => Updating(s, id, status, entry, audit)
    case StartSending(pid, id, entry, audit) => Starting(s, pid, id, entry, audit)
    case Send(pid) => Sending(s, pid)
    case EndSending(pid, status, entry, audit) => Ending(s, pid, status, entry, audit)
    case Retry(id, entry, audit) => Retrying(s, id, entry, audit)
    case Request(id) => Requesting(s, id)
    case Enqueue(dedup, intent) => Sharing(s, dedup, intent)
  }

  ghost function Run(s: State, actions: seq<Action>): State
    decreases |actions|
  {
    if actions == [] then s else Run(Next(s, actions[0]), actions[1..])
  }

  // ---------------------------------------------------------------- invariants

  ghost predicate OneEach(records: map<RecordId, Record>) {
    forall i, j, version,
    dataset :: HasRecord(records, i, version, dataset) && HasRecord(records, j, version, dataset) ==> i == j
  }

  predicate HasRecord(records: map<RecordId, Record>, id: RecordId, version: VersionId, dataset: string) {
    id in records && IsFor(records[id], version, dataset)
  }

  // A creator that found nothing still finds nothing, as long as it holds the version's row.
  predicate CreatorSound(c: Creator, records: map<RecordId, Record>) {
    && c.dataset != ""
    && if c.found.None? then forall id :: id in records ==> !IsFor(records[id], c.version, c.dataset)
       else c.found.value in records && IsFor(records[c.found.value], c.version, c.dataset)
  }

  predicate CreatorsSound(creators: map<Pid, Creator>, records: map<RecordId, Record>) {
    && (forall p :: p in creators ==> CreatorSound(creators[p], records))
    && (forall p, q :: p in creators && q in creators && creators[p].version == creators[q].version ==> p == q)
  }

  function Retried(retried: map<RecordId, nat>, id: RecordId): nat {
    if id in retried then retried[id] else 0
  }

  // A record's generation never exceeds its retries, nor does that of a copy a sender still holds.
  predicate GenerationsSound(records: map<RecordId, Record>, senders: map<Pid, Sender>, retried: map<RecordId, nat>) {
    && retried.Keys <= records.Keys
    && (forall id :: id in records ==> Generation(records[id].payload) <= Retried(retried, id))
    && (forall p :: p in senders
                    && senders[p].read.Some? ==>
                       Generation(senders[p].read.value) <= Retried(retried, senders[p].record))
  }

  ghost predicate MessagesSound(intents: Intents, retried: map<RecordId, nat>) {
    forall id {:trigger Messages(intents, id)} :: Messages(intents, id) <= KeysUpTo(id, Retried(retried, id))
  }

  // What is sent of a record, and of any copy of it, is what was sent before.
  predicate SentSound(records: map<RecordId, Record>, senders: map<Pid, Sender>, sent: seq<(RecordId, Payload)>) {
    && (forall p :: p in senders ==> senders[p].record in records && (senders[p].read.Some? ==>
       Sent(senders[p].read.value) == Sent(records[senders[p].record].payload)))
    && (forall k :: 0 <= k < |sent| ==> sent[k].0 in records && sent[k].1 == Sent(records[sent[k].0].payload))
  }

  ghost predicate Inv(s: State) {
    && OneEach(s.records) && CreatorsSound(s.creators, s.records) && GenerationsSound(s.records, s.senders, s.retried)
    && MessagesSound(s.intents, s.retried) && SentSound(s.records, s.senders, s.sent)
  }

  // Everything a record is known by stays; only status and our own keys change.
  predicate KeptRow(a: Record, b: Record) {
    b.version == a.version && b.target == a.target && Sent(b.payload) == Sent(a.payload)
  }

  predicate Kept(a: map<RecordId, Record>, b: map<RecordId, Record>) {
    forall id :: id in a ==> id in b && KeptRow(a[id], b[id])
  }

  // ---------------------------------------------------------------- every step keeps them

  lemma RowInPlace(s: State, id: RecordId, r: Record)
    requires Inv(s) && id in s.records && KeptRow(s.records[id], r)
    ensures OneEach(s.records[id := r]) && CreatorsSound(s.creators, s.records[id := r])
  {
    var records := s.records[id := r];
    forall i, j, version, dataset | HasRecord(records, i, version, dataset) && HasRecord(records, j, version, dataset)
      ensures i == j
    {
      assert HasRecord(s.records, i, version, dataset) && HasRecord(s.records, j, version, dataset);
    }
    forall p | p in s.creators
      ensures CreatorSound(s.creators[p], records)
    {
      assert CreatorSound(s.creators[p], s.records);
    }
  }

  // A row with a new status and payload, as good as the old one.
  lemma RowKeeps(s: State, id: RecordId, r: Record)
    requires Inv(s) && id in s.records && KeptRow(s.records[id], r) && Generation(r.payload) <= Retried(s.retried, id)
    ensures Inv(s.(records := s.records[id := r])) && Kept(s.records, s.records[id := r])
  {
    RowInPlace(s, id, r);
    SentRow(s, id, r);
  }

  lemma SentRow(s: State, id: RecordId, r: Record)
    requires Inv(s) && id in s.records && KeptRow(s.records[id], r)
    ensures SentSound(s.records[id := r], s.senders, s.sent) && Kept(s.records, s.records[id := r])
  {
  }

  lemma DispatchAddsItsKey(intents: Intents, id: RecordId, payload: Payload, other: RecordId)
    requires Dispatched(intents, id, payload).Some?
    ensures Messages(Dispatched(intents, id, payload).value, other) ==
            if other == id then Messages(intents, id) + {DispatchKey(id, Generation(payload))}
            else Messages(intents, other)
  {}

  // A dispatch of a generation no higher than the retries keeps the messages within bounds.
  lemma DispatchingKeeps(intents: Intents, retried: map<RecordId, nat>, more: map<RecordId, nat>, id: RecordId,
      payload: Payload)
    requires MessagesSound(intents, retried) && Dispatched(intents, id, payload).Some?
    requires Generation(payload) <= Retried(more, id) && forall other :: Retried(more, other) >= Retried(retried, other)
    ensures MessagesSound(Dispatched(intents, id, payload).value, more)
  {
    forall other
      ensures Messages(Dispatched(intents, id, payload).value, other) <= KeysUpTo(other, Retried(more, other))
    {
      DispatchAddsItsKey(intents, id, payload, other);
      assert Messages(intents, other) <= KeysUpTo(other, Retried(retried, other));
      KeysGrow(other, Retried(retried, other), Retried(more, other));
      if other == id {
        KeysGrow(id, Generation(payload), Retried(more, id));
      }
    }
  }

  lemma MoreRetries(intents: Intents, retried: map<RecordId, nat>, more: map<RecordId, nat>)
    requires MessagesSound(intents, retried) && forall other :: Retried(more, other) >= Retried(retried, other)
    ensures MessagesSound(intents, more)
  {
    forall other
      ensures Messages(intents, other) <= KeysUpTo(other, Retried(more, other))
    {
      KeysGrow(other, Retried(retried, other), Retried(more, other));
    }
  }

  // Noting a status on a copy that is as good as the row.
  lemma NotingKeeps(s: State, id: RecordId, copy: Payload, status: string, entry: Json, audit: Option<Json>)
    requires Inv(s) && id in s.records && Sent(copy) == Sent(s.records[id].payload)
             && Generation(copy) <= Retried(s.retried, id)
    ensures Inv(Outcome(s, id, copy, status, entry, audit))
            && Kept(s.records, Outcome(s, id, copy, status, entry, audit).records)
  {
    SentIgnoresNotes(copy, entry, audit);
    GenerationCountsRetries(copy, entry, audit);
    RowKeeps(s, id, s.records[id].(status := status, payload := StatusNoted(copy, entry, audit)));
  }

  lemma UpdatingKeeps(s: State, id: RecordId, status: string, entry: Json, audit: Option<Json>)
    requires Inv(s)
    ensures Inv(Updating(s, id, status, entry, audit)) && Kept(s.records, Updating(s, id, status, entry, audit).records)
  {
    if id in s.records {
      NotingKeeps(s, id, s.records[id].payload, status, entry, audit);
    }
  }

  lemma SenderKeeps(s: State, pid: Pid, sender: Sender)
    requires Inv(s) && sender.record in s.records
    requires sender.read.Some? ==> sender.read.value == s.records[sender.record].payload
    ensures Inv(s.(senders := s.senders[pid := sender]))
  {
  }

  lemma FewerSenders(s: State, pid: Pid)
    requires Inv(s)
    ensures Inv(s.(senders := s.senders - {pid}))
  {
  }

  lemma StartingKeeps(s: State, pid: Pid, id: RecordId, entry: Json, audit: Option<Json>)
    requires Inv(s)
    ensures Inv(Starting(s, pid, id, entry, audit)) && Kept(s.records, Starting(s, pid, id, entry, audit).records)
  {
    NothingChanged(s);
    hide Inv, Kept;
    if id in s.records && pid !in s.senders && s.records[id].status != "succeeded" {
      UpdatingKeeps(s, id, "running", entry, audit);
      SenderKeeps(Updating(s, id, "running", entry, audit), pid, Sender(id, None));
    }
  }

  lemma SendingKeeps(s: State, pid: Pid)
    requires Inv(s)
    ensures Inv(Sending(s, pid)) && Kept(s.records, Sending(s, pid).records)
  {}

  // What the invariants say of one row, and of a copy a sender holds.
  lemma RowIsGood(s: State, id: RecordId)
    requires Inv(s) && id in s.records
    ensures Generation(s.records[id].payload) <= Retried(s.retried, id)
  {
  }

  lemma CopyIsGood(s: State, pid: Pid)
    requires Inv(s) && pid in s.senders && s.senders[pid].read.Some?
    ensures s.senders[pid].record in s.records
    ensures Sent(s.senders[pid].read.value) == Sent(s.records[s.senders[pid].record].payload)
    ensures Generation(s.senders[pid].read.value) <= Retried(s.retried, s.senders[pid].record)
  {
  }

  lemma EndingKeeps(s: State, pid: Pid, status: string, entry: Json, audit: Option<Json>)
    requires Inv(s)
    ensures Inv(Ending(s, pid, status, entry, audit)) && Kept(s.records, Ending(s, pid, status, entry, audit).records)
  {
    NothingChanged(s);
    hide Inv, Kept, GenerationsSound, SentSound;
    if pid in s.senders && s.senders[pid].read.Some? && s.senders[pid].record in s.records {
      CopyIsGood(s, pid);
      NotingKeeps(s, s.senders[pid].record, s.senders[pid].read.value, status, entry, audit);
      FewerSenders(Outcome(s, s.senders[pid].record, s.senders[pid].read.value, status, entry, audit), pid);
    }
  }

  lemma RetryingKeeps(s: State, id: RecordId, entry: Json, audit: Option<Json>)
    requires Inv(s)
    ensures Inv(Retrying(s, id, entry, audit)) && Kept(s.records, Retrying(s, id, entry, audit).records)
  {
    NothingChanged(s);
    hide Inv, Kept, Generation, Sent, RetryNoted;
    if id in s.records && s.records[id].status == "failed" {
      var payload := RetryNoted(s.records[id].payload, entry, audit);
      RowIsGood(s, id);
      if Dispatched(s.intents, id, payload).Some? {
        SentIgnoresNotes(s.records[id].payload, entry, audit);
        GenerationCountsRetries(s.records[id].payload, entry, audit);
        RetryCounted(s, id);
        var counted := s.(retried := s.retried[id := Retried(s.retried, id) + 1]);
        RowKeeps(counted, id, s.records[id].(status := "pending", payload := payload));
        MessageAdded(counted.(records := s.records[id := s.records[id].(status := "pending", payload := payload)]),
                     id, payload);
      }
    }
  }

  lemma NothingChanged(s: State)
    ensures Kept(s.records, s.records)
  {
  }

  lemma RetryCounted(s: State, id: RecordId)
    requires Inv(s) && id in s.records
    ensures Inv(s.(retried := s.retried[id := Retried(s.retried, id) + 1]))
  {
    MoreRetries(s.intents, s.retried, s.retried[id := Retried(s.retried, id) + 1]);
  }

  lemma MessageAdded(s: State, id: RecordId, payload: Payload)
    requires Inv(s) && Dispatched(s.intents, id, payload).Some? && Generation(payload) <= Retried(s.retried, id)
    ensures Inv(s.(intents := Dispatched(s.intents, id, payload).value))
  {
    DispatchingKeeps(s.intents, s.retried, s.retried, id, payload);
  }

  lemma RequestingKeeps(s: State, id: RecordId)
    requires Inv(s)
    ensures Inv(Requesting(s, id)) && Kept(s.records, Requesting(s, id).records)
  {
    if id in s.records && s.records[id].status != "succeeded"
       && Dispatched(s.intents, id, s.records[id].payload).Some? {
      DispatchingKeeps(s.intents, s.retried, s.retried, id, s.records[id].payload);
    }
  }

  lemma CreatingKeeps(s: State, pid: Pid, version: VersionId, target: Option<string>)
    requires Inv(s)
    ensures Inv(Creating(s, pid, version, target)) && Kept(s.records, Creating(s, pid, version, target).records)
  {
    NothingChanged(s);
    hide Kept, OneEach, GenerationsSound, MessagesSound, SentSound, ValidKey;
    var b := Creating(s, pid, version, target);
    forall p | p in b.creators
      ensures CreatorSound(b.creators[p], b.records)
    {
      assert p in s.creators ==> CreatorSound(s.creators[p], s.records);
    }
  }

  lemma FewerCreators(s: State, pid: Pid)
    requires Inv(s)
    ensures Inv(s.(creators := s.creators - {pid}))
  {}

  lemma NewRecordInPlace(s: State, pid: Pid, id: RecordId, r: Record)
    requires Inv(s) && pid in s.creators && s.creators[pid].found.None? && id !in s.records
    requires IsFor(r, s.creators[pid].version, s.creators[pid].dataset)
    ensures OneEach(s.records[id := r]) && CreatorsSound(s.creators - {pid}, s.records[id := r])
  {
    var records := s.records[id := r];
    assert CreatorSound(s.creators[pid], s.records);
    forall i, j, version, dataset | HasRecord(records, i, version, dataset) && HasRecord(records, j, version, dataset)
      ensures i == j
    {
      assert i != id ==> HasRecord(s.records, i, version, dataset);
      assert j != id ==> HasRecord(s.records, j, version, dataset);
    }
    forall p | p in s.creators - {pid}
      ensures CreatorSound(s.creators[p], records)
    {
      assert CreatorSound(s.creators[p], s.records);
    }
  }

  lemma NewRecordKeeps(s: State, pid: Pid, id: RecordId, r: Record)
    requires Inv(s) && pid in s.creators && s.creators[pid].found.None? && id !in s.records
    requires IsFor(r, s.creators[pid].version, s.creators[pid].dataset) && Generation(r.payload) == 0
    ensures Inv(s.(records := s.records[id := r], creators := s.creators - {pid}, retried := s.retried[id := 0]))
    ensures Kept(s.records, s.records[id := r])
  {
    NewRecordInPlace(s, pid, id, r);
    assert id !in s.retried;
    MoreRetries(s.intents, s.retried, s.retried[id := 0]);
  }

  lemma NoOwnKeys(contract: Payload)
    requires contract.Keys * INTERNAL == {}
    ensures Generation(contract) == 0
  {
    assert "retry_history" in contract ==> "retry_history" in contract.Keys * INTERNAL;
  }

  lemma FinishingFoundKeeps(s: State, pid: Pid, id: RecordId, contract: Payload, audit: Option<Json>, dispatch: bool)
    requires Inv(s) && pid in s.creators && s.creators[pid].found.Some?
    ensures Inv(Finishing(s, pid, id, contract, audit, dispatch))
            && Finishing(s, pid, id, contract, audit, dispatch).records == s.records
  {
    var found := s.creators[pid].found.value;
    FewerCreators(s, pid);
    assert CreatorSound(s.creators[pid], s.records);
    if Dispatched(s.intents, found, s.records[found].payload).Some? {
      DispatchingKeeps(s.intents, s.retried, s.retried, found, s.records[found].payload);
    }
  }

  // What the creator's new record needs once its row lock has kept everybody else away.
  lemma MakingKeeps(s: State, ended: State, id: RecordId, r: Record, dispatch: bool)
    requires Inv(ended) && id !in ended.records && Generation(r.payload) == 0
    requires Inv(ended.(records := ended.records[id := r], retried := ended.retried[id := 0]))
    requires Kept(s.records, ended.records[id := r]) && s.records == ended.records
    ensures Inv(Making(ended, id, r, dispatch)) && Kept(s.records, Making(ended, id, r, dispatch).records)
  {
    if dispatch && Dispatched(ended.intents, id, r.payload).Some? {
      DispatchingKeeps(ended.intents, ended.retried[id := 0], ended.retried[id := 0], id, r.payload);
    }
  }

  lemma FinishingNewKeeps(s: State, pid: Pid, id: RecordId, contract: Payload, audit: Option<Json>, dispatch: bool)
    requires Inv(s) && pid in s.creators && s.creators[pid].found.None?
    ensures Inv(Finishing(s, pid, id, contract, audit, dispatch))
            && Kept(s.records, Finishing(s, pid, id, contract, audit, dispatch).records)
  {
    var c, ended := s.creators[pid], s.(creators := s.creators - {pid});
    FewerCreators(s, pid);
    assert CreatorSound(c, s.records);
    if id !in s.records && contract.Keys * INTERNAL == {} {
      var r := Record(c.version, Some(c.dataset), "pending", Audited(contract, audit));
      NoOwnKeys(contract);
      GenerationCountsRetries(contract, Text(""), audit);
      NewRecordKeeps(s, pid, id, r);
      MakingKeeps(s, ended, id, r, dispatch);
    }
  }

  lemma FinishingKeeps(s: State, pid: Pid, id: RecordId, contract: Payload, audit: Option<Json>, dispatch: bool)
    requires Inv(s)
    ensures Inv(Finishing(s, pid, id, contract, audit, dispatch))
            && Kept(s.records, Finishing(s, pid, id, contract, audit, dispatch).records)
  {
    if pid in s.creators {
      if s.creators[pid].found.Some? {
        FinishingFoundKeeps(s, pid, id, contract, audit, dispatch);
      } else {
        FinishingNewKeeps(s, pid, id, contract, audit, dispatch);
      }
    }
  }

  lemma SharingKeeps(s: State, dedup: string, intent: Intent)
    requires Inv(s)
    ensures Inv(Sharing(s, dedup, intent)) && Kept(s.records, Sharing(s, dedup, intent).records)
  {
    if intent.topic != TOPIC && Noted(s.intents, dedup, intent).Some? {
      forall id
        ensures Messages(Noted(s.intents, dedup, intent).value, id) <= KeysUpTo(id, Retried(s.retried, id))
      {
        assert Messages(Noted(s.intents, dedup, intent).value, id) == Messages(s.intents, id);
      }
    }
  }

  lemma AddingKeeps(s: State, version: VersionId)
    requires Inv(s)
    ensures Inv(Adding(s, version)) && Kept(s.records, Adding(s, version).records)
  {
  }

  lemma AbortingKeeps(s: State, pid: Pid)
    requires Inv(s)
    ensures Inv(Aborting(s, pid)) && Kept(s.records, Aborting(s, pid).records)
  {}

  lemma NextKeeps(s: State, a: Action)
    requires Inv(s)
    ensures Inv(Next(s, a)) && Kept(s.records, Next(s, a).records)
  {
    hide Inv, Kept, Adding, Creating, Finishing, Aborting, Updating, Starting, Sending, Ending, Retrying, Requesting,
    Sharing;
    match a
    case AddVersion(version) => AddingKeeps(s, version);
    case Create(pid, version, target) => CreatingKeeps(s, pid, version, target);
    case Finish(pid, id, contract, audit, dispatch) => FinishingKeeps(s, pid, id, contract, audit, dispatch);
    case Abort(pid) => AbortingKeeps(s, pid);
    case UpdateStatus(id, status, entry, audit) => UpdatingKeeps(s, id, status, entry, audit);
    case StartSending(pid, id, entry, audit) => StartingKeeps(s, pid, id, entry, audit);
    case Send(pid) => SendingKeeps(s, pid);
    case EndSending(pid, status, entry, audit) => EndingKeeps(s, pid, status, entry, audit);
    case Retry(id, entry, audit) => RetryingKeeps(s, id, entry, audit);
    case Request(id) => RequestingKeeps(s, id);
    case Enqueue(dedup, intent) => SharingKeeps(s, dedup, intent);
  }

  lemma {:induction false} RunKeeps(s: State, actions: seq<Action>)
    requires Inv(s)
    ensures Inv(Run(s, actions)) && Kept(s.records, Run(s, actions).records)
    decreases |actions|
  {
    if actions != [] {
      NextKeeps(s, actions[0]);
      RunKeeps(Next(s, actions[0]), actions[1..]);
    }
  }

  // ---------------------------------------------------------------- theorems

  lemma EmptyInv()
    ensures Inv(EMPTY)
  {
  }

  // Concurrent creates leave one record per version and dataset.
  lemma OneRecordEach(actions: seq<Action>, i: RecordId, j: RecordId)
    requires i in Run(EMPTY, actions).records && j in Run(EMPTY, actions).records
    requires Run(EMPTY, actions).records[i].version == Run(EMPTY, actions).records[j].version
    requires DatasetOf(Run(EMPTY, actions).records[i].target) == DatasetOf(Run(EMPTY, actions).records[j].target)
    ensures i == j
  {
    EmptyInv();
    RunKeeps(EMPTY, actions);
    var r := Run(EMPTY, actions).records[i];
    assert HasRecord(Run(EMPTY, actions).records, i, r.version, DatasetOf(r.target))
           && HasRecord(Run(EMPTY, actions).records, j, r.version, DatasetOf(r.target));
  }

  // A record has at most one dispatch message plus one per retry, whatever senders overwrote meanwhile.
  lemma MessagesBounded(actions: seq<Action>, id: RecordId)
    ensures |Messages(Run(EMPTY, actions).intents, id)| <= 1 + Retried(Run(EMPTY, actions).retried, id)
  {
    EmptyInv();
    RunKeeps(EMPTY, actions);
    var s := Run(EMPTY, actions);
    assert Messages(s.intents, id) <= KeysUpTo(id, Retried(s.retried, id));
    SmallerSet(Messages(s.intents, id), KeysUpTo(id, Retried(s.retried, id)));
    KeysAreFew(id, Retried(s.retried, id));
  }

  // Every payload ever sent of a record is the same, and it is what the record would send now.
  lemma SentIsFrozen(actions: seq<Action>, i: nat, j: nat)
    requires i < |Run(EMPTY, actions).sent| && j < |Run(EMPTY, actions).sent|
    requires Run(EMPTY, actions).sent[i].0 == Run(EMPTY, actions).sent[j].0
    ensures Run(EMPTY, actions).sent[i].1 == Run(EMPTY, actions).sent[j].1
    ensures Run(EMPTY, actions).sent[i].0 in Run(EMPTY, actions).records
    ensures Run(EMPTY, actions).sent[i].1 == Sent(Run(EMPTY, actions).records[Run(EMPTY, actions).sent[i].0].payload)
  {
    EmptyInv();
    RunKeeps(EMPTY, actions);
  }

  // And it stays so: a record once made keeps its version, dataset and what it sends through any run.
  lemma RecordsStay(actions: seq<Action>, more: seq<Action>, id: RecordId)
    requires id in Run(EMPTY, actions).records
    ensures id in Run(Run(EMPTY, actions), more).records
    ensures KeptRow(Run(EMPTY, actions).records[id], Run(Run(EMPTY, actions), more).records[id])
  {
    EmptyInv();
    RunKeeps(EMPTY, actions);
    RunKeeps(Run(EMPTY, actions), more);
  }

  // ---------------------------------------------------------------- a retry without a message

  // A retry adds a message exactly when its generation's key was never used.
  lemma RetryAddsMessage(s: State, id: RecordId, entry: Json, audit: Option<Json>)
    requires Inv(s) && id in s.records && s.records[id].status == "failed"
    requires Dispatched(s.intents, id, RetryNoted(s.records[id].payload, entry, audit)).Some?
    ensures Messages(Retrying(s, id, entry, audit).intents, id) != Messages(s.intents, id) <==>
            DispatchKey(id, Generation(s.records[id].payload) + 1) !in s.intents
  {
    var payload := RetryNoted(s.records[id].payload, entry, audit);
    GenerationCountsRetries(s.records[id].payload, entry, audit);
    DispatchAddsItsKey(s.intents, id, payload, id);
  }

  // A sender that notes its outcome on what it read drops a retry noted meanwhile.
  lemma OutcomeDropsRetry(s: State, pid: Pid, id: RecordId, status: string, entry: Json, audit: Option<Json>)
    requires pid in s.senders && s.senders[pid].record == id && s.senders[pid].read.Some? && id in s.records
    ensures Generation(Ending(s, pid, status, entry, audit).records[id].payload) ==
            Generation(s.senders[pid].read.value)
  {
    GenerationCountsRetries(s.senders[pid].read.value, entry, audit);
  }

  // A pending record is sent, set to failed before the sender is done, and retried.
  function RetriedMeanwhile(s: State, pid: Pid, id: RecordId, e: Json): State {
    Retrying(Updating(Sending(Starting(s, pid, id, e, None), pid), id, "failed", e, None), id, e, None)
  }

  // When that sender then notes its failure and the record is retried again, the second retry counts the
  // same generation, so that the two retries share one message.
  lemma TwoRetriesOneMessage(s: State, pid: Pid, id: RecordId, e: Json)
    requires Inv(s) && id in s.records && s.records[id].status == "pending" && pid !in s.senders
    requires Noted(s.intents, DispatchKey(id, Generation(s.records[id].payload) + 1), DispatchIntent(id)).Some?
    ensures var retried := RetriedMeanwhile(s, pid, id, e);
            var again := Retrying(Ending(retried, pid, "failed", e, None), id, e, None);
            && Retried(again.retried, id) == Retried(s.retried, id) + 2 && id in again.records
               && again.records[id].status == "pending"
            && again.intents == retried.intents
  {
    MeanwhileMeans(s, pid, id, e);
    SecondRetry(RetriedMeanwhile(s, pid, id, e), pid, id, e, Generation(s.records[id].payload));
  }

  lemma MeanwhileMeans(s: State, pid: Pid, id: RecordId, e: Json)
    requires id in s.records && s.records[id].status == "pending" && pid !in s.senders
    requires Noted(s.intents, DispatchKey(id, Generation(s.records[id].payload) + 1), DispatchIntent(id)).Some?
    ensures var retried, g := RetriedMeanwhile(s, pid, id, e), Generation(s.records[id].payload);
            && id in retried.records && pid in retried.senders && retried.senders[pid].record == id
            && retried.senders[pid].read.Some? && Generation(retried.senders[pid].read.value) == g
            && DispatchKey(id, g + 1) in retried.intents
               && retried.intents[DispatchKey(id, g + 1)] == DispatchIntent(id)
            && Retried(retried.retried, id) == Retried(s.retried, id) + 1
  {
    SendingReads(s, pid, id, e);
    FirstRetry(Sending(Starting(s, pid, id, e, None), pid), pid, id, e, Generation(s.records[id].payload));
  }

  lemma SendingReads(s: State, pid: Pid, id: RecordId, e: Json)
    requires id in s.records && s.records[id].status == "pending" && pid !in s.senders
    ensures var sending := Sending(Starting(s, pid, id, e, None), pid);
            && id in sending.records && pid in sending.senders
               && sending.senders[pid] == Sender(id, Some(sending.records[id].payload))
            && Generation(sending.records[id].payload) == Generation(s.records[id].payload)
            && sending.intents == s.intents && sending.retried == s.retried
  {
    GenerationCountsRetries(s.records[id].payload, e, None);
  }

  lemma FirstRetry(s: State, pid: Pid, id: RecordId, e: Json, g: nat)
    requires id in s.records && pid in s.senders && s.senders[pid] == Sender(id, Some(s.records[id].payload))
             && Generation(s.records[id].payload) == g
    requires Noted(s.intents, DispatchKey(id, g + 1), DispatchIntent(id)).Some?
    ensures var retried := Retrying(Updating(s, id, "failed", e, None), id, e, None);
            && id in retried.records && pid in retried.senders && retried.senders[pid] == s.senders[pid]
            && DispatchKey(id, g + 1) in retried.intents
               && retried.intents[DispatchKey(id, g + 1)] == DispatchIntent(id)
            && Retried(retried.retried, id) == Retried(s.retried, id) + 1
  {
    var failed := Updating(s, id, "failed", e, None);
    GenerationCountsRetries(s.records[id].payload, e, None);
    GenerationCountsRetries(failed.records[id].payload, e, None);
  }

  lemma SecondRetry(s: State, pid: Pid, id: RecordId, e: Json, g: nat)
    requires pid in s.senders && s.senders[pid].record == id && s.senders[pid].read.Some? && id in s.records
    requires Generation(s.senders[pid].read.value) == g && DispatchKey(id, g + 1) in s.intents
             && s.intents[DispatchKey(id, g + 1)] == DispatchIntent(id)
    ensures var again := Retrying(Ending(s, pid, "failed", e, None), id, e, None);
            again.intents == s.intents && Retried(again.retried, id) == Retried(s.retried, id) + 1
            && id in again.records && again.records[id].status == "pending"
  {}

  // ---------------------------------------------------------------- the transactions

  // What a create does when nobody is in the way.
  ghost function Created(s: State, version: VersionId, target: Option<string>, id: RecordId, contract: Payload,
      audit: Option<Json>, dispatch: bool): State {
    Finishing(Creating(s, 0, version, target), 0, id, contract, audit, dispatch)
  }

  predicate MayCreate(s: State, version: VersionId, target: Option<string>, id: RecordId, contract: Payload) {
    s.creators == map[] && ValidKey(DatasetOf(target)) && version in s.versions && id !in s.records
    && contract.Keys * INTERNAL == {}
  }

  lemma CreateFinds(s: State, version: VersionId, target: Option<string>, id: RecordId, contract: Payload,
      audit: Option<Json>, dispatch: bool, found: RecordId)
    requires MayCreate(s, version, target, id, contract)
             && Existing(s.records, version, DatasetOf(target)) == Some(found)
    ensures var after := Created(s, version, target, id, contract, audit, dispatch);
            && after.versions == s.versions && after.records == s.records
            && after.intents == if !dispatch || s.records[found].status != "pending"
               || Dispatched(s.intents, found, s.records[found].payload).None?
                                then s.intents else Dispatched(s.intents, found, s.records[found].payload).value
  {
    var begun := Creating(s, 0, version, target);
    assert begun == s.(creators := map[0 := Creator(version, DatasetOf(target), Some(found))]);
  }

  lemma CreateMakes(s: State, version: VersionId, target: Option<string>, id: RecordId, contract: Payload,
      audit: Option<Json>, dispatch: bool)
    requires MayCreate(s, version, target, id, contract) && Existing(s.records, version, DatasetOf(target)).None?
    ensures var after, made :=
              Created(s, version, target, id, contract, audit, dispatch),
              Making(s, id, Record(version, Some(DatasetOf(target)), "pending", Audited(contract, audit)), dispatch);
            after.versions == s.versions && after.records == made.records && after.intents == made.intents
  {
    var begun := Creating(s, 0, version, target);
    assert begun == s.(creators := map[0 := Creator(version, DatasetOf(target), None)]);
  }

  class DistributionStore {
    var versions: set<VersionId>
    var records: map<RecordId, Record>
    var intents: Intents

    constructor ()
      ensures versions == {} && records == map[] && intents == map[]
    {
      versions, records, intents := {}, map[], map[];
    }

    // The tables with nobody else at work.
    ghost function Snapshot(): State
      reads this
    {
      State(versions, records, intents, map[], map[], map[], [])
    }

    // ensure_distribution_dispatch_outbox
    method EnsureDispatchOutbox(id: RecordId) returns (stored: bool)
      requires id in records
      modifies this`intents
      ensures stored <==> Dispatched(old(intents), id, records[id].payload).Some?
      ensures intents == if stored then Dispatched(old(intents), id, records[id].payload).value else old(intents)
    {
      var history := if "retry_history" in records[id].payload && records[id].payload["retry_history"].Arr?
                     then records[id].payload["retry_history"].items else [];
      var key := "info.distribution:" + id + ":dispatch-v1";
      if |history| > 0 {
        key := key + (":retry:" + Digits(|history|));
      }
      assert key == DispatchKey(id, Generation(records[id].payload));
      var noted := Noted(intents, key, DispatchIntent(id));
      stored := noted.Some?;
      if stored {
        intents := noted.value;
      }
    }

    method CreateDistribution(version: VersionId, target: Option<string>, id: RecordId, contract: Payload,
        audit: Option<Json>, dispatch: bool) returns (r: Result<RecordId, DistributionError>)
      requires id !in records && contract.Keys * INTERNAL == {} && OneEach(records)
      modifies this`records, this`intents
      ensures r == Err(InvalidDataset) <==> !ValidKey(DatasetOf(target))
      ensures r == Err(VersionNotFound) <==> ValidKey(DatasetOf(target)) && version !in versions
      ensures r.Err? ==> records == old(records) && intents == old(intents)
      ensures r.Ok? ==> HasOutcome(Created(old(Snapshot()), version, target, id, contract, audit, dispatch))
      ensures r.Ok? ==> HasRecord(records, r.value, version, DatasetOf(target)) && OneEach(records)
    {
      hide ValidKey, Making, Created, OneEach, Dispatched;
      var key := if target.None? || target.value == "" then "default" else target.value;
      if !ValidKey(key) {
        return Err(InvalidDataset);
      }
      if version !in versions {
        return Err(VersionNotFound);
      }
      var there := set i | i in records && IsFor(records[i], version, key);
      if there != {} {
        var found :| found in there;
        OnlyExisting(found, version, key);
        CreateFinds(Snapshot(), version, target, id, contract, audit, dispatch, found);
        if dispatch && records[found].status == "pending" {
          var stored := EnsureDispatchOutbox(found);
          if !stored {
            return Err(KeyTaken);
          }
        }
        return Ok(found);
      }
      assert Existing(records, version, key).None? by {
        assert forall i :: i in records ==> i !in there;
      }
      StillOneEach(id, Record(version, Some(key), "pending", Audited(contract, audit)), key);
      CreateMakes(Snapshot(), version, target, id, contract, audit, dispatch);
      var stored := Store(id, Record(version, Some(key), "pending", Audited(contract, audit)), dispatch);
      r := if stored then Ok(id) else Err(KeyTaken);
    }

    // Record and message in one transaction.
    method Store(id: RecordId, record: Record, dispatch: bool) returns (stored: bool)
      requires id !in records
      modifies this`records, this`intents
      ensures HasOutcome(Making(old(Snapshot()), id, record, dispatch))
      ensures stored <==> id in records
      ensures !stored ==> records == old(records) && intents == old(intents)
      ensures stored ==> records == old(records)[id := record]
    {
      records := records[id := record];
      stored := true;
      if dispatch {
        stored := EnsureDispatchOutbox(id);
        if !stored {
          records := records - {id};
          assert records == old(records);
        }
      }
    }

    // The tables are those of a state of the machine.
    ghost predicate HasOutcome(s: State)
      reads this
    {
      records == s.records && intents == s.intents && versions == s.versions
    }

    lemma OnlyExisting(id: RecordId, version: VersionId, dataset: string)
      requires OneEach(records) && HasRecord(records, id, version, dataset)
      ensures Existing(records, version, dataset) == Some(id)
    {
      assert HasRecord(records, Existing(records, version, dataset).value, version, dataset);
    }

    lemma StillOneEach(id: RecordId, r: Record, dataset: string)
      requires OneEach(records) && id !in records && Existing(records, r.version, dataset).None?
               && IsFor(r, r.version, dataset)
      ensures OneEach(records[id := r])
    {
      var before, after := records, records[id := r];
      forall i, j, v, d | HasRecord(after, i, v, d) && HasRecord(after, j, v, d)
        ensures i == j
      {
        assert i != id ==> HasRecord(before, i, v, d);
        assert j != id ==> HasRecord(before, j, v, d);
      }
    }

    method UpdateDistributionStatus(id: RecordId, status: string, entry: Json, audit: Option<Json>)
        returns (r: Result<RecordId, DistributionError>)
      modifies this`records
      ensures r == if id in old(records) then Ok(id) else Err(DistributionNotFound)
      ensures HasOutcome(Updating(old(Snapshot()), id, status, entry, audit))
    {
      if id !in records {
        return Err(DistributionNotFound);
      }
      records := records[id := records[id].(status := status,
                                                      payload := StatusNoted(records[id].payload, entry, audit))];
      r := Ok(id);
    }

    method RetryDistribution(id: RecordId, entry: Json, audit: Option<Json>)
        returns (r: Result<RecordId, DistributionError>)
      modifies this`records, this`intents
      ensures r == Err(DistributionNotFound) <==> id !in old(records)
      ensures r == Err(OnlyFailedCanBeRetried) <==> id in old(records) && old(records)[id].status != "failed"
      ensures HasOutcome(Retrying(old(Snapshot()), id, entry, audit))
    {
      if id !in records {
        return Err(DistributionNotFound);
      }
      var row := records[id];
      if row.status != "failed" {
        return Err(OnlyFailedCanBeRetried);
      }
      records := records[id := row.(status := "pending", payload := RetryNoted(row.payload, entry, audit))];
      var stored := EnsureDispatchOutbox(id);
      if !stored {
        records := records[id := row];
        return Err(KeyTaken);
      }
      r := Ok(id);
    }

    method RequestDistributionDispatch(id: RecordId) returns (r: Result<RecordId, DistributionError>)
      modifies this`intents
      ensures r == Err(DistributionNotFound) <==> id !in records
      ensures HasOutcome(Requesting(old(Snapshot()), id))
    {
      if id !in records {
        return Err(DistributionNotFound);
      }
      if records[id].status == "succeeded" {
        return Ok(id);
      }
      var stored := EnsureDispatchOutbox(id);
      r := if stored then Ok(id) else Err(KeyTaken);
    }
  }
}
