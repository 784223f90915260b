// Every retry of a distribution gets a message of its own, as long as no sender brings an old copy of the
// retry history back.

module DispatchMessages {
  import opened Common
  import opened Outbox
  import opened Distributions

  // ---------------------------------------------------------------- keys

  // The first dispatch has a key of its own, and so has each retry.
  lemma KeysDiffer(id: RecordId, g: nat, h: nat)
    requires g != h
    ensures DispatchKey(id, g) != DispatchKey(id, h)
  {
    var stem := "info.distribution:" + id + ":dispatch-v1";
    if DispatchKey(id, g) == DispatchKey(id, h) {
      var a, b := Suffix(g), Suffix(h);
      assert DispatchKey(id, g) == stem + a && DispatchKey(id, h) == stem + b;
      assert (stem + a)[|stem|..] == a && (stem + b)[|stem|..] == b;
      if g > 0 && h > 0 {
        assert a[|":retry:"|..] == Digits(g) && b[|":retry:"|..] == Digits(h);
        DigitsDiffer(g, h);
      }
    }
  }

  function Suffix(generation: nat): string {
    if generation == 0 then "" else ":retry:" + Digits(generation)
  }

  // What the keys and messages are.
  lemma KeyIs(id: RecordId, generation: nat)
    ensures DispatchKey(id, 0) == "info.distribution:" + id + ":dispatch-v1"
    ensures generation > 0 ==>
              DispatchKey(id, generation) == "info.distribution:" + id + ":dispatch-v1:retry:" + Digits(generation)
    ensures DispatchIntent(id) == Intent("knowfeed.distribution.dispatch.v1", id, id, map[], None)
  {
    var stem := "info.distribution:" + id;
    var digits := Digits(generation);
    assert stem + ":dispatch-v1" + (":retry:" + digits) == stem + ":dispatch-v1:retry:" + digits;
  }

  lemma {:induction false} LaterKeyIsNew(id: RecordId, g: nat, n: nat)
    requires g > n
    ensures DispatchKey(id, g) !in KeysUpTo(id, n)
  {
    KeysDiffer(id, g, n);
    if n > 0 {
      LaterKeyIsNew(id, g, n - 1);
    }
  }

  // ---------------------------------------------------------------- what is recorded

  // Everything is sent but the six keys of our own.
  lemma SentMeans(payload: Payload, k: string)
    ensures k in Sent(payload) <==>
            k in payload && k != "status_history" && k != "last_status_update" && k != "retry_history"
            && k != "last_retry" && k != "audit_log" && k != "last_audit"
    ensures k in Sent(payload) ==> Sent(payload)[k] == payload[k]
  {
  }

  function HistoryAt(payload: Payload, key: string): seq<Json> {
    if key in payload && payload[key].Arr? then payload[key].items else []
  }

  // The keys a note writes: a list, one longer than before, and the latest entry.
  predicate NotedUnder(before: Payload, after: Payload, history: string, last: string, entry: Json) {
    && history in after && after[history] == Arr(HistoryAt(before, history) + [entry])
    && last in after && after[last] == entry
  }

  ghost predicate SameBut(before: Payload, after: Payload, keys: set<string>) {
    forall k :: k !in keys ==> (k in after <==> k in before) && (k in before ==> after[k] == before[k])
  }

  // A status is set, whatever it was, and noted; so is a retry; and both are audited if there is an audit.
  lemma NotesWrite(payload: Payload, entry: Json, audit: Option<Json>)
    ensures var after := StatusNoted(payload, entry, audit);
            && NotedUnder(payload, after, "status_history", "last_status_update", entry)
            && (audit.None? ==> SameBut(payload, after, {"status_history", "last_status_update"}))
            && (audit.Some? ==> NotedUnder(payload, after, "audit_log", "last_audit", audit.value)
                                && SameBut(payload, after,
                                           {"status_history", "last_status_update", "audit_log", "last_audit"}))
    ensures var after := RetryNoted(payload, entry, audit);
            && NotedUnder(payload, after, "retry_history", "last_retry", entry)
            && (audit.None? ==> SameBut(payload, after, {"retry_history", "last_retry"}))
            && (audit.Some? ==> NotedUnder(payload, after, "audit_log", "last_audit", audit.value)
                                && SameBut(payload, after, {"retry_history", "last_retry", "audit_log", "last_audit"}))
  {
  }

  function DatasetAsked(target: Option<string>): string {
    if target == None || target == Some("") then "default" else target.value
  }

  // Some record is there for the version and the dataset asked for.
  predicate IsThere(s: State, version: VersionId, target: Option<string>) {
    exists id :: id in s.records && s.records[id].version == version
                 && DatasetAsked(s.records[id].target) == DatasetAsked(target)
  }

  // Without a record for version and dataset one is made pending, with its contract and its message; with
  // one none is made.
  lemma CreatingWrites(s: State, version: VersionId, target: Option<string>, id: RecordId, contract: Payload,
      dispatch: bool)
    requires MayCreate(s, version, target, id, contract)
    requires "info.distribution:" + id + ":dispatch-v1" !in s.intents
    ensures var after := Created(s, version, target, id, contract, None, dispatch);
            && (IsThere(s, version, target) ==> after.records == s.records)
            && (!IsThere(s, version, target) ==>
                  && after.records == s.records[id := Record(version, Some(DatasetAsked(target)), "pending", contract)]
                  && after.intents == if dispatch
                                      then s.intents["info.distribution:" + id + ":dispatch-v1" :=
                                               Intent("knowfeed.distribution.dispatch.v1", id, id, map[], None)]
                                      else s.intents)
  {
    var found := Existing(s.records, version, DatasetOf(target));
    if found.Some? {
      CreateFinds(s, version, target, id, contract, None, dispatch, found.value);
    } else {
      CreateMakes(s, version, target, id, contract, None, dispatch);
      KeyIs(id, 0);
      assert "retry_history" !in contract.Keys * INTERNAL;
    }
  }

  // One lower-case letter or digit, then at most 119 of those, dots, underscores and hyphens.
  lemma ValidKeys(key: string)
    ensures ValidKey(key) <==>
            && 0 < |key| < 121 && ('a' <= key[0] <= 'z' || '0' <= key[0] <= '9')
            && forall c :: c in key[1..] ==> 'a' <= c <= 'z' || '0' <= c <= '9' || c in {'.', '_', '-'}
  {
    if 0 < |key| {
      forall k | 1 <= k < |key|
        ensures key[k] in key[1..]
      {
        assert key[1..][k - 1] == key[k];
      }
    }
  }

  // A sender marks the record as running, unless it has succeeded, and sends what the row then holds.
  lemma SendingWrites(s: State, pid: Pid, id: RecordId, entry: Json)
    requires id in s.records && pid !in s.senders
    ensures s.records[id].status == "succeeded" ==>
              Starting(s, pid, id, entry, None) == s && Requesting(s, id) == s
    ensures s.records[id].status != "succeeded" ==>
              var started := Starting(s, pid, id, entry, None); var sent := Sending(started, pid);
              && started.records == s.records[id := s.records[id].(status := "running",
                                                                   payload := StatusNoted(s.records[id].payload,
                                                                       entry, None))]
              && sent.records == started.records && sent.senders[pid] == Sender(id, Some(started.records[id].payload))
              && sent.sent == s.sent + [(id, Sent(s.records[id].payload))]
  {
    SentIgnoresNotes(s.records[id].payload, entry, None);
  }

  // ---------------------------------------------------------------- one retry

  // How often the record was retried, by its own history.
  function Retries(payload: Payload): nat {
    if "retry_history" in payload && payload["retry_history"].Arr? then |payload["retry_history"].items| else 0
  }

  // A failed record whose next key is not in use: the retry makes it pending, notes one more retry, and
  // stores exactly one message, under that key.
  lemma RetryStoresMessage(s: State, id: RecordId, entry: Json, audit: Option<Json>)
    requires id in s.records && s.records[id].status == "failed"
    requires var key := "info.distribution:" + id + ":dispatch-v1:retry:" + Digits(Retries(s.records[id].payload) + 1);
             key !in s.intents
    ensures var after := Retrying(s, id, entry, audit);
            var key := "info.distribution:" + id + ":dispatch-v1:retry:" + Digits(Retries(s.records[id].payload) + 1);
            && after.intents == s.intents[key := Intent("knowfeed.distribution.dispatch.v1", id, id, map[], None)]
            && after.records.Keys == s.records.Keys
            && after.records[id].status == "pending"
            && Retries(after.records[id].payload) == Retries(s.records[id].payload) + 1
            && |Messages(after.intents, id)| == |Messages(s.intents, id)| + 1
            && (forall other :: other != id ==>
                  && Messages(after.intents, other) == Messages(s.intents, other)
                  && (other in s.records ==> after.records[other] == s.records[other]))
  {
    hide Messages, RetryNoted, DispatchIntent, DispatchKey;
    var payload := s.records[id].payload;
    GenerationCountsRetries(payload, entry, audit);
    KeyIs(id, Generation(payload) + 1);
    NewMessage(s.intents, id, DispatchKey(id, Generation(payload) + 1));
  }

  lemma NewMessage(intents: Intents, id: RecordId, key: string)
    requires key !in intents
    ensures var after := intents[key := DispatchIntent(id)];
            && |Messages(after, id)| == |Messages(intents, id)| + 1
            && (forall other :: other != id ==> Messages(after, other) == Messages(intents, other))
  {
    var after := intents[key := DispatchIntent(id)];
    assert Messages(after, id) == Messages(intents, id) + {key};
  }

  // ---------------------------------------------------------------- every retry of a run

  // The step ends no sender on a copy that knows fewer retries than the row.
  predicate CopyIsCurrent(s: State, a: Action) {
    a.EndSending? && a.pid in s.senders && s.senders[a.pid].read.Some? && s.senders[a.pid].record in s.records ==>
      Retries(s.senders[a.pid].read.value) == Retries(s.records[s.senders[a.pid].record].payload)
  }

  ghost predicate CopiesAreCurrent(s: State, actions: seq<Action>)
    decreases |actions|
  {
    actions == [] || (CopyIsCurrent(s, actions[0]) && CopiesAreCurrent(Next(s, actions[0]), actions[1..]))
  }

  // The row's history shows every retry there was.
  predicate Counted(s: State) {
    forall id :: id in s.records ==> Generation(s.records[id].payload) == Retried(s.retried, id)
  }

  lemma CountedStep(s: State, a: Action)
    requires Inv(s) && Counted(s) && CopyIsCurrent(s, a)
    ensures Counted(Next(s, a))
  {
    hide Inv, Sent, Dispatched;
    match a
    case Finish(pid, id, contract, audit, dispatch) => FinishCounts(s, pid, id, contract, audit, dispatch);
    case UpdateStatus(id, status, entry, audit) => UpdateCounts(s, id, status, entry, audit);
    case StartSending(pid, id, entry, audit) => UpdateCounts(s, id, "running", entry, audit);
    case EndSending(pid, status, entry, audit) => EndCounts(s, pid, status, entry, audit);
    case Retry(id, entry, audit) => RetryCounts(s, id, entry, audit);
    case _ =>
  }

  lemma FinishCounts(s: State, pid: Pid, id: RecordId, contract: Payload, audit: Option<Json>, dispatch: bool)
    requires Inv(s) && Counted(s)
    ensures Counted(Finishing(s, pid, id, contract, audit, dispatch))
  {
    hide Inv, Sent, Dispatched;
    GenerationCountsRetries(contract, Text(""), audit);
    if "retry_history" in contract {
      assert "retry_history" in contract.Keys * INTERNAL;
    }
  }

  lemma UpdateCounts(s: State, id: RecordId, status: string, entry: Json, audit: Option<Json>)
    requires Counted(s)
    ensures Counted(Updating(s, id, status, entry, audit))
  {
    if id in s.records {
      GenerationCountsRetries(s.records[id].payload, entry, audit);
    }
  }

  lemma EndCounts(s: State, pid: Pid, status: string, entry: Json, audit: Option<Json>)
    requires Counted(s) && CopyIsCurrent(s, EndSending(pid, status, entry, audit))
    ensures Counted(Ending(s, pid, status, entry, audit))
  {
    if pid in s.senders && s.senders[pid].read.Some? && s.senders[pid].record in s.records {
      GenerationCountsRetries(s.senders[pid].read.value, entry, audit);
    }
  }

  lemma RetryCounts(s: State, id: RecordId, entry: Json, audit: Option<Json>)
    requires Counted(s)
    ensures Counted(Retrying(s, id, entry, audit))
  {
    if id in s.records {
      GenerationCountsRetries(s.records[id].payload, entry, audit);
    }
  }

  lemma {:induction false} CountedRun(s: State, actions: seq<Action>)
    requires Inv(s) && Counted(s) && CopiesAreCurrent(s, actions)
    ensures Counted(Run(s, actions))
    decreases |actions|
  {
    if actions != [] {
      CountedStep(s, actions[0]);
      NextKeeps(s, actions[0]);
      CountedRun(Next(s, actions[0]), actions[1..]);
    }
  }

  // In every run in which no sender ends on such a copy, each retry that succeeds adds one message.
  lemma EveryRetryHasItsMessage(actions: seq<Action>, id: RecordId, entry: Json, audit: Option<Json>)
    requires CopiesAreCurrent(EMPTY, actions) && id in Run(EMPTY, actions).records
    requires var s := Run(EMPTY, actions); Retried(Retrying(s, id, entry, audit).retried, id) != Retried(s.retried, id)
    ensures var s := Run(EMPTY, actions); var after := Retrying(s, id, entry, audit);
            && |Messages(after.intents, id)| == |Messages(s.intents, id)| + 1
            && after.records[id].status == "pending"
  {
    var s := Run(EMPTY, actions);
    EmptyInv();
    RunKeeps(EMPTY, actions);
    CountedRun(EMPTY, actions);
    var g := Generation(s.records[id].payload);
    assert Messages(s.intents, id) <= KeysUpTo(id, Retried(s.retried, id));
    LaterKeyIsNew(id, g + 1, Retried(s.retried, id));
    GenerationCountsRetries(s.records[id].payload, entry, audit);
    KeyIs(id, g + 1);
    assert DispatchKey(id, g + 1) !in s.intents;
    RetryStoresMessage(s, id, entry, audit);
  }
}
