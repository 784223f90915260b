# Verified models of the durable delivery, request, version and report protocols

A Dafny model of the parts of the application where correctness depends on several functions, several
processes or a whole run. Each SQL transaction is one step; statements that change rows in place are
methods of classes; what they compute is a function of the tables before, and what the system promises is
proved about those functions, about every run of the state machines built from them, and about the loops
of the report code.

| files | what they model |
|---|---|
| `Outbox`, `Delivery`, `Tasks`, `Pump` | the outbox, publisher leases, dead letters, reconcile and replay; execution leases with epochs; consume; the pump |
| `DeliveryFields` | what each of those statements picks and writes, in the columns alone |
| `DeliveryRuns`, `DeliveryTheorems`, `DeliverySchedule`, `ConsumeAlone` | all of them interleaved with crashes and a clock that may jump either way, and what every run guarantees |
| `Requests`, `RequestService`, `RequestFields`, `RequestRuns`, `SubmitAlone` | collection requests: rules, store and service, what they show and record, and concurrent submits under their locks |
| `Versions`, `Distributions`, `DispatchMessages` | version numbers under the document lock; one distribution per version and dataset, retries, senders and messages |
| `Layout`, `Sections`, `Extract`, `Labels` | from words on pages to rows of the three statements, and from labels to fields |
| `LineShapes`, `ColumnPlaces`, `SectionContents`, `PageColumns`, `RowReading`, `LabelChoices` | the same told in words, edges and labels alone |
| `Checks`, `StatementFigures`, `CrossYear`, `CrossYearPairs` | sums, units, figures, and the comparison of two years' reports |
| `CheckVerdicts`, `CrossYearVerdicts`, `PeriodRules` | what their verdicts and rules mean in numbers |
| `Catalog`, `BasisDecision` (Basis.dfy), `Screening`, `Quality` | which basis a year is on, which old periods are dropped, and the checks that must agree with both |

Amounts are exact (`real`); patterns, text normalisation and the like are function parameters, so that
every result holds for whatever they compute. Ids, owners and clock values that the program draws at random
or reads are parameters as well.

Where the code and what is said about it differ, the model follows the code:

- `attempt_count` can exceed `max_attempts`; the exact bound is `DeliveryTheorems.AttemptBound`, and the exact
  claims that exceed it are those of `DeliveryTheorems.ClaimExceeds`.
- `finish_delivery` with an empty error text neither publishes nor fails a message; when that loses it is
  `DeliveryTheorems.EmptyErrorLosesMessage`. `pump` never does this.
- A comment in `checks.py` takes every unit error to be a thousandfold at least. Two pairs of units are
  closer (`Checks.WhichUnitsAreCaught`), and one such error is confirmed (`Checks.TenfoldErrorConfirmed`).
- `dispatch_distribution` writes its outcome onto the payload it read before sending. A retry noted in
  between is dropped, and the next retry then adds no message (`Distributions.TwoRetriesOneMessage`); the
  bound on messages and the payload sent are not affected.
- Q-OFFICIAL can contradict a basis accepted through the comparative column of a report that also has a
  restated column for the year (`Quality.MixedReportFails`); exactly when is `Quality.OfficialContradicts`.

Check everything with `dafny verify dfyconfig.toml`.

## Model

| member | source | states |
|---|---|---|
| `Outbox.Enqueued` | app/app/infrastructure/repositories/outbox.py:15-52 | a new deduplication key adds exactly one message and answers its id, a known one changes nothing; an answered id carries the intent; stored messages stay as they are |
| `Outbox.EnqueueAgain` | app/app/infrastructure/repositories/outbox.py:30-51 | re-enqueueing a stored key changes no table and answers the stored id exactly when the intent is equal, an error exactly when it differs |
| `Outbox.EnqueueNotes` | app/app/infrastructure/repositories/outbox.py:15-52 | seen by key alone the outbox is a write-once map, which the version and distribution protocols build on |
| `Outbox.Database.Enqueue` | app/app/infrastructure/repositories/outbox.py:15-52 | the insert-or-compare statement does what the specification says and keeps keys unique |
| `Outbox.Database.ClaimInboxOnce` | app/app/infrastructure/repositories/outbox.py:157-174 | the marker is there afterwards; true exactly when it was not there before |
| `Delivery.DurableDelivery.Create` | app/app/infrastructure/messaging/durable_delivery.py:25-38 | a policy is accepted exactly when lease and attempts are in range |
| `Delivery.DurableDelivery.ClaimDelivery` | app/app/infrastructure/messaging/durable_delivery.py:40-74 | the oldest claimable, unlocked message is leased with one more attempt; none is returned exactly when there is none |
| `Delivery.Claimed` | app/app/infrastructure/messaging/durable_delivery.py:47-62 | the claimed message is first by creation time and id among the claimable, unlocked ones |
| `Delivery.DurableDelivery.FinishDelivery` | app/app/infrastructure/messaging/durable_delivery.py:76-101 | the new tables after a finish; nothing is written when the lease is lost |
| `Delivery.DurableDelivery.PutDead` | app/app/infrastructure/messaging/durable_delivery.py:103-112 | the journal entry is inserted, or reopened with the new error |
| `Delivery.DurableDelivery.Reconcile` | app/app/infrastructure/messaging/durable_delivery.py:114-175 | the loops judge every unlocked row exactly as the one-pass specification does, and count the requeued ones |
| `Delivery.DurableDelivery.BuryExhausted` | app/app/infrastructure/messaging/durable_delivery.py:117-133 | exactly the exhausted rows are dead-lettered |
| `Delivery.DurableDelivery.ReconcileTopic` | app/app/infrastructure/messaging/durable_delivery.py:134-174 | exactly the unacknowledged rows of one topic are settled, whatever was settled before |
| `Delivery.DurableDelivery.SettleUnacknowledged` | app/app/infrastructure/messaging/durable_delivery.py:162-174 | one row is dead-lettered or requeued, and counted if requeued |
| `Delivery.DurableDelivery.Replay` | app/app/infrastructure/messaging/durable_delivery.py:177-208 | the dead-letter entry is closed and the message starts over, or nothing changes and the reason is returned |
| `Delivery.BackoffBounds` | app/app/infrastructure/messaging/durable_delivery.py:95 | the retry delay is between one and 256 seconds, so the cap of 300 never applies |
| `Delivery.JudgeFrame` | app/app/infrastructure/messaging/durable_delivery.py:132-174 | judging a row does not depend on what the same pass did to others |
| `Delivery.UnacknowledgedFrame` | app/app/infrastructure/messaging/durable_delivery.py:134-161 | the per-topic query sees the same rows after the first loop |
| `Tasks.DurableTasks.ReadExecution` | app/app/infrastructure/messaging/durable_tasks.py:86-106 | a message is read for execution exactly when registered, due, unacknowledged and not dead |
| `Tasks.DurableTasks.GrantExecution` | app/app/infrastructure/messaging/durable_tasks.py:107-149 | the upsert raises the epoch only over a lease that is over; a second inbox check releases it again |
| `Tasks.DurableTasks.ClaimExecution` | app/app/infrastructure/messaging/durable_tasks.py:86-149 | both reads together, when nothing comes between them |
| `Tasks.DurableTasks.Renew` | app/app/infrastructure/messaging/durable_tasks.py:151-164 | renewed exactly when current, and nothing else changes |
| `Tasks.DurableTasks.Release` | app/app/infrastructure/messaging/durable_tasks.py:166-177 | only the matching row is put to minus infinity |
| `Tasks.DurableTasks.CommitGuarded` | app/app/infrastructure/messaging/durable_tasks.py:187-201 | effects and marker are written exactly when the lease is current |
| `ConsumeAlone.ConsumeIsARun` | app/app/infrastructure/messaging/durable_tasks.py:179-226 | the steps of one consume in the state machine, with nothing in between, are refused exactly when the method is and otherwise end in the same tables with the same commits |
| `Tasks.DurableTasks.Consume` | app/app/infrastructure/messaging/durable_tasks.py:179-226 | an undisturbed consume commits every step once, marks the inbox exactly when the handler returned, and leaves its lease over |
| `DeliveryFields.EnqueueWrites` | app/app/infrastructure/repositories/outbox.py:15-52 | every column of a new message: pending, without attempts, waiting for its not-before time |
| `DeliveryFields.ClaimWrites` | app/app/infrastructure/messaging/durable_delivery.py:40-74 | in columns: which row a claim picks, when it picks none, and every column it writes |
| `DeliveryFields.BackoffDoubles` | app/app/infrastructure/messaging/durable_delivery.py:95 | one second, doubled with every attempt up to the eighth |
| `DeliveryFields.FinishWrites` | app/app/infrastructure/messaging/durable_delivery.py:76-112 | in columns: exactly when a finish writes, and what for each kind of error, the journal included |
| `DeliveryFields.ReconcileWrites` | app/app/infrastructure/messaging/durable_delivery.py:114-175 | in columns: exactly which rows are requeued and counted, which are dead-lettered and why, and that no other row is touched |
| `DeliveryFields.ReconcileSparesAcknowledged` | app/app/infrastructure/messaging/durable_delivery.py:143-148 | a published message its consumer has marked is never requeued or dead-lettered by a reconcile step |
| `DeliveryFields.AcknowledgedForGood` | app/app/infrastructure/messaging/durable_delivery.py:114-208 | and it stays as it is in every continuation of the run |
| `DeliveryFields.ReplayWrites` | app/app/infrastructure/messaging/durable_delivery.py:177-208 | in columns: each refusal exactly when it applies, and what a replay writes |
| `DeliveryFields.ExecutionClaimWrites` | app/app/infrastructure/messaging/durable_tasks.py:86-149 | in columns: exactly when an undisturbed claim gets a lease, and which |
| `DeliveryFields.UpsertWrites` | app/app/infrastructure/messaging/durable_tasks.py:107-149 | in columns: the upsert and second inbox check after a read that may be stale |
| `DeliveryFields.StepsAreTransactions` | app/app/infrastructure/messaging/durable_delivery.py:40-208 | each step of the state machine is its transaction, whenever the process may take it |
| `DeliveryFields.HandlersAcknowledge` | app/app/infrastructure/messaging/durable_tasks.py:77-84 | every topic with a handler is acknowledged by a consumer of its own name |
| `DeliveryFields.LeaseWrites` | app/app/infrastructure/messaging/durable_tasks.py:57-61 | in columns: when the guard passes, and what renewing and releasing write |
| `DeliveryRuns.NextInv` | app/app/infrastructure/messaging/durable_delivery.py:40-208 | every step of publishers, consumers, reconciler, replay and clock keeps the invariants of the tables |
| `DeliveryRuns.RunInv` | app/app/infrastructure/messaging/durable_tasks.py:86-201 | so does every run |
| `DeliveryRuns.NextKeeps` | app/app/infrastructure/messaging/durable_tasks.py:111-119 | no step lowers an epoch, reopens a released lease, changes an intent or forgets history |
| `DeliveryRuns.RunKeeps` | app/app/infrastructure/messaging/durable_tasks.py:166-177 | nor does any run |
| `DeliveryRuns.NextPublishes` | app/app/infrastructure/messaging/durable_delivery.py:40-112 | every step keeps publisher leases, attempt counts and dead letters consistent |
| `DeliveryRuns.NextConsumes` | app/app/infrastructure/messaging/durable_tasks.py:107-201 | every step keeps execution leases, epochs and inbox markers consistent |
| `DeliveryRuns.NextTimely` | app/app/infrastructure/messaging/delivery_schedule.py:10-13 | every step keeps to the not-before times |
| `DeliveryRuns.FinalFindsNoMarker` | app/app/infrastructure/messaging/durable_tasks.py:131-149 | whoever passes the guard for its final commit finds no marker |
| `DeliveryTheorems.EpochsNeverDecrease` | app/app/infrastructure/messaging/durable_tasks.py:57-61 | in every run, commits under one resource carry non-decreasing epochs |
| `DeliveryTheorems.OverForGood` | app/app/infrastructure/messaging/durable_tasks.py:151-177 | an overtaken or released lease never commits or renews again, even if the clock goes back |
| `DeliveryTheorems.ReleaseIsOver` | app/app/infrastructure/messaging/durable_tasks.py:166-177 | releasing any lease ever held puts it in that state |
| `DeliveryTheorems.GrantOvertakes` | app/app/infrastructure/messaging/durable_tasks.py:107-128 | and so does the next grant of its resource |
| `DeliveryTheorems.FinalCommitOnce` | app/app/infrastructure/messaging/durable_tasks.py:194-201 | handler effects and inbox marker commit together at most once per message in any run, and the marker is there exactly when they did |
| `DeliveryTheorems.MarkerAlwaysNew` | app/app/infrastructure/repositories/outbox.py:157-174 | a final commit that passes the guard always finds its marker new, so the result may be ignored |
| `DeliveryTheorems.OneHolder` | app/app/infrastructure/messaging/durable_tasks.py:187-201 | in every reachable state at most one process passes the guard of a resource |
| `DeliveryTheorems.NothingAfterFinal` | app/app/infrastructure/messaging/durable_tasks.py:131-149 | in every run no lease and no commit of a message follows its final commit |
| `DeliveryTheorems.AttemptBound` | app/app/infrastructure/messaging/durable_delivery.py:59-62 | attempts are the hand-outs since enqueue or replay; at most the maximum plus consecutive reclaims; below it while pending and not dead |
| `DeliveryTheorems.ClaimExceeds` | app/app/infrastructure/messaging/durable_delivery.py:53-61 | in every reachable state a claim takes a message above the maximum exactly when it reclaims the expired lease of a last attempt; exactly such rows among the claimable ones are exhausted |
| `DeliveryTheorems.ClaimAfterReconcile` | app/app/infrastructure/messaging/durable_delivery.py:117-133 | a claim straight after an unobstructed reconcile takes no message above the maximum |
| `DeliveryTheorems.AttemptsWithinMaximum` | app/app/infrastructure/messaging/durable_delivery.py:117-133 | so the maximum holds throughout every run that claims only there |
| `DeliveryTheorems.AttemptsCanExceedMaximum` | app/app/infrastructure/messaging/durable_delivery.py:53-61 | otherwise it need not: a run that reclaims an expired lease before a reconcile |
| `DeliveryTheorems.SupersededForGood` | app/app/infrastructure/messaging/durable_delivery.py:86-99 | a superseded publisher writes nothing, then and in any continuation |
| `DeliveryTheorems.NoMessageLost` | app/app/infrastructure/messaging/durable_delivery.py:114-175 | from every reachable state, once everything elapsed, one reconcile leaves a due registered message consumed, dead-lettered or claimable exactly when it was not left published without a time |
| `DeliveryTheorems.PumpLosesNothing` | app/app/tasks/durable_delivery.py:26-33 | without a finish with an empty error text, as pump never makes one, that is every message |
| `DeliveryTheorems.ReconcileRecovers` | app/app/infrastructure/messaging/durable_delivery.py:114-175 | the same for one row and one pass |
| `DeliveryTheorems.EmptyErrorLosesMessage` | app/app/infrastructure/messaging/durable_delivery.py:78-95 | after a finish with an empty error text, the next reconcile past all deadlines deals with the message exactly when it had been published before, needs no acknowledgement, has one, or was dead-lettered |
| `DeliveryTheorems.LostForGood` | app/app/infrastructure/messaging/durable_delivery.py:114-208 | a message left published without a time keeps its row in every continuation: never claimable, never dead-lettered, at most acknowledged |
| `DeliveryTheorems.UntimedIsReachable` | app/app/infrastructure/messaging/durable_delivery.py:78-95 | a run of four steps that loses a message so |
| `DeliveryTheorems.NextWrites` | app/app/infrastructure/messaging/durable_delivery.py:40-208 | all that any step can write to a message that is there |
| `DeliveryTheorems.NeverBeforeTime` | app/app/infrastructure/messaging/delivery_schedule.py:10-13 | no hand-out and no execution read happens before the not-before time, although reconcile and replay reset the availability |
| `DeliveryTheorems.IntentIsFixed` | app/app/infrastructure/repositories/outbox.py:30-51 | topic, key, payload and headers never change, and the key answers the same id exactly for the same intent at any later time |
| `DeliverySchedule.FinishSchedules` | app/app/infrastructure/messaging/durable_delivery.py:80-101 | a successful publish is not claimable again at any clock; a failed one exactly after its backoff, or dead-lettered at the maximum |
| `DeliverySchedule.ReplayRevives` | app/app/infrastructure/messaging/durable_delivery.py:191-208 | a replayed message is claimable exactly from its not-before time, with no attempts, consumption unchanged |
| `DeliverySchedule.PumpServesAll` | app/app/tasks/durable_delivery.py:18-35 | once everything elapsed, one pump deals with a due message (consumed, dead-lettered or handed out once more) exactly when it was not left published without a time |
| `Pump.Pump` | app/app/tasks/durable_delivery.py:18-35 | the bounded loop computes reconcile followed by claim, publish and finish until nothing is left |
| `Pump.TurnRemovesOne` | app/app/tasks/durable_delivery.py:21-34 | one turn takes exactly the claimed message out of the claimable ones, whatever publish did |
| `Pump.DrainAttemptsEachOnce` | app/app/tasks/durable_delivery.py:20-35 | with room enough every claimable message is attempted exactly once and no other is touched |
| `Requests.OpenFor` | app/app/infrastructure/securities/request_store.py:136-143 | the open request of a company, if there is one |
| `Requests.LiveProgress` | app/app/domain/securities/requests.py:106-127 | what is shown after approval is never pending, rejected or withdrawn |
| `RequestFields.ProgressShown` | app/app/domain/securities/requests.py:106-127 | each of the eight progress values after approval exactly in its own case, in the columns of ingestion and dataset |
| `RequestFields.OtherwiseShown` | app/app/application/securities/request_service.py:79-92 | before approval a review, after the end the recorded outcome |
| `RequestFields.ViewCloses` | app/app/application/securities/request_service.py:79-110 | exactly when a view closes a request, and with which outcome; no other request changes |
| `RequestFields.ViewedOne` | app/app/application/securities/request_service.py:79-110 | the tables after View are those after viewing that request |
| `RequestFields.CreatingWrites` | app/app/infrastructure/securities/request_store.py:145-165 | every column of a new request |
| `RequestFields.JoiningWrites` | app/app/infrastructure/securities/request_store.py:180-200 | a requester is added or revived, and nothing else changes |
| `RequestFields.WithdrawingWrites` | app/app/application/securities/request_service.py:213-232 | in columns: who may withdraw, and what the last and any other withdrawal record |
| `RequestFields.ApprovingWrites` | app/app/application/securities/request_service.py:305-315 | in columns: what an approval records |
| `RequestFields.RejectingWrites` | app/app/application/securities/request_service.py:275-303 | in columns: what a rejection records |
| `RequestFields.DecidableMeans` | app/app/application/securities/request_service.py:297-303 | a decision is refused exactly if the request is missing, or not open and pending |
| `RequestFields.SubmitAnswers` | app/app/application/securities/request_service.py:143-184 | which request a submit answers, exactly when it is refused, and that a repeated one changes nothing |
| `Requests.ClosingKeeps` | app/app/infrastructure/securities/request_store.py:237-244 | closing any set of approved requests at their end keeps the table well shaped and undoes nothing |
| `Requests.JoiningKeeps` | app/app/infrastructure/securities/request_store.py:180-200 | joining adds the request to the actor and to nobody else |
| `Requests.CreatingKeeps` | app/app/infrastructure/securities/request_store.py:145-165 | creating keeps one open request per company |
| `Requests.ApprovingKeeps` | app/app/application/securities/request_service.py:305-315 | approving records exactly one new ingestion, and changes no other request and nobody's open requests |
| `Requests.OpeningKeeps` | app/app/application/securities/request_service.py:200-211 | a company on the watchlist is approved in the same transaction |
| `Requests.RejectingKeeps` | app/app/application/securities/request_service.py:275-295 | rejecting closes the request for everybody |
| `Requests.WithdrawingKeeps` | app/app/application/securities/request_service.py:213-232 | the last active requester's withdrawal closes the request, any other leaves it open |
| `Requests.ClosedShowsOutcome` | app/app/application/securities/request_service.py:79-88 | a closed request shows the recorded outcome whatever ingestions and datasets say, and no view closes it again |
| `RequestService.RequestStore.FindOpen` | app/app/infrastructure/securities/request_store.py:136-143 | finds the one open request of a company |
| `RequestService.RequestStore.Close` | app/app/infrastructure/securities/request_store.py:237-244 | writes outcome and time once; a closed row stays |
| `RequestService.RequestStore.Join` | app/app/infrastructure/securities/request_store.py:180-200 | adds or revives the requester |
| `RequestService.RequestStore.Create` | app/app/infrastructure/securities/request_store.py:145-165 | a pending, open request with its first requester |
| `RequestService.RequestStore.WithdrawRequester` | app/app/infrastructure/securities/request_store.py:202-216 | marks the requester as withdrawn |
| `RequestService.RequestStore.Decide` | app/app/infrastructure/securities/request_store.py:218-235 | status, decider (64 characters), time and note; the ingestion only if given |
| `RequestService.SecurityRequestService.Make` | app/app/application/securities/request_service.py:59-76 | a quota below one is refused |
| `RequestService.SecurityRequestService.View` | app/app/application/securities/request_service.py:79-110 | the progress shown, and the request closed exactly when that is an end |
| `RequestService.SecurityRequestService.MyOpenCount` | app/app/application/securities/request_service.py:112-117 | counts what is live and closes what is at its end, as viewing all at once would |
| `RequestService.SecurityRequestService.OpenForViewed` | app/app/application/securities/request_service.py:186-191 | the open request unless the view finds it at its end |
| `RequestService.SecurityRequestService.Submit` | app/app/application/securities/request_service.py:143-184 | the tables and the answer of a submit, including its rollback |
| `RequestService.SecurityRequestService.Withdraw` | app/app/application/securities/request_service.py:213-232 | each refusal exactly when its condition holds; otherwise the row is withdrawn, and closed by the last requester |
| `RequestService.SecurityRequestService.Approve` | app/app/application/securities/request_service.py:261-273 | refused unless open and pending; otherwise one ingestion, and the watchlist if asked |
| `RequestService.SecurityRequestService.Reject` | app/app/application/securities/request_service.py:275-303 | note required and at most 500 characters; refused unless open and pending; otherwise closed as rejected |
| `RequestService.CountedKeeps` | app/app/application/securities/request_service.py:115-117 | looking and counting close what is at its end and leave the requester exactly with what was live |
| `RequestService.SubmitKeeps` | app/app/application/securities/request_service.py:143-184 | a submit keeps the table well shaped and undoes nothing |
| `RequestService.SubmitServes` | app/app/application/securities/request_service.py:151-170 | a success leaves the actor waiting for the company; a failure means no room and changes nothing |
| `RequestService.SubmitKeepsQuota` | app/app/application/securities/request_service.py:193-198 | no submit takes anybody over the quota or gives others a request |
| `SubmitAlone.SubmitIsARun` | app/app/application/securities/request_service.py:143-191 | with nobody else at work the steps of a submit in the state machine end in the tables the method promises, whatever branch it takes |
| `SubmitAlone.BeginMeans` | app/app/application/securities/request_service.py:143-150 | a submit begins when its requester has no other at work |
| `SubmitAlone.LostRace` | app/app/application/securities/request_service.py:171-191 | a creation that lost the race joins the request that won it, or ends in a conflict |
| `SubmitAlone.OthersAreTransactions` | app/app/application/securities/request_service.py:213-315 | decisions in the state machine write what the transactions do |
| `SubmitAlone.TablesChange` | app/app/application/securities/request_service.py:119-141 | the watchlist and the collection tables change freely in between |
| `SubmitAlone.LookIsView` | app/app/application/securities/request_service.py:79-110 | reads in the state machine close what a view closes |
| `RequestRuns.NextInv` | app/app/application/securities/request_service.py:143-231 | every step of concurrent submits, decisions, reads and collection keeps quota, shape and locks |
| `RequestRuns.CommittingKeeps` | app/app/application/securities/request_service.py:159-184 | a committing submit keeps the quota because nobody else could give its requester a request since the count |
| `RequestRuns.RunInv` | app/app/application/securities/request_service.py:143-231 | so does every run |
| `RequestRuns.Quota` | app/app/application/securities/request_service.py:193-198 | in every committed state of every run nobody has more open requests than the maximum |
| `RequestRuns.RequestShape` | app/app/infrastructure/securities/request_store.py:145-165 | one open request per company; pending means open and wanted; open means no outcome; approved means an ingestion; no shared ingestion |
| `RequestRuns.WrittenOnce` | app/app/infrastructure/securities/request_store.py:218-244 | decision, ingestion and outcome are written once and shown for ever |
| `Versions.NextKeeps` | app/app/application/services/info_crawl_service.py:1883-1939 | every step of concurrent uploads, crawls, failures and rollbacks keeps numbering, pointers, locks and index messages |
| `Versions.RunKeeps` | app/app/application/services/info_crawl_service.py:1883-1939 | so does every run |
| `Versions.NextIsGapless` | app/app/application/services/info_crawl_service.py:1934-1939 | one more than the highest number is free and leaves no gap |
| `Versions.HighestExists` | app/app/application/services/info_crawl_service.py:1934-1939 | the query for the highest number always has an answer |
| `Versions.VersionsAreNumbered` | app/app/application/services/info_crawl_service.py:359-389 | in every reachable state the numbers are exactly 1..n, and pointer and hash are those of version n |
| `Versions.VersionsAreIndexed` | app/app/application/services/info_crawl_service.py:1455-1464 | every version has its index message: key, topic and payload |
| `Versions.RecrawlAddsNothing` | app/app/application/services/info_crawl_service.py:1612-1621 | only commits add versions, and a crawl only if the content differs from the current one |
| `Versions.CommitWrites` | app/app/application/services/info_crawl_service.py:359-391 | exactly when a commit adds a version: an upload or failed crawl always, a crawl unless the document has just this content; and what it writes |
| `Versions.FailureWrites` | app/app/application/services/info_crawl_service.py:440-489 | a crawl that fails goes on as a failed one with the raw content |
| `Versions.HoldMeans` | app/app/application/services/info_crawl_service.py:1890-1924 | a writer takes the document row exactly when no other writer holds it |
| `Versions.WriteIsARun` | app/app/application/services/info_crawl_service.py:359-391 | with nobody else at work, the steps of an upload or a crawl come to its commit |
| `Versions.FailedWriteIsARun` | app/app/application/services/info_crawl_service.py:440-489 | and so do those of a crawl that fails |
| `Versions.UnchangedCrawlEnds` | app/app/application/services/info_crawl_service.py:1613-1621 | a crawl of the current content changes nothing but its job |
| `Versions.NumberStaysFree` | app/app/application/services/info_crawl_service.py:1926-1930 | while the row is held nobody takes the allocated number |
| `Versions.DocumentStore.NextVersionNo` | app/app/application/services/info_crawl_service.py:1925-1939 | the number after the highest |
| `Versions.DocumentStore.Write` | app/app/application/services/info_crawl_service.py:359-389 | one transaction writes version, pointer, hash and message together, or reports the current version of an unchanged crawl |
| `Distributions.SentIgnoresNotes` | app/app/application/services/info_crawl_service.py:1222-1236 | status, retry and audit notes change nothing that is sent |
| `Distributions.GenerationCountsRetries` | app/app/application/services/delivery_outbox.py:21-24 | each retry note raises the generation by one, no other note does |
| `Distributions.DistributionStore.EnsureDispatchOutbox` | app/app/application/services/delivery_outbox.py:13-31 | the message is stored under the generation's key, or the key is taken by something else |
| `Distributions.DistributionStore.CreateDistribution` | app/app/application/services/info_crawl_service.py:970-1054 | each refusal exactly when its condition holds; otherwise the existing record, or a new one together with its message |
| `Distributions.DistributionStore.UpdateDistributionStatus` | app/app/application/services/info_crawl_service.py:1239-1266 | status and notes of one record, nothing else |
| `Distributions.DistributionStore.RetryDistribution` | app/app/application/services/info_crawl_service.py:1358-1380 | only a failed record is retried, together with its message |
| `Distributions.DistributionStore.RequestDistributionDispatch` | app/app/application/services/info_crawl_service.py:1383-1401 | a message unless the record has succeeded |
| `Distributions.NextKeeps` | app/app/application/services/info_crawl_service.py:970-1054 | every step of creators, senders, status updates and retries keeps records, bounds and what is sent |
| `Distributions.RunKeeps` | app/app/application/services/info_crawl_service.py:1170-1380 | so does every run |
| `Distributions.OneRecordEach` | app/app/application/services/info_crawl_service.py:979-1010 | concurrent creates leave one record per version and dataset |
| `Distributions.MessagesBounded` | app/app/application/services/delivery_outbox.py:21-31 | a record has at most one dispatch message plus one per retry |
| `Distributions.SentIsFrozen` | app/app/application/services/info_crawl_service.py:1222-1236 | every payload ever sent of a record is the same |
| `Distributions.RecordsStay` | app/app/application/services/info_crawl_service.py:1170-1196 | version, dataset and what is sent never change |
| `Distributions.RetryAddsMessage` | app/app/application/services/delivery_outbox.py:21-24 | a retry adds a message exactly when its generation's key was never used |
| `Distributions.TwoRetriesOneMessage` | app/app/application/services/info_crawl_service.py:1300-1334 | a record retried while it is being sent loses that retry, and the next one adds no message |
| `Distributions.OutcomeDropsRetry` | app/app/application/services/info_crawl_service.py:1305-1330 | a sender notes its outcome on the payload it read |
| `DispatchMessages.KeysDiffer` | app/app/application/services/delivery_outbox.py:21-24 | the first dispatch and each retry have different keys |
| `DispatchMessages.RetryStoresMessage` | app/app/application/services/info_crawl_service.py:1358-1380 | a retry whose key is not in use stores exactly one message, under that key, and makes the record pending |
| `DispatchMessages.EveryRetryHasItsMessage` | app/app/application/services/delivery_outbox.py:13-31 | in every run in which no sender ends on a copy older than a retry, each successful retry adds one message |
| `DispatchMessages.SentMeans` | app/app/application/services/info_crawl_service.py:1222-1236 | everything is sent but the six keys of our own |
| `DispatchMessages.NotesWrite` | app/app/application/services/info_crawl_service.py:1170-1196 | which keys a status or retry note writes, and that it writes no other |
| `DispatchMessages.CreatingWrites` | app/app/application/services/info_crawl_service.py:1011-1054 | a record is made, with its message, exactly if there is none for the version and the dataset asked for |
| `DispatchMessages.ValidKeys` | app/app/application/services/info_crawl_service.py:970-990 | which dataset keys are accepted |
| `DispatchMessages.SendingWrites` | app/app/application/services/info_crawl_service.py:1269-1320 | a sender marks the record as running, unless it succeeded, and sends what the row then holds |
| `PeriodRules.ResidualMeans` | app/app/application/securities/dataset/quality.py:57-66 | the sum of the signed values, none exactly if a required one is missing |
| `PeriodRules.SumsMean` | app/app/domain/securities/financial_catalog.py:386-470 | the nine sums |
| `PeriodRules.ItemTables` | app/app/domain/securities/financial_catalog.py:149-160 | the tables and fields of the key items |
| `Catalog.ResidualOf` | app/app/application/securities/dataset/quality.py:57-66 | the loop computes the signed sum, or nothing when a required field is missing |
| `BasisDecision.Values` | app/app/application/securities/dataset/basis.py:28-36 | the year's values of the key items |
| `BasisDecision.Grouped` | app/app/application/securities/dataset/basis.py:85-97 | the figures of one column, by report |
| `BasisDecision.Try` | app/app/application/securities/dataset/basis.py:99-109 | the first report in order that agrees, or none |
| `BasisDecision.Decide` | app/app/application/securities/dataset/basis.py:82-110 | the decision by own, later, restated and comparative columns |
| `BasisDecision.AssignBasis` | app/app/application/securities/dataset/basis.py:55-79 | every annual row gets its year's decision, no other row changes |
| `PeriodRules.AgreesMeans` | app/app/application/securities/dataset/basis.py:39-52 | at least three items in common, each as near as a yuan or the report's precision |
| `PeriodRules.ValuesMean` | app/app/application/securities/dataset/basis.py:28-36 | an item has a value exactly if an annual row of the year has its field; the last such row tells |
| `PeriodRules.SoonerMeans` | app/app/application/securities/dataset/basis.py:96-98 | disclosed earlier first, the original before its revision, then by title |
| `PeriodRules.BeforeMeans` | app/app/application/securities/dataset/basis.py:97 | the order of texts |
| `Quality.Official` | app/app/application/securities/dataset/quality.py:297-339 | the check reports exactly the figures that contradict the row they claim |
| `Quality.DecisionMeans` | app/app/application/securities/dataset/basis.py:82-110 | which basis is chosen, exactly, in terms of which columns agree, and against which report: the first that agrees in the column that decides |
| `Quality.FigureAgrees` | app/app/application/securities/dataset/basis.py:39-52 | if a report's column agreed, so does each of its figures |
| `Quality.OfficialContradicts` | app/app/application/securities/dataset/quality.py:297-339 | with coherent reports and rows a figure contradicts the basis just assigned exactly when it is restated, the year was decided by the comparative column of its own report, and the row does not hold it |
| `Quality.PassesExactly` | app/app/application/securities/dataset/quality.py:297-339 | so Q-OFFICIAL passes after assign_basis exactly when there is no such figure |
| `Quality.OfficialAlwaysPasses` | app/app/application/securities/dataset/quality.py:297-339 | which is so whenever no report prints a year both restated and for comparison |
| `Quality.NoContradictions` | app/app/application/securities/dataset/quality.py:297-339 | the same for the whole list of violations |
| `Quality.MixedReportFails` | app/app/application/securities/dataset/basis.py:106-109 | two reports, each with three items of its own year, for which Q-OFFICIAL fails |
| `Quality.Built` | app/app/application/securities/dataset/quality.py:69-109 | screening, deciding and checking together: figures agree, and sums flag only the hard window |
| `Screening.Screen` | app/app/application/securities/dataset/quality.py:69-109 | kept rows, first hard year and the ordered list of dropped dates with their reasons |
| `Screening.NotedMeans` | app/app/application/securities/dataset/quality.py:86-95 | a date is noted exactly when an old row of it breaks a rule |
| `PeriodRules.WindowMeans` | app/app/application/securities/dataset/quality.py:84-86 | the hard window is the last hardYears years |
| `PeriodRules.BrokenMeans` | app/app/application/securities/dataset/quality.py:86-95 | a sum breaks when it is off by more than one yuan |
| `PeriodRules.ReasonsMean` | app/app/application/securities/dataset/quality.py:86-95 | the reasons noted of a dropped date are the sums its old rows break, with their residuals |
| `Screening.HardWindowKept` | app/app/application/securities/dataset/quality.py:84-100 | no row of the hard window is dropped |
| `Screening.HardRowDropped` | app/app/application/securities/dataset/quality.py:84-100 | where a date does not fix the year, exactly when a hard row is dropped |
| `Screening.DatesGoTogether` | app/app/application/securities/dataset/quality.py:96-100 | a bad date goes from all tables at once |
| `Screening.BrokenOnlyInside` | app/app/application/securities/dataset/quality.py:86-100 | what is still broken is inside the hard window |
| `Screening.ScreenTwice` | app/app/application/securities/dataset/quality.py:69-109 | screening again drops nothing and moves no window |
| `Screening.Reconcile` | app/app/application/securities/dataset/quality.py:201-230 | violations are exactly the broken rows; passed needs one measurable row |
| `Screening.FlagsOnlyHardYears` | app/app/application/securities/dataset/quality.py:201-230 | after screening the blocking sums flag only hard years |
| `CrossYearVerdicts.JudgeMeans` | app/app/application/securities/report_extraction/cross_year.py:69-83 | each of the five verdicts exactly in its own case, in numbers |
| `CrossYearVerdicts.TailMeans` | app/app/application/securities/report_extraction/cross_year.py:56-66 | suspected truncation is exactly a remainder modulo a power of ten of at least two digits |
| `CrossYearVerdicts.EveryItemIsJudged` | app/app/application/securities/report_extraction/cross_year.py:86-136 | every item of the result that says Agree holds two amounts within the tolerance; every other stands for the rows of its label and has the verdict they deserve |
| `CrossYearVerdicts.PairedExactly` | app/app/application/securities/report_extraction/cross_year.py:139-183 | two items are paired by amount exactly when each is the only one left over on its side with that multiple of the tolerance |
| `CrossYear.JudgeIsSymmetric` | app/app/application/securities/report_extraction/cross_year.py:69-83 | neither order nor common sign matters |
| `CrossYear.TruncatedMeans` | app/app/application/securities/report_extraction/cross_year.py:56-66 | suspected truncation means a remainder modulo a power of ten |
| `CrossYear.ByLabel` | app/app/application/securities/report_extraction/cross_year.py:41-53 | the amounts of a column by label, in order |
| `CrossYear.ItemsOf` | app/app/application/securities/report_extraction/cross_year.py:112-133 | the items of one label |
| `CrossYear.LabelledIsComplete` | app/app/application/securities/report_extraction/cross_year.py:41-53 | grouping by label keeps every valued row once |
| `CrossYear.LabelsEntries` | app/app/application/securities/report_extraction/cross_year.py:112-133 | the items stand for exactly the rows grouped by label |
| `CrossYearPairs.PutAside` | app/app/application/securities/report_extraction/cross_year.py:151-159 | the dictionaries of candidates, in the order their keys were first used |
| `CrossYearPairs.PairByValue` | app/app/application/securities/report_extraction/cross_year.py:139-183 | the loops compute kept items followed by the pairs |
| `CrossYearPairs.PairIsNew` | app/app/application/securities/report_extraction/cross_year.py:162-167 | no item is taken by two pairs |
| `CrossYearPairs.PairingLosesNothing` | app/app/application/securities/report_extraction/cross_year.py:160-183 | pairing changes no row's count among the items |
| `CrossYearPairs.SameBucketIsClose` | app/app/application/securities/report_extraction/cross_year.py:148-149 | amounts in one bucket differ by at most the tolerance |
| `CrossYearPairs.CrossCheck` | app/app/application/securities/report_extraction/cross_year.py:86-136 | refused for different statements; otherwise the items by label, paired by amount |
| `CrossYearPairs.NothingIsLost` | app/app/application/securities/report_extraction/cross_year.py:86-136 | every valued row of either report is among the items exactly once, before and after pairing |
| `CrossYearPairs.ValuePairsAgree` | app/app/application/securities/report_extraction/cross_year.py:139-183 | every pair by amount is within the tolerance for which judge says agree |
| `Labels.ChooseLoop` | app/app/application/securities/report_extraction/labels.py:104-126 | the first acceptable candidate |
| `Labels.Resolve` | app/app/application/securities/report_extraction/labels.py:87-136 | lines, ambiguous fields and unmatched labels of the loop over the rows |
| `LabelChoices.MatchMeans` | app/app/application/securities/report_extraction/labels.py:76-84 | a label names the field of its form, or the only field the names beginning with it stand for |
| `LabelChoices.ChoiceMeans` | app/app/application/securities/report_extraction/labels.py:98-126 | with the line before, with the line after, with both, alone: the first that names a field, and another than the own label does |
| `LabelChoices.ListedUnder` | app/app/application/securities/report_extraction/labels.py:127-130 | under which label an unmatched row is listed |
| `Labels.Partition` | app/app/application/securities/report_extraction/labels.py:104-135 | each numbered row is the only match of one field, one of several of an ambiguous field, or unmatched |
| `Labels.OnlyRowsAreReported` | app/app/application/securities/report_extraction/labels.py:131-135 | lines and ambiguous fields come from exactly one and from several rows |
| `Labels.BorrowsBeside` | app/app/application/securities/report_extraction/labels.py:98-126 | only adjacent, unlent text lines are borrowed, and not to name what the row already names |
| `Labels.LentOnce` | app/app/application/securities/report_extraction/labels.py:98-127 | no text line is lent to two rows |
| `Labels.NamedRowsMatch` | app/app/application/securities/report_extraction/labels.py:116-126 | a row whose own label matches never ends unmatched |
| `Checks.Reconcile` | app/app/application/securities/report_extraction/checks.py:52-80 | how many sums were checked and which do not come out, with the signs that would mend them |
| `Checks.BalancedMeans` | app/app/application/securities/report_extraction/checks.py:52-80 | no imbalance exactly when every applicable rule comes out |
| `Checks.UnitErrorStaysBalanced` | app/app/application/securities/report_extraction/checks.py:52-80 | the sums report the same under whatever unit, so they cannot see a wrong one |
| `Checks.MagnitudeMeans` | app/app/application/securities/report_extraction/checks.py:83-98 | same means within ten times, unit mismatch means a hundred times apart |
| `CheckVerdicts.CheckUnitMeans` | app/app/application/securities/report_extraction/checks.py:101-126 | each of the four verdicts on a unit exactly in its own case, by counting alike and hundredfold amounts |
| `CheckVerdicts.SizesMean` | app/app/application/securities/report_extraction/checks.py:83-98 | the same for amounts that may be zero |
| `CheckVerdicts.ReportedMeans` | app/app/application/securities/report_extraction/checks.py:52-80 | which imbalances are reported: each sum off by more than a unit, with its residual |
| `CheckVerdicts.FlippedMeans` | app/app/application/securities/report_extraction/checks.py:66-78 | which signs would mend it |
| `CheckVerdicts.UnitsAre` | app/app/domain/securities/report_statements.py:13-18 | the units |
| `Checks.UnitErrorCaught` | app/app/application/securities/report_extraction/checks.py:101-126 | a unit wrong by a thousand times or more gives unit_mismatch, or no_reference |
| `Checks.ThresholdIsThousand` | app/app/application/securities/report_extraction/checks.py:19-22 | a thousand is exactly the factor from which every such error shows |
| `Checks.WhichUnitsAreCaught` | app/app/domain/securities/report_statements.py:13-18 | which confusions of two units differ that much, and the two pairs that do not |
| `Checks.TenfoldErrorConfirmed` | app/app/application/securities/report_extraction/checks.py:101-126 | thousands taken for ten thousands are confirmed when the references are exact |
| `StatementFigures.FiguresFromStatements` | app/app/application/securities/dataset/statement_figures.py:41-97 | the figures of the checked tables, or the refusals when they are too few |
| `StatementFigures.OnlyCheckedTables` | app/app/application/securities/dataset/statement_figures.py:54-92 | every figure is the amount of a table that passed every check: its value in yuan, year, basis, report and precision |
| `CheckVerdicts.UsedMeans` | app/app/application/securities/dataset/statement_figures.py:54-71 | a table is used exactly if it was extracted, some sum of it can be taken and none is off, and its unit is printed or confirmed |
| `CheckVerdicts.EnoughItems` | app/app/application/securities/dataset/statement_figures.py:93-97 | figures come only with three items or more of the report's own year |
| `CheckVerdicts.RefusalsNamed` | app/app/application/securities/dataset/statement_figures.py:54-71 | each refused table is named with its reason |
| `CheckVerdicts.FirstPageMeans` | app/app/application/securities/dataset/statement_figures.py:72 | the page named is the first on which a used table starts |
| `StatementFigures.EveryUsableAmount` | app/app/application/securities/dataset/statement_figures.py:73-92 | and every usable amount is a figure |
| `StatementFigures.WrongUnitYieldsNothing` | app/app/application/securities/dataset/statement_figures.py:67-71 | a table with an unprinted, wrong unit yields no figure |
| `StatementFigures.FiguresAreCoherent` | app/app/application/securities/dataset/statement_figures.py:35-92 | the figures of one report meet the conditions of the basis check |
| `Layout.LinesOf` | app/app/application/securities/report_extraction/layout.py:62-74 | the lines of a page |
| `Layout.EveryWordInOneLine` | app/app/application/securities/report_extraction/layout.py:62-74 | every word is in the lines as often as on the page |
| `Layout.LinesReadLeftToRight` | app/app/application/securities/report_extraction/layout.py:69-73 | every line reads left to right |
| `LineShapes.BandIsLevel` | app/app/application/securities/report_extraction/layout.py:64-66 | words of one band are at most three points apart in height |
| `LineShapes.SameBandSameLine` | app/app/application/securities/report_extraction/layout.py:62-74 | words of one band are in one line |
| `LineShapes.LinesAreApart` | app/app/application/securities/report_extraction/layout.py:67-73 | each line begins three points or more from the one before |
| `Layout.JoinSplitNumbers` | app/app/application/securities/report_extraction/layout.py:122-139 | touching pieces of numbers are joined |
| `Layout.JoiningKeepsText` | app/app/application/securities/report_extraction/layout.py:122-139 | joining loses no text |
| `Layout.NothingLeftToJoin` | app/app/application/securities/report_extraction/layout.py:122-139 | afterwards nothing touches |
| `LineShapes.NoneTouchAfterwards` | app/app/application/securities/report_extraction/layout.py:122-139 | no two neighbours that look like numbers are within a point of each other |
| `LineShapes.UntouchedStays` | app/app/application/securities/report_extraction/layout.py:122-139 | a line without touching pieces stays as it is |
| `LineShapes.TwoPieces` | app/app/application/securities/report_extraction/layout.py:130-138 | where a joined word begins and ends |
| `ColumnPlaces.HeapsMean` | app/app/application/securities/report_extraction/layout.py:164-168 | the heaps are those of the bins, each with its mean, the largest first |
| `ColumnPlaces.HeapsAreNear` | app/app/application/securities/report_extraction/layout.py:169-172 | every heap is within 30 points of a place |
| `ColumnPlaces.FirstPlace` | app/app/application/securities/report_extraction/layout.py:169-172 | the first place is that of the largest heap |
| `ColumnPlaces.CountsBeside` | app/app/application/securities/report_extraction/layout.py:173-176 | how many amounts lie beside a place |
| `ColumnPlaces.TwoColumnsMean` | app/app/application/securities/report_extraction/layout.py:183-188 | two columns, left before right, at the places of the largest heaps, each within eight points of an amount; refused exactly without a second place or with a strong third |
| `ColumnPlaces.FourColumnsMean` | app/app/application/securities/report_extraction/layout.py:177-182 | of four columns the two leftmost places with enough amounts beside them |
| `Layout.FindColumns` | app/app/application/securities/report_extraction/layout.py:156-188 | the two columns, or why there are none |
| `Layout.ColumnsAreApart` | app/app/application/securities/report_extraction/layout.py:169-188 | the two columns are more than 30 points apart, left before right |
| `Sections.ReadKeeps` | app/app/application/securities/report_extraction/extract.py:59-115 | every line keeps the sections apart, short and closed properly |
| `Sections.EachLineInOneSection` | app/app/application/securities/report_extraction/extract.py:66-115 | each line is in at most one section, once, and a section spans fewer than eight pages |
| `SectionContents.OutsideSteps` | app/app/application/securities/report_extraction/extract.py:71-88 | what a line does while no section is open |
| `SectionContents.InsideSteps` | app/app/application/securities/report_extraction/extract.py:89-115 | what a line does while one is |
| `SectionContents.SectionsAreProper` | app/app/application/securities/report_extraction/extract.py:71-115 | no title is among a section's lines, its unit is the first one printed before its first amount, and it is closed only with an amount |
| `PageColumns.PageEdges` | app/app/application/securities/report_extraction/extract.py:201-212 | the right edges on a page are those of its amounts |
| `PageColumns.EdgesAdd` | app/app/application/securities/report_extraction/extract.py:201-212 | none is counted twice or left out |
| `PageColumns.ColumnsMean` | app/app/application/securities/report_extraction/extract.py:201-232 | a page with four amounts or more has its own columns, any other those of a page right beside it, whenever that has its own |
| `PageColumns.UnitMeans` | app/app/application/securities/report_extraction/extract.py:135-150 | the unit printed in the section, else above its title, else declared elsewhere |
| `Extract.FindColumnsByPage` | app/app/application/securities/report_extraction/extract.py:201-232 | columns page by page, borrowed only from the page right beside |
| `Extract.BuildStatement` | app/app/application/securities/report_extraction/extract.py:135-194 | the rows of a section, or its first problem |
| `RowReading.LineReads` | app/app/application/securities/report_extraction/extract.py:155-194 | a line on a page with columns, in its words: which are the two amounts, and exactly what makes it unreadable |
| `RowReading.LineWithoutColumns` | app/app/application/securities/report_extraction/extract.py:168-194 | a line on a page without columns |
| `RowReading.LabelsConcat` | app/app/application/securities/report_extraction/extract.py:180-188 | the label is what the words with Chinese characters say, in their order |
| `RowReading.LabelOfWord` | app/app/application/securities/report_extraction/extract.py:180-188 | a word is part of the label exactly if it has Chinese characters |
| `RowReading.NoWordReadTwice` | app/app/application/securities/report_extraction/extract.py:150-197 | every row's current amount is that of the one word standing in the left column, its prior one that of the one word in the right, and these are different words |
| `RowReading.EveryLineIsRead` | app/app/application/securities/report_extraction/extract.py:155-197 | every line of the section that says something is among the rows |
| `Extract.ReadLine` | app/app/application/securities/report_extraction/extract.py:71-115 | the branches taken for one line |
| `Extract.ExtractStatements` | app/app/application/securities/report_extraction/extract.py:58-132 | the statements and problems of a report |
| `Extract.StatementOrProblem` | app/app/application/securities/report_extraction/extract.py:116-132 | each statement is returned or has a recorded problem, never both |
| `Extract.BuildBlames` | app/app/application/securities/report_extraction/extract.py:135-194 | a section that is not built is blamed itself, and at least once |
| `Extract.ColumnsStayApart` | app/app/application/securities/report_extraction/extract.py:201-232 | found or borrowed, the columns of every page are apart |
| `Extract.NoAmountInTwoColumns` | app/app/application/securities/report_extraction/extract.py:165-197 | every row is read from one line of the closed section, and no word can be read into both columns |

## Left out

- Claiming in batches, mark_published and mark_failed of the outbox repository: the delivery protocol does not use them, and they bypass the dead-letter rule.
- Handlers that open sessions of their own: their commits are outside the lease guard, and no fencing result covers them.
- Rows made by migrations, the legacy delivery table, and instances running with different policies.
- One clock value per transaction: statements of one transaction read the same time in the model.
- Limits on topic, key, header and consumer lengths, and the validation of events before they are stored.
- Tasks.DurableTasks.Consume: models the undisturbed case; heartbeats, lost leases and cancellation in between are steps of `DeliveryRuns`.
- Pump.Pump: models a pass with a still clock and no other process, so its own leases are never lost; interference is in `DeliveryRuns`.
- RequestService.RequestStore.Create: the unique-index conflict of a concurrent creation has no outcome here; it is a step of `RequestRuns`.
- RequestService.SecurityRequestService.Submit: models a submit nobody races; the lost race on creation is `FindAgain` of `RequestRuns`.
- Stale rows in the session's identity map: a row locked again is taken to be read again, as `populate_existing` or `refresh` would.
- Collisions of advisory-lock hashes, which only make submits wait longer than needed.
- Reasons, origins, list orders and limits of request listings; code parsing; the watchlist log.
- Whether an approved request ever ends: a rebuild with unchanged content keeps its older dataset, so progress may stay at building.
- Metadata, artifacts, duplicates, job records and storage around a version; which artifact a distribution takes, and sending itself.
- Versions: a failed crawl is recorded on the document of the fetched address; a second document in the same transaction is not modelled.
- Parsing third-party statements and the key-figure table; Q-STRUCT, Q-CONT, Q-BASIS, Q-DISCLOSURE and Q-FRESH, which report or compare single fields.
- Rounding of displayed residuals, the cut at twenty listed violations, page numbers and column labels of figures, and message texts.
- BasisDecision.AssignBasis: rows name their table instead of being held in a dictionary by table, so an empty table is not told from a missing one.
- Regular expressions, Unicode normalisation, `Decimal` precision and float rounding: abstract functions or exact numbers.
- PDF reading, HTTP, object storage, SQLite, search, sessions, routes, schemas, logging and configuration.
