# Verification of the Subspace daemon

A Dafny model of how the daemon takes messages from Subspace servers, decides by receptors and vetoes whether each
may be delivered, and delivers it to sinks with retries, an audit database, a dedupe window and crash recovery;
and proofs of what holds over every run of it. `dafny verify dfyconfig.toml` checks the whole project.

## How it is built

**The delivery protocol** (`Protocol.dfy`) is a step system. Server tasks admit frames and offer them to the bounded
wake queue; one worker evaluates, records, reconciles, queues, attempts, marks, and finally updates and writes the
runtime file. Every SQL statement, every gateway request and reply, and every update of shared memory is a step of
its own, so that a halt of the worker or a crash of the process may fall between any two of them; runs are arbitrary
interleavings. `Tables.dfy` says what each statement keeps, `WorkerInvariant.dfy`, `Admission.dfy`, `Outcomes.dfy`,
`Accounting.dfy`, `EventCounts.dfy`, `AuditTrail.dfy`, `Decisions.dfy`, `RowContents.dfy` and `Targets.dfy` hold the
inductive invariants, `Delivery.dfy` states the theorems about all reachable states and all continuations, `Flow.dfy`
what a step counts and the order of the queue, and `Stops.dfy` exhibits the reachable states that show where they are
tight.

**The objects that do the work** are classes proved against that system. `Storage.dfy` is the delivery store, table by
table and statement by statement; `Runtime.dfy` the runtime store; `Attention.dfy` the attention layer, with its laws
in `AttentionLaws.dfy` and, from definitions and pack files on, in `LoadingLaws.dfy`; `LoadedMeaning.dfy` and
`ResultMeaning.dfy` say without reference to it which messages it delivers and what its results hold;
`Supervisor.dfy` the worker loop over real queue, store and runtime objects, where every method carries a state of the
protocol and proves that what it did is a run of it; `Inbound.dfy` the receiving arm of a connection;
`ServerManager.dfy` the reconnect loop, whose turns `TurnMeaning.dfy` describes; `Exchange.dfy` the pending requests of
the gateway client and of a server connection; `HardFailure.dfy` the throttled hooks; `Outbound.dfy` the composition of
outgoing embeddings.
`StoreCalls.dfy` joins the two levels: each call on the store is a run of the single statements.

**What is told from outside** is a parameter: embedding vectors, the square root, random draws, clock readings,
gateway replies, the moments a shutdown or a deadline is noticed. A run of the protocol takes the attention result of
a message as given; `GuardAgreement.dfy` proves that results of layers built from loaded packs satisfy all that the
protocol asks of them.

## Where the code and its documentation differ

- The runbook (docs/subspace-daemon-runbook.md:310) promises exactly one event per server and message id. Event and
  idempotency row are two statements, so a stop between them leaves an event no key points at, and repeated stops
  leave any number of them (`AnyNumberOfEvents`, for every configuration that can deliver). What holds is that each
  message keeps one mapped event and that the others number the stops that cut them off (`OneEventPerMessage`,
  `RowsPointAtMappedEvents`, `HistoryFollowsTheRun`).
- The repository's README.md:627 says that a degraded layer makes interest-only receptors fail closed. The code refuses
  every message then, wildcard receptors or not (src/attention/mod.rs:325-334), and so does the model.

## What holds only under a condition

- A wake is answered Ok at most once more than marks were lost to stops (`OkRepliesAreBounded`), and this bound is met
  for any number of lost marks (`BoundOnRepliesIsMet`).
- An event with deliveries shows an accepted receptor match, unless a stop cut short the rewriting of its match rows;
  then it shows one exactly when a row written by that rewrite, or a row it did not reach, is accepted
  (`DeliveriesShowAcceptance`). A replay under changed receptors can leave none (`StopCanHideAcceptance`).
- The pre-jitter cooldown never shrinks, whatever the random draw, exactly when there is no jitter, or the spread is at
  most half the base and the sum of base and spread fits a signed 64-bit integer (`BaseNeverShrinks`); a base beyond
  that integer becomes a cooldown of nothing at the middle draw (`WrappedBaseShrinks`).
- A cooldown rests on failures close together in any process life that starts from an uncounted store or from one in
  a cooldown (`CooldownIsJustified`). A life that starts from a file has that property exactly when the file holds a
  cooldown, or counts no failure, or one failure is enough, or the window exceeds a signed 64-bit integer
  (`RestartIsJustifiedIff`): the load reopens the window of a count (src/runtime_store.rs:79-81).
- One more interest definition keeps what was delivered exactly when it can be materialized
  (`LoadingAnInterestRefusesIff`): a definition of a foreign space, or one whose embedding fails, degrades the whole
  layer and turns every delivery into a refusal. In a layer that works with and without it, it never refuses
  (`AddingAnInterestNeverRefuses`).

## Model

| member | source | states |
|---|---|---|
| Delivery.DeliveredIsFinal | src/supervisor.rs:792-923 | At most once: with a database sink enabled, a row once delivered keeps its id and status in every continuation, through replays, failures, halts and crashes, and no chat request is ever issued again for that message and sink. |
| Delivery.OkRepliesAreBounded | src/supervisor.rs:863-896 | Ok replies for one message and sink number at most one plus the stops that fell between such a reply and its mark; a reply not lost shows as a delivered row or as the mark about to be made. |
| Delivery.HistoryFollowsTheRun | src/supervisor.rs:559-929 | The counts used above are those of the run: Ok replies observed are the gateway's, and lost marks plus orphaned events never exceed the number of halts and crashes. |
| Flow.HistoryIsOfTheStep | src/supervisor.rs:592-929 | Step by step, what is counted is what happens: a chat request exactly when one is sent, an Ok reply exactly when one is observed, a lost mark or idempotency row exactly when a stop falls before it, a refusal exactly when the decision is not to deliver. |
| Flow.FirstInFirstOut | src/supervisor.rs:572-590 | Between stops the worker takes items in the order in which they were queued and skips none: what was queued, first and since, is what was taken followed by what is queued now. |
| Delivery.ProcessedIsJustified | src/supervisor.rs:683-769 | In every reachable state, after any crash, every id in a recent set in memory or in a runtime file was refused by attention, found no enabled sink, or had every selected sink done by an Ok reply or a delivered row. |
| Delivery.OneEventPerMessage | src/storage.rs:489-563 | A message keeps the event it was first given, two messages never share one although the key text is ambiguous across servers, and the event carries that message's source and id. |
| Delivery.RowsPointAtMappedEvents | src/storage.rs:489-631 | Under crashes between single statements every delivery and match row points at a mapped event, and events without an idempotency row number exactly the stops that cut them off and the one being inserted. |
| Delivery.EventsOfAMessage | src/storage.rs:489-563 | The events of one message number exactly its mapped one if there is one, the stops that cut off one of its inserts, and the one being inserted. |
| Delivery.RowsSayTheLastDecision | src/storage.rs:85-131 | In every reachable state the decision row of a message says what the last decision recorded for it was, no other message has one, and from the end of recording to the mark the row of the message in hand is that of its result. |
| Delivery.RecordingIsOfTheResult | src/supervisor.rs:612-624 | The decision noted as the last is the one just made, for the message in hand, and no other step notes one. |
| Decisions.RecordingMeaning | src/storage.rs:95-130 | Recording makes the row of the message hold the result's disposition and deliver flag and leaves every other row as it was. |
| Decisions.StepKeepsDecisions | src/storage.rs:85-131 | Each step keeps every decision row equal to the last recorded decision of its message. |
| Delivery.RowsSayTheStage | src/supervisor.rs:792-923 | While a sink is worked on past its target statement, its target is enabled, has the sink's kind and leads to the configured destination, else to the database, the item's own session or the default one; its delivery row is queued before sending, attempted until the outcome is marked, and failed between attempts. |
| Delivery.MarksFollowOutcomes | src/supervisor.rs:854-896 | The mark after an Ok reply says delivered, the one after a failure failed, the one before sending attempted, and a database delivery is delivered at once. |
| RowContents.StepKeepsRows | src/storage.rs:725-809 | Each step keeps what those rows say. |
| Delivery.QueueIsBounded | src/supervisor.rs:406 | The queue never exceeds its capacity, and an offer is refused exactly when it is full or the worker gone. |
| EventCounts.StepKeepsCounts | src/storage.rs:522-554 | Each step keeps that count for every message. |
| Delivery.PendingIsConserved | src/runtime_store.rs:90-112 | At every interleaving, before and after a halt of the worker, the pending ids of a server are exactly the id being offered, those of the backlog and the one in hand, all apart, and none is recent; backlog and item in hand are the queue and the worker's, or what a halted worker left. |
| Delivery.LeftoverStays | src/subspace/client.rs:588-592 | A halt changes neither backlog nor item in hand, and until the process starts again no step does: ids left by the worker stay pending. |
| Delivery.SecondAcceptanceNeedsAFullWindow | src/runtime_store.rs:84-112 | The window is exactly the newest processed ids, so an id is accepted a second time in one process life only after a full window of other distinct ids. |
| Delivery.BouncedReplayIsAdmitted | src/subspace/client.rs:579-592 | An id whose offer was refused, by a full queue or a closed one, leaves the pending ids, and a replay of it is then admitted unless it lies before the discard floor. |
| Delivery.DeliveriesShowAcceptance | src/storage.rs:595-654 | In every reachable state an event with a delivery row shows an above-threshold match that is no veto; while a rewrite of its rows goes on or was cut short, it does exactly when a row that rewrite wrote, or a row it did not reach, is one. |
| Delivery.TargetsStayReconciled | src/supervisor.rs:724-825 | From the reconciliation of a message to the end of its last delivery exactly the enabled configured keys are not disabled, although every delivery upsert enables its target unconditionally. |
| Delivery.WorkerStopsOnlyOnBlankDestination | src/storage.rs:725-728 | A busy worker can always take its next step: it fails neither on the delivery guard nor on a missing row, and stops by itself exactly on a blank destination. |
| Delivery.RunKeepsInv | src/supervisor.rs:559-929 | The conjunction of all invariants is kept by every run, and tables are only ever extended: no row is deleted, no id changes, delivered is final. |
| Delivery.StepKeepsInv | src/supervisor.rs:559-929 | Every single step of server tasks, worker, halt or crash keeps every invariant. |
| WorkerInvariant.StepKeepsTables | src/storage.rs:489-809 | Each step keeps ids unique, references intact and the worker's own position true, and undoes nothing final. |
| WorkerInvariant.MarkTicket | src/storage.rs:196-232 | A ticket names one row: marking it sets exactly the status of the message's row for that sink, and never takes a delivered row back. |
| WorkerInvariant.SelectedMeaning | src/supervisor.rs:741-769 | The selected sinks are every enabled wake sink, and a database sink exactly when one is enabled. |
| RowContents.SelectedInOrder | src/supervisor.rs:746-769 | They are the first enabled database sink of the configuration and then its enabled wake sinks, each position once and in order. |
| Tables.EventsAreNotShared | src/storage.rs:818-820 | Equal events mean equal server and message: the key text alone is ambiguous, source row and text together are not. |
| Tables.ExtendsKeepsRows | src/storage.rs:754-809 | What one statement after another extends keeps each message its event, each delivery its row and each delivered mark. |
| Tables.MarkStatusKeeps | src/storage.rs:196-232 | A status update by id changes the one row with that id and keeps the tables in order. |
| Tables.UpsertDeliveryKeeps | src/storage.rs:754-794 | Queueing a delivery reuses an existing row under its id and never takes back a delivered status. |
| Tables.InsertIdempotencyKeeps | src/storage.rs:548-554 | The idempotency row maps its message to the event just inserted and disturbs no other mapping. |
| Admission.StepKeepsAdmission | src/subspace/client.rs:552-593 | Every interleaving of server tasks and worker, halts included, keeps pending ids conserved, windows exact and waiting items distinct. |
| Admission.QueueTakesOffered | src/subspace/client.rs:579-581 | Taking an offered item moves its id from the task to the queue and from no other server. |
| Admission.MarkKeeps | src/supervisor.rs:925-927 | Marking a message processed takes its id out of the pending set and into the window, without duplicates. |
| Admission.CrashKeeps | src/runtime_store.rs:54-88 | After a crash the reloaded stores satisfy the window invariant, with nothing pending and nothing queued. |
| Outcomes.StepKeepsJustified | src/supervisor.rs:683-927 | No step marks or stores an id without a refusal, a lack of sinks, or completion of every selected sink. |
| Outcomes.TicketedJustified | src/supervisor.rs:835-850 | A database delivery, or a wake found already delivered, leaves its sink completed. |
| Accounting.StepKeepsReplies | src/supervisor.rs:880-896 | Each step keeps the balance of Ok replies against delivered rows, pending marks and lost marks. |
| Accounting.StepKeepsOrphans | src/storage.rs:522-554 | Each step keeps the count of events without idempotency row equal to the stops that caused them. |
| AuditTrail.StepKeepsAudit | src/storage.rs:595-631 | Each step keeps every event with deliveries backed by an accepted match, a rewrite in progress or a recorded cut. |
| AuditTrail.TrailIsExact | src/storage.rs:601-629 | The same of any event whose rewrite goes on or was cut, with or without deliveries. |
| AuditTrail.AcceptanceAfterStop | src/storage.rs:601-629 | After any number of the rewrite's statements the event shows an accepted match exactly when a written one is accepted or an accepted row from before is untouched. |
| Stops.StopCanHideAcceptance | src/storage.rs:601-629 | For every configuration that can deliver, a run with two crashes and one replay under changed receptors ends with a message delivered to the database sink whose event shows no accepted match. |
| Stops.AnyNumberOfEvents | src/storage.rs:522-554 | For every such configuration and every n some run leaves n events of one and the same message, none of them mapped. |
| Stops.BoundOnRepliesIsMet | src/supervisor.rs:854-896 | With a wake sink besides, for every n some run loses n marks of one wake and has it answered Ok n + 1 times, which is the bound. |
| Targets.ReconciledStays | src/storage.rs:725-752 | Outside a reconciliation no step disturbs which targets are enabled. |
| Targets.StepKeepsTargets | src/storage.rs:249-274 | Statement by statement, the sinks handled so far are reconciled, and all of them are when deliveries begin. |
| Targets.DisablingCompletes | src/storage.rs:675-699 | Disabling the targets of unknown keys leaves un-disabled exactly the enabled configured keys. |
| StoreCalls.ReconcileMeaning | src/storage.rs:249-274 | For unique keys, reconciling leaves un-disabled exactly the enabled configured keys, deletes no target and keeps every id. |
| StoreCalls.ReconciledRowsMeaning | src/storage.rs:249-274 | Afterwards the row of each configured sink has its kind, its destination or the default one, and the flag its configuration asks for; any other row is only given a reason for being disabled, unless it had one. |
| StoreCalls.QueueCallFollows | src/storage.rs:169-194 | Queueing a delivery, as the store object does it, is a run of the single statements from the guard to the ticket. |
| StoreCalls.CanonicalEventFollows | src/storage.rs:489-563 | Ensuring the event of a message and writing its matches is a run of the single statements. |
| StoreCalls.ReconcileCallFollows | src/storage.rs:249-274 | A reconciliation call is a run of the single statements over all sinks. |
| StoreCalls.DecisionCallFollows | src/storage.rs:85-131 | Recording a decision is a run of the source upsert and the decision upsert. |
| StoreCalls.FollowsThrough | src/supervisor.rs:559-929 | Runs compose, so what is proved of the protocol holds of whole sequences of calls. |
| Storage.DeliveryStore.UpsertCanonicalEvent | src/storage.rs:489-563 | Leaves the message's one event, new or found by its key, with the given matches, and returns its id. |
| Storage.DeliveryStore.UpsertReceptorMatches | src/storage.rs:595-631 | Inserts or overwrites one row per match of the event and touches nothing else. |
| Storage.DeliveryStore.UpsertSinkTarget | src/storage.rs:725-752 | Fails without effect exactly on a blank destination; otherwise the key's target keeps its id or gets a new one, and is enabled. |
| Storage.DeliveryStore.UpsertSinkDelivery | src/storage.rs:754-794 | The row of event and target, new or reused, is queued unless it is delivered already. |
| Storage.DeliveryStore.QueueDelivery | src/storage.rs:141-160 | Succeeds exactly for a result that delivers, rests on no fallback, left no veto unevaluated and shows an accepted match that is no veto, and a destination that is not blank; a rejected result changes nothing; a blank destination is noticed only after event and matches are written; success leaves event, matches, target and delivery row. |
| Storage.DeliveryStore.RecordDbSinkDelivery | src/storage.rs:133-167 | Succeeds exactly for an accepted result and a destination, and then the delivery is marked delivered. |
| Storage.DeliveryStore.QueueWakeSinkDelivery | src/storage.rs:169-194 | Returns the delivery row of this message and sink, and whether it is delivered already. |
| Storage.DeliveryStore.RecordAttentionDecision | src/storage.rs:85-131 | The row of source and message holds the result's disposition and deliver flag, whatever was recorded before; nothing else but a missing source changes. |
| Storage.DeliveryStore.ReconcileSinkTargets | src/storage.rs:249-274 | Handles the sinks in order and then the unknown targets; the first blank destination ends the work with the sinks before it done. |
| Storage.DeliveryStore.MarkDeliveryAttempted | src/storage.rs:196-209 | Sets the status of the row by id, whatever it was. |
| Storage.DeliveryStore.MarkDeliveryFailed | src/storage.rs:211-225 | Sets the status of the row by id, whatever it was. |
| Storage.DeliveryStore.MarkDeliveryDelivered | src/storage.rs:227-232 | Sets the status of the row by id, whatever it was. |
| Storage.BeforeBlank | src/storage.rs:256-264 | The sinks before the first blank destination, which is where reconciliation stops. |
| Supervisor.WakeWorker.ProcessWakeQueue | src/supervisor.rs:559-929 | From a reachable state, whatever the gateway answers: the loop follows the protocol, what was delivered stays delivered and is not sent again, Ok replies exceed one per message and sink only by lost marks, and every recent id is justified; it returns only on a shutdown or for an item that meets a blank destination. |
| Supervisor.WakeWorker.ProcessNext | src/supervisor.rs:583-927 | One message from the queue to the runtime file is a run of the protocol. |
| Supervisor.WakeWorker.SendUntilAnswered | src/supervisor.rs:854-921 | A wake succeeds exactly when some attempt gets through after attempts that were all retried; the worker gives up exactly in a shutdown; the delays are the jittered doubling backoff; every effect follows the protocol. |
| Supervisor.WakeWorker.AttemptOnce | src/supervisor.rs:854-911 | One attempt is marked before it is sent and marked again by its outcome; it is not sent once the deadline has passed. |
| Supervisor.WakeWorker.QueueWake | src/supervisor.rs:784-850 | A wake is queued before it is sent and skipped when already delivered; the worker returns exactly on a blank destination. |
| Supervisor.WakeWorker.DeliverToDb | src/supervisor.rs:768-782 | The database sink comes first and ends delivered; the worker returns exactly on a blank destination. |
| Supervisor.WakeWorker.DeliverAll | src/supervisor.rs:768-923 | Database sink and wake sinks are served in order, each completely before the next. |
| Supervisor.WakeWorker.TakeAndDecide | src/supervisor.rs:583-624 | The next item is judged by the attention layer of its own server, and the decision is recorded when there is a store. |
| Supervisor.WakeWorker.MarkDone | src/supervisor.rs:925-927 | The message leaves the pending ids of its own server's store for the recent ones, and that store is written. |
| Supervisor.BackoffClosedForm | src/supervisor.rs:853-919 | The n-th retry delay before jitter is the base doubled n times up to the maximum. |
| Inbound.Connection.Receive | src/subspace/client.rs:540-593 | A frame ends in the queue and among the pending ids, or nowhere: own, malformed, old, known and refused frames leave store and queue as they were. |
| Inbound.WakeQueue.TrySend | src/subspace/client.rs:578-592 | The queue takes an item at its end exactly while it is open and not full. |
| Inbound.ReceiptFollows | src/subspace/client.rs:552-593 | Receiving a frame without interruption is a run of arrival, offer and, on refusal, bounce. |
| GuardAgreement.GuardAcceptsExactlyDeliver | src/storage.rs:633-654 | For any layer and message the storage guard accepts the evaluator's result exactly when it says deliver. |
| GuardAgreement.BuiltLayersAreWellFormed | src/attention/mod.rs:308-494 | A layer built from packs with unique ids lists every receptor at most once in its matches and agrees with the guard. |
| GuardAgreement.BuiltLayersFeedTheProtocol | src/supervisor.rs:583-592 | Runs whose decisions were made by built layers are runs the delivery theorems cover. |
| AttentionLaws.DeliverMeaning | src/attention/mod.rs:308-494 | A message is delivered exactly when the layer is neither degraded nor without veto enforcement, a vector exists whenever a veto does, no veto scores at its threshold, and a wildcard or an interest receptor accepts. |
| AttentionLaws.DeliveredClearsEveryVeto | src/attention/mod.rs:217-294 | A delivered message had a vector in the layer's space whenever a veto was loaded and scored below the threshold of every loaded veto definition, against the vector embedded from its query. |
| AttentionLaws.BuiltLayerIsReady | src/attention/mod.rs:122-294 | A working layer turned every definition into a receptor, in order, and every receptor but a wildcard has a vector in the layer's own space. |
| LoadedMeaning.DeliversIff | src/attention/mod.rs:122-494 | From definitions to decision: a layer built from valid definitions delivers if and only if a backend is in use, every definition can be made, a supplied vector exists whenever a veto is loaded, every veto definition scores below its own threshold, and a wildcard is loaded or some other definition that is no veto reaches its own threshold. |
| LoadedMeaning.BuildMeans | src/attention/mod.rs:122-294 | When a layer is degraded and when it cannot enforce vetoes, by backends, loading and definitions alone, and the space it lives in. |
| LoadedMeaning.NothingDeliversUnloaded | src/attention/mod.rs:150-215 | Without packs, or with packs that fail to load, nothing is delivered. |
| ResultMeaning.DispositionMeans | src/attention/mod.rs:308-494 | Disposition, deliver flag, fallback, unevaluated-veto flag and space of every result, each by what was loaded and supplied. |
| ResultMeaning.MatchesMean | src/attention/mod.rs:348-494 | The matches listed are those of the receptors scored, vetoes up to the first that hits or all, with their ids, thresholds, scores and flags, best first. |
| LoadingLaws.LoadingOrderDoesNotMatter | src/attention/mod.rs:217-294 | Loading the same definitions in another order leaves decision, disposition, space, fallback and unevaluated-veto flag unchanged, also when some definition fails and another prefix of receptors is made. |
| LoadingLaws.FileOrderDoesNotMatter | src/attention/receptor.rs:85-125 | So does the order in which directories list their files, whether the packs load or not. |
| LoadingLaws.FilesInAnyOrder | src/attention/receptor.rs:85-125 | Whether packs load, and which definitions they give, does not depend on the order of files. |
| LoadingLaws.LoadingAVetoNeverDelivers | src/attention/mod.rs:217-294 | One more veto definition, wherever it stands and whether or not it can be materialized, never delivers what was refused. |
| LoadingLaws.LoadingAnInterestRefusesIff | src/attention/mod.rs:217-294 | One more definition that is no veto keeps a delivery if and only if it can be materialized. |
| LoadingLaws.MaterializesIff | src/attention/mod.rs:233-280 | A definition can be materialized exactly when it is a wildcard, or names no foreign space and its embedding returns a vector. |
| AttentionLaws.OrderDoesNotMatter | src/attention/mod.rs:348-494 | Working layers with the same receptors in another order agree on all but the listed matches. |
| AttentionLaws.AddingAVetoNeverDelivers | src/attention/mod.rs:348-436 | One more veto receptor in an otherwise equal layer never turns a refusal into a delivery. |
| AttentionLaws.AddingAnInterestNeverRefuses | src/attention/mod.rs:348-494 | One more interest receptor in an otherwise equal layer never turns a delivery into a refusal. |
| AttentionLaws.SortIsASortedPermutation | src/attention/mod.rs:756-761 | The reported matches are those collected, best score first. |
| AttentionLaws.ScoredMembers | src/attention/mod.rs:359-460 | A match is scored exactly for each comparable receptor of the kind scanned. |
| Attention.AttentionLayer.constructor | src/attention/mod.rs:122-215 | Construction with its early failures sets degraded and veto-unavailable as the declarative reading says. |
| Attention.AttentionLayer.ComputeReceptors | src/attention/mod.rs:217-294 | Receptors are added in order up to the first failure; without a plugin they are added bare, and any veto makes enforcement unavailable. |
| Attention.AttentionLayer.EvaluateWithEmbeddings | src/attention/mod.rs:308-494 | The loop-based evaluation computes the decision the laws are about. |
| Attention.AttentionLayer.ScanVetoes | src/attention/mod.rs:353-383 | The veto scan stops at the first veto at its threshold and reports the matches up to it. |
| Receptors.LoadReceptorPacks | src/attention/receptor.rs:85-125 | Loading succeeds exactly when every pack does, ids are unique and all definitions are valid, and then yields them all in order. |
| LoadingLaws.CollectedMeaning | src/attention/receptor.rs:85-125 | Paths give definitions exactly when every file under them can be read, and then exactly the definitions in those files. |
| Receptors.ValidationError | src/attention/receptor.rs:127-148 | A definition is rejected exactly when its id is blank, or it needs a query, threshold or space and lacks it. |
| LoadingLaws.ValidMeaning | src/attention/receptor.rs:127-148 | A definition is valid exactly when its id, and unless it is a wildcard its query and any space, have a character other than white space, and a non-wildcard has a threshold. |
| Text.TrimMeaning | src/attention/receptor.rs:127-148 | Trimming takes away white space at both ends, all of it and nothing else. |
| Scoring.ScoreIsBounded | src/attention/scoring.rs:38-52 | Every score lies between -1 and 1, in any dimension. |
| Scoring.CauchySchwarz | src/attention/scoring.rs:38-52 | The squared dot product is at most the product of the squared norms. |
| Scoring.ScoreIsSymmetric | src/attention/scoring.rs:38-52 | The score does not depend on the order of the two vectors. |
| Scoring.ScoreIgnoresScale | src/attention/scoring.rs:38-52 | Scaling either vector by a positive factor leaves the score unchanged. |
| Scoring.ScoreWithSelf | src/attention/scoring.rs:38-52 | A vector scores 1 against itself exactly when it is not zero. |
| Scoring.ScoreMeaning | src/attention/scoring.rs:38-52 | The score of comparable vectors times their two lengths is their dot product; all others score nothing. |
| Scoring.DotAppend | src/attention/scoring.rs:38-52 | One more coordinate adds the product of the two, whatever the dimension. |
| Scoring.NegationNegates | src/attention/scoring.rs:38-52 | Turning a vector around turns the sign of every score. |
| Runtime.RuntimeStore.Load | src/runtime_store.rs:54-88 | A store is loaded from the file's ids in order, its storm state and last seen timestamp, with nothing pending. |
| Runtime.RuntimeStore.ShouldAccept | src/runtime_store.rs:90-99 | An id is admitted exactly when it is not before the floor, recent or pending, and is then pending. |
| Runtime.RuntimeStore.Fail | src/runtime_store.rs:101-103 | The id is no longer pending. |
| Runtime.RuntimeStore.Process | src/runtime_store.rs:105-112 | The id leaves the pending set for the window, and the last seen timestamp only moves forward. |
| Runtime.RuntimeStore.AddRecent | src/runtime_store.rs:181-190 | A new id goes to the end, and the oldest go until the window fits. |
| Runtime.RuntimeStore.Flush | src/runtime_store.rs:114-123 | The file is replaced as a whole by order, last seen timestamp and storm state. |
| Runtime.RuntimeStore.RecordReconnectFailure | src/runtime_store.rs:134-174 | Counts the failure in its tumbling window and, from the threshold on, stores and returns a doubled, jittered, capped cooldown. |
| Runtime.RuntimeStore.ClearReconnectStorm | src/runtime_store.rs:176-179 | Forgets the storm and its window and nothing else. |
| DedupeWindow.InsertRecentMeaning | src/runtime_store.rs:181-190 | Queue and set stay in agreement without duplicates; a known id changes nothing, a new one pushes out the oldest. |
| DedupeWindow.LoadEstablishesWindow | src/runtime_store.rs:54-88 | Any parsed file, duplicate ids included, loads into a store that satisfies the window invariant. |
| DedupeWindow.FlushThenLoad | src/runtime_store.rs:54-123 | Loading what was flushed, under any window size, restores the newest ids that fit, last seen timestamp and storm, with nothing pending. |
| DedupeWindow.RestartRestoresStore | src/runtime_store.rs:54-123 | Under the same configuration a restart loses only the pending ids and restarts the window of an unfinished count. |
| DedupeWindow.AcceptedAgainOnlyAfterAFullWindow | src/runtime_store.rs:90-112 | A processed id is accepted again only when a full window of distinct other ids was processed after it. |
| DedupeWindow.BouncedIdIsAcceptedAgain | src/runtime_store.rs:90-103 | Admission followed by failure restores the store exactly; between the two a replay is turned away. |
| DedupeWindow.FloorMeaning | src/runtime_store.rs:199-210 | The floor admits itself and everything later, by instants where both parse and by texts otherwise. |
| DedupeWindow.LastSeenMeaning | src/runtime_store.rs:105-112 | After a message the last seen timestamp is its own or the one before, and below neither. |
| StormGuard.CooldownClosedForm | src/runtime_store.rs:134-174 | Without jitter the n-th cooldown of a storm is the configured one doubled n times and capped, despite saturating arithmetic. |
| StormGuard.StormStaysInCooldown | src/runtime_store.rs:140-174 | Once in cooldown, every failure of the storm returns and stores a cooldown, never above the maximum, whatever the draws, until a live connection. |
| StormGuard.AnswerIsStored | src/runtime_store.rs:134-174 | For any store, the first failure of a storm included: from the threshold on the failure stores and returns a cooldown no longer than the maximum and a next attempt time of its own time plus that cooldown, capped at the largest i64; below it, neither changes. |
| StormGuard.CloseFailuresEnter | src/runtime_store.rs:140-158 | From an uncounted store, failures within the window of the first are all counted and enter a cooldown exactly with the threshold-th. |
| StormGuard.BaseNeverShrinks | src/runtime_store.rs:159-170 | A failure at the threshold never shrinks the pre-jitter cooldown, over all draws, if and only if there is no jitter, or the spread is at most half the base and base plus spread fits an i64. |
| StormGuard.BaseGrowsThroughStorm | src/runtime_store.rs:159-170 | Where every base up to the maximum meets that condition, the base grows through a whole storm. |
| Retry.JitterKeepsHalfIff | src/retry.rs:1-8 | Jitter leaves at least half of a delay over all draws under the same condition and no other. |
| StormGuard.BaseNeverShrinksByDefault | src/runtime_store.rs:159-170 | At the default jitter ratio of one fifth the condition is that base plus spread fits an i64, and nothing else. |
| StormGuard.WrappedBaseShrinks | src/retry.rs:5-7 | Every base beyond the largest i64 turns into a cooldown of nothing at the middle draw, under any positive ratio. |
| StormGuard.CooldownIsJustified | src/runtime_store.rs:140-158 | From a store without counted failures, or one in a cooldown, entering a cooldown means at least threshold failures since the last live connection within the failure window of each other. |
| StormGuard.CountsTheWindowAlways | src/runtime_store.rs:140-158 | The count is always that of the failures since the window opened, all within the window. |
| StormRestart.RestartIsJustifiedIff | src/runtime_store.rs:79-82 | For any runtime file, every cooldown entered in the new life rests on threshold failures of that life within the window, if and only if the file holds a cooldown, or counts no failure, or one failure is enough, or the window wraps. |
| StormRestart.RestartStretchesTheWindow | src/runtime_store.rs:79-82 | A load in the middle of a count reopens the window: fewer failures than the threshold, all at the load, enter a cooldown. |
| Retry.JitterStaysWithinSpread | src/retry.rs:1-8 | A jittered delay lies within one spread of its base as long as the sum fits an i64. |
| Retry.JitterMeaning | src/retry.rs:1-8 | To the nearest whole the delay lies where the draw puts it between base minus and base plus the spread. |
| Retry.SpreadMeaning | src/retry.rs:5 | The spread is the ratio's share of the base to the nearest whole. |
| Retry.DefaultSpreadIsAtMostHalf | src/retry.rs:5 | At one fifth the rounded spread is at most half the base. |
| ServerManager.AttemptsRespectTheCooldown | src/subspace/client.rs:207-277 | No reauthentication and no connection starts before the stored next attempt time, in memory or on disk. |
| ServerManager.RecordedCooldownHolds | src/subspace/client.rs:183-329 | After a failure at time t that answers with a cooldown c, the first of a storm included, no attempt starts before t + c: not in any number of turns, and not after a stop, inside a turn or at its end, and a restart. |
| TurnMeaning.TurnMeans | src/subspace/client.rs:204-326 | What a turn comes to: whom it contacts and when, what it makes of storm and file, when it stops, how long it backs off, and the doubling and the reset of the backoff. |
| ServerManager.RestartStillRespectsTheCooldown | src/subspace/client.rs:686-752 | After a stop anywhere, between two turns or inside one, the file holds the storm of the turn's start, none, or that of its end; every attempt respected its cooldown, and what the file holds binds the next life. |
| ServerManager.TurnStopsWell | src/subspace/client.rs:204-326 | The same of every state a turn passes through between two effects in memory or on disk. |
| ServerManager.TurnEndsItsStates | src/subspace/client.rs:204-326 | The last of those states is the end of the turn, so they cover stops between two turns as well. |
| ServerManager.ManagerLoop.TakeTurn | src/subspace/client.rs:204-326 | One turn of the loop, branch by branch: cooldown wait, session, reauthentication, connection, backoff; a connection that goes live clears and writes the storm however it ends. |
| ServerManager.ManagerLoop.Run | src/subspace/client.rs:183-329 | The loop over any number of turns keeps the attempts respectful. |
| Exchange.ExactlyOneReply | src/gateway/client.rs:414-483 | Over all histories with disconnects every command taken is answered exactly once, with success only for an ok response to its own request on the same connection, and with its own idempotency key. |
| Exchange.SuccessIffOkResponse | src/gateway/client.rs:414-483 | By positions in the history: a command is answered with success and its own key if and only if the first response to its request after it was taken, and before its connection ended, is ok; it waits exactly while there is none. |
| Exchange.EveryHistoryKeepsOk | src/subspace/client.rs:483-646 | At all times every command is waiting unanswered on the current connection or answered exactly once. |
| Exchange.PendingReplies.FailPending | src/subspace/client.rs:642-646 | Ending a connection fails every pending command once, in whatever order the map yields them. |
| Exchange.PendingReplies.Receive | src/gateway/client.rs:455-476 | A response settles the command of its own request and no other; an unknown one settles nothing. |
| Exchange.PendingReplies.Send | src/gateway/client.rs:426-450 | A command whose frame cannot be written fails at once and ends the connection; otherwise it waits. |
| Exchange.PendingReplies.Serve | src/gateway/client.rs:414-483 | The connection loop over any history keeps every command waiting or answered once. |
| HardFailure.FiringsAreSpaced | src/hard_failure.rs:112-132 | Accepted firings of a key are at least its throttle apart, whatever the order in which instants reach the lock. |
| HardFailure.RateBound | src/hard_failure.rs:70-133 | Any interval of length T holds at most T / throttle + 1 firings of a key. |
| HardFailure.LetThroughIff | src/hard_failure.rs:112-132 | An arrival is let through if and only if it has no throttle, or nothing of its key was noted, or the last one noted lies at least a throttle before it. |
| HardFailure.SuppressedIsClose | src/hard_failure.rs:112-132 | So firings are maximal: whatever is suppressed comes within a throttle of the last one noted, or before it. |
| HardFailure.KeysAreApart | src/hard_failure.rs:42-49 | Hooks, kinds, components and targets are throttled apart when the first three hold no colon. |
| HardFailure.EnabledHooksMembers | src/hard_failure.rs:58-64 | Exactly the enabled hooks can fire, as often as they are configured. |
| HardFailure.HardFailureHooks.Throttled | src/hard_failure.rs:112-132 | A firing is suppressed exactly within the throttle of the last accepted one, which only an accepted one moves. |
| HardFailure.HardFailureHooks.Fire | src/hard_failure.rs:70-110 | The hooks that run are those let through, asked in order, and for each key their instants are its firings, of which the rate bound speaks. |
| HardFailure.FiredInTurn | src/hard_failure.rs:70-133 | Firings accumulate over the events that ask one after another, so the bound holds over any number of calls. |
| Outbound.SkippingIsSound | src/attention/mod.rs:620-708 | For a deterministic embedder, skipping spaces already supplied gives the same list as generating them all and merging. |
| Outbound.ComposeMeaning | src/attention/mod.rs:686-708 | The list is strictly sorted by space, and each space holds the generated or the last supplied vector as the override flag says. |
| Outbound.SentMeaning | src/attention/mod.rs:620-708 | An embedding is sent if and only if it is the first vector of the client of a requested space and overrides or meets none supplied, or it is the last supplied for its space and is not overridden. |
| Outbound.RequestedMembers | src/attention/mod.rs:627-633 | The requested spaces are the trimmed non-empty names, once each. |
| Outbound.MergeOutboundEmbeddings | src/attention/mod.rs:686-708 | The two insertion loops compute the merge the laws are about. |
| Outbound.ComposeOutboundEmbeddings | src/attention/mod.rs:620-677 | The composing loop computes the list the laws are about. |

## Left out

- WebSocket, HTTP and Unix-socket traffic, signing, session refresh and token formats, the SQLite engine, the file system and hook subprocesses: their outcomes are parameters, table maps and an atomically replaced file; a failing database or file call is a halt of the worker.
- Schema creation and migration, row timestamps, error texts, snapshots, `config_json`, routing JSON, evidence JSON, artifacts and the other informational columns of the tables.
- 32-bit floating point: scores, thresholds and jitter ratios are reals, so rounding, NaN, infinities and the saturation of huge spreads are not covered.
- RFC 3339 text: a timestamp is its text and, when it parses, its instant in milliseconds; cooldown waits are not truncated below a millisecond, and `OffsetDateTime` does not overflow.
- Row ids and UUIDs: row ids of all tables come from one counter, and request ids are taken to be fresh.
- Configuration changes between process lives: the theorems of the protocol fix sinks, servers and window size through restarts; attention results may differ from message to message and from life to life.
- Uniqueness of server keys and of sink keys is taken from configuration loading (src/config.rs:502-520); only the theorems on targets use the latter.
- Frames that arrive while the worker object runs: the worker class drains a given queue, and the interleaving with server tasks is covered by the step system; the two halves of the channel are separate objects.
- Liveness under real time: retries run against a given sequence of outcomes, and a delay cut short by the shutdown deadline counts as the whole delay.
- A process with several wake workers, which the state lock excludes.
- Hook keys, kinds and components that hold a colon: two of them may share a throttle key, and throttling is stated per key.
- `DaemonStatus`, health reports, receptor counts and delivery mode, log lines, message rendering, `mean_vector` and the command line: they report or format, and nothing that is proved here depends on them.
- `setup.rs`, `identity.rs`, `ipc.rs` and URL handling in `config.rs`: sequential checks around input and output.
- The connection handshake and backoff of the gateway task, and the selection of its credentials.
