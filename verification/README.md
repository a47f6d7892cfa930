# ParityLab verification pipeline

ParityLab promises at-least-once delivery with an exactly-once effect. This project models
the part of `services/api` that the promise rests on and proves it for every interleaving of
workers, callers, crashes and clocks that the model allows.

How it is laid out:

- `Domain`, `Text`, `Hex`, `Identifiers`, `Options`, `Sequences`: the records, and how numbers,
  names and bytes are printed, read and ordered.
- `Outbox`, `SqlOutbox`: the lease protocol as a transition system on tables, and the
  PostgreSQL statements that simulate it. `SqlEvidence`: the statements behind event pages and
  merchant effects.
- `StoreSpec`: the state of the repository as one value and each locked operation as a
  function on it. `MemoryRepository`: the adapter itself, a class with mutable maps and
  scanning loops, every method tied to those functions.
- `Consistency`: what every repository operation keeps. `Queueing`: what creation and ingress
  leave in the outbox.
- `Verification`, `Jobs`, `Workers`: signing, the merchants, the fault relay, retry delays
  and the worker, again as code that changes the repository step by step.
- `System`: the whole pipeline as one transition system. A step is one locked repository
  operation of one worker or one caller, a clock tick, a crash, or a commit that is reported
  as an error. `Executions`, `Safety`, `Leases`, `AtLeastOnce` and `RunCreation` prove what
  holds along every execution. `Refinement`: a run of the worker's code that nobody disturbs is a path of such
  steps, and its processing and its conclusion are so from any state that others left.
- `Immutability`: exactly when a step changes a stored run.
- `OrderIndependence`, `ExecutionOrder`: processing order does not matter, for sequences of
  receipts and verdicts and for whole executions.
- `Timeline`, `Service`: how runs are built and created.
- `EventStream`, `LoginLimiter`, `SignatureHeader`: three separate cores with their loops.

What the model takes from its environment:

- Times are integers in nanoseconds. The clock of an execution does not go back. Methods take
  as parameters what the code reads from clocks, contexts and gateways.
- Each locked operation and each database transaction is one atomic step.
- HMAC and SHA-256 are arbitrary functions. Where a result needs more it says so: that the
  tampered envelope of a stored tampered run has another MAC (`Safety.TamperDetected`), or that the MAC does
  not collide.
- A webhook reaches ingress with a non-empty event identifier and type (`webhook.go:46`).
- Worker IDs are not empty (`worker.go:39-41`); for the results about leases they differ.
- Text is a sequence of characters; runs, events and reports keep identifiers, flags, counts,
  statuses and times.

Where the code differs from what is said or expected of it:

- `docs/ARCHITECTURE.md:24` calls a terminal run immutable. Its event count grows when a
  webhook is matched: `Immutability.RunChangesIff` gives the exact condition for every step,
  `Immutability.TerminalRunCanChange` an execution, `Executions.HistoryGrows` what does stay.
- Message names stop sorting in creation order after 999999: `Identifiers.OutboxIDOrder`.
- The two merchants differ on a first delivery with a negative sequence:
  `Verification.MerchantsAgree`, `Verification.MerchantsDiffer`.
- The two outboxes differ on leases that are not whole milliseconds, and on an empty owner:
  `SqlOutbox.ExpiryAgrees`, `SqlOutbox.GuardsAgree`, `SqlOutbox.EmptyOwnerFailsPublished`.
- A lease under 10 ms can expire between two heartbeats that are on time:
  `Leases.IntervalBeatsExpiry`.
- A run that turned terminal while it was streamed would be completed right after the page
  that first showed it, even with pages to come: `EventStream.Poll`. Runs are terminal when
  created, so this does not occur: `Executions.LedgerHistory`.

## Model

| member | source | states |
|---|---|---|
| Safety.ExactlyOnce | README.md:87 | In every state of every execution, with any number of workers, crashes, takeovers, stale resumptions and commits reported as errors: a published run job has exactly one merchant verdict, which passed, and its merchant effect unless tampered; a published webhook job has a terminal result and exactly one ledger entry if matched, none if not |
| Safety.NeverTwice | services/api/internal/engine/memory_repository.go:310-394 | Published or not, a run never has two merchant verdicts and a Stripe event never sits at two places of any ledgers |
| Safety.EffectBornOnce | services/api/internal/engine/memory_repository.go:592-604 | A merchant effect comes into being at most once in an execution |
| Safety.AlwaysSafe | services/api/internal/worker/worker.go:73-134 | Inductive invariant of all executions: verdicts all pass, effects belong to untampered runs, published jobs are effective, and every busy worker's partial progress is right whatever others committed meanwhile |
| Safety.StepSafe | services/api/internal/worker/worker.go:73-215 | Every action of every worker, caller and clock keeps that invariant |
| Safety.ProgressStep | services/api/internal/verification/contract.go:145-163 | One delivery of a relay execution advances its tally correctly from any effect map that interleaved executions left |
| Safety.EffectiveKept | services/api/internal/engine/memory_repository.go:574-604 | An effect that a job has had is not undone by anything later |
| Safety.TamperDetectedWhen | services/api/internal/verification/contract.go:140-141 | The one cryptographic assumption, which is about the stored tampered runs alone, holds in every consistent store when the MAC does not collide and no digest is all zeros |
| AtLeastOnce.AtLeastOnce | README.md:87 | In every state of every execution each message is published with its effect, once; or has failed after at least maxAttempts claims; or is claimable at exactly the times from a certain one on |
| AtLeastOnce.AlwaysExhausted | services/api/internal/worker/worker.go:88-94 | In every reachable state only messages that were claimed maxAttempts times have failed |
| AtLeastOnce.NeverPermanent | services/api/internal/worker/worker.go:88-91 | No job of a stored message ends in a permanent error |
| AtLeastOnce.NoMessageIsLost | services/api/internal/engine/memory_repository.go:477-572 | No message disappears or turns into another job, and settled ones stay as they are |
| Executions.Reachable | services/api/internal/engine/memory_repository.go:187-604 | In every reachable state: ledgers numbered 1..n, event count n, report.run equal to the run, unique assertion IDs, summary counts right; each Stripe event projected once, into a run with its object and correlation, by an entry that is healthy, no duplicate, and has the type, object, status, correlation and creation time of its receipt; results name their event, run, project and code; one message per run and per receipt, one key per run, runs in the project of their key, identifiers held by callers unused |
| Executions.HistoryGrows | services/api/internal/engine/memory_repository.go:187-604 | Between any two states runs are frozen but for the event count and stay in their project, ledgers and assertions are append-only, receipts, results and idempotency records final, effects only advance, settled messages unchanged |
| Executions.LedgerHistory | services/api/internal/engine/memory_repository.go:258-275 | For any run and two moments: the later ledger extends the earlier, is numbered from one, has the event count as length; status, score and fault are those at creation, and terminal |
| Executions.StepGood | services/api/internal/engine/memory_repository.go:187-604 | Every action keeps the repository consistent and only adds to it |
| Executions.IngressRemembers | services/api/internal/engine/memory_repository.go:295-308 | A known event is answered alike ever after without a change: duplicate exactly if type, endpoint and body agree with the first receipt, else conflict |
| Executions.ProcessingRemembers | services/api/internal/engine/memory_repository.go:313-317 | A settled receipt is answered alike ever after, marked as already processed, without a change |
| Immutability.RunChangesIff | docs/ARCHITECTURE.md:24 | In every reachable state and for every step of the system: a stored run changes if and only if a worker loads a valid webhook job whose receipt is pending and belongs to that run, and then its event count grows by one and nothing else changes |
| Immutability.RunChangesOnlyByMatch | services/api/internal/engine/memory_repository.go:369-381 | The same for one processing call on any aligned store |
| Immutability.TerminalRunChanges | services/api/internal/engine/memory_repository.go:369-381 | For every bundle and every receipt that fits it there is an execution (ingress, claim, ask, replay, allocate, create, load) that changes the run, terminal since its creation |
| Immutability.StripeRunChanges | services/api/internal/engine/stripe_service.go:205-220 | Any Stripe run as the service builds it, passed with nine events and four assertions, has ten events after the success of its own payment intent was processed, in an execution |
| Immutability.TerminalRunCanChange | docs/ARCHITECTURE.md:24 | One such run, of 19.99 dollars, against the documented immutability |
| Leases.BoundedWork | services/api/internal/worker/worker.go:85-96 | Counted over the actions of any execution: a message is claimed at most maxAttempts times plus once per takeover, sent back less than maxAttempts times and at ever later attempts, and the waits it was sent back with add up to at most 2^min(max-1,6) - 1 + 32*max(0,max-7) seconds |
| Leases.RetriesAdvance | services/api/internal/worker/worker.go:95-96 | Every step that sends a message back does so at an attempt below the limit, later than any before, and makes it wait for that attempt's delay |
| Leases.ClaimsAddUp | services/api/internal/engine/memory_repository.go:500-559 | The claims of a message are its returns plus its takeovers plus the claim that is open or has settled it |
| Leases.LogIsHistory | services/api/internal/engine/memory_repository.go:500-559 | The history kept for the proofs is that of the actions: as many retries, the same summed wait, as many takeovers |
| Leases.AttemptsCountClaims | services/api/internal/engine/memory_repository.go:500-508 | The attempt counter equals the number of claims of the message in the whole execution |
| Leases.AlwaysLeased | services/api/internal/engine/memory_repository.go:486-572 | Attempts equal retries plus takeovers plus the open or settling claim, in every reachable state; a holder's snapshot of attempt and renewal time is current |
| Leases.NoTimelyWorkerLosesItsLease | services/api/internal/worker/worker.go:99-127 | While every renewal lands within its interval plus the slack the lease allows, the worker keeps the lock and no action claims the message |
| Leases.IntervalBeatsExpiry | services/api/internal/worker/worker.go:104-107 | Renewing every max(lease/3, 10 ms) beats expiry if and only if the lease is at least 10 ms |
| Leases.ClaimGivesLease | services/api/internal/engine/memory_repository.go:504-508 | A claim starts with the lock held and the renewal clock at the claim |
| Leases.OthersMoveNoLease | services/api/internal/engine/memory_repository.go:477-572 | Only claims, renewals and conclusions change leases; every other step adds at most an unclaimed message |
| RunCreation.Linearizable | services/api/internal/engine/service.go:87-125 | Under any interleaving of replay, allocation and creation, each answering step is one atomic operation of a map from (scope, key) to (request, run) and every other step leaves the map alone; an insertion stores one fresh run and exactly one outbox message |
| RunCreation.OneRunPerKey | services/api/internal/engine/service.go:104-125 | For any two answered callers at any two moments: same key and request are granted the same run, another request is refused, different keys never share a run; replays are equal but for the event count |
| RunCreation.AlwaysAnswersOK | services/api/internal/engine/service.go:104-125 | In every reachable state, granted callers have the run the map names for their key, refused callers used a key of another request |
| RunCreation.CreateNeverOverwrites | services/api/internal/engine/memory_repository.go:187-224 | A creation never overwrites a stored run and leaves all others unchanged |
| RunCreation.KeysNameDifferentRuns | services/api/internal/engine/memory_repository.go:78-96 | Two recorded keys name the same run exactly if they are the same scope and key |
| RunCreation.OwnedByItsProject | services/api/internal/engine/memory_repository.go:78-96 | In every consistent store a run is in the project whose key it answers to, and a public one in none |
| OrderIndependence.OrderDoesNotMatter | services/api/internal/engine/memory_repository.go:310-394 | Any two processing sequences over the same receipts and verdicts, in any order, with repeats, at any times: equal results, runs and untouched parts, reports equal up to assertion order, appended events equal up to order, number and, for receipts without a creation time, the time of processing |
| OrderIndependence.WebhookOrderLeavesReportsEqual | services/api/internal/engine/repository.go:100-111 | With receipts alone the reports are equal outright |
| OrderIndependence.WorksAmountTo | services/api/internal/engine/memory_repository.go:310-394 | What a sequence of works leaves is determined by the sets of events and runs in it |
| OrderIndependence.ClassifyStays | services/api/internal/engine/memory_repository.go:340-368 | Where a receipt belongs does not change while others are processed |
| OrderIndependence.DatedEventsKeepTheirTimes | services/api/internal/engine/repository.go:72-76 | Where the receipts matched to a run have creation times, the appended events agree in their times as well |
| OrderIndependence.RecordedVerdict | services/api/internal/worker/worker.go:168-200 | Executing the relay for a run yields the same recorded assertion on every effect map, if and only if a tampering shows in the MAC |
| ExecutionOrder.ExecutionOrderDoesNotMatter | services/api/internal/engine/memory_repository.go:310-394 | Two whole executions, of any workers and schedules, between moments with the same runs and receipts: if they processed the same receipts and recorded the verdicts of the same runs from the same store on, they end with the same runs and results, reports up to assertion order and ledgers up to order and number |
| ExecutionOrder.ExecutionAmountsTo | services/api/internal/engine/memory_repository.go:310-394 | What a stretch of an execution leaves in runs, ledgers, reports and results is determined by the sets of receipts processed and verdicts recorded in it |
| ExecutionOrder.StepsAreWorks | services/api/internal/worker/worker.go:136-215 | In every reachable state, loading a webhook job and recording a verdict change the store as that receipt or as the verdict of that run, whatever other executions did |
| OrderIndependence.PassedCountOfBag | services/api/internal/engine/timeline.go:125-133 | The passed count does not depend on the order of assertions |
| Refinement.RunOnceRefines | services/api/internal/worker/worker.go:73-134 | What an undisturbed RunOnce leaves in the repository is reached by a path of atomic system steps at the same times: claim, renewals, processing, conclusion |
| Refinement.ProcessPath | services/api/internal/worker/worker.go:136-215 | From any state that others left, the processing of a job is a path of load, deliveries and record, or of an abort after the deliveries that were made |
| Refinement.ConcludeFrom | services/api/internal/worker/worker.go:85-96 | From any state that others left, lease lost or not, the conclusion of a job is one system step with the outcome that the code picks |
| Refinement.PathSafe | services/api/internal/worker/worker.go:73-134 | The safety invariant carries along every such path |
| Refinement.UndisturbedPublishes | services/api/internal/worker/worker.go:73-97 | A worker that is not disturbed publishes the message it claims, with its effect, whatever earlier executions left behind |
| Outbox.Fencing | services/api/internal/engine/memory_repository.go:522-572 | After losing a message and until it claims again, each heartbeat, completion, retry and failure of a worker is refused and changes nothing |
| Outbox.TakeoverShutsOut | services/api/internal/engine/memory_repository.go:500-545 | After a claim the former holder is shut out exactly if its name differs from the claimer's |
| Outbox.SettledForever | services/api/internal/engine/memory_repository.go:534-572 | Published and failed exclude each other and are absorbing in every run |
| Outbox.StepSound | services/api/internal/engine/memory_repository.go:477-572 | Every operation with a named owner keeps names, locks and flags sound and leaves settled messages alone |
| Outbox.ClaimDeterministic | services/api/internal/engine/memory_repository.go:490-511 | A claim has exactly one possible answer |
| Outbox.ClaimsFifo | services/api/internal/engine/memory_repository.go:490-508 | Up to 999999 messages, nothing older than the claimed message could have been claimed |
| Outbox.RetryDelayHonoured | services/api/internal/engine/memory_repository.go:547-559 | The next claim of a message that was sent back comes no earlier than its delay, whatever happens in between |
| SqlOutbox.Simulation | services/api/internal/postgres/repository.go:968-1057 | Memory and SQL outboxes give equal answers and related states along every sequence of operations, for named owners, whole-millisecond leases and delays, insertion times that do not go back, up to 999999 messages |
| SqlOutbox.StepRelated | services/api/internal/postgres/repository.go:968-1057 | One operation on related states gives the same answer and related states |
| SqlOutbox.ExpiryAgrees | services/api/internal/postgres/repository.go:974-983 | On times in nanoseconds both adapters expire a lease at the same instants if and only if it is a whole number of milliseconds |
| SqlOutbox.ExpiryAgreesInMicroseconds | services/api/internal/postgres/repository.go:974-983 | On times in whole microseconds, as the database keeps them, if and only if less than a microsecond of the lease is lost |
| SqlOutbox.GuardsAgree | services/api/internal/postgres/repository.go:1008-1050 | When the guards of the two adapters enable the same steps, exactly |
| SqlOutbox.EmptyOwnerFailsPublished | services/api/internal/engine/memory_repository.go:561-572 | Without a name a worker can fail a published message in memory, which SQL refuses |
| SqlEvidence.PagesAgree | services/api/internal/postgres/repository.go:306-368 | On a ledger numbered from one the statement's page and high water are unique and those of the memory adapter, whatever order the rows are stored in |
| SqlEvidence.PageAt | services/api/internal/postgres/repository.go:330-341 | Entry i of the statement's page is the i-th event after the cursor |
| SqlEvidence.UpsertAgrees | services/api/internal/postgres/repository.go:1111-1127 | The merchant upsert keeps the same effects and gives the same answer as the memory adapter, always |
| StoreSpec.MatchedToTheOnlyCarrier | services/api/internal/engine/memory_repository.go:322-369 | A receipt matches a run if and only if its type is supported, it names an object and a correlation, and this run alone carries both |
| StoreSpec.SettledBecause | services/api/internal/engine/memory_repository.go:322-367 | A receipt is settled with each status and code if and only if that reason holds and no earlier one: ignored exactly for an unsupported type; unmatched for no object, no correlation, no run with the object, none with both, or two with both |
| StoreSpec.SupportedTypesAre | services/api/internal/engine/repository.go:123-134 | Supported are exactly five stages of a payment intent |
| StoreSpec.NextSequence | services/api/internal/engine/memory_repository.go:372-377 | The next sequence is positive and above every sequence in the ledger |
| StoreSpec.TenantKeyInjective | services/api/internal/engine/memory_repository.go:61-63 | The textual key of a project and a key hash determines both |
| Consistency.InsertConsistent | services/api/internal/engine/memory_repository.go:78-96 | A granted creation stores exactly the run, ledger, report and correlation of its bundle, keeps all invariants and overwrites nothing |
| Consistency.ProcessConsistent | services/api/internal/engine/memory_repository.go:310-394 | Processing a receipt keeps all invariants and only adds |
| Consistency.ProcessedOnce | services/api/internal/engine/memory_repository.go:310-394 | The first processing of a receipt answers its result and keeps it; the next one, at any time, gives it again, marked as already processed, and changes nothing |
| Consistency.EntryTells | services/api/internal/engine/repository.go:69-99 | The appended entry has type, object, status and correlation of its receipt, is healthy and no duplicate, has the number and the run it was made for, and is dated by Stripe or else by the processing |
| Consistency.OutcomeTells | services/api/internal/engine/memory_repository.go:321-393 | The result of a receipt names its event and type, the run and its project exactly if matched, and a code exactly if not |
| Consistency.RecordConsistent | services/api/internal/engine/memory_repository.go:574-590 | Recording evidence adds at most one assertion, keeps the summary right, and fails exactly for an unknown run |
| Consistency.IngressConsistent | services/api/internal/engine/memory_repository.go:295-308 | Ingress of an unknown event stores exactly that receipt, with one message; of a known one it changes nothing |
| Consistency.AllocateConsistent | services/api/internal/engine/memory_repository.go:187-193 | Allocation hands out an identifier never handed out before |
| Queueing.InsertQueues | services/api/internal/engine/memory_repository.go:464-484 | After a creation the one message that names the run is a new one, on the bundle's topic or the default, unclaimed, and claimable at exactly the times from the creation on |
| Queueing.IngressQueues | services/api/internal/engine/memory_repository.go:302-307 | After an ingress the one message that names the event is a new one with its type, unclaimed, and claimable at exactly the times from the arrival on |
| Consistency.LeaseStep | services/api/internal/engine/memory_repository.go:486-572 | Outbox operations other than insertion change no job |
| MemoryRepository.MemoryRepository.constructor | services/api/internal/engine/memory_repository.go:49-59 | A new repository is the empty store, with run numbers from 4 and message numbers from 1 |
| MemoryRepository.MemoryRepository.NextRunID | services/api/internal/engine/memory_repository.go:187-193 | The new state and answer are those of the store's allocation |
| MemoryRepository.MemoryRepository.ReplayRun | services/api/internal/engine/memory_repository.go:195-206 | Answers the public idempotency record, conflict or missing, and changes nothing |
| MemoryRepository.MemoryRepository.ReplayRunForProject | services/api/internal/engine/memory_repository.go:65-76 | The same for a project's records |
| MemoryRepository.MemoryRepository.CreateRun | services/api/internal/engine/memory_repository.go:208-224 | The whole new state and answer are those of atomic creation |
| MemoryRepository.MemoryRepository.CreateRunForProject | services/api/internal/engine/memory_repository.go:78-96 | The same in a project's scope, which also owns the run |
| MemoryRepository.MemoryRepository.Enqueue | services/api/internal/engine/memory_repository.go:464-475 | One message about the run, on the default topic if none is given |
| MemoryRepository.MemoryRepository.PutOutbox | services/api/internal/engine/memory_repository.go:477-484 | One ready message under the next name |
| MemoryRepository.MemoryRepository.ClaimOutbox | services/api/internal/engine/memory_repository.go:486-511 | The scan in name order claims the first claimable message and changes only it, or answers none exactly if nothing is claimable |
| MemoryRepository.MemoryRepository.HeartbeatOutbox | services/api/internal/engine/memory_repository.go:522-532 | Renews exactly the holder's unsettled message |
| MemoryRepository.MemoryRepository.CompleteOutbox | services/api/internal/engine/memory_repository.go:534-545 | Publishes and unlocks exactly for the holder |
| MemoryRepository.MemoryRepository.RetryOutbox | services/api/internal/engine/memory_repository.go:547-559 | Unlocks and delays exactly for the holder |
| MemoryRepository.MemoryRepository.FailOutbox | services/api/internal/engine/memory_repository.go:561-572 | Fails and unlocks exactly for the holder |
| MemoryRepository.MemoryRepository.MarkWebhookSeen | services/api/internal/engine/memory_repository.go:295-308 | Stores a new receipt with its message; tells duplicates from conflicts |
| MemoryRepository.MemoryRepository.FindMatches | services/api/internal/engine/memory_repository.go:340-350 | The search finds exactly the runs with the object, and those among them with the correlation, in any iteration order |
| MemoryRepository.MemoryRepository.ClassifyReceipt | services/api/internal/engine/memory_repository.go:322-369 | The branch taken is the receipt's classification |
| MemoryRepository.MemoryRepository.ProcessStripeWebhook | services/api/internal/engine/memory_repository.go:310-394 | The whole new state and the answer, for known, pending and missing receipts; what the new entry and the result then say is stated by `Consistency.EntryTells` and `Consistency.OutcomeTells` |
| MemoryRepository.MemoryRepository.AppendEvent | services/api/internal/engine/memory_repository.go:370-381 | Appends the entry of `Consistency.EntryTells` under the next sequence and recounts |
| MemoryRepository.MemoryRepository.ProjectInto | services/api/internal/engine/memory_repository.go:369-388 | Projects into the ledger, the run and the report together |
| MemoryRepository.MemoryRepository.RecordVerification | services/api/internal/engine/memory_repository.go:574-590 | Adds the assertion once, or reports the missing run |
| MemoryRepository.MemoryRepository.ApplyReferenceMerchantEffect | services/api/internal/engine/memory_repository.go:592-604 | Creates the effect or advances its sequence, and says whether it was there |
| MemoryRepository.MemoryRepository.EventsAfter | services/api/internal/engine/memory_repository.go:248-275 | On a numbered ledger the page is the first events after the cursor and the high water its length |
| MemoryRepository.SelectAfter | services/api/internal/engine/memory_repository.go:258-272 | The selecting loop yields that page for every cursor and limit |
| MemoryRepository.SortBySequence | services/api/internal/engine/memory_repository.go:273 | A sorted rearrangement, which leaves a sorted page alone |
| MemoryRepository.SortStrings | services/api/internal/engine/memory_repository.go:490-494 | The names in strictly ascending order, none lost |
| MemoryRepository.AddAssertion | services/api/internal/engine/memory_repository.go:384-387 | Appends and recounts unless the identifier is taken |
| MemoryRepository.Has | services/api/internal/engine/repository.go:114-121 | True exactly if some assertion has the identifier |
| MemoryRepository.FindNextSequence | services/api/internal/engine/memory_repository.go:372-377 | The loop computes the next sequence of any ledger |
| MemoryRepository.CountPassed | services/api/internal/engine/timeline.go:125-133 | The number of passed assertions |
| Verification.VerdictStable | services/api/internal/verification/contract.go:121-165 | For every supported fault and every effect map, executing the relay passes if and only if a tampering shows in the MAC; tampering leaves the map alone, everything else leaves the effect present |
| Verification.ExecutionTotals | services/api/internal/verification/contract.go:121-165 | From any effect map and for each fault the exact attempts (1, 2, 2, 2, 1), accepted, duplicates (one more if the effect was there), rejected and effects; the sequence kept is the maximum of what was there and what was sent, after every number of deliveries, and a reordering sends the greater one first |
| Verification.GenuineDeliveries | services/api/internal/verification/contract.go:121-144 | Exactly the tampered delivery is not genuine |
| Verification.SigningInputInjective | services/api/internal/verification/contract.go:80-82 | Equal signing inputs have six equal fields, if the names hold no line break |
| Verification.SignedAsLines | services/api/internal/verification/contract.go:80-82 | What is signed is version, event, effect, run, sequence and payload hash, one to a line in this order, if they hold no line break |
| Verification.SigningInputCollides | services/api/internal/verification/contract.go:80-82 | With a line break in a name two different deliveries share an input |
| Verification.VerifiesIff | services/api/internal/verification/contract.go:70-78 | A signature verifies exactly if the MACs of the signed and the received delivery agree |
| Verification.LinesDetermineFields | services/api/internal/verification/contract.go:80-82 | If the fields of one delivery hold no line break, no other delivery at all has its signing input, whatever line breaks that one holds |
| Verification.AlteredIsRejected | services/api/internal/verification/contract.go:70-78 | With a MAC that does not collide exactly the delivery that was signed verifies, whatever text is received |
| Verification.DeliveriesAreLines | services/api/internal/verification/contract.go:121-144 | Everything the relay makes of an envelope without line breaks has none |
| Safety.EnvelopeIsLines | services/api/internal/worker/worker.go:168-172 | The worker's envelope for a stored run holds no line break |
| Verification.MerchantsAgree | services/api/internal/verification/contract.go:97-112 | In-memory and repository merchants agree on all flags of a stream if and only if no effect's first genuine delivery has a negative sequence, and then keep the same effects and sequences |
| Verification.MerchantsDiffer | services/api/internal/verification/contract.go:103 | One genuine delivery with sequence -1 is a duplicate to the in-memory merchant and new to the other |
| Verification.LastIsMaximum | services/api/internal/engine/memory_repository.go:592-604 | The sequence kept for an effect is the largest genuinely delivered |
| Verification.ReferenceMerchant.Deliver | services/api/internal/verification/contract.go:97-112 | The new maps and the receipt for every delivery |
| Workers.RepositoryMerchant.Deliver | services/api/internal/worker/reference_merchant.go:22-33 | The new effect map and the receipt for every delivery |
| Workers.Relay.Prepare | services/api/internal/verification/contract.go:121-144 | The deliveries and the initial count of a fault: the base once, twice, preceded by a genuine newer one, or alone with a zeroed payload hash under its old signature |
| Workers.Relay.Execute | services/api/internal/verification/contract.go:121-165 | Sends until the context ends: an answer exactly if all was sent, with the numbers that `Verification.ExecutionTotals` names for the fault; the effect map that it leaves, cut or not; nothing for unsupported faults |
| Workers.StringsOfZero | services/api/internal/verification/contract.go:167-173 | As many zeros as asked for |
| Workers.DeliverAllSnoc | services/api/internal/verification/contract.go:145-163 | Delivering one more at the end extends the map and the tally |
| Workers.Worker.constructor | services/api/internal/worker/worker.go:38-52 | Each missing setting gets its default, so the worker has a name, a lease, a poll interval and an attempt limit |
| Workers.Worker.VerdictFor | services/api/internal/worker/worker.go:168-192 | A verdict exactly if the execution was not cut, which fails exactly if a tampering does not show; the run's own effect is left with sequence 1, or 2 if reordered, or what was there if larger |
| Workers.Worker.ProcessVerification | services/api/internal/worker/worker.go:149-201 | The whole new store and the outcome, for every payload, run, fault and cancellation point |
| Workers.Worker.ProcessWebhook | services/api/internal/worker/worker.go:203-215 | Invalid jobs fail for good; others process their receipt |
| Workers.Worker.Process | services/api/internal/worker/worker.go:136-147 | The outcome and the new store by topic |
| Workers.Worker.Beat | services/api/internal/worker/worker.go:104-126 | The renewals, and that they end in an error exactly if the lease is gone |
| Workers.Worker.RunOnce | services/api/internal/worker/worker.go:73-97 | The exact repository after one round: nothing if nothing is claimable, else claim, renewals, processing and the one conclusion that outcome, heartbeat error and attempts call for |
| Workers.HeartbeatErrorWins | services/api/internal/worker/worker.go:82-133 | When the heartbeat loop ends in an error, whatever the processing came to, the message is not published: it is sent back with its delay, or failed if claimed as often as allowed |
| Jobs.TotalDelayClosed | services/api/internal/worker/worker.go:230-238 | The retry delays up to n attempts in closed form |
| Jobs.DelaySumBound | services/api/internal/worker/worker.go:230-238 | Retries at distinct attempts up to n wait no longer than all of them |
| Jobs.IntervalFits | services/api/internal/worker/worker.go:104-107 | One heartbeat interval fits into the lease exactly from 10 ms on, three exactly from 30 ms on and then almost fill it; below that the interval is 10 ms |
| Jobs.EffectIDInjective | services/api/internal/worker/worker.go:170 | Different runs have different merchant effects |
| Jobs.EnvelopesDiffer | services/api/internal/worker/worker.go:168-172 | Two runs have equal envelopes exactly if identifier, object and environment agree, given distinct digests and no line breaks |
| Jobs.EffectiveFaultIs | services/api/internal/worker/worker.go:161-167 | A message's fault is used whatever the run's is, the run's only without one, and duplicate without both |
| Timeline.BuildEvents | services/api/internal/engine/timeline.go:23-88 | A ledger numbered from one, strictly in time, of the fault's length, that shows a duplicate, divergence, block or completion exactly for the faults that have them |
| Timeline.SeedsShowFault | services/api/internal/engine/timeline.go:24-59 | The event table marks duplicates, divergence, block and completion exactly for the faults that have them; a divergence is recovered from by the next event; a block or a completion is the last |
| Timeline.BuildReport | services/api/internal/engine/timeline.go:90-123 | Report of its run with three unique assertions and right counts, of which the first and the last fail exactly when tampered; critical, unresolved and unbalanced exactly when tampered |
| Timeline.BuildRunBundle | services/api/internal/engine/service.go:374-389 | A well-formed bundle: terminal run, failed exactly when tampered, with the score, event count, duration and object that its fault and number call for, counts agreeing with ledger and findings |
| Service.StripeBundle | services/api/internal/engine/stripe_service.go:205-220 | A well-formed Stripe bundle: passed, nine events all about the intent, four assertions, the intent's object and the correlation |
| Timeline.AttachIntent | services/api/internal/engine/stripe_service.go:205-220 | Every event carries the intent; a fourth assertion passes exactly if amount and currency agree; counts stay right |
| Service.Service.CreateRun | services/api/internal/engine/service.go:72-126 | Invalid requests are refused in order and change nothing; valid ones replay, conflict, or create exactly one run of that scenario and fault under the next identifier, in the project that asked, whose one job anyone can claim from the time of the request on |
| Service.Service.CreatePaymentIntentRun | services/api/internal/engine/stripe_service.go:129-229 | The same for Stripe runs; a failing gateway costs one identifier and nothing else; the run carries the object that the gateway gives for the caller's key, and its correlation |
| Service.KeysGetTheirOwnIntents | services/api/internal/engine/stripe_service.go:192-203 | Any two requests that create runs: under different keys the runs have different objects and correlations, given distinct digests and a gateway that gives an intent under one key only; under one key, amount and currency they have the same |
| Service.GatewayKeysDiffer | services/api/internal/engine/stripe_service.go:192-196 | The gateway's key is that of another caller's key exactly if the keys are equal |
| Service.CorrelationsDiffer | services/api/internal/engine/stripe_service.go:192-193 | So is the correlation, given digests that differ in twelve bytes |
| Service.CreatedIsQueued | services/api/internal/engine/service.go:104-125 | A created run has one job, new, unclaimed, claimable at exactly the times from its creation on |
| Service.CreatedOnceReplays | services/api/internal/engine/service.go:104-125 | After any valid request the same request replays the same run, or conflicts as before, with all invariants kept |
| Service.Service.SeedRun | services/api/internal/engine/service.go:355-369 | One seed is created unless present |
| Service.Service.EnsureSeedRuns | services/api/internal/engine/service.go:346-372 | Present seeds are left alone; on an empty repository exactly the three seed runs exist afterwards, with their scenarios, faults, starting times and keys |
| Service.ScenariosOfferSupportedFaults | services/api/internal/engine/scenarios.go:5-43 | Every fault a scenario offers is one the relay supports |
| Service.EveryFaultIsOffered | services/api/internal/engine/scenarios.go:5-43 | Read the other way the table offers each fault in exactly the named scenarios, and a fault is offered at all exactly if the relay supports it |
| EventStream.ParseLastEventID | services/api/internal/httpapi/handler.go:529-550 | Accepts no value, or exactly one canonical decimal up to 2^31-1, and returns its value |
| EventStream.WriteEventBatch | services/api/internal/httpapi/handler.go:552-571 | The frames added carry the events of a continuing batch, in order, without gap or repeat, up to the cut |
| EventStream.PageContinues | services/api/internal/engine/memory_repository.go:258-275 | A page continues right after the cursor, and a short page ends with the ledger |
| EventStream.Drain | services/api/internal/httpapi/handler.go:422-440 | Everything the last read saw is sent, with at most one read per hundred events and one more, unless the connection was cut or a read failed |
| EventStream.Poll | services/api/internal/httpapi/handler.go:462-494 | Unless the connection was cut or a read failed, everything that its last read saw has been sent, completed or not; completes at most once, right after the first page whose read shows the run terminal, wherever in the poll that is; without a completion no page showed it |
| EventStream.Follow | services/api/internal/httpapi/handler.go:454-506 | Unless the connection was cut or a read failed: one further read for every poll tick at least, everything the last read saw sent, one heartbeat for every heartbeat tick, and a completion exactly if some read showed the run terminal |
| EventStream.Serve | services/api/internal/httpapi/handler.go:367-507 | Refuses malformed cursors and exactly those ahead of the ledger; otherwise the frames carry the ledger's events after the cursor, each once, and the retry line first; unless cut or a read failed, everything the last read saw, with one read for every poll after the opening ones, every heartbeat, and one completion exactly if a read showed the run terminal; for a run terminal from the start it follows everything the opening drain saw |
| EventStream.FollowRun | services/api/internal/httpapi/handler.go:367-507 | Over any number of connections, cut after any frame, with appends in between, a client that returns its last id receives exactly 1, ..., k and is never refused as ahead; if the last connection was not broken, k is the length of the ledger that its last read saw |
| LoginLimiter.LoginLimiter.Limited | services/api/internal/httpapi/auth_routes.go:33-47 | Limited only after eight failures within five minutes and no success since; while nothing was evicted, exactly if the current window counts eight, until that window ends |
| LoginLimiter.LoginLimiter.Fail | services/api/internal/httpapi/auth_routes.go:49-60 | Counts into the current window or opens one; the table keeps its bound and agrees with the history |
| LoginLimiter.LoginLimiter.Succeed | services/api/internal/httpapi/auth_routes.go:80-84 | Forgets the key and nothing else |
| LoginLimiter.LoginLimiter.Maintain | services/api/internal/httpapi/auth_routes.go:62-78 | At every 64th operation and on a full table drops exactly the expired buckets, and only if still full then evicts live ones until 4095 are left; otherwise changes nothing |
| LoginLimiter.LoginLimiter.DeleteExpired | services/api/internal/httpapi/auth_routes.go:67-71 | Drops exactly the expired buckets |
| LoginLimiter.WindowCounts | services/api/internal/httpapi/auth_routes.go:54-58 | A window counts exactly the failures since it opened, all within its five minutes |
| LoginLimiter.FormatRetryAfter | services/api/internal/httpapi/auth_routes.go:150-163 | The canonical decimal of every non-negative int64, within the twenty-byte buffer; empty for negative numbers |
| SignatureHeader.VerifyStripeSignature | services/api/internal/httpapi/webhook.go:70-107 | Accepts if and only if every t parses, the last is not zero and within tolerance, and some v1 decodes to the MAC of that time and the payload |
| SignatureHeader.SignedHeaderAccepted | services/api/internal/httpapi/webhook.go:70-107 | A signed header is accepted for a payload exactly if its time is non-zero and near and the MACs agree |
| SignatureHeader.EitherSignatureIsEnough | services/api/internal/httpapi/webhook.go:85-106 | A header with two signatures is accepted exactly if its time is non-zero and near and either is the MAC |
| SignatureHeader.OnlyTheSignedPayload | services/api/internal/httpapi/webhook.go:96-106 | With a MAC that does not collide only the signed payload is accepted |
| SignatureHeader.ToleranceIsDistance | services/api/internal/httpapi/webhook.go:92-95 | Short of the largest duration, the saturating check is the distance of the two times |
| SignatureHeader.SplitJoins | services/api/internal/httpapi/webhook.go:73 | Splitting loses nothing and leaves no comma in a part |
| SignatureHeader.TrimsSpaces | services/api/internal/httpapi/webhook.go:74 | Trimming takes all spaces off both ends and nothing else |
| SignatureHeader.CutJoins | services/api/internal/httpapi/webhook.go:74 | A part is cut exactly if it holds an equals sign, at the first one |
| Identifiers.NumberOfRunID | services/api/internal/engine/service.go:391-399 | Printing and parsing a run number undo each other |
| Identifiers.ParsesIff | services/api/internal/httpapi/webhook.go:80-84 | Exactly digits, or digits after one sign, whose value is in range are read as a number, and as that value |
| Identifiers.RunIDInjective | services/api/internal/engine/service.go:391 | Different numbers give different run identifiers |
| Identifiers.OutboxIDOrder | services/api/internal/engine/memory_repository.go:478-494 | When message names sort in creation order: always up to 999999, and beyond exactly under a condition on the leading digits |
| Identifiers.OutboxIDOrderBreaks | services/api/internal/engine/memory_repository.go:478-494 | The first pair that sorts the wrong way, 999999 and 1000000 |
| Text.ItoaCanonical | services/api/internal/httpapi/auth_routes.go:150-163 | Printed decimals are canonical and denote their number |
| Text.CanonicalIsItoa | services/api/internal/httpapi/handler.go:536-549 | Canonical decimals are what printing yields |
| Hex.RoundTrip | services/api/internal/verification/contract.go:70-78 | Decoding undoes encoding |
| Hex.DecodesIff | services/api/internal/verification/contract.go:70-78 | A text decodes exactly if it has even length and only hexadecimal digits, and then two digits make each byte |

## Left out

- SqlOutbox.Simulation: one clock for both, rows carry the memory adapter's names and insertion times do not go back; UUIDv7 names, differing clocks and claims that skip rows locked by an open transaction are not modelled.
- SqlOutbox.StepRelated: the same restrictions.
- SqlOutbox.ExpiryAgrees: speaks of times in nanoseconds; `SqlOutbox.ExpiryAgreesInMicroseconds` says what holds at the resolution of the database.
- SqlEvidence.PagesAgree: the run and its events are read by two statements, so the run may be older than the page; only the page is compared.
- Service.Service.CreatePaymentIntentRun: loading, decrypting and checking the stored connection is one yes-or-no parameter, and the gateway is a function of key, amount and currency.
- Refinement.RunOnceRefines: no other actor steps in between and all renewals come before the processing, so a real takeover never meets it; takeovers are covered by `System`, whose steps `Refinement.ProcessPath` and `Refinement.ConcludeFrom` relate to the code from any state.
- Workers.Worker.RunOnce: renewals happen before the processing and not in between; the interleaving of both is in `System`, which `Refinement` relates to this code.
- EventStream.Serve: a cut leaves whole frames, since a client drops an unfinished one; write deadlines are not modelled.
- EventStream.FollowRun: ledgers hold at most 2^31-1 events, the largest id that the header may carry.
- SignatureHeader.VerifyStripeSignature: headers are sequences of characters, so malformed UTF-8 is not modelled.
- LoginLimiter.LoginLimiter.Fail: the failure count is unbounded, where the code has a 64-bit int.
- The other repository operations of PostgreSQL (runs, receipts, webhook processing): not related to the memory ones. A replay there returns the response stored at creation, with the event count of that time, where memory returns the run as it is now; the 24-hour idempotency expiry has no memory counterpart.
- Observed and expected texts, titles, digests of event identifiers, scenario and report wording: strings without state.
- JSON: a payload is either its fields or malformed.
- Project ownership checks on reads, listings, sessions, findings, notifications, connections, migrations, `Overview`: only easy invariants.
- HTTP routing, CORS, cookies, telemetry, the web applications and the e2e and load scripts: presentation and plumbing.
- Goroutines, tickers and contexts: replaced by interleaved steps, a clock and cancellation points.
