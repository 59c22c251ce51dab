# ReturnOps refund protocol: model and proofs

This project models the refund protocol of ReturnOps in Dafny 4.11 and proves what the protocol
promises. A return case passes through human approvals; the last approval commits one refund intent and
one outbox event in one transaction; a worker leases the event, commits that it is dispatching, calls an
idempotent payment provider and commits what it has learnt. Webhooks, provider lookups, finance retries and
other workers interfere at every point, workers crash, leases are taken over, replies are late or lost.

`dafny verify dfyconfig.toml` checks everything.

## How the model is built

| layer | modules | what it is |
|---|---|---|
| tables | `Domain`, `Tables`, `Provider` | rows, statuses, roles, the transition table, the provider's refund table |
| services as functions | `CaseStore`, `Outbox`, `Payments`, `Refunds`, `Returns`, `Confirmation`, `Worker` | what each service function does to the tables, errors included |
| services in their own form | `Sessions`, `*Service`, `OperatorQueries`, `Idempotency.Session` | classes and methods that change a session's tables statement by statement, each proved equal to its function |
| protocol | `Protocol` | the state machine: tables, provider, requests on the network, workers, and transactions still running on what they have read |
| invariants | `History`, `Cells`, `Ledger`, `Settlement`, `Safety`, `Exclusive` | one inductive invariant, proved over every step |
| reference | `Reference`, `Tabulated` | what every command, webhook, lookup and worker step does to the tables, written down a second time without the service functions, row by row; and the proof that the services do just that |
| results | `Guarantees`, `Authority`, `NoBlindRetry`, `Attempts`, `Overlap`, `Leases`, `RetryBudget`, `EventEnds`, `AuditTrail`, `AuditStory`, `Origins`, `Receipts`, `Confluence`, `Tenancy`, `Outlook`, `Idempotency`, `Api`, `Dispatch`, `Refinement`, `Turns`, `Money` | the theorems below |
| limits | `Scenes`, `Limits`, `OldAnswers` | runs in which a property fails, step by step from empty tables |

`Protocol.Next` is the step function. Every request is one transaction that commits or leaves no trace. A
human command is cut finer: reading the case, reading the approvals or, for a retry, the attempt, and the
guarded commit are separate steps, and any number of commands run at once on old reads. A provider lookup
reads the case, reads the attempt, asks and commits in four steps. `process_event` is a claim, a commit of the
intent, the fate of the call, and a settlement; a worker may crash between any two. The two halves of
`process_event` and a webhook each read and write in one step; all results are about this granularity (see
"Left out"). `IsRun` holds of every finite sequence of steps from empty tables.

Each theorem about runs uses one of two levels:

* FREE: a lease may expire while its holder is still at work, so several workers may act on one event;
* EXCLUSIVE (`config.exclusive`): an event is claimed only when no worker holds it.

Where the code falls short of `docs/invariants.en.md`, the model follows the code, a run in `Limits` or
`OldAnswers` shows the failure, and a theorem over all runs says when the property holds. Like all results these are
about the granularity above:

* Section 4, "UNKNOWN does not permit reissuing the refund without evidence". With exclusive leases this holds
  (`NoBlindRetry.NoBlindRetry`). When leases overlap, `Overlap.BlindDispatchNeedsOverlap` says that there are three
  blind ways and no fourth. The 503 branch of the worker (`src/returnops/services/worker.py:65-79`) does not look at the
  attempt, so a refused call of a second worker makes FAILED of UNKNOWN and queues the event again
  (`Limits.OverlapRetriesBlindly`). A retry may commit on an attempt it had read before
  (`Limits.OldReadRetriesBlindly`). And a lookup may commit an answer that the provider gave before the outcome became
  unknown, even when the refund has been stored since (`OldAnswers.OldAnswerDispatchesBlindly`,
  `OldAnswers.OldAnswerIsRetried`).
* Section 4 also says that late timeout handling must not overwrite an established SUCCEEDED. The timeout branches
  keep to that. Two other steps do overwrite it: a late refusal (`Limits.RefusalOverwritesSuccess`), and a lookup that
  found nothing before the refund was stored (`Limits.LookupOverwritesSuccess`). Of the steps of the model these are
  all (`Attempts.SuccessSurvivesExactly`). In the code a webhook that is committed inside the first half of
  `process_event`, between its query of the attempt and its commit, is overwritten as well, with DISPATCHING; there the
  model has one step. The case status and the provider reference are never lost (`Guarantees.SuccessIsNeverLost`).
* A refund known to have failed may have been stored: by an earlier call of a worker that crashed
  (`Limits.FailedWithRefundStored`). `Overlap.RefusedMeansNothingStoredExactly` and
  `Overlap.FailedAtOnceStoredNothing` say what a refusal does prove.
* `allowed_actions` offers a retry on an unknown case with a failed attempt, where `retry_failed_refund` refuses it,
  and a lookup that reads case and attempt by two statements leads there (`Limits.OfferedRetryIsRefused`);
  `Outlook.OfferedActionsAreAccepted`: every other offer is good, in every run.

The printer divides with floating point (`Math.floor(a / 10 ** d)`). For amounts up to 100,000,000 the
quotient is off by far less than the distance to the next integer, so the model divides exactly.

## Model

| member | source | states |
|---|---|---|
| Safety.StepKeepsInv | src/returnops/services/worker.py:39-145 | every step of the protocol, by anyone, keeps the invariant over tables, provider, network, workers and running transactions (FREE) |
| Guarantees.RunKeepsInv | src/returnops/services/worker.py:39-145 | the invariant holds in every world of every run (FREE) |
| Guarantees.ExactlyOnceEffect | src/fake_payment/app.py:67-94 | in every run the provider holds at most one refund per case, under the key of the case's one attempt and with its approved amount and currency (FREE) |
| Guarantees.MoneyNeverExceedsApproval | src/returnops/services/refunds.py:41-177 | over any set of cases, money refunded is at most money approved, which is at most money requested (FREE) |
| Guarantees.PaidOutWithinApprovals | src/fake_payment/app.py:67-94 | all the money in the provider's table is at most all the money approved (FREE) |
| Guarantees.IntentBeforeEffect | src/returnops/services/payments.py:99-124 | posts stored by the provider plus requests in flight never exceed the dispatches committed beforehand (FREE; the first half of `process_event` is one step, so that no increment of the count is lost to a second worker inside it) |
| Guarantees.StepEvolves | src/returnops/services/worker.py:39-123 | no step takes back an audit entry, an intent, a final status, a provider reference or a stored refund (FREE) |
| Guarantees.SuccessIsNeverLost | src/returnops/services/payments.py:165-220 | a refunded, reconciled or closed case stays in those statuses with the same reference, which is that of a stored refund (FREE) |
| Guarantees.FourEyesHold | src/returnops/services/refunds.py:41-138 | every attempt is for an amount in range with an approval of exactly it, and two by different users when it is high, under any interleaving of stale reads (FREE) |
| Guarantees.CommitsAreAtomic | src/returnops/services/case_store.py:174-187 | a guarded commit that succeeds on old reads is the command run alone at that moment: case and approvals read are still the committed ones; run alone the command would be refused only if it is a retry whose attempt has moved on (FREE) |
| Guarantees.AuditLogIsHistory | src/returnops/services/case_store.py:192-203 | replaying a case's audit rows gives the committed row, its version is their number, and logs only grow (FREE) |
| Guarantees.CaseWritesAreLinear | src/returnops/services/case_store.py:149-203 | entry k takes a case from version k to k + 1 along the transition table, or records the one first approval (FREE) |
| Guarantees.LifecycleIsBounded | src/returnops/domain/states.py:50-70 | a case with r authorised retries has version at most 12 + 3r (FREE) |
| Guarantees.TerminalCasesStay | src/returnops/domain/states.py:68-69 | a closed or rejected case is never written again (FREE) |
| Authority.EveryChangeHasAnAuthor | src/returnops/domain/states.py:72-104 | in every run a case changes status only by a command of an entitled role of its own organization, or by evidence into a status that only evidence leads to (FREE) |
| Origins.EveryCaseWasOpened | src/returnops/services/case_store.py:111-146 | in every run each case was opened by customer service, automation or an administrator of its own organization, for exactly the amount and currency still on it, and started REQUESTED at version 1 with nothing approved (FREE) |
| Origins.EveryRowHasItsStep | src/returnops/services/audit.py:11-35 | in every run each audit row was written by one step and has stayed in its place: the row of an opening or of a command names the user who issued it, in the organization of that user, except that planning and retrying are the system's; every other row names no user and has one of the eight system actions (FREE) |
| AuditTrail.StepRecords | src/returnops/services/payments.py:99-240 | every step appends to the rows about every attempt exactly the listed actions, in order, under the attempt's organization and no user: recovery when a dispatch is taken over, known failure, unknown outcome, confirmation, call for a human (FREE) |
| AuditStory.StatusChangesAreRecorded | src/returnops/services/payments.py:127-262 | an attempt becomes UNKNOWN, SUCCEEDED or FAILED only in a step that appends the row which says so; PLANNED only by a command, DISPATCHING only when a dispatch begins (FREE) |
| AuditStory.UnknownIsOnRecord | src/returnops/services/payments.py:153-162 | in every run `refund.outcome_unknown` is on record for an attempt if and only if it has been UNKNOWN (FREE) |
| AuditStory.SuccessIsOnRecord | src/returnops/services/payments.py:211-220 | in every run `refund.provider_confirmed` is on record if and only if the attempt has been SUCCEEDED, also where that status has been overwritten since (FREE) |
| AuditStory.StepsAreOnRecord | src/returnops/services/payments.py:113-139 | in every run `refund.dispatch_known_failure` is on record if and only if a refusal has been settled, `refund.dispatch_recovered` if and only if a dispatch has been taken over, `refund.manual_reconciliation_required` if and only if the last attempt was refused or a lookup found nothing (FREE) |
| AuditStory.EntriesNameNobody | src/returnops/services/payments.py:231-240 | in every run the log's rows about an attempt carry its organization and no user (FREE) |
| Guarantees.TablesStayCoupled | src/returnops/services/payments.py:99-262 | case, attempt and outbox agree: no stranded refund, success only past REFUNDED, REFUND_APPROVED never committed (FREE) |
| History.StepLowersRank | src/returnops/domain/states.py:50-70 | every write lowers a rank of status and first approval; only a retry raises it, by two |
| History.LogIsBounded | src/returnops/domain/states.py:50-70 | a replayable log with r retries has at most 12 + 3r entries |
| History.VersionCountsLog | src/returnops/services/refunds.py:74-101 | each audit row accounts for exactly one version |
| History.OnlyOpenCasesContinue | src/returnops/domain/states.py:68-69 | where an audit log goes on, the case was neither closed nor rejected |
| NoBlindRetry.NoBlindRetry | src/returnops/services/worker.py:50-56 | between an attempt becoming UNKNOWN and its next dispatch there is a lookup that found nothing, its commit, and then an authorised retry, in that order (EXCLUSIVE) |
| NoBlindRetry.TablesStayTightlyCoupled | src/returnops/services/worker.py:65-123 | a pending case has exactly one live event, an uncertain one none; NEEDS_RECONCILIATION means FAILED, and REFUND_UNKNOWN means UNKNOWN or FAILED (EXCLUSIVE) |
| NoBlindRetry.OnlyOutdatedLookupsFailUnknownCases | src/returnops/services/reconciliation.py:28-44 | an unknown case gets a failed attempt through one step only: a lookup that had read the case while it needed reconciliation, and the attempt as unknown after a later retry, commits that it found nothing (EXCLUSIVE) |
| NoBlindRetry.RetryComesFirst | src/returnops/services/refunds.py:180-228 | a case without a live event gets one only through an authorised retry (EXCLUSIVE) |
| NoBlindRetry.AbsenceComesFirst | src/returnops/services/reconciliation.py:76-78 | a case without a live event comes to NEEDS_RECONCILIATION only through a committed lookup that found nothing and that had read the unknown case as it still is (EXCLUSIVE) |
| Exclusive.StepKeepsExcl | src/returnops/services/outbox.py:37-82 | one live event per case, none while a human decides, one worker per event, and what lookups under way have seen: kept by every step (EXCLUSIVE) |
| Tabulated.StepsAsTabulated | src/returnops/services/payments.py:99-262 | after every step of the protocol, by anyone, each table is the one the reference gives: case, attempt, event, approval, receipt and audit rows with their values written out (FREE) |
| Tabulated.CommandsAsTabulated | src/returnops/services/returns.py:22-155 | every command, approval and retry included, answers as the reference's table of roles, statuses, targets and actions says: the same error in each case of refusal, or the same rows and the same answer to whether a second approval is needed |
| Tabulated.TransitionsAsTabulated | src/returnops/services/case_store.py:149-203 | a guarded transition from any read by anyone: the 16 edges, the roles per target, the four statuses that are the system's, the guard, the row written and its audit row; every refusal with its error in the order of the code |
| Tabulated.OutdatedReadsAreRefused | src/returnops/services/case_store.py:174-190 | a command that has read another version of the case than the one there, and passes every check on what it has read, gets a version conflict, or the unique violation when its user's approval of that kind is already there |
| Tabulated.OpeningsAsTabulated | src/returnops/services/case_store.py:111-146 | opening a case: three roles, an amount above zero, a new id; the row and its audit row |
| Tabulated.WebhooksAsTabulated | src/returnops/services/webhooks.py:21-84 | every webhook, whatever it carries, is answered as the reference says: noted, replayed, confirmed, or refused with the error of the branch |
| Tabulated.LookupReadsAsTabulated | src/returnops/services/reconciliation.py:28-46 | who may start a lookup of which case, and each refusal |
| Tabulated.LookupsAsTabulated | src/returnops/services/reconciliation.py:48-84 | a lookup that has read and been answered anything writes the rows of its branch and tells the operator its resolution |
| Tabulated.OperatorIsToldRight | src/returnops/services/reconciliation.py:49-84 | of every lookup that commits in the protocol: success is told when the attempt has been confirmed with the refund found, absence when an attempt read as UNKNOWN has been failed, manual review when the attempt has been left alone (FREE) |
| Tabulated.RepliesAsTabulated | src/returnops/services/worker.py:100-123 | a reply either confirms attempt and case and ends the event done, or contradicts the intent and leaves the attempt unknown, the case to a human and the event dead |
| Attempts.StepMovesAttempt | src/returnops/services/payments.py:99-262 | each step makes of each attempt exactly what its transition function lists: dispatch, unknown, failure, confirmation, absence, retry, and nothing else, down to every field; an absence writes the columns that differ from what the lookup has read (FREE) |
| Attempts.SuccessSurvivesExactly | src/returnops/services/worker.py:65-123 | a step takes SUCCEEDED from an attempt if and only if it settles a refusal of its case, or commits a lookup that found nothing, had seen the attempt UNKNOWN and had read the case at NEEDS_RECONCILIATION (FREE; the first half of `process_event` is one step) |
| Attempts.LostSuccessWasUndone | src/returnops/services/payments.py:243-262 | wherever in a run SUCCEEDED is lost, one of these two steps lies in between (FREE) |
| Attempts.UnknownIsLeftExactly | src/returnops/services/payments.py:127-262 | UNKNOWN becomes SUCCEEDED exactly by evidence of success, FAILED exactly by a refusal or a lookup that found nothing, PLANNED exactly by a retry that had read FAILED, and never DISPATCHING (FREE) |
| Overlap.BlindDispatchNeedsOverlap | src/returnops/services/worker.py:50-79 | between an attempt becoming UNKNOWN and a later dispatch the provider has been asked, has held no refund and this has been committed; or, the three blind ways, a call already sent before is refused, or a retry that had read FAILED before commits, or a lookup commits an answer it held before, having read the case at NEEDS_RECONCILIATION or when it was already as unknown; until then nothing is sent (FREE) |
| Overlap.StoredExactlyWhenAnswered | src/fake_payment/app.py:67-94 | the provider holds a refund of a case if and only if one of the requests for it has been stored (FREE) |
| Overlap.RefusedMeansNothingStoredExactly | src/returnops/services/payments.py:127-139 | after a settled refusal the attempt is FAILED, and the provider holds a refund if and only if another request of the case has been stored (FREE) |
| Overlap.FailedAtOnceStoredNothing | src/fake_payment/app.py:126-133 | an attempt FAILED after one dispatch and without lookup evidence has no refund at the provider, at any later time it is found so (FREE) |
| Leases.StepMovesEvents | src/returnops/services/outbox.py:37-101 | an event changes only by a claim while eligible, by its worker's end, or by a refusal that reschedules it (FREE) |
| Leases.ClaimsAreALeaseApart | src/returnops/services/outbox.py:62-82 | two claims of one event with no reschedule between them are more than the lease apart (FREE) |
| EventEnds.StepMovesEvent | src/returnops/services/outbox.py:16-101 | every step makes of every event exactly what is listed, all fields: claimed and counted, done by a timeout, an agreeing reply or an outcome found, waiting 1, 2, 4, ... 60 seconds after a refusal, dead after the last; a new one arrives waiting (FREE) |
| EventEnds.DeadExactly | src/returnops/services/worker.py:65-79 | in every run an event is dead if and only if the last worker to settle it had been refused with its attempts used up (FREE) |
| EventEnds.DoneExactly | src/returnops/services/worker.py:47-98 | in every run an event is done if and only if it ended by a timeout, an agreeing reply or an outcome found, and nobody has settled it since (FREE) |
| RetryBudget.RescheduledBelowMaximum | src/returnops/services/worker.py:65-79 | for a maximum m >= 1 no event is rescheduled more than m - 1 times, even under overlapping leases (FREE) |
| RetryBudget.FinishedWithinMaximum | src/returnops/services/worker.py:65-79 | without crashes an event is claimed at most m times and is then done or dead (EXCLUSIVE) |
| RetryBudget.DelaysAddUp | src/returnops/services/outbox.py:91-95 | without crashes n reschedules delay an event by 2^n - 1 seconds up to six, 63 + 60(n - 6) beyond (EXCLUSIVE) |
| RetryBudget.BackoffAdds | src/returnops/services/worker.py:35-36 | the backoff of the n-th attempt is the difference of those totals |
| Receipts.RedeliveryChangesNothing | src/returnops/services/webhooks.py:27-60 | a webhook accepted anywhere in a run and delivered again later changes nothing; the same id with another payload is refused (FREE) |
| Confluence.ReportsSettle | src/returnops/services/payments.py:165-220 | any mix of reply, webhooks and lookups either settles the waiting case once or changes nothing at all |
| Confluence.ReportsAreConfluent | src/returnops/services/webhooks.py:21-84 | two mixes of success evidence in any order and number end in the same case, version raised by one, and the same attempt status and reference |
| Confluence.LateLookupRefused | src/returnops/services/reconciliation.py:48-61 | a lookup that comes after the case is settled is refused, whether it read the case and the attempt before or after |
| Tenancy.CommandsDoNotInterfere | src/returnops/services/case_store.py:41-51 | a command gives the same result and the same rows of its organization whatever others have stored, and leaves theirs alone |
| Tenancy.CreationsDoNotInterfere | src/returnops/services/case_store.py:111-146 | the same for opening a case |
| Tenancy.LookupsDoNotInterfere | src/returnops/services/reconciliation.py:28-84 | the same for a provider lookup: it reads the same rows or is refused with the same error, and given the same provider answer it is resolved alike |
| Tenancy.SameRefundApprovals | src/returnops/services/refunds.py:25-38 | the approvals query names no organization and still sees only rows of the case's own |
| Outlook.OfferedActionsAreAccepted | src/returnops/services/operator_queries.py:38-76 | in every reachable world an offered action is accepted at the current version, a second approval at the first amount, if and only if it is not the retry of a REFUND_UNKNOWN case (FREE) |
| Outlook.LookupOfferedExactly | src/returnops/services/operator_queries.py:66-69 | in every run a lookup is offered if and only if it may start and an answer that there is no refund would fail the attempt and tell that absence is confirmed (FREE) |
| Outlook.NoCaseIsForgotten | src/returnops/services/operator_queries.py:38-76 | every case that is not closed or rejected has a live event, or an offered action that is accepted, or is REFUND_UNKNOWN with a FAILED attempt, where a lookup by finance is accepted (EXCLUSIVE) |
| OperatorQueries.AllowedActions | src/returnops/services/operator_queries.py:38-76 | the list built contains exactly the offered actions, each once |
| Limits.LateRefusalOverwrites | src/returnops/services/worker.py:65-79 | of two workers on one event, one answered and one refused, the second undoes the status the first confirmed and requeues the event |
| Limits.RefusalOverwritesSuccess | src/returnops/services/worker.py:65-79 | a run from empty tables: two workers, one answered and one refused; the refusal turns SUCCEEDED into FAILED and a timeout then into UNKNOWN, while the case stays REFUNDED |
| Limits.LookupOverwritesSuccess | src/returnops/services/reconciliation.py:46-78 | a run from empty tables: a webhook confirms the refund while a lookup that found nothing is under way; its commit turns SUCCEEDED into FAILED, while the case stays REFUNDED |
| Limits.OverlapRetriesBlindly | src/returnops/services/worker.py:65-79 | a run from empty tables: with overlapping leases an UNKNOWN attempt is dispatched again with no lookup and no human in between |
| Limits.OldReadRetriesBlindly | src/returnops/services/refunds.py:195-218 | a run from empty tables: a retry that had read FAILED commits after the attempt has become UNKNOWN, and it is dispatched again |
| OldAnswers.OldAnswerDispatchesBlindly | src/returnops/services/reconciliation.py:46-78 | a run from empty tables: the refund is stored and its outcome becomes UNKNOWN, a lookup commits the absence it had learnt long before, and a worker with another event dispatches again; no question, refusal or retry lies in between |
| OldAnswers.OldAnswerIsRetried | src/returnops/services/reconciliation.py:76-84 | a run from empty tables: the same with a lookup whose case row is still the current one, so that the guard holds, and finance retries on the old answer |
| Limits.FailedWithRefundStored | src/fake_payment/app.py:126-165 | a run from empty tables, with exclusive leases: the first call is stored, its worker crashes, the second is refused; the attempt is FAILED while the provider holds the refund |
| Limits.OfferedRetryIsRefused | src/returnops/services/refunds.py:189-206 | a run from empty tables, with exclusive leases: a lookup straddling a retry leaves REFUND_UNKNOWN with a FAILED attempt, and the retry that is offered there is refused |
| Limits.AcceptedExactlyWhenOffered | src/returnops/services/returns.py:93-117 | an accepted command was offered unless finance rejects a requested case |
| Idempotency.RefinesPlain | src/returnops/api/routes.py:57-78 | any sequence of requests ends in the business state of running the first successful one of each slot, once, without the table |
| Idempotency.WinnersAreDistinct | src/returnops/api/routes.py:57-78 | those requests were sent, have distinct slots, and none had its slot taken before |
| Idempotency.AnsweredOnce | src/returnops/services/idempotency.py:34-70 | a repetition gets the response of the one run and a different payload is refused; neither changes anything, however late |
| Idempotency.StaysComplete | src/returnops/services/idempotency.py:41-45 | no committed record lacks a response |
| Idempotency.RecordsStay | src/returnops/services/idempotency.py:104-107 | a committed record is never changed or removed |
| Idempotency.RaceIsAtomic | src/returnops/services/idempotency.py:79-101 | a claim decided after a stale first read and the unique constraint is a claim made at once |
| Idempotency.ServedExactly | src/returnops/services/idempotency.py:49-107 | a key of 1 to 200 characters is admitted and no other; a free slot runs the operation and records its response, a taken one replays it or refuses another payload or a record without a response |
| Idempotency.TenantsHaveOwnSlots | src/returnops/services/idempotency.py:61-67 | a request depends on its organization's record only and touches no other organization's |
| Idempotency.Session.Claim | src/returnops/services/idempotency.py:49-101 | the claim in its own form, with its two reads: a key is refused if and only if it is empty or longer than 200 characters, a claim is granted if and only if neither read finds the slot taken, and a refusal changes nothing |
| Idempotency.Session.Complete | src/returnops/services/idempotency.py:104-107 | completing writes the response; a replayed claim cannot be completed |
| Idempotency.Session.Idem | src/returnops/api/routes.py:57-78 | claim, operation and completion in order |
| Idempotency.Session.Handle | src/returnops/db.py:22-29 | a request commits as a whole or changes nothing |
| Api.RequestsKeepInvariant | src/returnops/api/routes.py:240-265 | any resending of human commands through the layer keeps the table invariant and equals each winning command run once |
| Dispatch.ProcessingIsARun | src/returnops/services/worker.py:39-123 | what processing one event leaves behind is reached by protocol steps, whatever becomes of the call and however long it takes |
| Turns.TurnsAsTold | src/returnops/services/worker.py:39-123 | `process_event` from claim to settlement, for every fate of its call: which rows are left behind, and what the provider holds; an outcome on record sends nothing |
| Turns.RaisesExactly | src/returnops/services/worker.py:39-123 | processing an event raises exactly when its attempt is missing, or the attempt's case is missing where the settlement needs it, and with which error |
| Tabulated.OtherTopicsAreDead | src/returnops/services/worker.py:41-43 | an event of another topic is dead at once, and nothing else is written |
| Turns.WorkersDoNotRaise | src/returnops/services/worker.py:148-163 | on tables that satisfy the invariant no worker raises, whatever becomes of its call |
| Refinement.RunOnceIsARun | src/returnops/services/worker.py:126-145 | a batch claimed and worked off without interruption, its calls settled at any non-decreasing times, is a sequence of protocol steps and keeps the invariant |
| Money.RoundTrip | frontend/src/App.tsx:518-525 | the printed amount is parsed back to itself, for every number of fraction digits and every amount from 1 to 100,000,000 |
| Money.AcceptsExactly | frontend/src/api.ts:184-203 | an amount is returned exactly for the trimmed decimal texts with at most d fraction digits whose value times 10^d it is, within range |
| Money.ParsesExactly | frontend/src/api.ts:189-202 | on each decimal text: the exact scaled value, or too many digits, or out of range; never a rounded value |
| Money.MalformedExactly | frontend/src/api.ts:189-192 | a text is called malformed if and only if it is no decimal number between spaces |
| CaseStoreService.GetCase | src/returnops/services/case_store.py:41-51 | a case of another organization is not found |
| CaseStoreService.CreateCase | src/returnops/services/case_store.py:111-146 | a case is opened if and only if customer service, automation or an administrator asks, for an amount above zero, under a new id; which of the three refusals applies when; the row and the audit row written out |
| CaseStoreService.GuardedUpdate | src/returnops/services/case_store.py:174-187 | one row is written if and only if organization, version and status are still those read |
| CaseStoreService.CasTransition | src/returnops/services/case_store.py:149-203 | a case moves only from the version, status and organization that were read, along the transition table, by an entitled role; then its version rises by one and one audit row records both views; every refusal is the one the code raises |
| CaseStoreService.SystemTransition | src/returnops/services/case_store.py:206-221 | the four system-owned statuses are entered under the same guard, with no user as actor |
| RefundService.AddApproval | src/returnops/models.py:124 | refused if and only if the case has an approval of the kind by the user, and otherwise added last |
| RefundService.PlanRefund | src/returnops/services/refunds.py:141-177 | a case without an approved amount is refused, one with an attempt is left alone; else one attempt with the approved amount under the stable key, the move to REFUND_PENDING and one dispatch event |
| RefundService.ApproveAndPlan | src/returnops/services/refunds.py:127-138 | approval and plan are one transaction: REFUND_APPROVED is passed through, never committed |
| RefundService.RecordFirstApproval | src/returnops/services/refunds.py:74-101 | under the guard the version rises and the status stays; a version conflict if and only if the row read is no longer there |
| RefundService.ApproveAsRead | src/returnops/services/refunds.py:52-138 | the same decision on a case and approvals read earlier: range, threshold, same amount, different user, at most two |
| RefundService.ApproveRefund | src/returnops/services/refunds.py:41-138 | a finance user approves an inspected case of the own organization: planned at once below the threshold, after a second equal approval by someone else above it |
| RefundService.RetryAsRead | src/returnops/services/refunds.py:189-228 | only an attempt read as failed, of a case that needs reconciliation, is planned again, with a new event |
| ReturnService.AuthorizeCase | src/returnops/services/returns.py:22-50 | a requested case becomes authorized by customer service at the expected version, with one eligibility approval per user |
| ReturnService.ReceiveCase | src/returnops/services/returns.py:53-69 | an authorized case becomes received by the warehouse at the expected version; anything else is refused |
| ReturnService.InspectCase | src/returnops/services/returns.py:72-90 | a received case becomes inspected by the warehouse at the expected version; anything else is refused |
| ReturnService.RejectCase | src/returnops/services/returns.py:93-117 | a requested or inspected case is rejected by customer service, finance or an administrator; the case is looked up before the role is |
| ReturnService.RetryFailedRefund | src/returnops/services/refunds.py:180-228 | finance retries a visible case; a case of another organization is not found |
| ReturnService.ReconcileCase | src/returnops/services/returns.py:120-136 | a refunded case becomes reconciled by finance at the expected version; anything else is refused |
| ReturnService.CloseCase | src/returnops/services/returns.py:139-155 | a reconciled case becomes closed by finance at the expected version; anything else is refused |
| RequestService.RunCommand | src/returnops/services/returns.py:22-155 | each command does what the protocol's commands do |
| RequestService.Serve | src/returnops/db.py:22-29 | the committed tables hold the whole command or are as before, and their invariant is kept |
| PaymentService.LoadCaseForAttempt | src/returnops/services/payments.py:89-96 | the case of an attempt, in the same organization |
| PaymentService.MarkDispatching | src/returnops/services/payments.py:99-124 | PLANNED, FAILED and DISPATCHING may be dispatched and nothing else; the count rises by one, and taking over a dispatch, and only that, appends its audit row |
| PaymentService.MarkKnownFailure | src/returnops/services/payments.py:127-139 | the attempt is FAILED, and one audit row, written out, says so |
| PaymentService.MarkUnknown | src/returnops/services/payments.py:142-162 | the attempt is UNKNOWN, a case that was pending, and only such a one, becomes REFUND_UNKNOWN, and the last audit row, written out, says so |
| PaymentService.CheckEvidence | src/returnops/services/payments.py:176-189 | evidence is accepted if and only if the reference is there, amount and currency agree where given, and a confirmed attempt keeps its reference |
| PaymentService.MarkSuccess | src/returnops/services/payments.py:165-220 | the attempt is SUCCEEDED with reference and evidence, a waiting case becomes REFUNDED and any other stays, and the last audit row, written out, says so; conflicting evidence changes nothing |
| PaymentService.MarkManualReconciliationNeeded | src/returnops/services/payments.py:223-240 | a pending or unknown case goes to a human and any other stays; the attempt is left alone, and the last audit row, written out, calls for the human |
| PaymentService.MarkAuthoritativelyNotFound | src/returnops/services/payments.py:243-262 | an authoritative absence makes the failure known; of status and evidence the columns are written whose value differs from the one read |
| OutboxService.Enqueue | src/returnops/services/outbox.py:16-34 | one new event, pending, unclaimed and available at once, or a unique violation |
| OutboxService.SelectBatch | src/returnops/services/outbox.py:39-51 | the query answers at most the limit, oldest first, and leaves no older eligible event behind |
| OutboxService.ClaimBatch | src/returnops/services/outbox.py:37-59 | exactly the selected events are leased and counted, and no other changes |
| OutboxService.ClaimEvent | src/returnops/services/outbox.py:62-82 | one event is leased if and only if it is eligible and not locked |
| OutboxService.MarkDone | src/returnops/services/outbox.py:85-88 | the event is done, without a lease, and as it stands then never claimed again, at any time |
| OutboxService.Reschedule | src/returnops/services/outbox.py:91-95 | the event may be claimed exactly from the end of the delay on; its count of claims is kept |
| OutboxService.DeadLetter | src/returnops/services/outbox.py:98-101 | the event is dead, without a lease, and as it stands then never claimed again, at any time |
| EvidenceService.KeysAreUnique | src/returnops/models.py:151 | no two attempts share a provider key |
| EvidenceService.FindAttemptByKey | src/returnops/services/webhooks.py:62-67 | the attempt of a provider key |
| EvidenceService.ProcessWebhook | src/returnops/services/webhooks.py:21-84 | deduplication, matching and confirmation of a webhook, with every refusal |
| EvidenceService.BeginReconciliation | src/returnops/services/reconciliation.py:28-47 | who may ask the provider, and about which case; each refusal with its error, in the order of the code |
| EvidenceService.FinishReconciliation | src/returnops/services/reconciliation.py:48-84 | the resolution told: success if and only if a succeeded refund was found, non-terminal if and only if another was, absence if and only if none was and the attempt was read as UNKNOWN, manual review otherwise |
| ProviderService.PaymentProvider.Store | src/fake_payment/app.py:67-94 | a known key only counts one more post; a new one is stored |
| Provider.TableAnswers | src/fake_payment/app.py:67-94 | after any sequence of posts the row of a key is that of its first post, and counts them all |
| ProviderService.PaymentProvider.CreateRefund | src/fake_payment/app.py:126-165 | a refusal stores nothing; any other request is stored before the reply |
| ProviderService.PaymentProvider.RefundByKey | src/fake_payment/app.py:168-180 | the answer is the refund of the first post that ever carried the key, unaltered by all later ones, with the number of posts; nothing if there was none |
| WorkerService.BeginDispatch | src/returnops/services/worker.py:39-56 | what precedes the network call |
| WorkerService.SettleRefused | src/returnops/services/worker.py:65-79 | a refusal leaves the attempt FAILED and the event pending, or after the last attempt dead with the case handed to a human |
| WorkerService.SettleTimeout | src/returnops/services/worker.py:80-98 | a missing reply leaves the event done, and the attempt UNKNOWN unless success is on record |
| WorkerService.SettleReply | src/returnops/services/worker.py:100-123 | a reply leaves the event done and the attempt SUCCEEDED, or, when it conflicts with the intent, the event dead, the attempt UNKNOWN and the case handed to a human |
| WorkerService.CallAndSettle | src/returnops/services/worker.py:58-123 | each fate of the call is settled by its branch |
| WorkerService.ProcessEvent | src/returnops/services/worker.py:39-123 | the intent is committed before the provider is asked; what is committed either way, and which error is raised |
| WorkerService.ProcessInSession | src/returnops/services/worker.py:134-144 | one event in its own session, committed or rolled back |
| WorkerService.RunOnce | src/returnops/services/worker.py:126-145 | a leased batch worked off in order; with nobody else writing in between every event of the batch finds its turn, and all are counted |
| WorkerService.ProcessEventOnce | src/returnops/services/worker.py:148-163 | one event claimed and processed, or left alone; the answer is true exactly when processing does not raise, and otherwise its error |
| Sessions.Session.Commit | src/returnops/db.py:22-29 | a commit publishes the session |
| Sessions.Session.Rollback | src/returnops/db.py:22-29 | a rollback returns to what is committed |
| Sessions.Session.RecordAudit | src/returnops/services/audit.py:11-35 | what is on record stays in order, and of all cases only that of the row gets an entry, its last |

## Left out

- HTTP, FastAPI wiring, Pydantic validation, authentication, demo sessions, the webhook secret: a request arrives with its tenant context resolved and its fields typed.
- The httpx error classes: a call ends with a 200 carrying a provider row, a 503, no usable answer, or the worker's crash.
- Search, listings, pagination, overviews, case detail views: read-only queries whose properties follow from their `WHERE` clauses.
- React components, n8n workflows, seeding, demo scenarios and the fault lab: input, output and orchestration.
- Free text (notes, rationales, reasons, error messages), case references and timestamps other than availability, creation and lease times of events.
- Rows are values in the maps and sequences of a session that the methods reassign; the ORM's identity map and aliasing of loaded objects are not modelled beyond the parameters `read`, `seen` and `loaded`, which stand for what a transaction still holds.
- A settlement, from the refresh to the commit, is one step: attempt rows carry no version. If its guarded update were to fail against a concurrent commit, the protocol has the worker's crash for it; the worker's `except Conflict`, which would also catch a version conflict there, is not modelled for that case.
- The first half of `process_event` (`src/returnops/services/worker.py:45-56`), from the query of the attempt to the commit of the dispatch, is one step, and so is a webhook from its reads to its write (`src/returnops/services/webhooks.py:21-84`). Attempt rows carry no version, so a transaction that commits between the query and the write of another, as may happen with overlapping leases or a webhook at that very moment, could have its attempt status or its dispatch count overwritten; the model does not have these interleavings.
- `Refinement` speaks of batches that nobody else interrupts; interrupted ones are what `Protocol` models step by step.
- Identifiers are numbers, and new ones are drawn by the environment: a used one is a unique violation. The provider key is a datatype, as the key format is injective.
- Payload hashes are replaced by the payloads: SHA-256 of the sorted JSON is taken to be injective.
- The currency's upper case is that of the ASCII letters.
- `Intl.NumberFormat`: the number of fraction digits is a parameter of the money functions.
- The idempotency layer is generic in its operations, which run one after another; interleaving inside an operation is the subject of `Protocol`.
- Tabulated.OutdatedReadsAreRefused: speaks of reads of another version; a row of the same version is the same row in every run (`Guarantees.CommitsAreAtomic`).
- Limits.AcceptedExactlyWhenOffered: speaks of accepted commands; that offers are accepted is `Outlook.OfferedActionsAreAccepted`.
