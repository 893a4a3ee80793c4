# Reward budgets and their distribution

A model of the reward service's budget ledger and of the protocol that spends it, with proofs of what the
service promises about money.

Three state machines share one set of tables. A **project budget** has five columns (total, available,
withhold, issued, refund); payments, capped by the approved finance doc, fund it. An **issue request** goes
from draft or rejected over awaiting approval and approved to ongoing, each transition moving an amount
between columns in the same transaction; an event then opens exactly one **issue budget** for it. A
**reward distribution** debits both budgets and inserts a pending record in one transaction, calls the
asset service under a voucher id committed before, and in a second transaction settles both budgets, the
record and the request, the last by compare-and-set; then it publishes. Messages may be redelivered, workers
may overlap, and a crash may fall between any two steps.

## How it is modelled

* `Schema` holds the rows and the lookups; monetary columns are integers counting 10^-8 units
  (DECIMAL(20, 8)). Unique keys are those of server/resources/init.sql; rows are never deleted.
* `Transactions` gives the committed effect of every write as an atomic function on the tables.
* `Workers` is the state machine: any number of workers, each with a program counter and the rows it
  remembers; one step is one transaction, one read outside a transaction, one remote call or one
  publication. The asset service is part of it: it decides once per voucher id, and its replies may be lost
  or replaced by transient noise. History variables record calls, column movements and publications.
* `Ledger`, `SystemInvariant`, `LedgerSteps`, `DistributionSteps`, `CommitSteps`, `SystemSteps` and
  `Reachable` state and prove the invariant over every run. Some promises about the tables are not kept by
  every run: that the withhold and issued columns are what they stand for, or at least cover it; that an issue
  budget is over what its request asks for; that a line of an approved doc covers each budget; and that each
  payment went to an address of an approved doc. `MeaningSteps` and `GuardedSteps` prove that only a write
  whose read was another statement can break one; `LateWrites` tells, for each such write, from the rows it
  finds, exactly when it does, and hence exactly which runs keep each promise. `ApprovedDocs` says exactly
  when approved docs are final, and that this is enough for the last two. `FirstFit` and `Theorems` draw the
  conclusions.
* `Database` is the imperative side: a class whose fields are the tables and whose methods are the data
  access objects' statements, each of which the driver may fail. `IssueRequestService`, `FundingService` and
  `DistributionService` run those statements in the order of the service, with rollback on the first error,
  and their transactions are proved to have the effect of the atomic functions or none.
* `Interleaving` ties the two sides: before each of its statements outside a transaction a service call may
  be overtaken by any steps of any other workers, and the calls of the three services are proved to trace out
  a run of the machine all the same. So everything proved of reachable states holds of them.
* `Amounts`, `BudgetItems`, `Vouchers`, `VoucherIssuer`, `Templates` and `RewardIntake` are the arithmetic and
  the input handling that feed amounts in.
* `Limits` gives, for each way a late write does harm, a state that shows it, reached by steps that pass every
  check the service makes.

Where the code is less careful than one might expect, it is modelled as it is. Project `available` is
debited both when an issue request is submitted and again at distribution, and `issued` grows both on
approval and on settlement. A failed distribution's amount goes to `refund`, never back to `available`. An
edit of an issue request, and an edit or status change of a finance doc, checks the status in one statement
and writes in another that does not look again: conservation and non-negativity survive this, the meaning of
the columns and the cap do not, and `LateWrites` gives the exact condition, `Limits` runs that break them. An
edit of a template has the same gap. A positive amount below half a unit is accepted and stored as zero.

## Model

| member | source | states |
|---|---|---|
| `Amounts.ParseAmount` | server/util/amount.go:11-24 | accepts exactly the non-negative numbers, and returns the number itself |
| `Amounts.FormatIsNearest` | server/util/amount.go:26-28 | the formatted amount is the one and only nearest multiple of 10^-8, halves up |
| `Amounts.FormatIsMonotone` | server/util/amount.go:26-28 | formatting never reverses an order |
| `Amounts.FormatIsIdempotent` | server/util/amount.go:11-28 | formatting, parsing and formatting again is formatting once |
| `Amounts.FormatIsExactOnGrid` | server/util/amount.go:11-28 | an amount on the grid survives parsing and formatting unchanged |
| `Amounts.FormatShiftsByUnits` | server/util/amount.go:30-40 | adding to a column value rounds only the addend |
| `Amounts.CmpAmount` | server/util/amount.go:42-52 | the sign of the comparison is that of the numbers; no result when either does not parse |
| `BudgetItems.ResolveBudgetItems` | server/service/budget_helper.go:20-60 | succeeds exactly on acceptable details with one item per line in order, and otherwise reports the first offending line and what is wrong with it |
| `BudgetItems.AcceptedPairsAreDistinct` | server/service/budget_helper.go:44-50 | accepted lines have pairwise distinct (voucher type, unit) pairs and addresses |
| `BudgetItems.AcceptsExactlyDistinctPairs` | server/service/budget_helper.go:20-60 | acceptance means a non-empty list of filled-in lines with known addresses and distinct pairs, for every detail, if and only if no two addresses that lines can name have different pairs with the same joined text |
| `BudgetItems.NoSeparatorSuffices` | server/service/budget_helper.go:44-47 | for instance when no voucher type contains ':' |
| `BudgetItems.SeparatorInNamesRefusesDistinctPairs` | server/service/budget_helper.go:44-47 | with ':' in a voucher type two different pairs can be refused as one |
| `Vouchers.ValidateVoucherType` | server/util/voucher_enum.go:16-25 | a name is valid exactly when, trimmed, it is one of the enumeration other than the unspecified one, and that is returned |
| `Vouchers.ValidateUnit` | server/util/voucher_enum.go:27-36 | the same for units |
| `VoucherIssuer.AssetCodeFromUnit` | server/proxy/voucher_issuer.go:159-170 | a unit has an asset code exactly when, trimmed, it is the prefix followed by a non-empty code, and that is the code |
| `VoucherIssuer.IssueClassifies` | server/proxy/voucher_issuer.go:52-156 | success without asking unless crypto; for crypto, success exactly on OK, refusal exactly on an unsupported unit or a permanent code and always with a reason, everything else transient |
| `Schema.ProjectBudgetFor` | server/repository/dao/project_budget_dao.go:111-129 | the lowest-id budget of the key, or none exactly when no row has it |
| `Schema.ProjectBudgetOfDoc` | server/repository/dao/project_budget_dao.go:92-109 | a budget of the doc and pair, or none exactly when there is none |
| `Schema.FirstAvailableForDistribution` | server/repository/dao/issue_budget_dao.go:87-116 | the lowest-id ongoing issue budget of the project and pair with enough available, or none exactly when none fits |
| `Schema.IssueBudgetFor` | server/repository/dao/issue_budget_dao.go:61-72 | the issue budget of a request, or none exactly when there is none |
| `Schema.RecordByRef` | server/repository/dao/issue_record_dao.go:86-97 | a record of the client reference, or none exactly when there is none |
| `Database.Db.Rollback` | server/service/issue_record_service.go:497-505 | puts every table back to what it was when the transaction began |
| `Database.Db.BatchCreate` | server/repository/dao/project_budget_dao.go:49-62 | succeeds exactly when every row in turn violates no unique key, and then all rows are there |
| `Database.Db.UpdateTotalAndAvailableAmount` | server/repository/dao/project_budget_dao.go:161-180 | total and available grow by the amount, nothing else moves |
| `Database.Db.ApplySubmitWithhold` | server/repository/dao/project_budget_dao.go:182-194 | the amount moves from available to withhold |
| `Database.Db.ApplyApproveIssued` | server/repository/dao/project_budget_dao.go:196-208 | the amount moves from withhold to issued |
| `Database.Db.ApplyRejectRelease` | server/repository/dao/project_budget_dao.go:210-222 | the amount moves from withhold back to available |
| `Database.Db.DeductProjectBudget` | server/repository/dao/project_budget_dao.go:246-274 | takes the amount from available exactly when there is enough; otherwise an error and no change |
| `Database.Db.IssueFromProjectBudget` | server/repository/dao/project_budget_dao.go:276-294 | issued grows by the amount |
| `Database.Db.RefundToProjectBudget` | server/repository/dao/project_budget_dao.go:296-314 | refund grows by the amount, available does not |
| `Database.Db.CreateIssueBudget` | server/repository/dao/issue_budget_dao.go:46-59 | inserts exactly when the request has no issue budget yet |
| `Database.Db.DeductIssueBudget` | server/repository/dao/issue_budget_dao.go:134-162 | takes the amount from available exactly when there is enough |
| `Database.Db.IssueFromIssueBudget` | server/repository/dao/issue_budget_dao.go:164-182 | issued grows by the amount |
| `Database.Db.RefundToIssueBudget` | server/repository/dao/issue_budget_dao.go:184-202 | refund grows by the amount |
| `Database.Db.UpdateRequestStatus` | server/repository/dao/issue_request_dao.go:149-171 | compare-and-set: the status changes exactly when it was the expected one |
| `Database.Db.MarkRequestOngoing` | server/repository/dao/issue_request_dao.go:173-183 | only an approved request becomes ongoing; no matching row is no error |
| `Database.Db.UpdateFields` | server/repository/dao/issue_request_dao.go:128-147 | overwrites type, unit and amount whatever the status is |
| `Database.Db.UpdateDocStatus` | server/repository/dao/finance_doc_dao.go:94-106 | overwrites the status whatever it is |
| `Database.Db.UpdateDocContent` | server/repository/dao/finance_doc_dao.go:108-120 | overwrites the detail whatever the status is |
| `Database.Db.CompleteReward` | server/repository/dao/reward_request_dao.go:86-119 | compare-and-set from pending to completed; who loses it gets an invalid-transition error and changes nothing |
| `Database.Db.CreateRewardRequest` | server/repository/dao/reward_request_dao.go:38-55 | inserts exactly when the client reference is new |
| `Database.Db.CreateRecord` | server/repository/dao/issue_record_dao.go:40-54 | inserts exactly when neither the reward request nor the voucher id has a record |
| `Database.Db.SaveRecord` | server/repository/dao/issue_record_dao.go:56-71 | overwrites the whole row |
| `IssueRequestService.CoversIsNumeric` | server/service/issue_request.go:580-602 | comparing a column with an amount through their texts is the numeric comparison of non-negative values |
| `IssueRequestService.SubmitInTx` | server/service/issue_request.go:320-344 | when it is accepted, and otherwise with which error for which reason in the locked rows |
| `IssueRequestService.CommitSubmission` | server/service/issue_request.go:160-172 | succeeds exactly when no statement fails and the locked rows allow it; then request and budget change as the atomic step says, otherwise nothing does |
| `IssueRequestService.CommitDecision` | server/service/issue_request.go:346-400 | the same for approval and rejection, guarded by withhold |
| `IssueRequestService.LoadIssueRequestForDoc` | server/service/issue_request.go:472-513 | yields the row of a request of the doc's project, the doc having been seen approved before; otherwise an error for a reason seen |
| `IssueRequestService.EnsureColumn` | server/service/issue_request.go:533-561 | passes only if the column was seen to cover the amount, and refuses only if the budget was missing or the column short |
| `IssueRequestService.CreateIssueRequest` | server/service/issue_request.go:58-101 | whatever others do in between, a draft is created only with valid names, in the project of a doc seen approved, with room seen for its amount; otherwise it is refused for a reason it saw or an input that does not parse |
| `IssueRequestService.SubmitIssueRequest` | server/service/issue_request.go:140-179 | whatever others do between its reads and its lock, it follows the state machine; it ends without error only if the submission took effect for a request of the doc, and is refused only for a reason it saw |
| `IssueRequestService.ApproveIssueRequest` | server/service/issue_request.go:181-261 | the same for approval and rejection; an approval is announced only after its commit, and an announcement that fails leaves it committed |
| `IssueRequestService.InitInTx` | server/service/issue_request.go:402-429 | effect of the update event; without faults it errs exactly when an issue budget exists and the duplicate key is not recognised |
| `IssueRequestService.ProcessUpdateEvent` | server/service/issue_request.go:297-318 | any delivery, among arbitrary steps of others, follows the state machine: it takes effect, or found the request missing or not approved, or errs because the key was not recognised, a statement failed or the new id was not fresh |
| `IssueRequestService.UpdateIssueRequest` | server/service/issue_request.go:103-138 | whatever others do in between, an edit ends without error only if its names are valid, it saw the doc approved, the request editable and room for the new amount, and then wrote; it is refused only for a reason it saw or an input that does not parse |
| `FundingService.CreateFinanceDoc` | server/service/finance_doc.go:94-155 | whatever others do between its reads and its insert, it ends without error only if it created the draft of an acceptable detail for a project without a doc, and is refused only for a reason found |
| `FundingService.UpdateFinanceDoc` | server/service/finance_doc.go:210-260 | whatever others do between its check and its write, it follows the state machine; it ends with its write made, or refused for a reason found in the tables it saw |
| `FundingService.UpdateFinanceDocStatus` | server/service/finance_doc.go:262-301 | the same for a status change |
| `FundingService.InsertInTx` | server/service/project_budget.go:84-87 | all budgets of a doc or none, and none exactly when a key is taken or a statement fails |
| `FundingService.InitFromApprovedDoc` | server/service/project_budget.go:53-101 | any delivery of the approved event follows the state machine, and ends with all rows inserted, or with a key found taken and recognised, or refused for a reason found; a taken key is an error only when it is not recognised |
| `FundingService.FindApplicationDetailAmount` | server/service/finance_payment.go:356-374 | the amount of the first line of the address, if that line has one |
| `FundingService.CreatePaymentInTx` | server/service/finance_payment.go:313-336 | accepted exactly when, under the lock, the new total stays within the doc amount; otherwise with the error that says why |
| `FundingService.CommitPayment` | server/service/finance_payment.go:293-311 | payment and budget change together or not at all |
| `FundingService.CreateFinancePayment` | server/service/finance_payment.go:61-104 | with stale reads and anything happening in between, a payment follows the state machine; it ends without error only if, in the state its write found, the guard held and the payment was new, and the write was for this doc, address and amount; otherwise it is refused for a reason found, such as a total that would pass the cap |
| `Evolution.InsertBudgetsAltersNoRow` | server/service/project_budget.go:84-101 | replaying the approved event never alters or zeroes an existing budget |
| `DistributionService.PreOccupyBudget` | server/service/issue_record_service.go:478-507 | succeeds exactly when both budgets cover the amount, the record is new and no statement fails; then all three tables change, otherwise none |
| `DistributionService.ApplyOutcomeBudgets` | server/service/issue_record_service.go:509-547 | both issued columns or both refund columns grow by the amount |
| `DistributionService.FinalizeBudgets` | server/service/issue_record_service.go:561-579 | all four rows change or none; losing the compare-and-set is the only way to get the invalid-transition error |
| `DistributionService.RecordRiskFailure` | server/service/issue_record_service.go:297-305 | failed record and completed request together, or neither |
| `DistributionService.ApplyIssueRecordOutcome` | server/service/issue_record_service.go:616-630 | the outcome's status, amount and reason, the reason never empty on failure |
| `DistributionService.PublishTerminalResult` | server/service/issue_record_service.go:596-614 | publishes once, from the settled state |
| `DistributionService.EnsureCompletedAndSkip` | server/service/issue_record_service.go:252-270 | the repair path follows the state machine and skips only when the request is no longer pending |
| `DistributionService.HandleRiskFailure` | server/service/issue_record_service.go:272-315 | the risk-failure path follows the state machine and publishes only after its commit |
| `DistributionService.AttemptFresh` | server/service/issue_record_service.go:367-407 | the fresh path follows the state machine; it defers only when no issue budget fits |
| `DistributionService.AttemptExisting` | server/service/issue_record_service.go:409-476 | the retry path follows the state machine from the record as it is re-read, reading each budget again by its id |
| `DistributionService.IssueAndFinalize` | server/service/issue_record_service.go:347-364 | asks for a retry only on a transient answer, and settles according to any other |
| `DistributionService.FinalizeDistribution` | server/service/issue_record_service.go:549-594 | settles and publishes, or loses the compare-and-set and skips |
| `DistributionService.NeverGone` | server/service/issue_record_service.go:414-472 | from a reachable state no delivery ever fails because a row it reads again is gone, or its record names no issue request |
| `DistributionService.HandleRewardRequestComplete` | server/service/issue_record_service.go:803-812 | after it the request is not pending |
| `DistributionService.ExecuteRewardDistribution` | server/service/issue_record_service.go:190-250 | one delivery, statement by statement, among arbitrary steps of other workers and with arbitrary statement failures, is a run of the state machine, stays reachable, and skips, publishes, defers, retries or fails only for the reason that goes with it, found in that run |
| `RewardIntake.ResolveRewardAmount` | server/service/issue_record_service.go:641-722 | resolves exactly the messages that name client, user and project and, through a published template or themselves, a positive amount; the resolved amount is that amount rounded |
| `RewardIntake.ProcessVoucherIssueRequest` | server/service/issue_record_service.go:112-188 | accepted exactly when it resolves, a budget of its key exists and its client reference is new; then one row with the resolved key and rounded amount |
| `RewardIntake.StoredAmountIsPositive` | server/service/issue_record_service.go:671-691 | an accepted positive amount is stored as positive exactly from half a unit on |
| `Templates.ValidateConfigKeys` | server/service/template.go:313-328 | true exactly when every field name is allowed |
| `Templates.ParseTemplateConfig` | server/service/template.go:245-311 | computes the normal form, or the error, of a raw configuration |
| `Templates.NormalizedIsNormal` | server/service/template.go:256-311 | what is stored has a trimmed non-blank metric, a positive rate and a non-negative cap on the grid |
| `Templates.RenormalizingIsIdentity` | server/service/template.go:256-311 | a stored configuration comes back unchanged, except exactly a fixed amount that rounded to zero, which is refused |
| `Templates.PaysExactly` | server/service/issue_record_service.go:693-792 | a dynamic template pays exactly when given a positive metric and not capped at zero, and then the rounded lesser of metric times rate and cap |
| `Templates.PayoutIsBounded` | server/service/issue_record_service.go:747-769 | the payout is within half a unit of metric times rate, never above the stored cap, and the cap itself from there on |
| `Templates.PayoutIsMonotone` | server/service/issue_record_service.go:747-769 | a larger metric never pays less |
| `Templates.FixedPaysFromHalfAUnit` | server/service/issue_record_service.go:735-745 | an accepted fixed template pays exactly when its amount is at least half a unit, and then the stored amount |
| `Templates.AcceptedFixedTemplateMayNeverPay` | server/service/template.go:256-280 | an accepted fixed template that never pays |
| `Templates.TemplateTable.Create` | server/service/template.go:44-71 | stores a draft exactly when title, names and configuration are acceptable, in normal form; otherwise nothing |
| `Templates.TemplateTable.Update` | server/service/template.go:73-109 | passes its check only on a draft; then configuration and a non-blank title are written over whatever others have made of the row meanwhile |
| `Templates.TemplateTable.Publish` | server/service/template.go:144-179 | from draft to published, once, decided by the status the write finds |
| `Templates.PublishedStaysExactlyWhenSpared` | server/repository/dao/template_dao.go:79-93 | over any writes, published templates never change if and only if every overwriting write finds a draft or writes what is there |
| `Templates.LateOverwriteCanChangeAPayout` | server/service/template.go:73-109 | check, publication by another call, write: the published template pays another amount |
| `Templates.TemplateTable.Resolve` | server/service/issue_record_service.go:693-722 | only a published template resolves, and within its cap |
| `Reachable.NextKeeps` | server/service/issue_record_service.go:212-594 | any step of any worker keeps the whole invariant and undoes nothing final |
| `Reachable.RunKeeps` | server/service/issue_record_service.go:212-594 | so does any run |
| `Reachable.ReachableIsOk` | server/service/issue_record_service.go:212-594 | the invariant holds in every reachable state |
| `LateWrites.LateEditKeepsColumnsExactlyWhenHarmless` | server/repository/dao/issue_request_dao.go:128-147 | a late edit of a request keeps the column sums if and only if the request is still editable, or nothing changes, or a zero amount moves to a funded pair; keeps withhold, or issued, covering its sum if and only if the request is not in that column or the budget of the new pair has room for the new amount; and keeps issue budgets matching if and only if it changes no ongoing request |
| `LateWrites.LateMoveKeepsCoverExactlyWhenHarmless` | server/repository/dao/finance_doc_dao.go:94-106 | a late status write keeps budgets covered if and only if the doc ends approved or no budget was opened from it, and payments if and only if it ends approved or none was made under it |
| `LateWrites.LateContentKeepsCoverExactlyWhenHarmless` | server/repository/dao/finance_doc_dao.go:108-120 | a late content write keeps budgets covered if and only if the new detail has a covering line for each budget of the doc, and payments if and only if it has the address of each of them |
| `LateWrites.LateOpeningKeepsCoverExactlyWhenHarmless` | server/service/project_budget.go:84-101 | opening budgets from items read before keeps budgets covered if and only if the rows, should they go in, each have a line of the doc, approved, as it is now |
| `LateWrites.LatePaymentKeepsCoverExactlyWhenHarmless` | server/service/finance_payment.go:293-336 | a payment with a cap read before keeps budgets covered if and only if, should its guard pass, a line of the approved doc as it is now covers the new total, and payments if and only if the doc has the address |
| `LateWrites.StepKeepsMeaningExactlyWhenHarmless` | server/service/issue_request.go:103-138 | any step keeps a promise of the tables if and only if it is harmless to it, and only these five writes can do harm |
| `LateWrites.RunKeepsMeaningExactlyWhenHarmless` | server/service/finance_doc.go:210-301 | the tables keep a promise in every state of a run if and only if each of its late writes is harmless to it |
| `LateWrites.HarmlesslyReachableMeans` | server/service/issue_request.go:320-400 | what harmless runs reach keeps the promise, and the invariant |
| `ApprovedDocs.StepKeepsApprovedExactlyWhenSparing` | server/repository/dao/finance_doc_dao.go:94-120 | a step leaves every approved doc as it is if and only if the edit or decision it writes finds the doc not approved, or writes what is there |
| `ApprovedDocs.ApprovedIsFinalExactlyWhenSparing` | server/service/finance_doc.go:343-364 | approved docs are final throughout a run, status and detail, if and only if each of its writes spares them so |
| `ApprovedDocs.SparingRunIsHarmless` | server/service/finance_payment.go:204-277 | such runs keep budgets and payments covered, however stale the docs that workers remember |
| `ApprovedDocs.TimelyRunIsHarmless` | server/service/finance_doc.go:343-364 | in runs whose late writes would still pass their checks approved docs are final, and every promise is kept |
| `Theorems.ExactlyOnceSettlement` | server/service/issue_record_service.go:212-365 | at most one debit and at most one settlement per reward request in any run, each over the amount the request asks for, the settlement after the debit and on the same rows; and every charged record was debited, every terminal one settled |
| `Theorems.DistributionMovesAreLogged` | server/service/issue_record_service.go:497-579 | budget columns move in a distribution only as the logged debit or settlement says |
| `Theorems.StableDownstreamIdentity` | server/service/issue_record_service.go:347-354 | all downstream calls of one reward request are the same call |
| `Theorems.VoucherIsCommittedFirst` | server/service/issue_record_service.go:484-505 | a call carries the voucher id, user, unit and amount of rows committed before it |
| `Theorems.RemoteAgreement` | server/proxy/voucher_issuer.go:72-156 | given an asset service that decides once per voucher id: a crypto record is ISSUED only if credited exactly once, and a record is FAILED only if never credited |
| `Theorems.LockstepOfRequestAndRecord` | server/service/issue_record_service.go:297-305 | a reward request is completed exactly when its single record is terminal |
| `Theorems.TerminalIsFinal` | server/service/issue_record_service.go:561-580 | no continuation of a run changes a terminal record, a completed request or an issue budget's total |
| `Theorems.RepairPathOnlyLoses` | server/service/issue_record_service.go:252-270 | in reachable states the repair path loses its compare-and-set and publishes nothing |
| `Theorems.ResultEventSafety` | server/service/issue_record_service.go:596-630 | at most one result per reward request, agreeing with the committed record in status, amount and reason |
| `Theorems.PublishedAfterCommit` | server/service/issue_record_service.go:582-594 | a result is published only when its record is terminal and its request completed already |
| `Theorems.ProjectBudgetConservation` | server/repository/dao/project_budget_dao.go:161-222 | total = available + withhold + issued + refund + pending, no column negative, total = payments, in every reachable state |
| `Theorems.IssueBudgetConservation` | server/repository/dao/issue_budget_dao.go:134-202 | total = available + issued + refund + pending charged to it, no column negative, issued and refund are the sums of its settled records |
| `Theorems.OneIssueBudgetPerOngoingRequest` | server/service/issue_request.go:402-429 | an issue budget exists exactly for the ongoing requests, and only one each |
| `Theorems.RedeliveryChangesNothing` | server/service/issue_request.go:297-318 | a second delivery of the update event changes nothing, and no delivery touches an existing issue budget |
| `FirstFit.DebitsChargeAFirstFit` | server/service/issue_record_service.go:391-406 | every debit of every run charges an issue budget that was, in a state of the run before the debit, the lowest-id ongoing one with enough available for the project, pair and amount of the request |
| `Theorems.ColumnMeaning` | server/service/issue_request.go:320-400 | after any run harmless to the column sums: withhold is the sum of requests awaiting approval; issued that of approved and ongoing requests plus issued records; refund that of failed pre-occupied records |
| `Theorems.WithholdGuardNeverRefuses` | server/service/issue_request.go:592-602 | after any run whose late edits leave withhold covering what awaits a decision, approval and rejection are allowed exactly when the request awaits one: the withhold guard never refuses |
| `Theorems.NoOverspend` | server/service/finance_payment.go:254-277 | after any run no column passes the total, and issued, pending and failed vouchers together stay within it; with the allocations of requests they do after runs whose late edits leave withhold and issued covering theirs; and in runs harmless to it the total stays within the approved line's amount |
| `Theorems.SumsAreCovers` | server/service/issue_request.go:320-400 | runs harmless to the column sums are harmless to both covers |
| `Theorems.CapHoldsExactlyInHarmlessRuns` | server/service/finance_payment.go:204-277 | every budget stays within an approved line in every state of a run if and only if the run is harmless to that |
| `Theorems.IssueBudgetMatchesRequest` | server/service/issue_request.go:412-420 | after any run in which no late edit changes an ongoing request, an issue budget has the amount and pair of its ongoing request |
| `Theorems.IssueBudgetsMatchExactlyInHarmlessRuns` | server/service/issue_request.go:412-420 | this holds of every issue budget in every state of a run if and only if no late edit in it changes an ongoing request |
| `Theorems.RejectUndoesSubmit` | server/service/issue_request.go:374-400 | submitting and rejecting restores every budget row |
| `Theorems.EditableRequestsContributeNothing` | server/service/issue_request.go:515-531 | after any run harmless to the column sums a request in draft or rejected contributes to no column, whatever cycles it went through |
| `Theorems.FundedThroughOneAddress` | server/service/finance_payment.go:204-235 | after any run harmless to budgets and payments, all payments behind a budget went to the one detail address of its approved doc whose configuration has its pair |
| `Theorems.OneAddressExactlyInHarmlessRuns` | server/service/finance_payment.go:204-235 | this holds of every budget in every state of a run if and only if the run is harmless to both |
| `MeaningSteps.GuardIsExact` | server/service/finance_payment.go:254-277 | the payment guard is exact for what the columns store |
| `Limits.LateMoveCanUndoAnApproval` | server/service/finance_doc.go:262-301 | a run after which a budget stands on a rejected doc, which the cover excludes |
| `Limits.RememberedDocIsOpenedAllTheSame` | server/service/project_budget.go:53-101 | a run whose late rejection finds no budget, and after which one stands on the rejected doc all the same: a worker remembered the approval |
| `Limits.LateContentCanBreakTheCap` | server/service/finance_doc.go:210-260 | a run after which a budget's total is above the amount of its approved line |
| `Limits.LateEditCanBlockADecision` | server/service/issue_request.go:103-138 | a run after which withhold is not the sum awaiting a decision, and a submitted request can be neither approved nor rejected |
| `Limits.LateEditCanOverAllocate` | server/service/issue_request.go:103-138 | a run after which allocations are twice the total |
| `Limits.LateEditCanStrandAnAmount` | server/service/issue_request.go:103-138 | a run after which an amount stays withheld though no request awaits a decision |
| `Limits.LateEditCanDetachAnIssueBudget` | server/service/issue_request.go:103-138 | a run after which an issue budget's total is not its request's amount |
| `Limits.GuardSlack` | server/service/finance_payment.go:254-277 | an accepted payment exceeds the cap by at most half a unit, and by nothing when its amount is on the grid |
| `Limits.GuardSlackIsReal` | server/service/finance_payment.go:254-277 | an accepted payment above the cap |

## Left out

- ColumnMeaning: false of some runs (`Limits.LateEditCanBlockADecision`); it is stated for runs harmless to the column sums, which are exactly those whose tables keep them in every state (`LateWrites.RunKeepsMeaningExactlyWhenHarmless`).
- WithholdGuardNeverRefuses: false of some runs, with the same counterexample; it is stated for those in which withhold covers what awaits a decision in every state, with the same exact condition.
- NoOverspend: that allocations of requests stay within the total is false of some runs (`Limits.LateEditCanOverAllocate`) and stated for those in which withhold and issued cover theirs in every state; the cap is false of some runs (`Limits.LateContentCanBreakTheCap`, `Limits.LateMoveCanUndoAnApproval`) and holds in every state of exactly those that are harmless to it (`CapHoldsExactlyInHarmlessRuns`). That vouchers and refunds stay within the total needs no restriction.
- IssueBudgetMatchesRequest: false of some runs (`Limits.LateEditCanDetachAnIssueBudget`), with its exact condition in `IssueBudgetsMatchExactlyInHarmlessRuns`; that an issue budget's total never changes needs no restriction (`TerminalIsFinal`).
- EditableRequestsContributeNothing: the same as ColumnMeaning, with `Limits.LateEditCanStrandAnAmount`.
- FundedThroughOneAddress: the same as the cap, with its exact condition in `OneAddressExactlyInHarmlessRuns`; that the total equals the payments to addresses of its pair needs no restriction (`ProjectBudgetConservation`).
- A run whose harm is undone by a later write may end in a state where a promise holds again; the exact conditions are about keeping it in every state.
- The machine's steps on issue requests check less than the service's calls, which look at the doc, the names and the column besides: the theorems hold of the larger set of runs, the calls are proved to be among them, and `Limits` keeps to what the calls accept.
- PreOccupyBudget: takes the issue request id from the issue budget row as it is at the debit; the service takes it from the row it read before, and it never changes.
- ReachableIsOk: safety only; that every request is completed and every result published is not promised by the service, which acknowledges a deferred distribution and does not publish again after a crash.
- Row locks, isolation and the atomicity of a committed transaction are MySQL's and are trusted; a transaction is one step. A commit whose acknowledgement is lost is a crash after the commit.
- The data access objects bind amounts as text in `available_amount + ?` and the like, which MySQL evaluates in double precision before rounding to the column; that this is exact in units of 10^-8, as it is for all but very large amounts, is trusted.
- An amount that does not fit DECIMAL(20, 8), a reason longer than its column, case-insensitive collation of unique keys, and the increasing order of ids are not modelled; ids are arbitrary fresh positive numbers.
- Whether the driver reports a duplicate key as the error the service looks for is a parameter (`translated`), because server/repository/init.go:28-33 does not show it being enabled; states are the same either way except that an event for an existing issue budget then fails instead of completing.
- Decimal texts are modelled by the rational they denote, a float rate by its exact value, JSON documents by their fields; parsing of the texts themselves is not modelled. An amount of an issue request off the grid is rounded once, when it is stored.
- The template table is separate from the ledger; what others write during one of its calls is a parameter (`meanwhile`).
- HTTP and gRPC handlers, the message client and its offsets, configuration, logging, the read cache, listings, items, projects, remarks, creators, expense types and the offset columns of payments move no budget column.
