/** What the tables satisfy at every commit: keys, references, and what each column adds up to.

    Every predicate takes only the tables it speaks about. */
module Ledger {
  import opened Amounts
  import opened BudgetItems
  import opened Schema
  import opened Totals
  import opened Transactions
  import opened Wrappers

  // ---- What a row contributes to a column ----

  datatype Column = Withheld | Issued | Refunded | PreOccupied

  function RequestWeight(r: IssueRequest, k: Key, c: Column): int {
    if RequestKey(r) != k then 0
    else match c
         case Withheld => if r.status == ToApprove then r.amount else 0
         case Issued => if r.status == Approved || r.status == Ongoing then r.amount else 0
         case Refunded => 0
         case PreOccupied => 0
  }

  /** The column in which the amount of a pre-occupied record sits. */
  predicate SitsIn(rec: IssueRecord, c: Column) {
    && rec.issueRequestId.Some?
    && c == match rec.status
            case PendingRecord => PreOccupied
            case IssuedRecord => Issued
            case FailedRecord => Refunded
  }

  function AmountOf(rec: IssueRecord, rewards: map<Id, RewardRequest>): int {
    if rec.rewardRequestId in rewards then rewards[rec.rewardRequestId].amount else 0
  }

  function RecordWeight(rec: IssueRecord, rewards: map<Id, RewardRequest>, k: Key, c: Column): int {
    if RecordKey(rec) == k && SitsIn(rec, c) then AmountOf(rec, rewards) else 0
  }

  function ChargeWeight(rec: IssueRecord, rewards: map<Id, RewardRequest>, issueRequestId: Id, c: Column): int {
    if rec.issueRequestId == Some(issueRequestId) && SitsIn(rec, c) then AmountOf(rec, rewards) else 0
  }

  predicate PaysFor(p: FinancePayment, configs: map<string, PayConfig>, docId: string, pair: PayConfig) {
    p.docId == docId && p.address in configs && configs[p.address] == pair
  }

  // ---- Sums over tables ----

  ghost function RequestSum(requests: map<Id, IssueRequest>, k: Key, c: Column): int {
    Total(map id | id in requests :: RequestWeight(requests[id], k, c))
  }

  ghost function RecordSum(records: map<Id, IssueRecord>, rewards: map<Id, RewardRequest>, k: Key, c: Column): int {
    Total(map id | id in records :: RecordWeight(records[id], rewards, k, c))
  }

  ghost function ChargeSum(records: map<Id, IssueRecord>, rewards: map<Id, RewardRequest>,
                           issueRequestId: Id, c: Column): int
  {
    Total(map id | id in records :: ChargeWeight(records[id], rewards, issueRequestId, c))
  }

  ghost function PaidSum(payments: map<string, FinancePayment>, configs: map<string, PayConfig>,
                         docId: string, pair: PayConfig): int
  {
    Total(map id | id in payments :: if PaysFor(payments[id], configs, docId, pair) then payments[id].amount else 0)
  }

  function PairOf(b: ProjectBudget): PayConfig { PayConfig(b.voucherType, b.unit) }

  // ---- Unique keys ----

  ghost predicate BudgetsUnique(budgets: map<Id, ProjectBudget>) {
    forall i, j | i in budgets && j in budgets && BudgetKey(budgets[i]) == BudgetKey(budgets[j]) :: i == j
  }

  ghost predicate DocsUnique(docs: map<string, FinanceDoc>) {
    forall d, e | d in docs && e in docs && docs[d].projectId == docs[e].projectId :: d == e
  }

  ghost predicate IssueBudgetsUnique(issueBudgets: map<Id, IssueBudget>) {
    forall i, j | i in issueBudgets && j in issueBudgets
                  && issueBudgets[i].issueRequestId == issueBudgets[j].issueRequestId :: i == j
  }

  ghost predicate RewardsUnique(rewards: map<Id, RewardRequest>) {
    forall i, j | i in rewards && j in rewards && rewards[i].clientRef == rewards[j].clientRef :: i == j
  }

  ghost predicate RecordsUnique(records: map<Id, IssueRecord>) {
    && (forall i, j | i in records && j in records
                      && records[i].rewardRequestId == records[j].rewardRequestId :: i == j)
    && (forall i, j | i in records && j in records && records[i].voucherId == records[j].voucherId :: i == j)
  }

  // ---- References ----

  ghost predicate HasBudget(budgets: map<Id, ProjectBudget>, k: Key) {
    exists id :: id in budgets && BudgetKey(budgets[id]) == k
  }

  ghost predicate HasDocBudget(budgets: map<Id, ProjectBudget>, docId: string, pair: PayConfig) {
    exists id :: id in budgets && budgets[id].docId == docId && PairOf(budgets[id]) == pair
  }

  ghost predicate HasIssueBudget(issueBudgets: map<Id, IssueBudget>, issueRequestId: Id) {
    exists id :: id in issueBudgets && issueBudgets[id].issueRequestId == issueRequestId
  }

  ghost predicate HasRecord(records: map<Id, IssueRecord>, rewardId: Id) {
    exists id :: id in records && records[id].rewardRequestId == rewardId
  }

  ghost predicate BudgetsHaveDocs(budgets: map<Id, ProjectBudget>, docs: map<string, FinanceDoc>) {
    forall id | id in budgets :: budgets[id].docId in docs && docs[budgets[id].docId].projectId == budgets[id].projectId
  }

  ghost predicate DocsAcceptable(docs: map<string, FinanceDoc>, configs: map<string, PayConfig>) {
    forall d | d in docs :: Acceptable(configs, docs[d].detail)
  }

  ghost predicate PaymentsHaveBudgets(payments: map<string, FinancePayment>, budgets: map<Id, ProjectBudget>,
                                      configs: map<string, PayConfig>)
  {
    forall p | p in payments ::
      && payments[p].amount >= 0
      && payments[p].address in configs
      && HasDocBudget(budgets, payments[p].docId, configs[payments[p].address])
  }

  ghost predicate RewardsFunded(rewards: map<Id, RewardRequest>, budgets: map<Id, ProjectBudget>) {
    forall r | r in rewards :: r > 0 && rewards[r].amount >= 0 && HasBudget(budgets, RewardKey(rewards[r]))
  }

  ghost predicate RequestAmounts(requests: map<Id, IssueRequest>) {
    forall r | r in requests :: requests[r].amount >= 0
  }

  /** An issue budget belongs to an ongoing request. */
  ghost predicate IssueBudgetsOngoing(issueBudgets: map<Id, IssueBudget>, requests: map<Id, IssueRequest>) {
    forall id | id in issueBudgets ::
      && issueBudgets[id].issueRequestId in requests
      && requests[issueBudgets[id].issueRequestId].status == Ongoing
  }

  /** An ongoing request has an issue budget. */
  ghost predicate OngoingBudgeted(requests: map<Id, IssueRequest>, issueBudgets: map<Id, IssueBudget>) {
    forall r | r in requests && requests[r].status == Ongoing :: HasIssueBudget(issueBudgets, r)
  }

  /** A pre-occupied record was charged to an issue budget of its own project and pair. */
  ghost predicate ChargedTo(rec: IssueRecord, ib: IssueBudget, requests: map<Id, IssueRequest>) {
    && rec.issueRequestId == Some(ib.issueRequestId)
    && rec.voucherType == ib.voucherType && rec.unit == ib.unit
    && ib.issueRequestId in requests && requests[ib.issueRequestId].projectId == rec.projectId
  }

  ghost predicate HasCharge(rec: IssueRecord, issueBudgets: map<Id, IssueBudget>, requests: map<Id, IssueRequest>) {
    exists id :: id in issueBudgets && ChargedTo(rec, issueBudgets[id], requests)
  }

  ghost predicate RecordsCharged(records: map<Id, IssueRecord>, issueBudgets: map<Id, IssueBudget>,
                                 requests: map<Id, IssueRequest>)
  {
    forall id | id in records && records[id].issueRequestId.Some? :: HasCharge(records[id], issueBudgets, requests)
  }

  // ---- Requests and records move in lockstep ----

  /** The record repeats what the reward request says. */
  predicate Repeats(rec: IssueRecord, rewardId: Id, rr: RewardRequest) {
    && rec.rewardRequestId == rewardId
    && rec.clientRef == rr.clientRef && rec.userId == rr.userId
    && RecordKey(rec) == RewardKey(rr)
  }

  predicate Terminal(rec: IssueRecord) { rec.status != PendingRecord }

  /** What the status says about the rest of the row. */
  predicate StatusFits(rec: IssueRecord, amount: int) {
    match rec.status
    case PendingRecord => rec.issueRequestId.Some? && rec.rewardAmount == amount && rec.reason == ""
    case IssuedRecord => rec.issueRequestId.Some? && rec.rewardAmount == amount && rec.reason == ""
    case FailedRecord => rec.rewardAmount == 0 && rec.reason != ""
  }

  ghost predicate RecordsMatchRewards(records: map<Id, IssueRecord>, rewards: map<Id, RewardRequest>) {
    forall id | id in records ::
      && var rec := records[id];
         && id > 0
         && rec.rewardRequestId in rewards
         && Repeats(rec, rec.rewardRequestId, rewards[rec.rewardRequestId])
         && StatusFits(rec, rewards[rec.rewardRequestId].amount)
         && (Terminal(rec) <==> rewards[rec.rewardRequestId].status == CompletedReward)
  }

  ghost predicate CompletedHaveRecords(rewards: map<Id, RewardRequest>, records: map<Id, IssueRecord>) {
    forall r | r in rewards && rewards[r].status == CompletedReward :: HasRecord(records, r)
  }

  // ---- Columns ----

  ghost predicate BudgetBalanced(b: ProjectBudget, records: map<Id, IssueRecord>, rewards: map<Id, RewardRequest>) {
    && b.available >= 0 && b.withhold >= 0 && b.issued >= 0 && b.refund >= 0
    && b.issued >= RecordSum(records, rewards, BudgetKey(b), Issued)
    && b.refund == RecordSum(records, rewards, BudgetKey(b), Refunded)
    && b.total == b.available + b.withhold + b.issued + b.refund
                  + RecordSum(records, rewards, BudgetKey(b), PreOccupied)
  }

  ghost predicate BudgetsBalanced(budgets: map<Id, ProjectBudget>, records: map<Id, IssueRecord>,
                                  rewards: map<Id, RewardRequest>)
  {
    forall id | id in budgets :: BudgetBalanced(budgets[id], records, rewards)
  }

  ghost predicate BudgetsPaid(budgets: map<Id, ProjectBudget>, payments: map<string, FinancePayment>,
                              configs: map<string, PayConfig>)
  {
    forall id | id in budgets :: budgets[id].total == PaidSum(payments, configs, budgets[id].docId, PairOf(budgets[id]))
  }

  ghost predicate IssueBudgetBalanced(ib: IssueBudget, records: map<Id, IssueRecord>, rewards: map<Id, RewardRequest>) {
    && ib.available >= 0 && ib.total >= 0
    && ib.issued == ChargeSum(records, rewards, ib.issueRequestId, Issued)
    && ib.refund == ChargeSum(records, rewards, ib.issueRequestId, Refunded)
    && ib.total == ib.available + ib.issued + ib.refund
                   + ChargeSum(records, rewards, ib.issueRequestId, PreOccupied)
  }

  ghost predicate IssueBudgetsBalanced(issueBudgets: map<Id, IssueBudget>, records: map<Id, IssueRecord>,
                                       rewards: map<Id, RewardRequest>)
  {
    forall id | id in issueBudgets :: IssueBudgetBalanced(issueBudgets[id], records, rewards)
  }

  /** Everything the tables satisfy at every commit, whatever races with whatever. */
  ghost predicate TablesOk(t: Tables) {
    && BudgetsUnique(t.projectBudgets)
    && DocsUnique(t.docs)
    && IssueBudgetsUnique(t.issueBudgets)
    && RewardsUnique(t.rewardRequests)
    && RecordsUnique(t.issueRecords)
    && BudgetsHaveDocs(t.projectBudgets, t.docs)
    && DocsAcceptable(t.docs, t.configs)
    && PaymentsHaveBudgets(t.payments, t.projectBudgets, t.configs)
    && RewardsFunded(t.rewardRequests, t.projectBudgets)
    && RequestAmounts(t.issueRequests)
    && IssueBudgetsOngoing(t.issueBudgets, t.issueRequests)
    && OngoingBudgeted(t.issueRequests, t.issueBudgets)
    && RecordsCharged(t.issueRecords, t.issueBudgets, t.issueRequests)
    && RecordsMatchRewards(t.issueRecords, t.rewardRequests)
    && CompletedHaveRecords(t.rewardRequests, t.issueRecords)
    && BudgetsBalanced(t.projectBudgets, t.issueRecords, t.rewardRequests)
    && BudgetsPaid(t.projectBudgets, t.payments, t.configs)
    && IssueBudgetsBalanced(t.issueBudgets, t.issueRecords, t.rewardRequests)
  }

  // ---- What holds besides, as long as no late write does harm ----

  /** The promises a late write can break: that the columns are what they stand for; that withhold, or issued,
      at least covers it; that an issue budget is over what its request asks for; that a line of an approved
      doc covers each budget; and that each payment went to an address of an approved doc. */
  datatype Promise = ColumnSums | WithholdCover | IssuedCover | IssueBudgetMatch | LineCover | PaymentCover

  predicate OnColumns(which: Promise) { which.ColumnSums? || which.WithholdCover? || which.IssuedCover? }

  predicate OnDocs(which: Promise) { which.LineCover? || which.PaymentCover? }

  /** The promise is about the withhold column, or about the issued one. */
  predicate Concerns(which: Promise, c: Column) {
    which.ColumnSums? || (c == Withheld && which.WithholdCover?) || (c == Issued && which.IssuedCover?)
  }

  /** A request of the status has its amount in the column. */
  predicate Weighs(status: ReviewStatus, c: Column) {
    (c == Withheld && status == ToApprove) || (c == Issued && (status == Approved || status == Ongoing))
  }

  predicate NeedsBudget(status: ReviewStatus, which: Promise) {
    (Weighs(status, Withheld) && Concerns(which, Withheld)) || (Weighs(status, Issued) && Concerns(which, Issued))
  }

  ghost predicate RequestsFunded(requests: map<Id, IssueRequest>, budgets: map<Id, ProjectBudget>, which: Promise) {
    forall r | r in requests && NeedsBudget(requests[r].status, which) :: HasBudget(budgets, RequestKey(requests[r]))
  }

  /** A column stands for a sum exactly, or at least covers it. */
  predicate Stands(column: int, sum: int, which: Promise) {
    if which.ColumnSums? then column == sum else column >= sum
  }

  /** What the withhold and issued columns stand for. */
  ghost predicate BudgetMeans(b: ProjectBudget, requests: map<Id, IssueRequest>, records: map<Id, IssueRecord>,
                              rewards: map<Id, RewardRequest>, which: Promise)
  {
    && (Concerns(which, Withheld) ==> Stands(b.withhold, RequestSum(requests, BudgetKey(b), Withheld), which))
    && (Concerns(which, Issued) ==>
          Stands(b.issued,
                 RequestSum(requests, BudgetKey(b), Issued) + RecordSum(records, rewards, BudgetKey(b), Issued),
                 which))
  }

  ghost predicate BudgetsMean(budgets: map<Id, ProjectBudget>, requests: map<Id, IssueRequest>,
                              records: map<Id, IssueRecord>, rewards: map<Id, RewardRequest>, which: Promise)
  {
    forall id | id in budgets :: BudgetMeans(budgets[id], requests, records, rewards, which)
  }

  ghost predicate ColumnsMean(t: Tables, which: Promise) {
    && RequestsFunded(t.issueRequests, t.projectBudgets, which)
    && BudgetsMean(t.projectBudgets, t.issueRequests, t.issueRecords, t.rewardRequests, which)
  }

  /** A request keeps what its issue budget was created from. */
  ghost predicate IssueBudgetsFrozen(issueBudgets: map<Id, IssueBudget>, requests: map<Id, IssueRequest>) {
    forall id | id in issueBudgets && issueBudgets[id].issueRequestId in requests ::
      var r := requests[issueBudgets[id].issueRequestId];
      r.amount == issueBudgets[id].total && r.voucherType == issueBudgets[id].voucherType
      && r.unit == issueBudgets[id].unit
  }

  /** A funded total is within the amount of the approved line it comes from. */
  ghost predicate LineCovers(line: DetailLine, configs: map<string, PayConfig>, b: ProjectBudget) {
    && LineOk(configs, line) && ConfigOf(configs, line) == PairOf(b)
    && WithinCap(b.total, line.amount)
  }

  predicate WithinCap(total: int, cap: AmountText) {
    total == 0 || (ParseAmount(cap).Some? && Value(total) <= ParseAmount(cap).value)
  }

  ghost predicate DocCovers(doc: FinanceDoc, configs: map<string, PayConfig>, b: ProjectBudget) {
    doc.status == Approved && exists i :: 0 <= i < |doc.detail| && LineCovers(doc.detail[i], configs, b)
  }

  ghost predicate BudgetsCovered(budgets: map<Id, ProjectBudget>, docs: map<string, FinanceDoc>,
                                 configs: map<string, PayConfig>)
  {
    forall id | id in budgets :: budgets[id].docId in docs && DocCovers(docs[budgets[id].docId], configs, budgets[id])
  }

  /** Every payment of a doc went to an address of its detail. */
  ghost predicate OnDetail(p: FinancePayment, docs: map<string, FinanceDoc>) {
    && p.docId in docs && docs[p.docId].status == Approved
    && exists i :: 0 <= i < |docs[p.docId].detail| && Address(docs[p.docId].detail[i]) == p.address
  }

  ghost predicate PaymentsOnDetail(payments: map<string, FinancePayment>, docs: map<string, FinanceDoc>) {
    forall p | p in payments :: OnDetail(payments[p], docs)
  }

  ghost predicate TablesMean(t: Tables, which: Promise) {
    match which
    case IssueBudgetMatch => IssueBudgetsFrozen(t.issueBudgets, t.issueRequests)
    case LineCover => BudgetsCovered(t.projectBudgets, t.docs, t.configs)
    case PaymentCover => PaymentsOnDetail(t.payments, t.docs)
    case _ => ColumnsMean(t, which)
  }
}
