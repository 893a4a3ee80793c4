/** The rows of the service's tables, and the lookups the data access layer offers on them.

    Monetary columns are integers counting 10^-8 units. Row ids are positive and chosen by the
    database; rows are never deleted. */
module Schema {
  import opened Amounts
  import opened Wrappers

  type Id = int

  /** What a budget is identified by, besides its id. */
  datatype Key = Key(projectId: Id, voucherType: string, unit: string)

  /** Status of a finance doc and of an issue request; only issue requests become Ongoing. */
  datatype ReviewStatus = Draft | ToApprove | Approved | Rejected | Ongoing

  datatype RewardStatus = PendingReward | CompletedReward
  datatype RecordStatus = PendingRecord | IssuedRecord | FailedRecord
  datatype IssueBudgetStatus = OngoingBudget | EndedBudget

  datatype PayConfig = PayConfig(voucherType: string, unit: string)

  datatype DetailLine = DetailLine(payAddress: string, amount: AmountText)

  datatype FinanceDoc = FinanceDoc(projectId: Id, detail: seq<DetailLine>, status: ReviewStatus)

  datatype FinancePayment = FinancePayment(docId: string, address: string, amount: int)

  datatype ProjectBudget = ProjectBudget(
    docId: string, projectId: Id, voucherType: string, unit: string,
    total: int, available: int, withhold: int, issued: int, refund: int)

  datatype IssueRequest = IssueRequest(
    projectId: Id, voucherType: string, unit: string, amount: int, status: ReviewStatus)

  datatype IssueBudget = IssueBudget(
    issueRequestId: Id, voucherType: string, unit: string,
    total: int, available: int, issued: int, refund: int, status: IssueBudgetStatus)

  datatype RewardRequest = RewardRequest(
    clientRef: string, userId: Id, projectId: Id, voucherType: string, unit: string,
    amount: int, status: RewardStatus)

  datatype IssueRecord = IssueRecord(
    voucherId: string, rewardRequestId: Id, issueRequestId: Option<Id>,
    projectId: Id, userId: Id, voucherType: string, unit: string,
    rewardAmount: int, status: RecordStatus, reason: string, clientRef: string)

  /** One committed state of the database. The payment configuration is never written. */
  datatype Tables = Tables(
    configs: map<string, PayConfig>,
    docs: map<string, FinanceDoc>,
    payments: map<string, FinancePayment>,
    projectBudgets: map<Id, ProjectBudget>,
    issueRequests: map<Id, IssueRequest>,
    issueBudgets: map<Id, IssueBudget>,
    rewardRequests: map<Id, RewardRequest>,
    issueRecords: map<Id, IssueRecord>)

  function BudgetKey(b: ProjectBudget): Key { Key(b.projectId, b.voucherType, b.unit) }
  function RequestKey(r: IssueRequest): Key { Key(r.projectId, r.voucherType, r.unit) }
  function RewardKey(r: RewardRequest): Key { Key(r.projectId, r.voucherType, r.unit) }
  function RecordKey(r: IssueRecord): Key { Key(r.projectId, r.voucherType, r.unit) }

  // ---- Lookups: the lowest id among the rows that match ----

  predicate IsLowest(x: Id, ids: set<Id>) {
    x in ids && forall y | y in ids :: x <= y
  }

  lemma AnyOf<T>(ids: set<T>) returns (x: T)
    requires ids != {}
    ensures x in ids
  {
    x :| x in ids;
  }

  lemma {:induction false} LowestExists(ids: set<Id>) returns (m: Id)
    requires ids != {}
    ensures IsLowest(m, ids)
    decreases |ids|
  {
    m := AnyOf(ids);
    var rest := ids - {m};
    if rest != {} {
      var n := LowestExists(rest);
      assert forall y | y in ids :: y == m || y in rest;
      if n < m { m := n; }
    } else {
      assert forall y | y in ids :: y == m || y in rest;
    }
  }

  /** What a query ordered by primary key and limited to one row returns. */
  function FirstOf(ids: set<Id>): (r: Option<Id>)
    ensures r.None? <==> ids == {}
    ensures r.Some? ==> IsLowest(r.value, ids)
  {
    if ids == {} then None else
      assert exists x :: IsLowest(x, ids) by { var m := LowestExists(ids); }
      var x :| IsLowest(x, ids);
      Some(x)
  }

  function ProjectBudgetFor(t: Tables, k: Key): (r: Option<Id>)
    ensures r.None? <==> forall id | id in t.projectBudgets :: BudgetKey(t.projectBudgets[id]) != k
    ensures r.Some? ==> r.value in t.projectBudgets && BudgetKey(t.projectBudgets[r.value]) == k
    ensures r.Some? ==> forall id | id in t.projectBudgets && BudgetKey(t.projectBudgets[id]) == k :: r.value <= id
  {
    var ids := set id | id in t.projectBudgets && BudgetKey(t.projectBudgets[id]) == k;
    assert forall id | id in t.projectBudgets && BudgetKey(t.projectBudgets[id]) == k :: id in ids;
    FirstOf(ids)
  }

  predicate BelongsToDoc(b: ProjectBudget, docId: string, voucherType: string, unit: string) {
    b.docId == docId && b.voucherType == voucherType && b.unit == unit
  }

  function ProjectBudgetOfDoc(t: Tables, docId: string, voucherType: string, unit: string): (r: Option<Id>)
    ensures r.None? <==> forall id | id in t.projectBudgets ::
              !BelongsToDoc(t.projectBudgets[id], docId, voucherType, unit)
    ensures r.Some? ==> r.value in t.projectBudgets
                        && BelongsToDoc(t.projectBudgets[r.value], docId, voucherType, unit)
  {
    var ids := set id | id in t.projectBudgets && BelongsToDoc(t.projectBudgets[id], docId, voucherType, unit);
    assert forall id | id in t.projectBudgets && BelongsToDoc(t.projectBudgets[id], docId, voucherType, unit) ::
      id in ids;
    FirstOf(ids)
  }

  function IssueBudgetFor(t: Tables, issueRequestId: Id): (r: Option<Id>)
    ensures r.None? <==> forall id | id in t.issueBudgets :: t.issueBudgets[id].issueRequestId != issueRequestId
    ensures r.Some? ==> r.value in t.issueBudgets && t.issueBudgets[r.value].issueRequestId == issueRequestId
  {
    var ids := set id | id in t.issueBudgets && t.issueBudgets[id].issueRequestId == issueRequestId;
    assert forall id | id in t.issueBudgets && t.issueBudgets[id].issueRequestId == issueRequestId :: id in ids;
    FirstOf(ids)
  }

  /** An issue budget that can pay `amount` towards `k`: the join of the first-fit query. */
  predicate Fits(t: Tables, id: Id, k: Key, amount: int) {
    && id in t.issueBudgets
    && var ib := t.issueBudgets[id];
       && ib.issueRequestId in t.issueRequests
       && t.issueRequests[ib.issueRequestId].projectId == k.projectId
       && ib.voucherType == k.voucherType
       && ib.unit == k.unit
       && ib.status == OngoingBudget
       && ib.available >= amount
  }

  function FirstAvailableForDistribution(t: Tables, k: Key, amount: int): (r: Option<Id>)
    ensures r.None? <==> forall id :: !Fits(t, id, k, amount)
    ensures r.Some? ==> Fits(t, r.value, k, amount)
                        && forall id | Fits(t, id, k, amount) :: r.value <= id
  {
    var fitting := set id | id in t.issueBudgets && Fits(t, id, k, amount);
    assert forall id :: Fits(t, id, k, amount) <==> id in fitting;
    FirstOf(fitting)
  }

  function RecordByRef(t: Tables, clientRef: string): (r: Option<Id>)
    ensures r.None? <==> forall id | id in t.issueRecords :: t.issueRecords[id].clientRef != clientRef
    ensures r.Some? ==> r.value in t.issueRecords && t.issueRecords[r.value].clientRef == clientRef
  {
    var ids := set id | id in t.issueRecords && t.issueRecords[id].clientRef == clientRef;
    assert forall id | id in t.issueRecords && t.issueRecords[id].clientRef == clientRef :: id in ids;
    FirstOf(ids)
  }

  // ---- Unique keys ----

  predicate DocInsertable(t: Tables, docId: string, doc: FinanceDoc) {
    && docId !in t.docs
    && forall d | d in t.docs :: t.docs[d].projectId != doc.projectId
  }

  predicate ProjectBudgetInsertable(budgets: map<Id, ProjectBudget>, id: Id, b: ProjectBudget) {
    && id > 0 && id !in budgets
    && forall i | i in budgets ::
         && BudgetKey(budgets[i]) != BudgetKey(b)
         && !(budgets[i].docId == b.docId && budgets[i].voucherType == b.voucherType && budgets[i].unit == b.unit)
  }

  predicate IssueBudgetInsertable(t: Tables, id: Id, b: IssueBudget) {
    && id > 0 && id !in t.issueBudgets
    && forall i | i in t.issueBudgets :: t.issueBudgets[i].issueRequestId != b.issueRequestId
  }

  predicate RewardRequestInsertable(t: Tables, id: Id, r: RewardRequest) {
    && id > 0 && id !in t.rewardRequests
    && forall i | i in t.rewardRequests :: t.rewardRequests[i].clientRef != r.clientRef
  }

  predicate RecordInsertable(t: Tables, id: Id, r: IssueRecord) {
    && id > 0 && id !in t.issueRecords
    && forall i | i in t.issueRecords ::
         t.issueRecords[i].rewardRequestId != r.rewardRequestId && t.issueRecords[i].voucherId != r.voucherId
  }
}
