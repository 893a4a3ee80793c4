/** The committed effect of every write the services perform, as one atomic step on the tables.

    Each step leaves the tables untouched when its guard fails. The service methods, which run
    ordered updates and roll back on the first error, are proved to have exactly these effects. */
module Transactions {
  import opened Amounts
  import opened BudgetItems
  import opened Schema
  import opened Wrappers

  /** Transitions an approver or a submitter may ask for, for finance docs and issue requests alike. */
  predicate TransitionAllowed(current: ReviewStatus, target: ReviewStatus) {
    match target
    case ToApprove => current == Draft || current == Rejected
    case Approved => current == ToApprove
    case Rejected => current == ToApprove
    case Draft => false
    case Ongoing => false
  }

  predicate Editable(status: ReviewStatus) { status == Draft || status == Rejected }

  // ---- Finance docs ----

  function CreateDoc(t: Tables, docId: string, projectId: Id, detail: seq<DetailLine>): Tables {
    var doc := FinanceDoc(projectId, detail, Draft);
    if Acceptable(t.configs, detail) && DocInsertable(t, docId, doc)
    then t.(docs := t.docs[docId := doc])
    else t
  }

  /** The write half of an edit: it does not look at the status again. */
  function WriteDocContent(t: Tables, docId: string, detail: seq<DetailLine>): Tables {
    if docId in t.docs then t.(docs := t.docs[docId := t.docs[docId].(detail := detail)]) else t
  }

  /** The write half of a status change: it does not look at the status again. */
  function WriteDocStatus(t: Tables, docId: string, target: ReviewStatus): Tables {
    if docId in t.docs then t.(docs := t.docs[docId := t.docs[docId].(status := target)]) else t
  }

  // ---- Project budgets ----

  function ZeroBudget(docId: string, projectId: Id, item: BudgetItem): ProjectBudget {
    ProjectBudget(docId, projectId, item.voucherType, item.unit, 0, 0, 0, 0, 0)
  }

  function ZeroBudgets(docId: string, projectId: Id, items: seq<BudgetItem>): (rows: seq<ProjectBudget>)
    ensures |rows| == |items|
    ensures forall i | 0 <= i < |items| :: rows[i] == ZeroBudget(docId, projectId, items[i])
  {
    seq(|items|, i requires 0 <= i < |items| => ZeroBudget(docId, projectId, items[i]))
  }

  function InsertedBudgets(budgets: map<Id, ProjectBudget>, ids: seq<Id>, rows: seq<ProjectBudget>)
    : map<Id, ProjectBudget>
    requires |ids| == |rows|
    decreases |ids|
  {
    if ids == [] then budgets else InsertedBudgets(budgets[ids[0] := rows[0]], ids[1..], rows[1..])
  }

  /** A multi-row insert succeeds when every row in turn violates no key. */
  predicate BudgetsInsertable(budgets: map<Id, ProjectBudget>, ids: seq<Id>, rows: seq<ProjectBudget>)
    requires |ids| == |rows|
    decreases |ids|
  {
    ids != [] ==>
      && ProjectBudgetInsertable(budgets, ids[0], rows[0])
      && BudgetsInsertable(budgets[ids[0] := rows[0]], ids[1..], rows[1..])
  }

  predicate CanInsertBudgets(t: Tables, docId: string, projectId: Id, items: seq<BudgetItem>, ids: seq<Id>) {
    docId in t.docs && |ids| == |items|
    && BudgetsInsertable(t.projectBudgets, ids, ZeroBudgets(docId, projectId, items))
  }

  /** The approved event: one empty budget per item, or nothing when any of them exists. */
  function InsertBudgets(t: Tables, docId: string, projectId: Id, items: seq<BudgetItem>, ids: seq<Id>): Tables {
    if CanInsertBudgets(t, docId, projectId, items, ids)
    then t.(projectBudgets := InsertedBudgets(t.projectBudgets, ids, ZeroBudgets(docId, projectId, items)))
    else t
  }

  // ---- Payments ----

  /** The guard of a payment: what the total would become, as formatted, against the doc's amount. */
  predicate WithinDocAmount(total: int, amount: AmountText, cap: AmountText) {
    var next := AddAmount(Number(Value(total)), amount);
    && next.Some?
    && var cmp := CmpAmount(Number(Value(next.value)), cap);
       cmp.Some? && cmp.value <= 0
  }

  /** The amount a DECIMAL(20,8) column keeps of an amount that parsed. */
  function Stored(amount: AmountText): int {
    if ParseAmount(amount).Some? then FormatAmount(ParseAmount(amount).value) else 0
  }

  /** The first detail line of the address, if its amount is filled in. */
  function DetailAmount(detail: seq<DetailLine>, address: string): Option<AmountText> {
    if detail == [] then None
    else if Address(detail[0]) == address then
      (if detail[0].amount == Blank then None else Some(detail[0].amount))
    else DetailAmount(detail[1..], address)
  }

  predicate PaymentAllowed(t: Tables, paymentId: string, budgetId: Id, amount: AmountText, cap: AmountText) {
    && budgetId in t.projectBudgets
    && WithinDocAmount(t.projectBudgets[budgetId].total, amount, cap)
    && paymentId !in t.payments
  }

  function Pay(t: Tables, paymentId: string, docId: string, address: string, budgetId: Id,
               amount: AmountText, cap: AmountText): Tables
  {
    if PaymentAllowed(t, paymentId, budgetId, amount, cap) then
      var b := t.projectBudgets[budgetId];
      t.(payments := t.payments[paymentId := FinancePayment(docId, address, Stored(amount))],
         projectBudgets := t.projectBudgets[budgetId :=
           b.(total := b.total + Stored(amount), available := b.available + Stored(amount))])
    else t
  }

  // ---- Issue requests ----

  function CreateRequest(t: Tables, id: Id, k: Key, amount: AmountText): Tables {
    if id > 0 && id !in t.issueRequests && ParseAmount(amount).Some? then
      t.(issueRequests := t.issueRequests[id :=
        IssueRequest(k.projectId, k.voucherType, k.unit, Stored(amount), Draft)])
    else t
  }

  /** The write half of an edit: it does not look at the status again. */
  function WriteRequestFields(t: Tables, id: Id, voucherType: string, unit: string, amount: int): Tables {
    if id in t.issueRequests then
      t.(issueRequests := t.issueRequests[id :=
        t.issueRequests[id].(voucherType := voucherType, unit := unit, amount := amount)])
    else t
  }

  predicate CanSubmit(t: Tables, id: Id) {
    && id in t.issueRequests
    && var r := t.issueRequests[id];
       && TransitionAllowed(r.status, ToApprove)
       && var b := ProjectBudgetFor(t, RequestKey(r));
          b.Some? && t.projectBudgets[b.value].available >= r.amount
  }

  function Submit(t: Tables, id: Id): Tables {
    if CanSubmit(t, id) then
      var r := t.issueRequests[id];
      var budgetId := ProjectBudgetFor(t, RequestKey(r)).value;
      var b := t.projectBudgets[budgetId];
      t.(issueRequests := t.issueRequests[id := r.(status := ToApprove)],
         projectBudgets := t.projectBudgets[budgetId :=
           b.(available := b.available - r.amount, withhold := b.withhold + r.amount)])
    else t
  }

  /** The guard shared by approval and rejection. */
  predicate CanDecide(t: Tables, id: Id, target: ReviewStatus) {
    && id in t.issueRequests
    && var r := t.issueRequests[id];
       && TransitionAllowed(r.status, target)
       && var b := ProjectBudgetFor(t, RequestKey(r));
          b.Some? && t.projectBudgets[b.value].withhold >= r.amount
  }

  function Approve(t: Tables, id: Id): Tables {
    if CanDecide(t, id, Approved) then
      var r := t.issueRequests[id];
      var budgetId := ProjectBudgetFor(t, RequestKey(r)).value;
      var b := t.projectBudgets[budgetId];
      t.(issueRequests := t.issueRequests[id := r.(status := Approved)],
         projectBudgets := t.projectBudgets[budgetId :=
           b.(issued := b.issued + r.amount, withhold := b.withhold - r.amount)])
    else t
  }

  function Reject(t: Tables, id: Id): Tables {
    if CanDecide(t, id, Rejected) then
      var r := t.issueRequests[id];
      var budgetId := ProjectBudgetFor(t, RequestKey(r)).value;
      var b := t.projectBudgets[budgetId];
      t.(issueRequests := t.issueRequests[id := r.(status := Rejected)],
         projectBudgets := t.projectBudgets[budgetId :=
           b.(available := b.available + r.amount, withhold := b.withhold - r.amount)])
    else t
  }

  function NewIssueBudget(t: Tables, id: Id): IssueBudget
    requires id in t.issueRequests
  {
    var r := t.issueRequests[id];
    IssueBudget(id, r.voucherType, r.unit, r.amount, r.amount, 0, 0, OngoingBudget)
  }

  function MarkOngoing(t: Tables, id: Id): Tables {
    if id in t.issueRequests && t.issueRequests[id].status == Approved
    then t.(issueRequests := t.issueRequests[id := t.issueRequests[id].(status := Ongoing)])
    else t
  }

  /** The update event. `translated` tells whether the driver reports a duplicate key by gorm's
      sentinel; only then does an existing issue budget lead to Ongoing. */
  function StartIssueBudget(t: Tables, id: Id, issueBudgetId: Id, translated: bool): Tables {
    if id in t.issueRequests && t.issueRequests[id].status == Approved then
      if IssueBudgetInsertable(t, issueBudgetId, NewIssueBudget(t, id)) then
        MarkOngoing(t.(issueBudgets := t.issueBudgets[issueBudgetId := NewIssueBudget(t, id)]), id)
      else if translated && IssueBudgetFor(t, id).Some? then MarkOngoing(t, id)
      else t
    else t
  }

  // ---- Reward distribution ----

  function AcceptReward(t: Tables, id: Id, clientRef: string, userId: Id, k: Key, amount: int): Tables {
    var r := RewardRequest(clientRef, userId, k.projectId, k.voucherType, k.unit, amount, PendingReward);
    if ProjectBudgetFor(t, k).Some? && RewardRequestInsertable(t, id, r)
    then t.(rewardRequests := t.rewardRequests[id := r])
    else t
  }

  predicate IsPending(t: Tables, rewardId: Id) {
    rewardId in t.rewardRequests && t.rewardRequests[rewardId].status == PendingReward
  }

  /** The compare-and-set of a reward request from pending to completed. */
  function Complete(t: Tables, rewardId: Id): Tables {
    if IsPending(t, rewardId)
    then t.(rewardRequests := t.rewardRequests[rewardId := t.rewardRequests[rewardId].(status := CompletedReward)])
    else t
  }

  function RiskFailureRecord(rewardId: Id, rr: RewardRequest, voucherId: string, reason: string): IssueRecord {
    IssueRecord(voucherId, rewardId, None, rr.projectId, rr.userId, rr.voucherType, rr.unit,
                0, FailedRecord, if reason == "" then "risk check failed" else reason, rr.clientRef)
  }

  function FailAtRisk(t: Tables, recordId: Id, rec: IssueRecord): Tables {
    if RecordInsertable(t, recordId, rec) && IsPending(t, rec.rewardRequestId)
    then Complete(t.(issueRecords := t.issueRecords[recordId := rec]), rec.rewardRequestId)
    else t
  }

  function PendingRecordFor(rewardId: Id, rr: RewardRequest, issueRequestId: Id, voucherId: string): IssueRecord {
    IssueRecord(voucherId, rewardId, Some(issueRequestId), rr.projectId, rr.userId, rr.voucherType, rr.unit,
                rr.amount, PendingRecord, "", rr.clientRef)
  }

  predicate CanPreOccupy(t: Tables, budgetId: Id, issueBudgetId: Id, amount: int, recordId: Id, rec: IssueRecord) {
    && budgetId in t.projectBudgets && t.projectBudgets[budgetId].available >= amount
    && issueBudgetId in t.issueBudgets && t.issueBudgets[issueBudgetId].available >= amount
    && RecordInsertable(t, recordId, rec)
  }

  function PreOccupy(t: Tables, budgetId: Id, issueBudgetId: Id, amount: int, recordId: Id, rec: IssueRecord): Tables {
    if CanPreOccupy(t, budgetId, issueBudgetId, amount, recordId, rec) then
      var b, ib := t.projectBudgets[budgetId], t.issueBudgets[issueBudgetId];
      t.(projectBudgets := t.projectBudgets[budgetId := b.(available := b.available - amount)],
         issueBudgets := t.issueBudgets[issueBudgetId := ib.(available := ib.available - amount)],
         issueRecords := t.issueRecords[recordId := rec])
    else t
  }

  /** The outcome written into the record at hand. */
  function WithOutcome(rec: IssueRecord, amount: int, success: bool, reason: string): IssueRecord {
    if success then rec.(status := IssuedRecord, rewardAmount := amount, reason := "")
    else rec.(status := FailedRecord, rewardAmount := 0,
              reason := if reason == "" then "downstream business failure" else reason)
  }

  function SettledBudget(b: ProjectBudget, amount: int, success: bool): ProjectBudget {
    if success then b.(issued := b.issued + amount) else b.(refund := b.refund + amount)
  }

  function SettledIssueBudget(ib: IssueBudget, amount: int, success: bool): IssueBudget {
    if success then ib.(issued := ib.issued + amount) else ib.(refund := ib.refund + amount)
  }

  /** All four rows change, or none: the compare-and-set decides. */
  function Finalize(t: Tables, budgetId: Id, issueBudgetId: Id, amount: int, success: bool,
                    recordId: Id, rec: IssueRecord, rewardId: Id): Tables
  {
    if IsPending(t, rewardId) then
      var u := Complete(t.(issueRecords := t.issueRecords[recordId := rec]), rewardId);
      u.(projectBudgets :=
           if budgetId in u.projectBudgets
           then u.projectBudgets[budgetId := SettledBudget(u.projectBudgets[budgetId], amount, success)]
           else u.projectBudgets,
         issueBudgets :=
           if issueBudgetId in u.issueBudgets
           then u.issueBudgets[issueBudgetId := SettledIssueBudget(u.issueBudgets[issueBudgetId], amount, success)]
           else u.issueBudgets)
    else t
  }
}
