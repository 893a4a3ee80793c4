/** Every atomic step keeps TablesOk. One lemma says what a changed table does to the predicates that
    speak about it; the step's lemma puts them together. */
module LedgerSteps {
  import opened Amounts
  import opened BudgetItems
  import opened Evolution
  import opened Ledger
  import opened Schema
  import opened Sums
  import opened Transactions
  import opened Wrappers

  // ---- Frames: what does not depend on the changed columns ----

  lemma BudgetColumnsOnly(budgets: map<Id, ProjectBudget>, budgets': map<Id, ProjectBudget>,
                          docs: map<string, FinanceDoc>, payments: map<string, FinancePayment>,
                          configs: map<string, PayConfig>, rewards: map<Id, RewardRequest>)
    requires budgets.Keys == budgets'.Keys && BudgetsKept(budgets, budgets')
    requires BudgetsUnique(budgets) && BudgetsHaveDocs(budgets, docs)
    requires PaymentsHaveBudgets(payments, budgets, configs) && RewardsFunded(rewards, budgets)
    ensures BudgetsUnique(budgets') && BudgetsHaveDocs(budgets', docs)
    ensures PaymentsHaveBudgets(payments, budgets', configs) && RewardsFunded(rewards, budgets')
  {
    BudgetsStay(budgets, budgets');
  }

  lemma BudgetsStay(budgets: map<Id, ProjectBudget>, budgets': map<Id, ProjectBudget>)
    requires BudgetsKept(budgets, budgets')
    ensures forall k | HasBudget(budgets, k) :: HasBudget(budgets', k)
    ensures forall docId, pair | HasDocBudget(budgets, docId, pair) :: HasDocBudget(budgets', docId, pair)
  {
    forall k: Key | HasBudget(budgets, k) ensures HasBudget(budgets', k) {
      var id :| id in budgets && BudgetKey(budgets[id]) == k;
      assert BudgetKey(budgets'[id]) == k;
    }
    forall docId: string, pair: PayConfig | HasDocBudget(budgets, docId, pair)
      ensures HasDocBudget(budgets', docId, pair)
    {
      var id :| id in budgets && budgets[id].docId == docId && PairOf(budgets[id]) == pair;
      assert budgets'[id].docId == docId && PairOf(budgets'[id]) == pair;
    }
  }

  lemma ChargesStay(records: map<Id, IssueRecord>, m: map<Id, IssueBudget>, m': map<Id, IssueBudget>,
                    requests: map<Id, IssueRequest>, requests': map<Id, IssueRequest>)
    requires IssueBudgetsKept(m, m') && RequestsKept(requests, requests')
    requires RecordsCharged(records, m, requests)
    ensures RecordsCharged(records, m', requests')
  {
    forall id | id in records && HasCharge(records[id], m, requests)
      ensures HasCharge(records[id], m', requests')
    {
      var i :| i in m && ChargedTo(records[id], m[i], requests);
      assert ChargedTo(records[id], m'[i], requests');
    }
  }

  lemma IssueBudgetsStay(m: map<Id, IssueBudget>, m': map<Id, IssueBudget>)
    requires IssueBudgetsKept(m, m')
    ensures forall r | HasIssueBudget(m, r) :: HasIssueBudget(m', r)
  {
    forall r | HasIssueBudget(m, r) ensures HasIssueBudget(m', r) {
      var id :| id in m && m[id].issueRequestId == r;
      assert m'[id].issueRequestId == r;
    }
  }

  lemma IssueBudgetColumnsOnly(m: map<Id, IssueBudget>, m': map<Id, IssueBudget>, requests: map<Id, IssueRequest>)
    requires m.Keys == m'.Keys && IssueBudgetsKept(m, m')
    requires IssueBudgetsUnique(m) && IssueBudgetsOngoing(m, requests) && OngoingBudgeted(requests, m)
    ensures IssueBudgetsUnique(m') && IssueBudgetsOngoing(m', requests) && OngoingBudgeted(requests, m')
  {
    IssueBudgetsStay(m, m');
  }

  /** A change of issue requests that keeps their projects, and makes none ongoing. */
  lemma RequestRowsOnly(requests: map<Id, IssueRequest>, requests': map<Id, IssueRequest>,
                        issueBudgets: map<Id, IssueBudget>)
    requires IssueBudgetsOngoing(issueBudgets, requests) && OngoingBudgeted(requests, issueBudgets)
    requires RequestsKept(requests, requests')
    requires forall r | r in requests' && requests'[r].status == Ongoing ::
               r in requests && requests[r].status == Ongoing
    ensures IssueBudgetsOngoing(issueBudgets, requests') && OngoingBudgeted(requests', issueBudgets)
  {
  }

  // ---- Finance docs ----

  lemma DocAfterPut(docs: map<string, FinanceDoc>, docId: string, doc: FinanceDoc,
                    configs: map<string, PayConfig>, budgets: map<Id, ProjectBudget>)
    requires DocsUnique(docs) && DocsAcceptable(docs, configs) && BudgetsHaveDocs(budgets, docs)
    requires Acceptable(configs, doc.detail)
    requires if docId in docs then docs[docId].projectId == doc.projectId
             else forall d | d in docs :: docs[d].projectId != doc.projectId
    ensures var docs' := docs[docId := doc];
            DocsUnique(docs') && DocsAcceptable(docs', configs) && BudgetsHaveDocs(budgets, docs')
  {
  }

  lemma CreateDocKeeps(t: Tables, docId: string, projectId: Id, detail: seq<DetailLine>)
    requires TablesOk(t)
    ensures TablesOk(CreateDoc(t, docId, projectId, detail))
  {
    if CreateDoc(t, docId, projectId, detail) != t {
      DocAfterPut(t.docs, docId, FinanceDoc(projectId, detail, Draft), t.configs, t.projectBudgets);
    }
  }

  lemma DocIsAcceptable(docs: map<string, FinanceDoc>, configs: map<string, PayConfig>, docId: string)
    requires DocsAcceptable(docs, configs) && docId in docs
    ensures Acceptable(configs, docs[docId].detail)
  {
  }

  lemma WriteDocContentKeeps(t: Tables, docId: string, detail: seq<DetailLine>)
    requires TablesOk(t) && Acceptable(t.configs, detail)
    ensures TablesOk(WriteDocContent(t, docId, detail))
  {
    if docId in t.docs {
      DocAfterPut(t.docs, docId, t.docs[docId].(detail := detail), t.configs, t.projectBudgets);
    }
  }

  lemma WriteDocStatusKeeps(t: Tables, docId: string, target: ReviewStatus)
    requires TablesOk(t)
    ensures TablesOk(WriteDocStatus(t, docId, target))
  {
    if docId in t.docs {
      DocIsAcceptable(t.docs, t.configs, docId);
      DocAfterPut(t.docs, docId, t.docs[docId].(status := target), t.configs, t.projectBudgets);
    }
  }

  // ---- Issue requests ----

  lemma RequestAfterPut(requests: map<Id, IssueRequest>, id: Id, r: IssueRequest,
                        issueBudgets: map<Id, IssueBudget>, records: map<Id, IssueRecord>)
    requires IssueBudgetsOngoing(issueBudgets, requests) && OngoingBudgeted(requests, issueBudgets)
    requires RecordsCharged(records, issueBudgets, requests) && RequestAmounts(requests)
    requires r.amount >= 0
    requires if id in requests
             then r.projectId == requests[id].projectId && (r.status == Ongoing <==> requests[id].status == Ongoing)
             else r.status != Ongoing
    ensures var requests' := requests[id := r];
            && IssueBudgetsOngoing(issueBudgets, requests') && OngoingBudgeted(requests', issueBudgets)
            && RecordsCharged(records, issueBudgets, requests') && RequestAmounts(requests')
  {
    var requests' := requests[id := r];
    RequestRowsOnly(requests, requests', issueBudgets);
    ChargesStay(records, issueBudgets, issueBudgets, requests, requests');
  }

  lemma CreateRequestKeeps(t: Tables, id: Id, k: Key, amount: AmountText)
    requires TablesOk(t)
    ensures TablesOk(CreateRequest(t, id, k, amount))
  {
    if CreateRequest(t, id, k, amount) != t {
      RequestAfterPut(t.issueRequests, id,
                      IssueRequest(k.projectId, k.voucherType, k.unit, Stored(amount), Draft),
                      t.issueBudgets, t.issueRecords);
    }
  }

  lemma WriteRequestFieldsKeeps(t: Tables, id: Id, voucherType: string, unit: string, amount: int)
    requires TablesOk(t) && amount >= 0
    ensures TablesOk(WriteRequestFields(t, id, voucherType, unit, amount))
  {
    if id in t.issueRequests {
      RequestAfterPut(t.issueRequests, id,
                      t.issueRequests[id].(voucherType := voucherType, unit := unit, amount := amount),
                      t.issueBudgets, t.issueRecords);
    }
  }

  lemma AmountIsNonNegative(requests: map<Id, IssueRequest>, id: Id)
    requires RequestAmounts(requests) && id in requests
    ensures requests[id].amount >= 0
  {
  }

  /** Moving an amount between the columns of one budget keeps its balance. */
  lemma BudgetAfterMove(budgets: map<Id, ProjectBudget>, id: Id, b: ProjectBudget,
                        records: map<Id, IssueRecord>, rewards: map<Id, RewardRequest>,
                        payments: map<string, FinancePayment>, configs: map<string, PayConfig>)
    requires BudgetsBalanced(budgets, records, rewards) && BudgetsPaid(budgets, payments, configs)
    requires id in budgets && SameBudget(budgets[id], b)
    requires b.total == budgets[id].total && b.refund == budgets[id].refund
    requires b.available >= 0 && b.withhold >= 0 && b.issued >= budgets[id].issued
    requires b.available + b.withhold + b.issued == budgets[id].available + budgets[id].withhold + budgets[id].issued
    ensures BudgetsBalanced(budgets[id := b], records, rewards)
    ensures BudgetsPaid(budgets[id := b], payments, configs)
  {
  }

  lemma BudgetIsNonNegative(budgets: map<Id, ProjectBudget>, records: map<Id, IssueRecord>,
                            rewards: map<Id, RewardRequest>, id: Id)
    requires BudgetsBalanced(budgets, records, rewards) && id in budgets
    ensures BudgetBalanced(budgets[id], records, rewards)
  {
  }

  /** A request changes status short of ongoing, while one budget moves an amount between columns. */
  lemma MoveKeeps(t: Tables, id: Id, status: ReviewStatus, budgetId: Id, b: ProjectBudget)
    requires TablesOk(t)
    requires id in t.issueRequests && t.issueRequests[id].status != Ongoing && status != Ongoing
    requires budgetId in t.projectBudgets && SameBudget(t.projectBudgets[budgetId], b)
    requires b.total == t.projectBudgets[budgetId].total && b.refund == t.projectBudgets[budgetId].refund
    requires b.available >= 0 && b.withhold >= 0 && b.issued >= t.projectBudgets[budgetId].issued
    requires b.available + b.withhold + b.issued == t.projectBudgets[budgetId].available
                                                    + t.projectBudgets[budgetId].withhold
                                                    + t.projectBudgets[budgetId].issued
    ensures TablesOk(t.(issueRequests := t.issueRequests[id := t.issueRequests[id].(status := status)],
                        projectBudgets := t.projectBudgets[budgetId := b]))
  {
    var budgets' := t.projectBudgets[budgetId := b];
    OneBudgetKept(t.projectBudgets, budgetId, b);
    BudgetColumnsOnly(t.projectBudgets, budgets', t.docs, t.payments, t.configs, t.rewardRequests);
    BudgetAfterMove(t.projectBudgets, budgetId, b, t.issueRecords, t.rewardRequests, t.payments, t.configs);
    AmountIsNonNegative(t.issueRequests, id);
    RequestAfterPut(t.issueRequests, id, t.issueRequests[id].(status := status), t.issueBudgets, t.issueRecords);
  }

  lemma OneBudgetKept(budgets: map<Id, ProjectBudget>, id: Id, b: ProjectBudget)
    requires id in budgets && SameBudget(budgets[id], b)
    ensures BudgetsKept(budgets, budgets[id := b]) && budgets[id := b].Keys == budgets.Keys
  {
  }

  lemma NothingIsNegative(t: Tables, id: Id, budgetId: Id)
    requires TablesOk(t) && id in t.issueRequests && budgetId in t.projectBudgets
    ensures t.issueRequests[id].amount >= 0
    ensures var b := t.projectBudgets[budgetId]; b.available >= 0 && b.withhold >= 0 && b.issued >= 0
  {
    BudgetIsNonNegative(t.projectBudgets, t.issueRecords, t.rewardRequests, budgetId);
  }

  lemma SubmitKeeps(t: Tables, id: Id)
    requires TablesOk(t)
    ensures TablesOk(Submit(t, id))
  {
    hide TablesOk;
    if CanSubmit(t, id) {
      var r := t.issueRequests[id];
      var budgetId := ProjectBudgetFor(t, RequestKey(r)).value;
      var b := t.projectBudgets[budgetId];
      NothingIsNegative(t, id, budgetId);
      MoveKeeps(t, id, ToApprove, budgetId, b.(available := b.available - r.amount, withhold := b.withhold + r.amount));
    }
  }

  lemma ApproveKeeps(t: Tables, id: Id)
    requires TablesOk(t)
    ensures TablesOk(Approve(t, id))
  {
    hide TablesOk;
    if CanDecide(t, id, Approved) {
      var r := t.issueRequests[id];
      var budgetId := ProjectBudgetFor(t, RequestKey(r)).value;
      var b := t.projectBudgets[budgetId];
      NothingIsNegative(t, id, budgetId);
      MoveKeeps(t, id, Approved, budgetId, b.(issued := b.issued + r.amount, withhold := b.withhold - r.amount));
    }
  }

  lemma RejectKeeps(t: Tables, id: Id)
    requires TablesOk(t)
    ensures TablesOk(Reject(t, id))
  {
    hide TablesOk;
    if CanDecide(t, id, Rejected) {
      var r := t.issueRequests[id];
      var budgetId := ProjectBudgetFor(t, RequestKey(r)).value;
      var b := t.projectBudgets[budgetId];
      NothingIsNegative(t, id, budgetId);
      MoveKeeps(t, id, Rejected, budgetId, b.(available := b.available + r.amount, withhold := b.withhold - r.amount));
    }
  }

  // ---- Empty project budgets ----

  lemma UnknownKeyHasNoRecords(budgets: map<Id, ProjectBudget>, records: map<Id, IssueRecord>,
                               rewards: map<Id, RewardRequest>, k: Key)
    requires RewardsFunded(rewards, budgets) && RecordsMatchRewards(records, rewards)
    requires !HasBudget(budgets, k)
    ensures forall c :: RecordSum(records, rewards, k, c) == 0
  {
    forall c ensures RecordSum(records, rewards, k, c) == 0 {
      assert forall id | id in records :: RecordKey(records[id]) == RewardKey(rewards[records[id].rewardRequestId]);
      NoRecordsNoSum(records, rewards, k, c);
    }
  }

  lemma UnknownPairHasNoPayments(budgets: map<Id, ProjectBudget>, payments: map<string, FinancePayment>,
                                 configs: map<string, PayConfig>, docId: string, pair: PayConfig)
    requires PaymentsHaveBudgets(payments, budgets, configs)
    requires !HasDocBudget(budgets, docId, pair)
    ensures PaidSum(payments, configs, docId, pair) == 0
  {
    NoPaymentsNoSum(payments, configs, docId, pair);
  }

  lemma BudgetAfterInsert(budgets: map<Id, ProjectBudget>, id: Id, b: ProjectBudget,
                          docs: map<string, FinanceDoc>, payments: map<string, FinancePayment>,
                          configs: map<string, PayConfig>, rewards: map<Id, RewardRequest>)
    requires BudgetsUnique(budgets) && BudgetsHaveDocs(budgets, docs)
    requires PaymentsHaveBudgets(payments, budgets, configs) && RewardsFunded(rewards, budgets)
    requires ProjectBudgetInsertable(budgets, id, b)
    requires b.docId in docs && docs[b.docId].projectId == b.projectId
    ensures var budgets' := budgets[id := b];
            && BudgetsUnique(budgets') && BudgetsHaveDocs(budgets', docs)
            && PaymentsHaveBudgets(payments, budgets', configs) && RewardsFunded(rewards, budgets')
            && BudgetsKept(budgets, budgets')
  {
    BudgetsStay(budgets, budgets[id := b]);
  }

  lemma SumsAfterBudgetInsert(budgets: map<Id, ProjectBudget>, id: Id, b: ProjectBudget,
                              records: map<Id, IssueRecord>, rewards: map<Id, RewardRequest>,
                              payments: map<string, FinancePayment>, configs: map<string, PayConfig>)
    requires BudgetsBalanced(budgets, records, rewards) && BudgetsPaid(budgets, payments, configs)
    requires b.total == b.available == b.withhold == b.issued == b.refund == 0
    requires forall c :: RecordSum(records, rewards, BudgetKey(b), c) == 0
    requires PaidSum(payments, configs, b.docId, PairOf(b)) == 0
    ensures BudgetsBalanced(budgets[id := b], records, rewards)
    ensures BudgetsPaid(budgets[id := b], payments, configs)
  {
    assert BudgetBalanced(b, records, rewards);
  }

  lemma InsertZeroBudgetKeeps(t: Tables, id: Id, b: ProjectBudget)
    requires TablesOk(t)
    requires ProjectBudgetInsertable(t.projectBudgets, id, b)
    requires b.docId in t.docs && t.docs[b.docId].projectId == b.projectId
    requires b.total == b.available == b.withhold == b.issued == b.refund == 0
    ensures TablesOk(t.(projectBudgets := t.projectBudgets[id := b]))
  {
    BudgetAfterInsert(t.projectBudgets, id, b, t.docs, t.payments, t.configs, t.rewardRequests);
    UnknownKeyHasNoRecords(t.projectBudgets, t.issueRecords, t.rewardRequests, BudgetKey(b));
    UnknownPairHasNoPayments(t.projectBudgets, t.payments, t.configs, b.docId, PairOf(b));
    SumsAfterBudgetInsert(t.projectBudgets, id, b, t.issueRecords, t.rewardRequests, t.payments, t.configs);
  }

  /** A multi-row insert of empty budgets, row by row. */
  lemma {:induction false} InsertZeroBudgetsKeep(t: Tables, docId: string, ids: seq<Id>, rows: seq<ProjectBudget>)
    requires TablesOk(t)
    requires |ids| == |rows| && BudgetsInsertable(t.projectBudgets, ids, rows)
    requires docId in t.docs
    requires forall i | 0 <= i < |rows| ::
               && rows[i].docId == docId && rows[i].projectId == t.docs[docId].projectId
               && rows[i].total == rows[i].available == rows[i].withhold == rows[i].issued == rows[i].refund == 0
    ensures TablesOk(t.(projectBudgets := InsertedBudgets(t.projectBudgets, ids, rows)))
    decreases |ids|
  {
    if ids != [] {
      InsertZeroBudgetKeeps(t, ids[0], rows[0]);
      InsertZeroBudgetsKeep(t.(projectBudgets := t.projectBudgets[ids[0] := rows[0]]), docId, ids[1..], rows[1..]);
    } else {
      assert t.(projectBudgets := InsertedBudgets(t.projectBudgets, ids, rows)) == t;
    }
  }

  lemma InsertBudgetsKeeps(t: Tables, docId: string, projectId: Id, items: seq<BudgetItem>, ids: seq<Id>)
    requires TablesOk(t) && (docId in t.docs ==> t.docs[docId].projectId == projectId)
    ensures TablesOk(InsertBudgets(t, docId, projectId, items, ids))
  {
    if InsertBudgets(t, docId, projectId, items, ids) != t {
      InsertZeroBudgetsKeep(t, docId, ids, ZeroBudgets(docId, projectId, items));
    }
  }

  // ---- Payments ----

  lemma SameDocAndPair(budgets: map<Id, ProjectBudget>, docs: map<string, FinanceDoc>, i: Id, j: Id)
    requires BudgetsUnique(budgets) && BudgetsHaveDocs(budgets, docs)
    requires i in budgets && j in budgets
    requires budgets[i].docId == budgets[j].docId && PairOf(budgets[i]) == PairOf(budgets[j])
    ensures i == j
  {
    assert BudgetKey(budgets[i]) == BudgetKey(budgets[j]);
  }

  lemma PaidAfterPayment(budgets: map<Id, ProjectBudget>, docs: map<string, FinanceDoc>,
                         payments: map<string, FinancePayment>, configs: map<string, PayConfig>,
                         id: Id, b: ProjectBudget, paymentId: string, p: FinancePayment)
    requires BudgetsUnique(budgets) && BudgetsHaveDocs(budgets, docs) && BudgetsPaid(budgets, payments, configs)
    requires paymentId !in payments && id in budgets && SameBudget(budgets[id], b)
    requires PaysFor(p, configs, b.docId, PairOf(b)) && b.total == budgets[id].total + p.amount
    ensures BudgetsPaid(budgets[id := b], payments[paymentId := p], configs)
  {
    var budgets', payments' := budgets[id := b], payments[paymentId := p];
    forall i | i in budgets'
      ensures budgets'[i].total == PaidSum(payments', configs, budgets'[i].docId, PairOf(budgets'[i]))
    {
      PaidSumAfterNew(payments, configs, paymentId, p, budgets'[i].docId, PairOf(budgets'[i]));
      if i != id && PaysFor(p, configs, budgets[i].docId, PairOf(budgets[i])) {
        SameDocAndPair(budgets, docs, i, id);
      }
    }
  }

  lemma BalancedAfterPayment(budgets: map<Id, ProjectBudget>, records: map<Id, IssueRecord>,
                             rewards: map<Id, RewardRequest>, id: Id, amount: int)
    requires BudgetsBalanced(budgets, records, rewards) && id in budgets && amount >= 0
    ensures var b := budgets[id];
            BudgetsBalanced(budgets[id := b.(total := b.total + amount, available := b.available + amount)], records,
                            rewards)
  {
    var b := budgets[id].(total := budgets[id].total + amount, available := budgets[id].available + amount);
    assert BudgetBalanced(budgets[id], records, rewards);
    assert BudgetKey(b) == BudgetKey(budgets[id]);
    assert BudgetBalanced(b, records, rewards);
  }

  lemma PaymentHasBudget(payments: map<string, FinancePayment>, budgets: map<Id, ProjectBudget>,
                         configs: map<string, PayConfig>, id: Id, paymentId: string, p: FinancePayment)
    requires PaymentsHaveBudgets(payments, budgets, configs)
    requires id in budgets && p.amount >= 0 && PaysFor(p, configs, budgets[id].docId, PairOf(budgets[id]))
    ensures PaymentsHaveBudgets(payments[paymentId := p], budgets, configs)
  {
  }

  lemma PayKeeps(t: Tables, paymentId: string, docId: string, address: string, budgetId: Id,
                 amount: AmountText, cap: AmountText)
    requires TablesOk(t)
    requires budgetId in t.projectBudgets ==>
               PaysFor(FinancePayment(docId, address, Stored(amount)), t.configs,
                       t.projectBudgets[budgetId].docId, PairOf(t.projectBudgets[budgetId]))
    ensures TablesOk(Pay(t, paymentId, docId, address, budgetId, amount, cap))
  {
    hide BudgetsUnique, DocsUnique, IssueBudgetsUnique, RewardsUnique, RecordsUnique, BudgetsHaveDocs,
         DocsAcceptable, PaymentsHaveBudgets, RewardsFunded, RequestAmounts, IssueBudgetsOngoing,
         OngoingBudgeted, RecordsCharged, RecordsMatchRewards, CompletedHaveRecords, BudgetsBalanced,
         BudgetsPaid, IssueBudgetsBalanced;
    if PaymentAllowed(t, paymentId, budgetId, amount, cap) {
      var p := FinancePayment(docId, address, Stored(amount));
      var b := t.projectBudgets[budgetId];
      var b' := b.(total := b.total + Stored(amount), available := b.available + Stored(amount));
      OneBudgetKept(t.projectBudgets, budgetId, b');
      PaymentHasBudget(t.payments, t.projectBudgets, t.configs, budgetId, paymentId, p);
      BudgetColumnsOnly(t.projectBudgets, t.projectBudgets[budgetId := b'], t.docs,
                        t.payments[paymentId := p], t.configs, t.rewardRequests);
      PaidAfterPayment(t.projectBudgets, t.docs, t.payments, t.configs, budgetId, b', paymentId, p);
      BalancedAfterPayment(t.projectBudgets, t.issueRecords, t.rewardRequests, budgetId, Stored(amount));
    }
  }

  // ---- Issue budgets ----

  lemma UnbudgetedHasNoCharges(issueBudgets: map<Id, IssueBudget>, records: map<Id, IssueRecord>,
                               rewards: map<Id, RewardRequest>, requests: map<Id, IssueRequest>, r: Id)
    requires RecordsCharged(records, issueBudgets, requests) && !HasIssueBudget(issueBudgets, r)
    ensures forall c :: ChargeSum(records, rewards, r, c) == 0
  {
    forall c ensures ChargeSum(records, rewards, r, c) == 0 {
      assert forall id | id in records && records[id].issueRequestId.Some? ::
        HasCharge(records[id], issueBudgets, requests);
      NoChargesNoSum(records, rewards, r, c);
    }
  }

  lemma IssueBudgetAfterInsert(m: map<Id, IssueBudget>, id: Id, ib: IssueBudget, requests: map<Id, IssueRequest>)
    requires IssueBudgetsUnique(m) && IssueBudgetsOngoing(m, requests) && OngoingBudgeted(requests, m)
    requires id !in m && !HasIssueBudget(m, ib.issueRequestId) && ib.issueRequestId in requests
    ensures var requests' := requests[ib.issueRequestId := requests[ib.issueRequestId].(status := Ongoing)];
            && IssueBudgetsUnique(m[id := ib]) && IssueBudgetsOngoing(m[id := ib], requests')
            && OngoingBudgeted(requests', m[id := ib])
            && IssueBudgetsKept(m, m[id := ib]) && RequestsKept(requests, requests')
  {
    var m' := m[id := ib];
    IssueBudgetsStay(m, m');
    assert m'[id].issueRequestId == ib.issueRequestId;
    assert HasIssueBudget(m', ib.issueRequestId);
  }

  lemma SumsAfterIssueBudgetInsert(m: map<Id, IssueBudget>, id: Id, ib: IssueBudget,
                                   records: map<Id, IssueRecord>, rewards: map<Id, RewardRequest>)
    requires IssueBudgetsBalanced(m, records, rewards)
    requires ib.total == ib.available >= 0 && ib.issued == ib.refund == 0
    requires forall c :: ChargeSum(records, rewards, ib.issueRequestId, c) == 0
    ensures IssueBudgetsBalanced(m[id := ib], records, rewards)
  {
    assert IssueBudgetBalanced(ib, records, rewards);
  }

  lemma ApprovedHasNoIssueBudget(t: Tables, id: Id)
    requires IssueBudgetsOngoing(t.issueBudgets, t.issueRequests)
    requires id in t.issueRequests && t.issueRequests[id].status != Ongoing
    ensures !HasIssueBudget(t.issueBudgets, id)
    ensures IssueBudgetFor(t, id).None?
  {
  }

  lemma StatusKeepsAmounts(requests: map<Id, IssueRequest>, id: Id, status: ReviewStatus)
    requires RequestAmounts(requests) && id in requests
    ensures RequestAmounts(requests[id := requests[id].(status := status)])
  {
  }

  lemma StartIssueBudgetKeeps(t: Tables, id: Id, issueBudgetId: Id, translated: bool)
    requires TablesOk(t)
    ensures TablesOk(StartIssueBudget(t, id, issueBudgetId, translated))
  {
    if id in t.issueRequests && t.issueRequests[id].status == Approved {
      ApprovedHasNoIssueBudget(t, id);
      var ib := NewIssueBudget(t, id);
      if IssueBudgetInsertable(t, issueBudgetId, ib) {
        var m' := t.issueBudgets[issueBudgetId := ib];
        var requests' := t.issueRequests[id := t.issueRequests[id].(status := Ongoing)];
        IssueBudgetAfterInsert(t.issueBudgets, issueBudgetId, ib, t.issueRequests);
        ChargesStay(t.issueRecords, t.issueBudgets, m', t.issueRequests, requests');
        UnbudgetedHasNoCharges(t.issueBudgets, t.issueRecords, t.rewardRequests, t.issueRequests, id);
        AmountIsNonNegative(t.issueRequests, id);
        SumsAfterIssueBudgetInsert(t.issueBudgets, issueBudgetId, ib, t.issueRecords, t.rewardRequests);
        StatusKeepsAmounts(t.issueRequests, id, Ongoing);
      }
    }
  }

  // ---- Reward requests ----

  lemma BalancesIgnoreStatus(t: Tables, rewards': map<Id, RewardRequest>)
    requires BudgetsBalanced(t.projectBudgets, t.issueRecords, t.rewardRequests)
    requires IssueBudgetsBalanced(t.issueBudgets, t.issueRecords, t.rewardRequests)
    requires SameAmounts(t.issueRecords, t.rewardRequests, rewards')
    ensures BudgetsBalanced(t.projectBudgets, t.issueRecords, rewards')
    ensures IssueBudgetsBalanced(t.issueBudgets, t.issueRecords, rewards')
  {
    SumsIgnoreStatus(t.issueRecords, t.rewardRequests, rewards');
    forall id | id in t.projectBudgets ensures BudgetBalanced(t.projectBudgets[id], t.issueRecords, rewards') {
      assert BudgetBalanced(t.projectBudgets[id], t.issueRecords, t.rewardRequests);
    }
    forall id | id in t.issueBudgets ensures IssueBudgetBalanced(t.issueBudgets[id], t.issueRecords, rewards') {
      assert IssueBudgetBalanced(t.issueBudgets[id], t.issueRecords, t.rewardRequests);
    }
  }

  lemma RewardAfterInsert(rewards: map<Id, RewardRequest>, id: Id, r: RewardRequest,
                          budgets: map<Id, ProjectBudget>, records: map<Id, IssueRecord>)
    requires RewardsUnique(rewards) && RewardsFunded(rewards, budgets)
    requires RecordsMatchRewards(records, rewards) && CompletedHaveRecords(rewards, records)
    requires id > 0 && id !in rewards && forall i | i in rewards :: rewards[i].clientRef != r.clientRef
    requires r.amount >= 0 && r.status == PendingReward && HasBudget(budgets, RewardKey(r))
    ensures var rewards' := rewards[id := r];
            && RewardsUnique(rewards') && RewardsFunded(rewards', budgets)
            && RecordsMatchRewards(records, rewards') && CompletedHaveRecords(rewards', records)
            && SameAmounts(records, rewards, rewards')
  {
  }

  lemma AcceptRewardKeeps(t: Tables, id: Id, clientRef: string, userId: Id, k: Key, amount: int)
    requires TablesOk(t) && amount >= 0
    ensures TablesOk(AcceptReward(t, id, clientRef, userId, k, amount))
  {
    var r := RewardRequest(clientRef, userId, k.projectId, k.voucherType, k.unit, amount, PendingReward);
    if AcceptReward(t, id, clientRef, userId, k, amount) != t {
      assert BudgetKey(t.projectBudgets[ProjectBudgetFor(t, k).value]) == RewardKey(r);
      RewardAfterInsert(t.rewardRequests, id, r, t.projectBudgets, t.issueRecords);
      BalancesIgnoreStatus(t, t.rewardRequests[id := r]);
    }
  }
}
