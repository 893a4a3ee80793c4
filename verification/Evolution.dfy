/** How one committed state may differ from an earlier one: what is never undone. */
module Evolution {
  import opened BudgetItems
  import opened Amounts
  import opened Ledger
  import opened Schema
  import opened Transactions
  import opened Wrappers

  predicate RewardEvolves(a: RewardRequest, b: RewardRequest) {
    b == a || b == a.(status := CompletedReward)
  }

  predicate SameIdentity(a: IssueRecord, b: IssueRecord) {
    && a.voucherId == b.voucherId && a.rewardRequestId == b.rewardRequestId
    && a.issueRequestId == b.issueRequestId && a.userId == b.userId
    && RecordKey(a) == RecordKey(b) && a.clientRef == b.clientRef
  }

  predicate RecordEvolves(a: IssueRecord, b: IssueRecord) {
    b == a || (a.status == PendingRecord && SameIdentity(a, b))
  }

  predicate SameBudget(a: ProjectBudget, b: ProjectBudget) {
    a.docId == b.docId && BudgetKey(a) == BudgetKey(b)
  }

  predicate SameIssueBudget(a: IssueBudget, b: IssueBudget) {
    && a.issueRequestId == b.issueRequestId && a.voucherType == b.voucherType && a.unit == b.unit
    && a.total == b.total && a.status == b.status
  }

  ghost predicate BudgetsKept(m: map<Id, ProjectBudget>, m': map<Id, ProjectBudget>) {
    forall id | id in m :: id in m' && SameBudget(m[id], m'[id])
  }

  ghost predicate IssueBudgetsKept(m: map<Id, IssueBudget>, m': map<Id, IssueBudget>) {
    forall id | id in m :: id in m' && SameIssueBudget(m[id], m'[id])
  }

  ghost predicate RewardsKept(m: map<Id, RewardRequest>, m': map<Id, RewardRequest>) {
    forall id | id in m :: id in m' && RewardEvolves(m[id], m'[id])
  }

  ghost predicate RecordsKept(m: map<Id, IssueRecord>, m': map<Id, IssueRecord>) {
    forall id | id in m :: id in m' && RecordEvolves(m[id], m'[id])
  }

  /** The project of a request never changes, and ongoing is final. */
  ghost predicate RequestsKept(m: map<Id, IssueRequest>, m': map<Id, IssueRequest>) {
    forall id | id in m :: id in m' && m'[id].projectId == m[id].projectId
                           && (m[id].status == Ongoing ==> m'[id].status == Ongoing)
  }

  ghost predicate DocsKept(m: map<string, FinanceDoc>, m': map<string, FinanceDoc>) {
    forall d | d in m :: d in m' && m'[d].projectId == m[d].projectId
  }

  ghost predicate PaymentsKept(m: map<string, FinancePayment>, m': map<string, FinancePayment>) {
    forall p | p in m :: p in m' && m'[p] == m[p]
  }

  ghost predicate Evolves(t: Tables, t': Tables) {
    && t'.configs == t.configs
    && DocsKept(t.docs, t'.docs)
    && PaymentsKept(t.payments, t'.payments)
    && BudgetsKept(t.projectBudgets, t'.projectBudgets)
    && RequestsKept(t.issueRequests, t'.issueRequests)
    && IssueBudgetsKept(t.issueBudgets, t'.issueBudgets)
    && RewardsKept(t.rewardRequests, t'.rewardRequests)
    && RecordsKept(t.issueRecords, t'.issueRecords)
  }

  lemma EvolvesIsTransitive(t: Tables, u: Tables, v: Tables)
    requires Evolves(t, u) && Evolves(u, v)
    ensures Evolves(t, v)
  {
  }

  lemma NothingChanged(t: Tables)
    ensures DocsKept(t.docs, t.docs) && PaymentsKept(t.payments, t.payments)
    ensures BudgetsKept(t.projectBudgets, t.projectBudgets) && RequestsKept(t.issueRequests, t.issueRequests)
    ensures IssueBudgetsKept(t.issueBudgets, t.issueBudgets) && RewardsKept(t.rewardRequests, t.rewardRequests)
    ensures RecordsKept(t.issueRecords, t.issueRecords)
  {
  }

  // ---- One row changes, or is new ----

  lemma DocPut(m: map<string, FinanceDoc>, d: string, doc: FinanceDoc)
    requires d in m ==> doc.projectId == m[d].projectId
    ensures DocsKept(m, m[d := doc])
  {
  }

  lemma BudgetPut(m: map<Id, ProjectBudget>, id: Id, b: ProjectBudget)
    requires id in m ==> SameBudget(m[id], b)
    ensures BudgetsKept(m, m[id := b])
  {
  }

  lemma RequestPut(m: map<Id, IssueRequest>, id: Id, r: IssueRequest)
    requires id in m ==> r.projectId == m[id].projectId && (m[id].status == Ongoing ==> r.status == Ongoing)
    ensures RequestsKept(m, m[id := r])
  {
  }

  lemma IssueBudgetPut(m: map<Id, IssueBudget>, id: Id, ib: IssueBudget)
    requires id in m ==> SameIssueBudget(m[id], ib)
    ensures IssueBudgetsKept(m, m[id := ib])
  {
  }

  lemma RewardPut(m: map<Id, RewardRequest>, id: Id, rr: RewardRequest)
    requires id in m ==> RewardEvolves(m[id], rr)
    ensures RewardsKept(m, m[id := rr])
  {
  }

  lemma RecordPut(m: map<Id, IssueRecord>, id: Id, rec: IssueRecord)
    requires id in m ==> RecordEvolves(m[id], rec)
    ensures RecordsKept(m, m[id := rec])
  {
  }

  lemma PaymentPut(m: map<string, FinancePayment>, id: string, p: FinancePayment)
    requires id !in m
    ensures PaymentsKept(m, m[id := p])
  {
  }

  // ---- Every atomic step only adds rows, and keeps what is final ----

  lemma CreateDocEvolves(t: Tables, docId: string, projectId: Id, detail: seq<DetailLine>)
    ensures Evolves(t, CreateDoc(t, docId, projectId, detail))
  {
    NothingChanged(t);
    if CreateDoc(t, docId, projectId, detail) != t {
      DocPut(t.docs, docId, FinanceDoc(projectId, detail, Draft));
    }
  }

  lemma WriteDocEvolves(t: Tables, docId: string, detail: seq<DetailLine>, target: ReviewStatus)
    ensures Evolves(t, WriteDocContent(t, docId, detail)) && Evolves(t, WriteDocStatus(t, docId, target))
  {
    NothingChanged(t);
    if docId in t.docs {
      DocPut(t.docs, docId, t.docs[docId].(detail := detail));
      DocPut(t.docs, docId, t.docs[docId].(status := target));
    }
  }

  lemma {:induction false} InsertedBudgetsKept(budgets: map<Id, ProjectBudget>, ids: seq<Id>, rows: seq<ProjectBudget>)
    requires |ids| == |rows| && BudgetsInsertable(budgets, ids, rows)
    ensures forall id | id in budgets :: id in InsertedBudgets(budgets, ids, rows)
                                         && InsertedBudgets(budgets, ids, rows)[id] == budgets[id]
    decreases |ids|
  {
    if ids != [] {
      InsertedBudgetsKept(budgets[ids[0] := rows[0]], ids[1..], rows[1..]);
    }
  }

  /** Replaying the approved event alters no existing row. */
  lemma InsertBudgetsAltersNoRow(t: Tables, docId: string, projectId: Id, items: seq<BudgetItem>, ids: seq<Id>)
    ensures BudgetsKept(t.projectBudgets, InsertBudgets(t, docId, projectId, items, ids).projectBudgets)
    ensures forall id | id in t.projectBudgets :: id in InsertBudgets(t, docId, projectId, items, ids).projectBudgets
              && InsertBudgets(t, docId, projectId, items, ids).projectBudgets[id] == t.projectBudgets[id]
  {
    if InsertBudgets(t, docId, projectId, items, ids) != t {
      InsertedBudgetsKept(t.projectBudgets, ids, ZeroBudgets(docId, projectId, items));
    }
  }

  lemma InsertBudgetsEvolves(t: Tables, docId: string, projectId: Id, items: seq<BudgetItem>, ids: seq<Id>)
    ensures Evolves(t, InsertBudgets(t, docId, projectId, items, ids))
  {
    NothingChanged(t);
    InsertBudgetsAltersNoRow(t, docId, projectId, items, ids);
  }

  lemma PayEvolves(t: Tables, paymentId: string, docId: string, address: string, budgetId: Id,
                   amount: AmountText, cap: AmountText)
    ensures Evolves(t, Pay(t, paymentId, docId, address, budgetId, amount, cap))
  {
    NothingChanged(t);
    var t' := Pay(t, paymentId, docId, address, budgetId, amount, cap);
    if PaymentAllowed(t, paymentId, budgetId, amount, cap) {
      PaymentPut(t.payments, paymentId, t'.payments[paymentId]);
      BudgetPut(t.projectBudgets, budgetId, t'.projectBudgets[budgetId]);
    }
  }

  lemma CreateRequestEvolves(t: Tables, id: Id, k: Key, amount: AmountText)
    ensures Evolves(t, CreateRequest(t, id, k, amount))
  {
    NothingChanged(t);
    var t' := CreateRequest(t, id, k, amount);
    if t' != t { RequestPut(t.issueRequests, id, t'.issueRequests[id]); }
  }

  lemma WriteRequestFieldsEvolves(t: Tables, id: Id, voucherType: string, unit: string, amount: int)
    ensures Evolves(t, WriteRequestFields(t, id, voucherType, unit, amount))
  {
    NothingChanged(t);
    var t' := WriteRequestFields(t, id, voucherType, unit, amount);
    if id in t.issueRequests { RequestPut(t.issueRequests, id, t'.issueRequests[id]); }
  }

  /** One request that is not ongoing and one budget change. */
  lemma MoveEvolves(t: Tables, id: Id, r: IssueRequest, budgetId: Id, b: ProjectBudget)
    requires id in t.issueRequests && t.issueRequests[id].status != Ongoing
             && r.projectId == t.issueRequests[id].projectId
    requires budgetId in t.projectBudgets && SameBudget(t.projectBudgets[budgetId], b)
    ensures Evolves(t, t.(issueRequests := t.issueRequests[id := r], projectBudgets := t.projectBudgets[budgetId := b]))
  {
    NothingChanged(t);
    RequestPut(t.issueRequests, id, r);
    BudgetPut(t.projectBudgets, budgetId, b);
  }

  lemma SubmitEvolves(t: Tables, id: Id)
    ensures Evolves(t, Submit(t, id))
  {
    NothingChanged(t);
    var t' := Submit(t, id);
    if CanSubmit(t, id) {
      var budgetId := ProjectBudgetFor(t, RequestKey(t.issueRequests[id])).value;
      MoveEvolves(t, id, t'.issueRequests[id], budgetId, t'.projectBudgets[budgetId]);
    }
  }

  lemma ApproveEvolves(t: Tables, id: Id)
    ensures Evolves(t, Approve(t, id))
  {
    NothingChanged(t);
    var t' := Approve(t, id);
    if CanDecide(t, id, Approved) {
      var budgetId := ProjectBudgetFor(t, RequestKey(t.issueRequests[id])).value;
      MoveEvolves(t, id, t'.issueRequests[id], budgetId, t'.projectBudgets[budgetId]);
    }
  }

  lemma RejectEvolves(t: Tables, id: Id)
    ensures Evolves(t, Reject(t, id))
  {
    NothingChanged(t);
    var t' := Reject(t, id);
    if CanDecide(t, id, Rejected) {
      var budgetId := ProjectBudgetFor(t, RequestKey(t.issueRequests[id])).value;
      MoveEvolves(t, id, t'.issueRequests[id], budgetId, t'.projectBudgets[budgetId]);
    }
  }

  lemma StartIssueBudgetEvolves(t: Tables, id: Id, issueBudgetId: Id, translated: bool)
    ensures Evolves(t, StartIssueBudget(t, id, issueBudgetId, translated))
  {
    NothingChanged(t);
    var t' := StartIssueBudget(t, id, issueBudgetId, translated);
    if t' != t {
      RequestPut(t.issueRequests, id, t'.issueRequests[id]);
      if IssueBudgetInsertable(t, issueBudgetId, NewIssueBudget(t, id)) {
        IssueBudgetPut(t.issueBudgets, issueBudgetId, t'.issueBudgets[issueBudgetId]);
      }
    }
  }

  lemma AcceptRewardEvolves(t: Tables, id: Id, clientRef: string, userId: Id, k: Key, amount: int)
    ensures Evolves(t, AcceptReward(t, id, clientRef, userId, k, amount))
  {
    NothingChanged(t);
    var t' := AcceptReward(t, id, clientRef, userId, k, amount);
    if t' != t { RewardPut(t.rewardRequests, id, t'.rewardRequests[id]); }
  }

  lemma FailAtRiskEvolves(t: Tables, recordId: Id, rec: IssueRecord)
    ensures Evolves(t, FailAtRisk(t, recordId, rec))
  {
    NothingChanged(t);
    var t' := FailAtRisk(t, recordId, rec);
    if t' != t {
      RecordPut(t.issueRecords, recordId, rec);
      RewardPut(t.rewardRequests, rec.rewardRequestId, t'.rewardRequests[rec.rewardRequestId]);
    }
  }

  lemma PreOccupyEvolves(t: Tables, budgetId: Id, issueBudgetId: Id, amount: int, recordId: Id, rec: IssueRecord)
    ensures Evolves(t, PreOccupy(t, budgetId, issueBudgetId, amount, recordId, rec))
  {
    NothingChanged(t);
    var t' := PreOccupy(t, budgetId, issueBudgetId, amount, recordId, rec);
    if CanPreOccupy(t, budgetId, issueBudgetId, amount, recordId, rec) {
      BudgetPut(t.projectBudgets, budgetId, t'.projectBudgets[budgetId]);
      IssueBudgetPut(t.issueBudgets, issueBudgetId, t'.issueBudgets[issueBudgetId]);
      RecordPut(t.issueRecords, recordId, rec);
    }
  }

  lemma FinalizeEvolves(t: Tables, budgetId: Id, issueBudgetId: Id, amount: int, success: bool,
                        recordId: Id, rec: IssueRecord, rewardId: Id)
    requires recordId in t.issueRecords ==> RecordEvolves(t.issueRecords[recordId], rec)
    ensures Evolves(t, Finalize(t, budgetId, issueBudgetId, amount, success, recordId, rec, rewardId))
  {
    NothingChanged(t);
    var t' := Finalize(t, budgetId, issueBudgetId, amount, success, recordId, rec, rewardId);
    if IsPending(t, rewardId) {
      RecordPut(t.issueRecords, recordId, rec);
      RewardPut(t.rewardRequests, rewardId, t'.rewardRequests[rewardId]);
      if budgetId in t.projectBudgets {
        BudgetPut(t.projectBudgets, budgetId, t'.projectBudgets[budgetId]);
      }
      if issueBudgetId in t.issueBudgets {
        IssueBudgetPut(t.issueBudgets, issueBudgetId, t'.issueBudgets[issueBudgetId]);
      }
    }
  }
}
