/** What the columns mean, and what the totals are capped by: kept by every step whose write comes
    while its check still holds. */
module MeaningSteps {
  import opened Amounts
  import opened BudgetItems
  import opened DistributionSteps
  import opened Evolution
  import opened Ledger
  import opened LedgerSteps
  import opened Schema
  import opened Sums
  import opened Transactions
  import opened Wrappers

  /** The columns' meaning depends on four tables only. */
  lemma SameColumns(t: Tables, t': Tables, which: Promise)
    requires ColumnsMean(t, which)
    requires t'.projectBudgets == t.projectBudgets && t'.issueRequests == t.issueRequests
    requires t'.issueRecords == t.issueRecords && t'.rewardRequests == t.rewardRequests
    ensures ColumnsMean(t', which)
  {
  }

  // ---- Finance docs ----

  lemma DocsAfterInsert(t: Tables, docId: string, doc: FinanceDoc, which: Promise)
    requires TablesMean(t, which) && docId !in t.docs
    ensures TablesMean(t.(docs := t.docs[docId := doc]), which)
  {
    if which == PaymentCover {
      forall p | p in t.payments ensures OnDetail(t.payments[p], t.docs[docId := doc]) {
        assert OnDetail(t.payments[p], t.docs);
      }
    }
  }

  lemma CreateDocKeepsMeaning(t: Tables, docId: string, projectId: Id, detail: seq<DetailLine>, which: Promise)
    requires TablesMean(t, which)
    ensures TablesMean(CreateDoc(t, docId, projectId, detail), which)
  {
    if CreateDoc(t, docId, projectId, detail) != t {
      DocsAfterInsert(t, docId, FinanceDoc(projectId, detail, Draft), which);
    }
  }

  // ---- Empty budgets ----

  lemma UnfundedKeyHasNoRequests(requests: map<Id, IssueRequest>, budgets: map<Id, ProjectBudget>, k: Key, c: Column,
                                 which: Promise)
    requires RequestsFunded(requests, budgets, which) && !HasBudget(budgets, k) && Concerns(which, c)
    ensures RequestSum(requests, k, c) == 0
  {
    NoRequestsNoSum(requests, k, c);
  }

  lemma MeaningAfterInsert(t: Tables, id: Id, b: ProjectBudget, which: Promise)
    requires BudgetsMean(t.projectBudgets, t.issueRequests, t.issueRecords, t.rewardRequests, which)
    requires b.withhold == b.issued == 0
    requires forall c | Concerns(which, c) :: RequestSum(t.issueRequests, BudgetKey(b), c) == 0
    requires forall c :: RecordSum(t.issueRecords, t.rewardRequests, BudgetKey(b), c) == 0
    ensures BudgetsMean(t.projectBudgets[id := b], t.issueRequests, t.issueRecords, t.rewardRequests, which)
  {
    assert BudgetMeans(b, t.issueRequests, t.issueRecords, t.rewardRequests, which);
  }

  lemma RequestsStayFunded(requests: map<Id, IssueRequest>, budgets: map<Id, ProjectBudget>,
                           budgets': map<Id, ProjectBudget>, which: Promise)
    requires RequestsFunded(requests, budgets, which) && BudgetsKept(budgets, budgets')
    ensures RequestsFunded(requests, budgets', which)
  {
    BudgetsStay(budgets, budgets');
  }

  lemma InsertZeroBudgetKeepsColumns(t: Tables, id: Id, b: ProjectBudget, which: Promise)
    requires TablesOk(t) && ColumnsMean(t, which)
    requires ProjectBudgetInsertable(t.projectBudgets, id, b)
    requires b.withhold == b.issued == 0
    ensures ColumnsMean(t.(projectBudgets := t.projectBudgets[id := b]), which)
  {
    forall c | Concerns(which, c) ensures RequestSum(t.issueRequests, BudgetKey(b), c) == 0 {
      UnfundedKeyHasNoRequests(t.issueRequests, t.projectBudgets, BudgetKey(b), c, which);
    }
    UnknownKeyHasNoRecords(t.projectBudgets, t.issueRecords, t.rewardRequests, BudgetKey(b));
    MeaningAfterInsert(t, id, b, which);
    BudgetPut(t.projectBudgets, id, b);
    RequestsStayFunded(t.issueRequests, t.projectBudgets, t.projectBudgets[id := b], which);
  }

  lemma {:induction false} InsertZeroBudgetsKeepColumns(t: Tables, docId: string, ids: seq<Id>,
                                                        rows: seq<ProjectBudget>, which: Promise)
    requires TablesOk(t) && ColumnsMean(t, which)
    requires |ids| == |rows| && BudgetsInsertable(t.projectBudgets, ids, rows)
    requires docId in t.docs
    requires forall i | 0 <= i < |rows| ::
               && rows[i].docId == docId && rows[i].projectId == t.docs[docId].projectId
               && rows[i].total == rows[i].available == rows[i].withhold == rows[i].issued == rows[i].refund == 0
    ensures ColumnsMean(t.(projectBudgets := InsertedBudgets(t.projectBudgets, ids, rows)), which)
    decreases |ids|
  {
    hide TablesOk, ColumnsMean;
    if ids != [] {
      InsertZeroBudgetKeepsColumns(t, ids[0], rows[0], which);
      InsertZeroBudgetKeeps(t, ids[0], rows[0]);
      InsertZeroBudgetsKeepColumns(t.(projectBudgets := t.projectBudgets[ids[0] := rows[0]]), docId, ids[1..],
                                   rows[1..], which);
    } else {
      assert t.(projectBudgets := InsertedBudgets(t.projectBudgets, ids, rows)) == t;
    }
  }

  lemma InsertBudgetsKeepsColumns(t: Tables, docId: string, projectId: Id, items: seq<BudgetItem>, ids: seq<Id>,
                                  which: Promise)
    requires TablesOk(t) && ColumnsMean(t, which)
    requires docId in t.docs && t.docs[docId].projectId == projectId
    ensures ColumnsMean(InsertBudgets(t, docId, projectId, items, ids), which)
  {
    hide TablesOk, ColumnsMean;
    if InsertBudgets(t, docId, projectId, items, ids) != t {
      InsertZeroBudgetsKeepColumns(t, docId, ids, ZeroBudgets(docId, projectId, items), which);
    }
  }

  // ---- Payments ----

  /** The guard is exact for what the columns store, on the grid or off it. */
  lemma GuardIsExact(total: int, amount: AmountText, cap: AmountText)
    requires total >= 0
    ensures WithinDocAmount(total, amount, cap) <==>
            && ParseAmount(amount).Some? && ParseAmount(cap).Some?
            && Value(total + Stored(amount)) <= ParseAmount(cap).value
  {
    if ParseAmount(amount).Some? {
      FormatShiftsByUnits(total, ParseAmount(amount).value);
      assert Value(total) >= 0.0;
      assert AddAmount(Number(Value(total)), amount) == Some(total + Stored(amount));
    }
  }

  lemma MeaningOfColumns(t: Tables, id: Id, b: ProjectBudget, which: Promise)
    requires BudgetsMean(t.projectBudgets, t.issueRequests, t.issueRecords, t.rewardRequests, which)
    requires id in t.projectBudgets && SameBudget(t.projectBudgets[id], b)
    requires b.withhold == t.projectBudgets[id].withhold && b.issued == t.projectBudgets[id].issued
    ensures BudgetsMean(t.projectBudgets[id := b], t.issueRequests, t.issueRecords, t.rewardRequests, which)
  {
    assert BudgetMeans(t.projectBudgets[id], t.issueRequests, t.issueRecords, t.rewardRequests, which);
  }

  lemma TotalsAreNonNegative(t: Tables, id: Id)
    requires RewardsFunded(t.rewardRequests, t.projectBudgets)
    requires BudgetsBalanced(t.projectBudgets, t.issueRecords, t.rewardRequests) && id in t.projectBudgets
    ensures t.projectBudgets[id].total >= 0
  {
    assert BudgetBalanced(t.projectBudgets[id], t.issueRecords, t.rewardRequests);
    RecordSumIsNonNegative(t.issueRecords, t.rewardRequests, BudgetKey(t.projectBudgets[id]), PreOccupied);
  }

  lemma PayKeepsColumns(t: Tables, paymentId: string, docId: string, address: string, budgetId: Id,
                        amount: AmountText, cap: AmountText, which: Promise)
    requires ColumnsMean(t, which)
    ensures ColumnsMean(Pay(t, paymentId, docId, address, budgetId, amount, cap), which)
  {
    hide RequestsFunded, BudgetsMean;
    if PaymentAllowed(t, paymentId, budgetId, amount, cap) {
      var b := t.projectBudgets[budgetId];
      var b' := b.(total := b.total + Stored(amount), available := b.available + Stored(amount));
      MeaningOfColumns(t, budgetId, b', which);
      BudgetPut(t.projectBudgets, budgetId, b');
      RequestsStayFunded(t.issueRequests, t.projectBudgets, t.projectBudgets[budgetId := b'], which);
    }
  }

  // ---- Issue requests ----

  /** A change of one request shows in the meaning of its old key and its new key only. */
  lemma MeaningAfterRequest(t: Tables, id: Id, r: IssueRequest, budgets': map<Id, ProjectBudget>, which: Promise)
    requires BudgetsMean(t.projectBudgets, t.issueRequests, t.issueRecords, t.rewardRequests, which)
    requires budgets'.Keys == t.projectBudgets.Keys
    requires forall i | i in budgets' ::
               var k := BudgetKey(t.projectBudgets[i]);
               && BudgetKey(budgets'[i]) == k
               && budgets'[i].withhold == t.projectBudgets[i].withhold
                                          - OldRequestWeight(t.issueRequests, id, k, Withheld)
                                          + RequestWeight(r, k, Withheld)
               && budgets'[i].issued == t.projectBudgets[i].issued
                                        - OldRequestWeight(t.issueRequests, id, k, Issued) + RequestWeight(r, k, Issued)
    ensures BudgetsMean(budgets', t.issueRequests[id := r], t.issueRecords, t.rewardRequests, which)
  {
    forall i | i in budgets'
      ensures BudgetMeans(budgets'[i], t.issueRequests[id := r], t.issueRecords, t.rewardRequests, which)
    {
      assert BudgetMeans(t.projectBudgets[i], t.issueRequests, t.issueRecords, t.rewardRequests, which);
      RequestSumAfterPut(t.issueRequests, id, r, BudgetKey(budgets'[i]), Withheld);
      RequestSumAfterPut(t.issueRequests, id, r, BudgetKey(budgets'[i]), Issued);
    }
  }

  /** A new draft has no weight. */
  lemma DraftKeepsColumns(t: Tables, id: Id, r: IssueRequest, which: Promise)
    requires ColumnsMean(t, which) && id !in t.issueRequests && r.status == Draft
    ensures ColumnsMean(t.(issueRequests := t.issueRequests[id := r]), which)
  {
    hide RequestSum, RecordSum;
    var requests' := t.issueRequests[id := r];
    forall b | b in t.projectBudgets
      ensures BudgetMeans(t.projectBudgets[b], requests', t.issueRecords, t.rewardRequests, which)
    {
      assert BudgetMeans(t.projectBudgets[b], t.issueRequests, t.issueRecords, t.rewardRequests, which);
      RequestSumAfterPut(t.issueRequests, id, r, BudgetKey(t.projectBudgets[b]), Withheld);
      RequestSumAfterPut(t.issueRequests, id, r, BudgetKey(t.projectBudgets[b]), Issued);
    }
  }

  lemma UnbudgetedRequestKeepsMatch(t: Tables, id: Id, r: IssueRequest)
    requires IssueBudgetsFrozen(t.issueBudgets, t.issueRequests) && IssueBudgetsOngoing(t.issueBudgets, t.issueRequests)
    requires id in t.issueRequests ==> t.issueRequests[id].status != Ongoing
    ensures IssueBudgetsFrozen(t.issueBudgets, t.issueRequests[id := r])
  {
  }

  lemma CreateRequestKeepsMeaning(t: Tables, id: Id, k: Key, amount: AmountText, which: Promise)
    requires TablesOk(t) && TablesMean(t, which)
    ensures TablesMean(CreateRequest(t, id, k, amount), which)
  {
    if CreateRequest(t, id, k, amount) != t {
      var r := IssueRequest(k.projectId, k.voucherType, k.unit, Stored(amount), Draft);
      if OnColumns(which) {
        DraftKeepsColumns(t, id, r, which);
      } else if which == IssueBudgetMatch {
        UnbudgetedRequestKeepsMatch(t, id, r);
      }
    }
  }

  lemma KeysAreDistinct(t: Tables, i: Id, j: Id)
    requires TablesOk(t) && i in t.projectBudgets && j in t.projectBudgets && i != j
    ensures BudgetKey(t.projectBudgets[i]) != BudgetKey(t.projectBudgets[j])
  {
  }

  /** A request changes status, and the budget of its key moves the amount the same way. */
  lemma MoveKeepsColumns(t: Tables, id: Id, status: ReviewStatus, budgetId: Id, b: ProjectBudget, which: Promise)
    requires TablesOk(t) && ColumnsMean(t, which)
    requires id in t.issueRequests
    requires budgetId in t.projectBudgets && BudgetKey(t.projectBudgets[budgetId]) == RequestKey(t.issueRequests[id])
    requires SameBudget(t.projectBudgets[budgetId], b)
    requires var r, r' := t.issueRequests[id], t.issueRequests[id].(status := status);
             && b.withhold == t.projectBudgets[budgetId].withhold
                              - RequestWeight(r, RequestKey(r), Withheld) + RequestWeight(r', RequestKey(r), Withheld)
             && b.issued == t.projectBudgets[budgetId].issued
                            - RequestWeight(r, RequestKey(r), Issued) + RequestWeight(r', RequestKey(r), Issued)
    ensures ColumnsMean(t.(issueRequests := t.issueRequests[id := t.issueRequests[id].(status := status)],
                           projectBudgets := t.projectBudgets[budgetId := b]), which)
  {
    hide TablesOk, RequestsFunded, BudgetsMean;
    var r' := t.issueRequests[id].(status := status);
    var budgets' := t.projectBudgets[budgetId := b];
    forall i | i in budgets' && i != budgetId
      ensures BudgetKey(t.projectBudgets[i]) != RequestKey(r')
    {
      KeysAreDistinct(t, i, budgetId);
    }
    MeaningAfterRequest(t, id, r', budgets', which);
    RequestsFundedAfterMove(t, id, status, budgetId, which);
    BudgetPut(t.projectBudgets, budgetId, b);
    RequestsStayFunded(t.issueRequests[id := r'], t.projectBudgets, budgets', which);
  }

  lemma MoveKeepsMeaning(t: Tables, id: Id, status: ReviewStatus, budgetId: Id, b: ProjectBudget, which: Promise)
    requires TablesOk(t) && TablesMean(t, which)
    requires id in t.issueRequests
    requires budgetId in t.projectBudgets && BudgetKey(t.projectBudgets[budgetId]) == RequestKey(t.issueRequests[id])
    requires SameBudget(t.projectBudgets[budgetId], b) && b.total == t.projectBudgets[budgetId].total
    requires var r, r' := t.issueRequests[id], t.issueRequests[id].(status := status);
             && b.withhold == t.projectBudgets[budgetId].withhold
                              - RequestWeight(r, RequestKey(r), Withheld) + RequestWeight(r', RequestKey(r), Withheld)
             && b.issued == t.projectBudgets[budgetId].issued
                            - RequestWeight(r, RequestKey(r), Issued) + RequestWeight(r', RequestKey(r), Issued)
    ensures TablesMean(t.(issueRequests := t.issueRequests[id := t.issueRequests[id].(status := status)],
                          projectBudgets := t.projectBudgets[budgetId := b]), which)
  {
    hide TablesOk, ColumnsMean, IssueBudgetsFrozen, BudgetsCovered, PaymentsOnDetail;
    match which {
      case IssueBudgetMatch => StatusKeepsFrozen(t, id, status);
      case LineCover => CoveredStays(t, budgetId, b);
      case PaymentCover =>
      case _ => MoveKeepsColumns(t, id, status, budgetId, b, which);
    }
  }

  lemma StatusKeepsFrozen(t: Tables, id: Id, status: ReviewStatus)
    requires IssueBudgetsFrozen(t.issueBudgets, t.issueRequests) && id in t.issueRequests
    ensures IssueBudgetsFrozen(t.issueBudgets, t.issueRequests[id := t.issueRequests[id].(status := status)])
  {
  }

  lemma RequestsFundedAfterMove(t: Tables, id: Id, status: ReviewStatus, budgetId: Id, which: Promise)
    requires RequestsFunded(t.issueRequests, t.projectBudgets, which) && id in t.issueRequests
    requires budgetId in t.projectBudgets && BudgetKey(t.projectBudgets[budgetId]) == RequestKey(t.issueRequests[id])
    ensures RequestsFunded(t.issueRequests[id := t.issueRequests[id].(status := status)], t.projectBudgets, which)
  {
  }

  lemma CoveredStays(t: Tables, id: Id, b: ProjectBudget)
    requires BudgetsCovered(t.projectBudgets, t.docs, t.configs)
    requires id in t.projectBudgets && SameBudget(t.projectBudgets[id], b) && b.total == t.projectBudgets[id].total
    ensures BudgetsCovered(t.projectBudgets[id := b], t.docs, t.configs)
  {
    var doc := t.docs[t.projectBudgets[id].docId];
    var i :| 0 <= i < |doc.detail| && LineCovers(doc.detail[i], t.configs, t.projectBudgets[id]);
    assert LineCovers(doc.detail[i], t.configs, b);
  }

  lemma SubmitKeepsMeaning(t: Tables, id: Id, which: Promise)
    requires TablesOk(t) && TablesMean(t, which)
    ensures TablesMean(Submit(t, id), which)
  {
    hide TablesOk, TablesMean;
    if CanSubmit(t, id) {
      var r := t.issueRequests[id];
      var budgetId := ProjectBudgetFor(t, RequestKey(r)).value;
      var b := t.projectBudgets[budgetId];
      MoveKeepsMeaning(t, id, ToApprove, budgetId,
                       b.(available := b.available - r.amount, withhold := b.withhold + r.amount), which);
    }
  }

  lemma ApproveKeepsMeaning(t: Tables, id: Id, which: Promise)
    requires TablesOk(t) && TablesMean(t, which)
    ensures TablesMean(Approve(t, id), which)
  {
    hide TablesOk, TablesMean;
    if CanDecide(t, id, Approved) {
      var r := t.issueRequests[id];
      var budgetId := ProjectBudgetFor(t, RequestKey(r)).value;
      var b := t.projectBudgets[budgetId];
      MoveKeepsMeaning(t, id, Approved, budgetId, b.(issued := b.issued + r.amount, withhold := b.withhold - r.amount),
                       which);
    }
  }

  lemma RejectKeepsMeaning(t: Tables, id: Id, which: Promise)
    requires TablesOk(t) && TablesMean(t, which)
    ensures TablesMean(Reject(t, id), which)
  {
    hide TablesOk, TablesMean;
    if CanDecide(t, id, Rejected) {
      var r := t.issueRequests[id];
      var budgetId := ProjectBudgetFor(t, RequestKey(r)).value;
      var b := t.projectBudgets[budgetId];
      MoveKeepsMeaning(t, id, Rejected, budgetId,
                       b.(available := b.available + r.amount, withhold := b.withhold - r.amount), which);
    }
  }

  lemma FrozenAfterStart(t: Tables, id: Id, issueBudgetId: Id)
    requires IssueBudgetsFrozen(t.issueBudgets, t.issueRequests) && id in t.issueRequests
    ensures IssueBudgetsFrozen(t.issueBudgets[issueBudgetId := NewIssueBudget(t, id)],
                               t.issueRequests[id := t.issueRequests[id].(status := Ongoing)])
  {
  }

  /** Becoming ongoing moves no weight. */
  lemma StartKeepsColumns(t: Tables, id: Id, issueBudgetId: Id, which: Promise)
    requires ColumnsMean(t, which) && id in t.issueRequests && t.issueRequests[id].status == Approved
    ensures ColumnsMean(t.(issueBudgets := t.issueBudgets[issueBudgetId := NewIssueBudget(t, id)],
                           issueRequests := t.issueRequests[id := t.issueRequests[id].(status := Ongoing)]), which)
  {
    MeaningAfterRequest(t, id, t.issueRequests[id].(status := Ongoing), t.projectBudgets, which);
  }

  lemma ApprovedStarts(t: Tables, id: Id, issueBudgetId: Id, translated: bool)
    requires TablesOk(t) && id in t.issueRequests && t.issueRequests[id].status == Approved
    ensures var u := StartIssueBudget(t, id, issueBudgetId, translated);
            u == t
            || u == t.(issueBudgets := t.issueBudgets[issueBudgetId := NewIssueBudget(t, id)],
                       issueRequests := t.issueRequests[id := t.issueRequests[id].(status := Ongoing)])
  {
    ApprovedHasNoIssueBudget(t, id);
  }

  lemma StartIssueBudgetKeepsMeaning(t: Tables, id: Id, issueBudgetId: Id, translated: bool, which: Promise)
    requires TablesOk(t) && TablesMean(t, which)
    ensures TablesMean(StartIssueBudget(t, id, issueBudgetId, translated), which)
  {
    hide TablesOk, ColumnsMean, IssueBudgetsFrozen, BudgetsCovered, PaymentsOnDetail;
    if id in t.issueRequests && t.issueRequests[id].status == Approved {
      ApprovedStarts(t, id, issueBudgetId, translated);
      hide StartIssueBudget;
      match which {
        case IssueBudgetMatch => FrozenAfterStart(t, id, issueBudgetId);
        case LineCover =>
        case PaymentCover =>
        case _ => StartKeepsColumns(t, id, issueBudgetId, which);
      }
    }
  }

  // ---- Reward requests and records ----

  lemma MeaningIgnoresStatus(t: Tables, rewards': map<Id, RewardRequest>, which: Promise)
    requires BudgetsMean(t.projectBudgets, t.issueRequests, t.issueRecords, t.rewardRequests, which)
    requires SameAmounts(t.issueRecords, t.rewardRequests, rewards')
    ensures BudgetsMean(t.projectBudgets, t.issueRequests, t.issueRecords, rewards', which)
  {
    SumsIgnoreStatus(t.issueRecords, t.rewardRequests, rewards');
    forall i | i in t.projectBudgets
      ensures BudgetMeans(t.projectBudgets[i], t.issueRequests, t.issueRecords, rewards', which) {
      assert BudgetMeans(t.projectBudgets[i], t.issueRequests, t.issueRecords, t.rewardRequests, which);
    }
  }

  lemma NewRewardKeepsColumns(t: Tables, id: Id, r: RewardRequest, which: Promise)
    requires ColumnsMean(t, which) && SameAmounts(t.issueRecords, t.rewardRequests, t.rewardRequests[id := r])
    ensures ColumnsMean(t.(rewardRequests := t.rewardRequests[id := r]), which)
  {
    MeaningIgnoresStatus(t, t.rewardRequests[id := r], which);
  }

  lemma AcceptedRewardIsNew(t: Tables, id: Id, r: RewardRequest)
    requires TablesOk(t) && RewardRequestInsertable(t, id, r)
    ensures SameAmounts(t.issueRecords, t.rewardRequests, t.rewardRequests[id := r])
  {
  }

  lemma AcceptRewardKeepsMeaning(t: Tables, id: Id, clientRef: string, userId: Id, k: Key, amount: int, which: Promise)
    requires TablesOk(t) && TablesMean(t, which) && amount >= 0
    ensures TablesMean(AcceptReward(t, id, clientRef, userId, k, amount), which)
  {
    hide TablesOk, ColumnsMean, IssueBudgetsFrozen, BudgetsCovered, PaymentsOnDetail, SameAmounts;
    var r := RewardRequest(clientRef, userId, k.projectId, k.voucherType, k.unit, amount, PendingReward);
    if OnColumns(which) && AcceptReward(t, id, clientRef, userId, k, amount) != t {
      AcceptedRewardIsNew(t, id, r);
      NewRewardKeepsColumns(t, id, r, which);
    }
  }

  /** A record changes, and the issued column of each budget follows its weight. */
  lemma MeaningAfterRecord(t: Tables, id: Id, rec: IssueRecord, budgets': map<Id, ProjectBudget>, which: Promise)
    requires BudgetsMean(t.projectBudgets, t.issueRequests, t.issueRecords, t.rewardRequests, which)
    requires budgets'.Keys == t.projectBudgets.Keys
    requires forall i | i in budgets' ::
               var k := BudgetKey(t.projectBudgets[i]);
               && BudgetKey(budgets'[i]) == k && budgets'[i].withhold == t.projectBudgets[i].withhold
               && budgets'[i].issued == t.projectBudgets[i].issued
                                        - OldRecordWeight(t.issueRecords, t.rewardRequests, id, k, Issued)
                                        + RecordWeight(rec, t.rewardRequests, k, Issued)
    ensures BudgetsMean(budgets', t.issueRequests, t.issueRecords[id := rec], t.rewardRequests, which)
  {
    forall i | i in budgets'
      ensures BudgetMeans(budgets'[i], t.issueRequests, t.issueRecords[id := rec], t.rewardRequests, which)
    {
      assert BudgetMeans(t.projectBudgets[i], t.issueRequests, t.issueRecords, t.rewardRequests, which);
      RecordSumAfterPut(t.issueRecords, t.rewardRequests, id, rec, BudgetKey(budgets'[i]), Issued);
    }
  }

  lemma FailureKeepsColumns(t: Tables, recordId: Id, rec: IssueRecord, which: Promise)
    requires ColumnsMean(t, which) && rec.issueRequestId.None? && recordId !in t.issueRecords
    requires rec.rewardRequestId in t.rewardRequests
    ensures var rewardId := rec.rewardRequestId;
            ColumnsMean(t.(issueRecords := t.issueRecords[recordId := rec],
                           rewardRequests := t.rewardRequests[rewardId :=
                             t.rewardRequests[rewardId].(status := CompletedReward)]), which)
  {
    hide RequestsFunded, BudgetsMean, SameAmounts;
    var rewardId := rec.rewardRequestId;
    var rewards' := t.rewardRequests[rewardId := t.rewardRequests[rewardId].(status := CompletedReward)];
    MeaningAfterRecord(t, recordId, rec, t.projectBudgets, which);
    SameAmountsStay(t.issueRecords, recordId, rec, t.rewardRequests, rewardId);
    MeaningIgnoresStatus(t.(issueRecords := t.issueRecords[recordId := rec]), rewards', which);
  }

  lemma FailAtRiskKeepsMeaning(t: Tables, recordId: Id, rec: IssueRecord, which: Promise)
    requires TablesOk(t) && TablesMean(t, which) && rec.issueRequestId.None?
    ensures TablesMean(FailAtRisk(t, recordId, rec), which)
  {
    hide TablesOk, ColumnsMean, IssueBudgetsFrozen, BudgetsCovered, PaymentsOnDetail;
    if OnColumns(which) && FailAtRisk(t, recordId, rec) != t {
      FailureKeepsColumns(t, recordId, rec, which);
    }
  }

  lemma IssueBudgetsStayFrozen(m: map<Id, IssueBudget>, id: Id, ib: IssueBudget, requests: map<Id, IssueRequest>)
    requires IssueBudgetsFrozen(m, requests) && id in m && SameIssueBudget(m[id], ib)
    ensures IssueBudgetsFrozen(m[id := ib], requests)
  {
  }

  /** A pending record has no weight in the columns. */
  lemma PreOccupyKeepsColumns(t: Tables, budgetId: Id, b: ProjectBudget, recordId: Id, rec: IssueRecord, which: Promise)
    requires ColumnsMean(t, which) && rec.status == PendingRecord && recordId !in t.issueRecords
    requires budgetId in t.projectBudgets && SameBudget(t.projectBudgets[budgetId], b)
    requires b.withhold == t.projectBudgets[budgetId].withhold && b.issued == t.projectBudgets[budgetId].issued
    ensures ColumnsMean(t.(projectBudgets := t.projectBudgets[budgetId := b],
                           issueRecords := t.issueRecords[recordId := rec]), which)
  {
    hide RequestsFunded, BudgetsMean;
    MeaningAfterRecord(t, recordId, rec, t.projectBudgets[budgetId := b], which);
    BudgetPut(t.projectBudgets, budgetId, b);
    RequestsStayFunded(t.issueRequests, t.projectBudgets, t.projectBudgets[budgetId := b], which);
  }

  lemma PreOccupyKeepsMeaning(t: Tables, budgetId: Id, issueBudgetId: Id, amount: int, recordId: Id, rec: IssueRecord,
                              which: Promise)
    requires TablesOk(t) && TablesMean(t, which) && rec.status == PendingRecord
    ensures TablesMean(PreOccupy(t, budgetId, issueBudgetId, amount, recordId, rec), which)
  {
    hide TablesOk, ColumnsMean, IssueBudgetsFrozen, BudgetsCovered, PaymentsOnDetail;
    if CanPreOccupy(t, budgetId, issueBudgetId, amount, recordId, rec) {
      var b, ib := t.projectBudgets[budgetId], t.issueBudgets[issueBudgetId];
      var b', ib' := b.(available := b.available - amount), ib.(available := ib.available - amount);
      match which {
        case IssueBudgetMatch => IssueBudgetsStayFrozen(t.issueBudgets, issueBudgetId, ib', t.issueRequests);
        case LineCover => CoveredStays(t, budgetId, b');
        case PaymentCover =>
        case _ =>
          PreOccupyKeepsColumns(t, budgetId, b', recordId, rec, which);
          SameColumns(t.(projectBudgets := t.projectBudgets[budgetId := b'],
                         issueRecords := t.issueRecords[recordId := rec]),
                      PreOccupy(t, budgetId, issueBudgetId, amount, recordId, rec), which);
      }
    }
  }

  /** The issued column grows with the weight of the settled record. */
  lemma SettleKeepsColumns(t: Tables, budgetId: Id, amount: int, success: bool, recordId: Id, rec: IssueRecord,
                           which: Promise)
    requires TablesOk(t) && ColumnsMean(t, which)
    requires recordId in t.issueRecords && t.issueRecords[recordId].status == PendingRecord
    requires rec.rewardRequestId in t.rewardRequests && rec.issueRequestId.Some?
    requires t.rewardRequests[rec.rewardRequestId].amount == amount
    requires rec.status == (if success then IssuedRecord else FailedRecord)
    requires budgetId in t.projectBudgets && BudgetKey(t.projectBudgets[budgetId]) == RecordKey(rec)
    ensures var rewardId := rec.rewardRequestId;
            ColumnsMean(t.(projectBudgets := t.projectBudgets[budgetId :=
                             SettledBudget(t.projectBudgets[budgetId], amount, success)],
                           issueRecords := t.issueRecords[recordId := rec],
                           rewardRequests := t.rewardRequests[rewardId :=
                             t.rewardRequests[rewardId].(status := CompletedReward)]), which)
  {
    hide TablesOk, RequestsFunded, BudgetsMean, SameAmounts;
    var rewardId, b' := rec.rewardRequestId, SettledBudget(t.projectBudgets[budgetId], amount, success);
    var budgets' := t.projectBudgets[budgetId := b'];
    var rewards' := t.rewardRequests[rewardId := t.rewardRequests[rewardId].(status := CompletedReward)];
    forall i | i in budgets' && i != budgetId ensures BudgetKey(t.projectBudgets[i]) != RecordKey(rec) {
      KeysAreDistinct(t, i, budgetId);
    }
    MeaningAfterRecord(t, recordId, rec, budgets', which);
    SameAmountsStay(t.issueRecords, recordId, rec, t.rewardRequests, rewardId);
    MeaningIgnoresStatus(t.(issueRecords := t.issueRecords[recordId := rec], projectBudgets := budgets'), rewards',
                         which);
    BudgetPut(t.projectBudgets, budgetId, b');
    RequestsStayFunded(t.issueRequests, t.projectBudgets, budgets', which);
  }

  lemma FinalizeKeepsMeaning(t: Tables, budgetId: Id, issueBudgetId: Id, amount: int, success: bool,
                             recordId: Id, rec: IssueRecord, rewardId: Id, which: Promise)
    requires TablesOk(t) && TablesMean(t, which)
    requires recordId in t.issueRecords && t.issueRecords[recordId].status == PendingRecord
    requires rec.rewardRequestId == rewardId && rewardId in t.rewardRequests && rec.issueRequestId.Some?
    requires t.rewardRequests[rewardId].amount == amount
    requires rec.status == (if success then IssuedRecord else FailedRecord)
    requires budgetId in t.projectBudgets && BudgetKey(t.projectBudgets[budgetId]) == RecordKey(rec)
    requires issueBudgetId in t.issueBudgets
    ensures TablesMean(Finalize(t, budgetId, issueBudgetId, amount, success, recordId, rec, rewardId), which)
  {
    hide TablesOk, ColumnsMean, IssueBudgetsFrozen, BudgetsCovered, PaymentsOnDetail;
    if IsPending(t, rewardId) {
      var b' := SettledBudget(t.projectBudgets[budgetId], amount, success);
      var ib' := SettledIssueBudget(t.issueBudgets[issueBudgetId], amount, success);
      match which {
        case IssueBudgetMatch => IssueBudgetsStayFrozen(t.issueBudgets, issueBudgetId, ib', t.issueRequests);
        case LineCover => CoveredStays(t, budgetId, b');
        case PaymentCover =>
        case _ =>
          SettleKeepsColumns(t, budgetId, amount, success, recordId, rec, which);
          var rewards' := t.rewardRequests[rewardId := t.rewardRequests[rewardId].(status := CompletedReward)];
          SameColumns(t.(projectBudgets := t.projectBudgets[budgetId := b'],
                         issueRecords := t.issueRecords[recordId := rec], rewardRequests := rewards'),
                      Finalize(t, budgetId, issueBudgetId, amount, success, recordId, rec, rewardId), which);
      }
    }
  }
}
