/** The writes that come after a check and do not look again, and exactly which runs they spoil.

    An edit of an issue request, an edit or a status change of a finance doc, the opening of budgets and a
    payment all read in one statement and write in another; the last two write what they remember. A run
    keeps a promise in every state exactly when every such write in it is harmless to that promise, which is
    a condition on the rows that the write finds. */
module LateWrites {
  import opened Amounts
  import opened BudgetItems
  import opened Evolution
  import opened GuardedSteps
  import opened Ledger
  import opened LedgerSteps
  import opened MeaningSteps
  import opened Reachable
  import opened Schema
  import opened Sums
  import opened SystemInvariant
  import opened SystemSteps
  import opened Transactions
  import opened Workers
  import opened Wrappers

  // ---- Editing an issue request after its check ----

  function Edited(r: IssueRequest, voucherType: string, unit: string, amount: int): IssueRequest {
    r.(voucherType := voucherType, unit := unit, amount := amount)
  }

  /** How much of a column is not spoken for. */
  ghost function Slack(t: Tables, b: ProjectBudget, c: Column): int {
    if c == Withheld then b.withhold - RequestSum(t.issueRequests, BudgetKey(b), Withheld)
    else b.issued - RequestSum(t.issueRequests, BudgetKey(b), Issued)
         - RecordSum(t.issueRecords, t.rewardRequests, BudgetKey(b), Issued)
  }

  /** The largest amount the request could have under the budget: what it has there, and what is left. */
  ghost function Room(t: Tables, r: IssueRequest, b: ProjectBudget): int {
    (if RequestKey(r) == BudgetKey(b) then r.amount else 0)
    + Slack(t, b, if r.status == ToApprove then Withheld else Issued)
  }

  ghost predicate HasRoom(t: Tables, r: IssueRequest, r': IssueRequest) {
    && HasBudget(t.projectBudgets, RequestKey(r'))
    && forall b | b in t.projectBudgets && BudgetKey(t.projectBudgets[b]) == RequestKey(r') ::
         r'.amount <= Room(t, r, t.projectBudgets[b])
  }

  /** Whether the write half of an edit does no harm, told from the rows it finds. */
  ghost predicate EditIsHarmless(t: Tables, id: Id, voucherType: string, unit: string, amount: int, which: Promise)
    requires id in t.issueRequests
  {
    var r := t.issueRequests[id];
    var r' := Edited(r, voucherType, unit, amount);
    match which
    case ColumnSums =>
      Editable(r.status) || r' == r || (r.amount == amount == 0 && HasBudget(t.projectBudgets, RequestKey(r')))
    case WithholdCover => r.status == ToApprove ==> HasRoom(t, r, r')
    case IssuedCover => r.status == Approved || r.status == Ongoing ==> HasRoom(t, r, r')
    case IssueBudgetMatch => r.status == Ongoing ==> r' == r
    case LineCover => true
    case PaymentCover => true
  }

  /** What the edited request weighs in a column of one budget. */
  lemma EditedWeight(t: Tables, id: Id, r': IssueRequest, k: Key, c: Column)
    requires id in t.issueRequests && (c == Withheld || c == Issued)
    requires r' == Edited(t.issueRequests[id], r'.voucherType, r'.unit, r'.amount)
    ensures var r, sum := t.issueRequests[id], RequestSum(t.issueRequests, k, c);
            RequestSum(t.issueRequests[id := r'], k, c) ==
            if !Weighs(r.status, c) then sum
            else sum - (if RequestKey(r) == k then r.amount else 0) + (if RequestKey(r') == k then r'.amount else 0)
  {
    RequestSumAfterPut(t.issueRequests, id, r', k, c);
  }

  /** A budget keeps covering a column exactly when, if it is the one of the new pair, there is room. */
  lemma RowKeepsCover(t: Tables, id: Id, r': IssueRequest, b: Id, which: Promise)
    requires which.WithholdCover? || which.IssuedCover?
    requires id in t.issueRequests && b in t.projectBudgets && NeedsBudget(t.issueRequests[id].status, which)
    requires r' == Edited(t.issueRequests[id], r'.voucherType, r'.unit, r'.amount) && t.issueRequests[id].amount >= 0
    requires BudgetMeans(t.projectBudgets[b], t.issueRequests, t.issueRecords, t.rewardRequests, which)
    ensures BudgetMeans(t.projectBudgets[b], t.issueRequests[id := r'], t.issueRecords, t.rewardRequests, which) <==>
            (BudgetKey(t.projectBudgets[b]) == RequestKey(r') ==>
               r'.amount <= Room(t, t.issueRequests[id], t.projectBudgets[b]))
  {
    EditedWeight(t, id, r', BudgetKey(t.projectBudgets[b]), Withheld);
    EditedWeight(t, id, r', BudgetKey(t.projectBudgets[b]), Issued);
    hide RequestSum, RecordSum;
  }

  /** A budget keeps its exact columns exactly when the request weighs the same in them. */
  lemma RowKeepsSums(t: Tables, id: Id, r': IssueRequest, b: Id)
    requires id in t.issueRequests && b in t.projectBudgets && !Editable(t.issueRequests[id].status)
    requires r' == Edited(t.issueRequests[id], r'.voucherType, r'.unit, r'.amount)
    requires BudgetMeans(t.projectBudgets[b], t.issueRequests, t.issueRecords, t.rewardRequests, ColumnSums)
    ensures var r, k := t.issueRequests[id], BudgetKey(t.projectBudgets[b]);
            BudgetMeans(t.projectBudgets[b], t.issueRequests[id := r'], t.issueRecords, t.rewardRequests,
                        ColumnSums) <==>
            (if RequestKey(r) == k then r.amount else 0) == (if RequestKey(r') == k then r'.amount else 0)
  {
    EditedWeight(t, id, r', BudgetKey(t.projectBudgets[b]), Withheld);
    EditedWeight(t, id, r', BudgetKey(t.projectBudgets[b]), Issued);
    hide RequestSum, RecordSum;
  }

  lemma FundedAfterEdit(requests: map<Id, IssueRequest>, budgets: map<Id, ProjectBudget>, id: Id, r': IssueRequest,
                        which: Promise)
    requires RequestsFunded(requests, budgets, which) && id in requests && NeedsBudget(requests[id].status, which)
    requires r'.status == requests[id].status
    ensures RequestsFunded(requests[id := r'], budgets, which) <==> HasBudget(budgets, RequestKey(r'))
    ensures HasBudget(budgets, RequestKey(requests[id]))
  {
    if RequestsFunded(requests[id := r'], budgets, which) {
      assert id in requests[id := r'] && NeedsBudget(requests[id := r'][id].status, which);
    }
  }

  lemma EditKeepsCover(t: Tables, id: Id, r': IssueRequest, which: Promise)
    requires which.WithholdCover? || which.IssuedCover?
    requires ColumnsMean(t, which) && id in t.issueRequests && NeedsBudget(t.issueRequests[id].status, which)
    requires r' == Edited(t.issueRequests[id], r'.voucherType, r'.unit, r'.amount) && t.issueRequests[id].amount >= 0
    ensures ColumnsMean(t.(issueRequests := t.issueRequests[id := r']), which) <==> HasRoom(t, t.issueRequests[id], r')
  {
    FundedAfterEdit(t.issueRequests, t.projectBudgets, id, r', which);
    hide RequestsFunded, BudgetMeans, Room, HasBudget;
    forall b | b in t.projectBudgets
      ensures BudgetMeans(t.projectBudgets[b], t.issueRequests[id := r'], t.issueRecords, t.rewardRequests, which) <==>
              (BudgetKey(t.projectBudgets[b]) == RequestKey(r') ==>
                 r'.amount <= Room(t, t.issueRequests[id], t.projectBudgets[b]))
    {
      RowKeepsCover(t, id, r', b, which);
    }
  }

  lemma BudgetOf(budgets: map<Id, ProjectBudget>, k: Key) returns (b: Id)
    requires HasBudget(budgets, k)
    ensures b in budgets && BudgetKey(budgets[b]) == k
  {
    b :| b in budgets && BudgetKey(budgets[b]) == k;
  }

  lemma EditKeepsSums(t: Tables, id: Id, r': IssueRequest)
    requires ColumnsMean(t, ColumnSums) && id in t.issueRequests && !Editable(t.issueRequests[id].status)
    requires r' == Edited(t.issueRequests[id], r'.voucherType, r'.unit, r'.amount)
    ensures ColumnsMean(t.(issueRequests := t.issueRequests[id := r']), ColumnSums) <==>
            r' == t.issueRequests[id]
            || (t.issueRequests[id].amount == r'.amount == 0 && HasBudget(t.projectBudgets, RequestKey(r')))
  {
    FundedAfterEdit(t.issueRequests, t.projectBudgets, id, r', ColumnSums);
    var r, requests' := t.issueRequests[id], t.issueRequests[id := r'];
    var b := BudgetOf(t.projectBudgets, RequestKey(r));
    hide RequestsFunded, BudgetMeans, HasBudget;
    forall i | i in t.projectBudgets
      ensures BudgetMeans(t.projectBudgets[i], requests', t.issueRecords, t.rewardRequests, ColumnSums) <==>
              (if RequestKey(r) == BudgetKey(t.projectBudgets[i]) then r.amount else 0)
              == (if RequestKey(r') == BudgetKey(t.projectBudgets[i]) then r'.amount else 0)
    {
      RowKeepsSums(t, id, r', i);
    }
    if HasBudget(t.projectBudgets, RequestKey(r')) {
      var b' := BudgetOf(t.projectBudgets, RequestKey(r'));
      if BudgetsMean(t.projectBudgets, requests', t.issueRecords, t.rewardRequests, ColumnSums) {
        assert BudgetMeans(t.projectBudgets[b], requests', t.issueRecords, t.rewardRequests, ColumnSums);
        assert BudgetMeans(t.projectBudgets[b'], requests', t.issueRecords, t.rewardRequests, ColumnSums);
      }
    }
  }

  /** A request that weighs nothing in the columns of the promise may be edited freely. */
  lemma WeightlessEditKeepsColumns(t: Tables, id: Id, r': IssueRequest, which: Promise)
    requires ColumnsMean(t, which) && id in t.issueRequests && OnColumns(which)
    requires !NeedsBudget(t.issueRequests[id].status, which)
    requires r' == Edited(t.issueRequests[id], r'.voucherType, r'.unit, r'.amount)
    ensures ColumnsMean(t.(issueRequests := t.issueRequests[id := r']), which)
  {
    var requests' := t.issueRequests[id := r'];
    forall b | b in t.projectBudgets
      ensures BudgetMeans(t.projectBudgets[b], requests', t.issueRecords, t.rewardRequests, which)
    {
      assert BudgetMeans(t.projectBudgets[b], t.issueRequests, t.issueRecords, t.rewardRequests, which);
      EditedWeight(t, id, r', BudgetKey(t.projectBudgets[b]), Withheld);
      EditedWeight(t, id, r', BudgetKey(t.projectBudgets[b]), Issued);
    }
  }

  /** An issue budget keeps to its request exactly when nothing of the request changes once it is ongoing. */
  lemma EditKeepsMatch(t: Tables, id: Id, r': IssueRequest)
    requires id in t.issueRequests && r' == Edited(t.issueRequests[id], r'.voucherType, r'.unit, r'.amount)
    requires IssueBudgetsFrozen(t.issueBudgets, t.issueRequests)
    requires IssueBudgetsOngoing(t.issueBudgets, t.issueRequests) && OngoingBudgeted(t.issueRequests, t.issueBudgets)
    ensures IssueBudgetsFrozen(t.issueBudgets, t.issueRequests[id := r']) <==>
            (t.issueRequests[id].status == Ongoing ==> r' == t.issueRequests[id])
  {
    if t.issueRequests[id].status == Ongoing {
      assert HasIssueBudget(t.issueBudgets, id);
      var ib :| ib in t.issueBudgets && t.issueBudgets[ib].issueRequestId == id;
      assert t.issueRequests[id := r'][id] == r';
    } else {
      UnbudgetedRequestKeepsMatch(t, id, r');
    }
  }

  /** A late edit of a request keeps the column sums exactly when the request is still editable, or nothing
      changes, or it moves an amount of zero to a pair that has a budget. It keeps a column covering them
      exactly when the request is not in that column, or the budget of the new pair has room for the new
      amount. And it keeps issue budgets over what their requests ask for exactly when it changes no ongoing
      request. */
  lemma LateEditKeepsColumnsExactlyWhenHarmless(t: Tables, id: Id, voucherType: string, unit: string, amount: int,
                                                which: Promise)
    requires TablesOk(t) && TablesMean(t, which) && id in t.issueRequests
    ensures TablesMean(WriteRequestFields(t, id, voucherType, unit, amount), which) <==>
            EditIsHarmless(t, id, voucherType, unit, amount, which)
  {
    var r := t.issueRequests[id];
    var r' := Edited(r, voucherType, unit, amount);
    AmountIsNonNegative(t.issueRequests, id);
    assert WriteRequestFields(t, id, voucherType, unit, amount) == t.(issueRequests := t.issueRequests[id := r']);
    hide WriteRequestFields, ColumnsMean, IssueBudgetsFrozen, BudgetsCovered, PaymentsOnDetail, HasRoom, HasBudget;
    if OnColumns(which) {
      if !NeedsBudget(r.status, which) {
        WeightlessEditKeepsColumns(t, id, r', which);
      } else if which.ColumnSums? {
        EditKeepsSums(t, id, r');
      } else {
        EditKeepsCover(t, id, r', which);
      }
    } else if which.IssueBudgetMatch? {
      EditKeepsMatch(t, id, r');
    }
  }

  // ---- Moving a finance doc after its check ----

  /** What opened from the doc or was paid under it needs it approved. */
  ghost predicate Unused(t: Tables, docId: string, which: Promise) {
    match which
    case LineCover => forall b | b in t.projectBudgets :: t.projectBudgets[b].docId != docId
    case PaymentCover => forall p | p in t.payments :: t.payments[p].docId != docId
    case _ => true
  }

  /** A late status write keeps the cover exactly when the doc ends approved, or nothing was opened from it;
      and the payments theirs exactly when the doc ends approved, or nothing was paid under it. */
  lemma LateMoveKeepsCoverExactlyWhenHarmless(t: Tables, docId: string, target: ReviewStatus, which: Promise)
    requires TablesMean(t, which) && docId in t.docs
    ensures TablesMean(WriteDocStatus(t, docId, target), which) <==> target == Approved || Unused(t, docId, which)
  {
    var docs' := t.docs[docId := t.docs[docId].(status := target)];
    match which {
      case LineCover =>
        forall b | b in t.projectBudgets
          ensures DocCovers(docs'[t.projectBudgets[b].docId], t.configs, t.projectBudgets[b]) <==>
                  target == Approved || t.projectBudgets[b].docId != docId
        {
          assert DocCovers(t.docs[t.projectBudgets[b].docId], t.configs, t.projectBudgets[b]);
        }
      case PaymentCover =>
        forall p | p in t.payments
          ensures OnDetail(t.payments[p], docs') <==> target == Approved || t.payments[p].docId != docId
        {
          assert OnDetail(t.payments[p], t.docs);
        }
      case _ =>
    }
  }

  // ---- Editing a finance doc after its check ----

  /** Every budget opened from the doc finds a line that covers it in the new detail, and every payment
      of the doc its address. */
  ghost predicate RowsFit(t: Tables, docId: string, detail: seq<DetailLine>, which: Promise) {
    match which
    case LineCover =>
      forall b | b in t.projectBudgets && t.projectBudgets[b].docId == docId ::
        HasLineFor(detail, t.configs, t.projectBudgets[b])
    case PaymentCover =>
      forall p | p in t.payments && t.payments[p].docId == docId :: HasAddress(detail, t.payments[p].address)
    case _ => true
  }

  ghost predicate HasLineFor(detail: seq<DetailLine>, configs: map<string, PayConfig>, b: ProjectBudget) {
    exists i :: 0 <= i < |detail| && LineCovers(detail[i], configs, b)
  }

  ghost predicate HasAddress(detail: seq<DetailLine>, address: string) {
    exists i :: 0 <= i < |detail| && Address(detail[i]) == address
  }

  lemma EditedDocBudgets(t: Tables, docId: string, detail: seq<DetailLine>)
    requires BudgetsCovered(t.projectBudgets, t.docs, t.configs) && docId in t.docs
    ensures BudgetsCovered(t.projectBudgets, t.docs[docId := t.docs[docId].(detail := detail)], t.configs) <==>
            forall b | b in t.projectBudgets && t.projectBudgets[b].docId == docId ::
              HasLineFor(detail, t.configs, t.projectBudgets[b])
  {
    var docs' := t.docs[docId := t.docs[docId].(detail := detail)];
    forall b | b in t.projectBudgets
      ensures DocCovers(docs'[t.projectBudgets[b].docId], t.configs, t.projectBudgets[b]) <==>
              (t.projectBudgets[b].docId == docId ==> HasLineFor(detail, t.configs, t.projectBudgets[b]))
    {
      assert DocCovers(t.docs[t.projectBudgets[b].docId], t.configs, t.projectBudgets[b]);
    }
  }

  lemma EditedDocPayments(t: Tables, docId: string, detail: seq<DetailLine>)
    requires PaymentsOnDetail(t.payments, t.docs) && docId in t.docs
    ensures PaymentsOnDetail(t.payments, t.docs[docId := t.docs[docId].(detail := detail)]) <==>
            forall p | p in t.payments && t.payments[p].docId == docId :: HasAddress(detail, t.payments[p].address)
  {
    var docs' := t.docs[docId := t.docs[docId].(detail := detail)];
    forall p | p in t.payments
      ensures OnDetail(t.payments[p], docs') <==>
              (t.payments[p].docId == docId ==> HasAddress(detail, t.payments[p].address))
    {
      assert OnDetail(t.payments[p], t.docs);
    }
  }

  /** A late content write keeps the cover exactly when the new detail still has a line that covers each
      budget opened from the doc; and the payments theirs exactly when it still has their addresses. */
  lemma LateContentKeepsCoverExactlyWhenHarmless(t: Tables, docId: string, detail: seq<DetailLine>, which: Promise)
    requires TablesMean(t, which) && docId in t.docs
    ensures TablesMean(WriteDocContent(t, docId, detail), which) <==> RowsFit(t, docId, detail, which)
  {
    match which {
      case LineCover => EditedDocBudgets(t, docId, detail);
      case PaymentCover => EditedDocPayments(t, docId, detail);
      case _ =>
    }
  }

  // ---- Opening budgets from a doc that was read before ----

  ghost predicate Covered(b: ProjectBudget, docs: map<string, FinanceDoc>, configs: map<string, PayConfig>) {
    b.docId in docs && DocCovers(docs[b.docId], configs, b)
  }

  lemma NewRowCovered(budgets: map<Id, ProjectBudget>, id: Id, row: ProjectBudget, docs: map<string, FinanceDoc>,
                      configs: map<string, PayConfig>)
    requires id !in budgets
    ensures BudgetsCovered(budgets[id := row], docs, configs) <==>
            BudgetsCovered(budgets, docs, configs) && Covered(row, docs, configs)
  {
    hide DocCovers;
    var budgets' := budgets[id := row];
    if BudgetsCovered(budgets', docs, configs) {
      assert budgets'[id] == row;
      forall i | i in budgets ensures Covered(budgets[i], docs, configs) {
        assert budgets'[i] == budgets[i];
      }
    }
  }

  lemma {:induction false} InsertedRowsCovered(budgets: map<Id, ProjectBudget>, ids: seq<Id>, rows: seq<ProjectBudget>,
                                               docs: map<string, FinanceDoc>, configs: map<string, PayConfig>)
    requires |ids| == |rows| && BudgetsInsertable(budgets, ids, rows)
    ensures BudgetsCovered(InsertedBudgets(budgets, ids, rows), docs, configs) <==>
            BudgetsCovered(budgets, docs, configs) && forall i | 0 <= i < |rows| :: Covered(rows[i], docs, configs)
    decreases |ids|
  {
    hide DocCovers;
    if ids != [] {
      var budgets' := budgets[ids[0] := rows[0]];
      InsertedRowsCovered(budgets', ids[1..], rows[1..], docs, configs);
      NewRowCovered(budgets, ids[0], rows[0], docs, configs);
      assert rows == [rows[0]] + rows[1..];
    }
  }

  /** The rows that a stale opening would insert, if they go in, are covered by the doc as it is now. */
  ghost predicate OpensCovered(t: Tables, docId: string, projectId: Id, items: seq<BudgetItem>, ids: seq<Id>) {
    CanInsertBudgets(t, docId, projectId, items, ids) ==>
      forall i | 0 <= i < |items| :: Covered(ZeroBudget(docId, projectId, items[i]), t.docs, t.configs)
  }

  /** Budgets opened from what was read before keep the cover exactly when the doc, as it is now, is
      approved with a line for each of them, or they are there already. */
  lemma LateOpeningKeepsCoverExactlyWhenHarmless(t: Tables, docId: string, projectId: Id, items: seq<BudgetItem>,
                                                 ids: seq<Id>)
    requires TablesMean(t, LineCover)
    ensures TablesMean(InsertBudgets(t, docId, projectId, items, ids), LineCover) <==>
            OpensCovered(t, docId, projectId, items, ids)
  {
    if CanInsertBudgets(t, docId, projectId, items, ids) {
      var rows := ZeroBudgets(docId, projectId, items);
      InsertedRowsCovered(t.projectBudgets, ids, rows, t.docs, t.configs);
      assert forall i | 0 <= i < |items| :: rows[i] == ZeroBudget(docId, projectId, items[i]);
    }
  }

  // ---- Paying under a doc that was read before ----

  /** The payment, if its guard lets it through, stays within a line of the doc as it is now, or goes to an
      address of it. */
  ghost predicate PaysCovered(t: Tables, paymentId: string, docId: string, address: string, budgetId: Id,
                              amount: AmountText, cap: AmountText, which: Promise)
  {
    PaymentAllowed(t, paymentId, budgetId, amount, cap) ==>
      match which
      case LineCover =>
        var b := t.projectBudgets[budgetId];
        Covered(b.(total := b.total + Stored(amount), available := b.available + Stored(amount)), t.docs, t.configs)
      case PaymentCover => OnDetail(FinancePayment(docId, address, Stored(amount)), t.docs)
      case _ => true
  }

  lemma RowCoveredAfterPut(budgets: map<Id, ProjectBudget>, id: Id, row: ProjectBudget,
                           docs: map<string, FinanceDoc>, configs: map<string, PayConfig>)
    requires BudgetsCovered(budgets, docs, configs)
    ensures BudgetsCovered(budgets[id := row], docs, configs) <==> Covered(row, docs, configs)
  {
    hide DocCovers;
    if BudgetsCovered(budgets[id := row], docs, configs) {
      assert budgets[id := row][id] == row;
    }
  }

  lemma NewPaymentOnDetail(payments: map<string, FinancePayment>, id: string, p: FinancePayment,
                           docs: map<string, FinanceDoc>)
    requires PaymentsOnDetail(payments, docs)
    ensures PaymentsOnDetail(payments[id := p], docs) <==> OnDetail(p, docs)
  {
    hide OnDetail;
    if PaymentsOnDetail(payments[id := p], docs) {
      assert payments[id := p][id] == p;
    }
  }

  lemma PayBesidesDocs(t: Tables, paymentId: string, docId: string, address: string, budgetId: Id,
                       amount: AmountText, cap: AmountText, which: Promise)
    requires TablesMean(t, which) && !OnDocs(which)
    ensures TablesMean(Pay(t, paymentId, docId, address, budgetId, amount, cap), which)
    ensures PaysCovered(t, paymentId, docId, address, budgetId, amount, cap, which)
  {
    hide ColumnsMean;
    if OnColumns(which) {
      PayKeepsColumns(t, paymentId, docId, address, budgetId, amount, cap, which);
    }
  }

  lemma PayUnderLine(t: Tables, paymentId: string, docId: string, address: string, budgetId: Id, amount: AmountText,
                     cap: AmountText)
    requires TablesMean(t, LineCover)
    ensures TablesMean(Pay(t, paymentId, docId, address, budgetId, amount, cap), LineCover) <==>
            PaysCovered(t, paymentId, docId, address, budgetId, amount, cap, LineCover)
  {
    hide WithinDocAmount, Stored, Covered;
    if PaymentAllowed(t, paymentId, budgetId, amount, cap) {
      var b := t.projectBudgets[budgetId];
      RowCoveredAfterPut(t.projectBudgets, budgetId,
                         b.(total := b.total + Stored(amount), available := b.available + Stored(amount)),
                         t.docs, t.configs);
    }
  }

  lemma PayToAddress(t: Tables, paymentId: string, docId: string, address: string, budgetId: Id, amount: AmountText,
                     cap: AmountText)
    requires TablesMean(t, PaymentCover)
    ensures TablesMean(Pay(t, paymentId, docId, address, budgetId, amount, cap), PaymentCover) <==>
            PaysCovered(t, paymentId, docId, address, budgetId, amount, cap, PaymentCover)
  {
    hide WithinDocAmount, Stored, OnDetail;
    NewPaymentOnDetail(t.payments, paymentId, FinancePayment(docId, address, Stored(amount)), t.docs);
  }

  /** A payment that remembers its cap keeps the cover exactly when the doc, as it is now, is approved with a
      line that covers the new total; and the payments theirs exactly when it has the address. */
  lemma LatePaymentKeepsCoverExactlyWhenHarmless(t: Tables, paymentId: string, docId: string, address: string,
                                                 budgetId: Id, amount: AmountText, cap: AmountText, which: Promise)
    requires TablesMean(t, which)
    ensures TablesMean(Pay(t, paymentId, docId, address, budgetId, amount, cap), which) <==>
            PaysCovered(t, paymentId, docId, address, budgetId, amount, cap, which)
  {
    hide Pay, PaysCovered, TablesMean;
    match which {
      case LineCover => PayUnderLine(t, paymentId, docId, address, budgetId, amount, cap);
      case PaymentCover => PayToAddress(t, paymentId, docId, address, budgetId, amount, cap);
      case _ => PayBesidesDocs(t, paymentId, docId, address, budgetId, amount, cap, which);
    }
  }

  // ---- Any late write ----

  /** The write does no harm to the promise, told from the rows it finds. */
  ghost predicate HarmlessWrite(t: Tables, c: Worker, e: Env, which: Promise) {
    match c
    case EditingRequest(id, voucherType, unit, units) =>
      id in t.issueRequests ==> EditIsHarmless(t, id, voucherType, unit, units, which)
    case EditingDoc(docId, detail) => docId in t.docs ==> RowsFit(t, docId, detail, which)
    case MovingDoc(docId, target) => docId in t.docs ==> target == Approved || Unused(t, docId, which)
    case Initialising(docId, projectId, items) =>
      which == LineCover ==> OpensCovered(t, docId, projectId, items, e.budgetIds)
    case Paying(docId, address, budgetId, amount, cap) =>
      PaysCovered(t, e.paymentId, docId, address, budgetId, amount, cap, which)
    case _ => true
  }

  lemma LateWriteKeepsMeaningExactlyWhenHarmless(t: Tables, verdicts: map<string, bool>, c: Worker, e: Env,
                                                 which: Promise)
    requires TablesOk(t) && TablesMean(t, which) && WorkerOk(t, verdicts, c) && WritesLate(c)
    ensures TablesMean(LateWrite(t, c, e), which) <==> HarmlessWrite(t, c, e, which)
  {
    hide TablesOk, TablesMean, EditIsHarmless, RowsFit, Unused, OpensCovered, PaysCovered, Pay, InsertBudgets,
         WriteRequestFields, WriteDocContent, WriteDocStatus;
    match c {
      case EditingRequest(id, voucherType, unit, units) =>
        NoRequestNoWrite(t, id, voucherType, unit, units);
        if id in t.issueRequests { LateEditKeepsColumnsExactlyWhenHarmless(t, id, voucherType, unit, units, which); }
      case EditingDoc(docId, detail) =>
        NoDocNoWrite(t, docId, detail, Draft);
        if docId in t.docs { LateContentKeepsCoverExactlyWhenHarmless(t, docId, detail, which); }
      case MovingDoc(docId, target) =>
        NoDocNoWrite(t, docId, [], target);
        if docId in t.docs { LateMoveKeepsCoverExactlyWhenHarmless(t, docId, target, which); }
      case Initialising(docId, projectId, items) =>
        if which == LineCover {
          LateOpeningKeepsCoverExactlyWhenHarmless(t, docId, projectId, items, e.budgetIds);
        } else {
          OpeningBesidesLines(t, verdicts, c, e, which);
        }
      case Paying(docId, address, budgetId, amount, cap) =>
        LatePaymentKeepsCoverExactlyWhenHarmless(t, e.paymentId, docId, address, budgetId, amount, cap, which);
      case _ =>
    }
  }

  lemma NoRequestNoWrite(t: Tables, id: Id, voucherType: string, unit: string, units: int)
    ensures id !in t.issueRequests ==> WriteRequestFields(t, id, voucherType, unit, units) == t
  {
  }

  lemma NoDocNoWrite(t: Tables, docId: string, detail: seq<DetailLine>, target: ReviewStatus)
    ensures docId !in t.docs ==> WriteDocContent(t, docId, detail) == t && WriteDocStatus(t, docId, target) == t
  {
  }

  lemma OpeningBesidesLines(t: Tables, verdicts: map<string, bool>, c: Worker, e: Env, which: Promise)
    requires TablesOk(t) && TablesMean(t, which) && which != LineCover
    requires c.Initialising? && WorkerOk(t, verdicts, c)
    ensures TablesMean(InsertBudgets(t, c.docId, c.projectId, c.items, e.budgetIds), which)
  {
    hide TablesOk, ColumnsMean;
    if OnColumns(which) {
      InsertBudgetsKeepsColumns(t, c.docId, c.projectId, c.items, e.budgetIds, which);
    }
  }

  // ---- Steps and runs ----

  ghost predicate Harmless(s: Sys, step: Step, which: Promise) {
    step.Advance? ==> HarmlessWrite(s.t, WorkerAt(s, step.w), step.e, which)
  }

  lemma AdvanceWrites(s: Sys, w: Id, e: Env)
    requires WritesLate(WorkerAt(s, w))
    ensures Next(s, Advance(w, e)).t == LateWrite(s.t, WorkerAt(s, w), e)
  {
    LateWriteIsTheStep(s, w, WorkerAt(s, w), e);
    hide AdvanceWorker, LateWrite;
  }

  lemma OthersAreHarmless(t: Tables, c: Worker, e: Env, which: Promise)
    requires !WritesLate(c)
    ensures HarmlessWrite(t, c, e, which)
  {
  }

  /** One step keeps a promise exactly when it is harmless to it. */
  lemma StepKeepsMeaningExactlyWhenHarmless(s: Sys, step: Step, which: Promise)
    requires Inv(s) && TablesMean(s.t, which)
    ensures TablesMean(Next(s, step).t, which) <==> Harmless(s, step, which)
  {
    hide Next, TablesMean, HarmlessWrite;
    if step.Advance? && WritesLate(WorkerAt(s, step.w)) {
      AdvanceWrites(s, step.w, step.e);
      WorkerIsOk(s, step.w);
      LateWriteKeepsMeaningExactlyWhenHarmless(s.t, s.remote.verdicts, WorkerAt(s, step.w), step.e, which);
    } else {
      if step.Advance? { OthersAreHarmless(s.t, WorkerAt(s, step.w), step.e, which); }
      QuietStepKeepsMeaning(s, step, which);
    }
  }

  ghost predicate HarmlessRun(s: Sys, steps: seq<Step>, which: Promise)
    decreases |steps|
  {
    steps != [] ==> Harmless(s, steps[0], which) && HarmlessRun(Next(s, steps[0]), steps[1..], which)
  }

  /** The promise holds in every state a run passes through. */
  ghost predicate MeansThroughout(s: Sys, steps: seq<Step>, which: Promise) {
    forall n | 0 <= n <= |steps| :: TablesMean(Run(s, steps[..n]).t, which)
  }

  lemma ThroughoutIsNowAndThen(s: Sys, steps: seq<Step>, which: Promise)
    requires steps != []
    ensures MeansThroughout(s, steps, which) <==>
            TablesMean(s.t, which) && MeansThroughout(Next(s, steps[0]), steps[1..], which)
  {
    hide Next, TablesMean;
    var s', rest := Next(s, steps[0]), steps[1..];
    assert steps[..0] == [];
    forall n | 1 <= n <= |steps| ensures Run(s, steps[..n]) == Run(s', rest[..n - 1]) {
      assert steps[..n][0] == steps[0] && steps[..n][1..] == rest[..n - 1];
    }
    if MeansThroughout(s, steps, which) {
      assert TablesMean(Run(s, steps[..0]).t, which);
      forall n | 0 <= n <= |rest| ensures TablesMean(Run(s', rest[..n]).t, which) {
        assert TablesMean(Run(s, steps[..n + 1]).t, which);
      }
    } else {
      var n :| 0 <= n <= |steps| && !TablesMean(Run(s, steps[..n]).t, which);
      assert n == 0 || !TablesMean(Run(s', rest[..n - 1]).t, which);
    }
  }

  /** A run keeps a promise in every state exactly when every late write in it is harmless to it. */
  lemma {:induction false} RunKeepsMeaningExactlyWhenHarmless(s: Sys, steps: seq<Step>, which: Promise)
    requires Inv(s) && TablesMean(s.t, which)
    ensures HarmlessRun(s, steps, which) <==> MeansThroughout(s, steps, which)
    ensures HarmlessRun(s, steps, which) ==> Inv(Run(s, steps)) && TablesMean(Run(s, steps).t, which)
    decreases |steps|
  {
    hide Inv, Next, TablesMean, Harmless, MeansThroughout;
    if steps == [] {
      NoStepsNoHarm(s, which);
    } else {
      ThroughoutIsNowAndThen(s, steps, which);
      NextKeeps(s, steps[0]);
      StepKeepsMeaningExactlyWhenHarmless(s, steps[0], which);
      if Harmless(s, steps[0], which) {
        RunKeepsMeaningExactlyWhenHarmless(Next(s, steps[0]), steps[1..], which);
      } else {
        MeansAtFirst(Next(s, steps[0]), steps[1..], which);
      }
    }
  }

  lemma NoStepsNoHarm(s: Sys, which: Promise)
    requires TablesMean(s.t, which)
    ensures MeansThroughout(s, [], which)
  {
    hide Next, TablesMean;
    var none: seq<Step> := [];
    forall n | 0 <= n <= |none| ensures TablesMean(Run(s, none[..n]).t, which) {
      assert none[..n] == [];
    }
  }

  lemma MeansAtFirst(s: Sys, steps: seq<Step>, which: Promise)
    ensures MeansThroughout(s, steps, which) ==> TablesMean(s.t, which)
  {
    hide Next, TablesMean;
    assert steps[..0] == [];
    if MeansThroughout(s, steps, which) {
      assert TablesMean(Run(s, steps[..0]).t, which);
    }
  }

  // ---- What such runs reach ----

  ghost predicate HarmlesslyReachable(s: Sys, which: Promise) {
    exists configs, steps :: HarmlessRun(Init(configs), steps, which) && s == Run(Init(configs), steps)
  }

  lemma InitMeans(configs: map<string, PayConfig>, which: Promise)
    ensures TablesMean(Init(configs).t, which)
  {
  }

  lemma HarmlesslyReachableMeans(s: Sys, which: Promise)
    requires HarmlesslyReachable(s, which)
    ensures Inv(s) && TablesMean(s.t, which)
  {
    hide Inv, Next, TablesMean;
    var configs, steps :| HarmlessRun(Init(configs), steps, which) && s == Run(Init(configs), steps);
    InitIsOk(configs);
    InitMeans(configs, which);
    RunKeepsMeaningExactlyWhenHarmless(Init(configs), steps, which);
  }
}
