/** Where the guarantees end: runs in which a late write does harm, and how exact the payment guard is.

    The machine lets an issue request be created, edited, submitted and decided under weaker conditions than
    the service. The runs here keep to what the service accepts. */
module Limits {
  import opened Amounts
  import opened BudgetItems
  import opened ApprovedDocs
  import opened Interleaving
  import opened IssueRequestService
  import opened Ledger
  import opened MeaningSteps
  import opened Reachable
  import opened Schema
  import opened Sums
  import opened Text
  import Theorems
  import opened Totals
  import opened Transactions
  import VoucherIssuer
  import opened Vouchers
  import opened Workers
  import opened Wrappers

  // ---- What the service accepts ----

  /** A request belongs to a project with an approved doc. */
  ghost predicate HasApprovedDoc(t: Tables, projectId: Id) {
    exists d :: d in t.docs && t.docs[d].status == Approved && t.docs[d].projectId == projectId
  }

  /** A new amount for a pair: known names, and room in what the pair's budget has available. */
  ghost predicate TakesAmount(t: Tables, k: Key, amount: AmountText) {
    && HasApprovedDoc(t, k.projectId) && k.voucherType in VOUCHER_TYPES && k.unit in UNITS
    && ColumnCovers(t, k, ToApprove, amount)
  }

  /** The checks the service makes of an issue request, and the machine does not. */
  ghost predicate Accepted(s: Sys, step: Step) {
    match step
    case CreateRequestStep(_, key, amount) => TakesAmount(s.t, key, amount)
    case BeginEditRequest(_, id, voucherType, unit, amount) =>
      id in s.t.issueRequests && TakesAmount(s.t, Key(s.t.issueRequests[id].projectId, voucherType, unit), amount)
    case SubmitStep(id) => OfApprovedDoc(s.t, id)
    case ApproveStep(id) => OfApprovedDoc(s.t, id)
    case RejectStep(id) => OfApprovedDoc(s.t, id)
    case _ => true
  }

  ghost predicate OfApprovedDoc(t: Tables, id: Id) {
    id in t.issueRequests && HasApprovedDoc(t, t.issueRequests[id].projectId)
  }

  ghost predicate AcceptedRun(s: Sys, steps: seq<Step>)
    decreases |steps|
  {
    steps != [] ==> Accepted(s, steps[0]) && AcceptedRun(Next(s, steps[0]), steps[1..])
  }

  /** What can be reached from an empty database by steps that the service accepts. */
  ghost predicate IsServed(s: Sys) {
    exists configs, steps :: AcceptedRun(Init(configs), steps) && s == Run(Init(configs), steps)
  }

  lemma {:induction false} OneMoreAccepted(s: Sys, steps: seq<Step>, step: Step)
    requires AcceptedRun(s, steps) && Accepted(Run(s, steps), step)
    ensures AcceptedRun(s, steps + [step]) && Run(s, steps + [step]) == Next(Run(s, steps), step)
    decreases |steps|
  {
    hide Next, Accepted;
    if steps == [] {
      assert steps + [step] == [step] && [step][1..] == [];
    } else {
      assert (steps + [step])[0] == steps[0] && (steps + [step])[1..] == steps[1..] + [step];
      OneMoreAccepted(Next(s, steps[0]), steps[1..], step);
    }
  }

  lemma ServedNext(s: Sys, step: Step)
    requires IsServed(s) && Accepted(s, step)
    ensures IsServed(Next(s, step))
  {
    hide Next, Accepted;
    var configs, steps :| AcceptedRun(Init(configs), steps) && s == Run(Init(configs), steps);
    OneMoreAccepted(Init(configs), steps, step);
  }

  // ---- One doc, one line, one budget ----

  const A_CONFIG: map<string, PayConfig> := map["a" := PayConfig("COUPON", "COUPON_CASHBACK")]
  const KEY := Key(1, "COUPON", "COUPON_CASHBACK")
  const ONE := 100000000
  const HALF := 50000000
  const ITEMS: seq<BudgetItem> := [BudgetItem("COUPON", "COUPON_CASHBACK", Number(1.0))]
  const EMPTY := ProjectBudget("d", 1, "COUPON", "COUPON_CASHBACK", 0, 0, 0, 0, 0)

  function Detail(amount: real): seq<DetailLine> { [DetailLine("a", Number(amount))] }

  function Docs(status: ReviewStatus): map<string, FinanceDoc> { map["d" := FinanceDoc(1, Detail(1.0), status)] }

  function StateOf(docs: map<string, FinanceDoc>, budgets: map<Id, ProjectBudget>, workers: map<Id, Worker>): Sys {
    Sys(Tables(A_CONFIG, docs, map[], budgets, map[], map[], map[], map[]), workers, Remote(map[], []), [], [], [])
  }

  lemma DetailIsAcceptable(amount: real)
    ensures Acceptable(A_CONFIG, Detail(amount)) && Acceptable(A_CONFIG, Detail(1.0))
    ensures Items(A_CONFIG, Detail(1.0)) == ITEMS
    ensures DetailAmount(Detail(1.0), "a") == Some(Number(1.0))
  {
    TrimmedStays("a");
    assert Address(Detail(amount)[0]) == "a" && Address(Detail(1.0)[0]) == "a";
    assert LineOk(A_CONFIG, Detail(amount)[0]) && LineOk(A_CONFIG, Detail(1.0)[0]);
  }

  lemma DocIsCreated()
    ensures IsServed(StateOf(Docs(Draft), map[], map[]))
  {
    DetailIsAcceptable(1.0);
    assert Run(Init(A_CONFIG), []) == Init(A_CONFIG);
    InitIsServed(A_CONFIG);
    ServedNext(Init(A_CONFIG), CreateDocStep("d", 1, Detail(1.0)));
  }

  lemma InitIsServed(configs: map<string, PayConfig>)
    ensures IsServed(Init(configs))
  {
    assert Run(Init(configs), []) == Init(configs) && AcceptedRun(Init(configs), []);
  }

  lemma MoveBegins(s: Sys, w: Id, from: ReviewStatus, target: ReviewStatus)
    requires WorkerAt(s, w) == Idle && s.t.docs == Docs(from) && TransitionAllowed(from, target)
    ensures Next(s, BeginMoveDoc(w, "d", target)) == Goto(s, w, MovingDoc("d", target))
  {
    hide AdvanceWorker;
  }

  function Moved(s: Sys, w: Id, status: ReviewStatus): Sys { Goto(s.(t := s.t.(docs := Docs(status))), w, Idle) }

  lemma MoveLands(s: Sys, w: Id, from: ReviewStatus, target: ReviewStatus, e: Env)
    requires WorkerAt(s, w) == MovingDoc("d", target) && s.t.docs == Docs(from)
    ensures Next(s, Advance(w, e)) == Moved(s, w, target)
  {
    assert s.t.docs["d" := s.t.docs["d"].(status := target)] == Docs(target);
  }

  lemma DocIsMoved(s: Sys, w: Id, from: ReviewStatus, target: ReviewStatus, e: Env)
    requires IsServed(s) && WorkerAt(s, w) == Idle && s.t.docs == Docs(from) && TransitionAllowed(from, target)
    ensures IsServed(Moved(s, w, target))
  {
    hide IsServed, Next;
    ServedNext(s, BeginMoveDoc(w, "d", target));
    MoveBegins(s, w, from, target);
    var s1 := Goto(s, w, MovingDoc("d", target));
    ServedNext(s1, Advance(w, e));
    MoveLands(s1, w, from, target, e);
    assert s1.workers[w := Idle] == s.workers[w := Idle];
  }

  /** Worker 1 submits the doc and approves it, with worker 2 wherever it is. */
  lemma DocIsApproved(c: Worker, e: Env)
    requires IsServed(StateOf(Docs(Draft), map[], map[2 := c]))
    ensures IsServed(StateOf(Docs(Approved), map[], map[1 := Idle, 2 := c]))
  {
    hide IsServed, Next;
    var s := StateOf(Docs(Draft), map[], map[2 := c]);
    DocIsMoved(s, 1, Draft, ToApprove, e);
    DocIsMoved(Moved(s, 1, ToApprove), 1, ToApprove, Approved, e);
    assert s.workers[1 := Idle][1 := Idle] == map[1 := Idle, 2 := c];
  }

  lemma OpensABudget(t: Tables)
    requires t.projectBudgets == map[] && "d" in t.docs
    ensures InsertBudgets(t, "d", 1, ITEMS, [7]) == t.(projectBudgets := map[7 := EMPTY])
  {
    var rows := ZeroBudgets("d", 1, ITEMS);
    assert rows[0] == EMPTY;
    assert [7][1..] == [] && rows[1..] == [];
    assert ProjectBudgetInsertable(t.projectBudgets, 7, rows[0]);
    assert BudgetsInsertable(t.projectBudgets[7 := rows[0]], [], []);
    assert BudgetsInsertable(t.projectBudgets, [7], rows);
    assert InsertedBudgets(t.projectBudgets, [7], rows) == InsertedBudgets(t.projectBudgets[7 := rows[0]], [], []);
    assert t.projectBudgets[7 := rows[0]] == map[7 := EMPTY];
  }

  lemma InitBegins(s: Sys)
    requires s.t.configs == A_CONFIG && s.t.docs == Docs(Approved) && WorkerAt(s, 1) == Idle
    ensures Next(s, BeginInit(1, "d")) == Goto(s, 1, Initialising("d", 1, ITEMS))
  {
    DetailIsAcceptable(1.0);
  }

  lemma InitLands(s: Sys, e: Env)
    requires WorkerAt(s, 1) == Initialising("d", 1, ITEMS) && e.budgetIds == [7]
    requires s.t.projectBudgets == map[] && "d" in s.t.docs
    ensures Next(s, Advance(1, e)) == Goto(s.(t := s.t.(projectBudgets := map[7 := EMPTY])), 1, Idle)
  {
    OpensABudget(s.t);
  }

  lemma BudgetIsOpened(c: Worker, e: Env)
    requires IsServed(StateOf(Docs(Approved), map[], map[1 := Idle, 2 := c])) && e.budgetIds == [7]
    ensures IsServed(StateOf(Docs(Approved), map[7 := EMPTY], map[1 := Idle, 2 := c]))
  {
    var s := StateOf(Docs(Approved), map[], map[1 := Idle, 2 := c]);
    ServedNext(s, BeginInit(1, "d"));
    InitBegins(s);
    var s1 := Goto(s, 1, Initialising("d", 1, ITEMS));
    ServedNext(s1, Advance(1, e));
    InitLands(s1, e);
    assert s1.workers[1 := Idle] == map[1 := Idle, 2 := c];
  }

  function AnyEnv(): Env {
    Env(true, "", 0, "", true, None, false, VoucherIssuer.TransportError, VoucherIssuer.NotFound, "", "p", [7])
  }

  // ---- Late status writes ----

  /** The doc is approved while another worker, who checked before, is about to reject it. */
  lemma TwoDecisions(e: Env)
    ensures IsServed(StateOf(Docs(Approved), map[], map[1 := Idle, 2 := MovingDoc("d", Rejected)]))
  {
    hide IsServed, Next;
    DocIsCreated();
    var s, w2 := StateOf(Docs(Draft), map[], map[]), MovingDoc("d", Rejected);
    DocIsMoved(s, 1, Draft, ToApprove, e);
    var s1 := Moved(s, 1, ToApprove);
    ServedNext(s1, BeginMoveDoc(2, "d", Rejected));
    MoveBegins(s1, 2, ToApprove, Rejected);
    var s2 := Goto(s1, 2, w2);
    DocIsMoved(s2, 1, ToApprove, Approved, e);
    assert s2.workers[1 := Idle] == map[1 := Idle, 2 := w2];
  }

  /** A budget that does not rest on an approved line, which NoOverspend excludes. */
  ghost predicate Uncovered(s: Sys, id: Id) {
    && id in s.t.projectBudgets
    && !(s.t.projectBudgets[id].docId in s.t.docs
         && DocCovers(s.t.docs[s.t.projectBudgets[id].docId], s.t.configs, s.t.projectBudgets[id]))
  }

  /** Two workers decide on one doc; one approves it and a budget is opened from it; then the other's
      rejection lands. The approved doc is not final, and its budget rests on nothing. */
  lemma LateMoveCanUndoAnApproval()
    ensures exists s, step ::
              && IsServed(s) && IsServed(Next(s, step)) && !ApprovedKept(s.t.docs, Next(s, step).t.docs)
              && !Uncovered(s, 7) && Uncovered(Next(s, step), 7)
  {
    var e, w2 := AnyEnv(), MovingDoc("d", Rejected);
    TwoDecisions(e);
    BudgetIsOpened(w2, e);
    var s := StateOf(Docs(Approved), map[7 := EMPTY], map[1 := Idle, 2 := w2]);
    ServedNext(s, Advance(2, e));
    MoveLands(s, 2, Approved, Rejected, e);
    DetailIsAcceptable(1.0);
    RejectedIsUncovered(s);
  }

  lemma RejectedIsUncovered(s: Sys)
    requires s.t.configs == A_CONFIG && s.t.projectBudgets == map[7 := EMPTY] && s.t.docs == Docs(Approved)
    ensures !Uncovered(s, 7) && !ApprovedKept(s.t.docs, Docs(Rejected))
    ensures Uncovered(s.(t := s.t.(docs := Docs(Rejected))), 7)
  {
    DetailIsAcceptable(1.0);
    assert LineCovers(s.t.docs["d"].detail[0], s.t.configs, EMPTY);
    assert "d" in s.t.docs && s.t.docs["d"].status == Approved && Docs(Rejected)["d"] != s.t.docs["d"];
  }

  /** Nothing has been opened yet when the rejection lands, but another worker remembers the approved doc,
      and opens a budget from it all the same. */
  lemma RememberedDocIsOpenedAllTheSame()
    ensures exists s :: IsServed(s) && Uncovered(s, 7) && "d" in s.t.docs && s.t.docs["d"].status == Rejected
  {
    var e, w2 := AnyEnv(), MovingDoc("d", Rejected);
    TwoDecisions(e);
    var s := StateOf(Docs(Approved), map[], map[1 := Idle, 2 := w2]);
    ServedNext(s, BeginInit(1, "d"));
    InitBegins(s);
    var s1 := Goto(s, 1, Initialising("d", 1, ITEMS));
    ServedNext(s1, Advance(2, e));
    MoveLands(s1, 2, Approved, Rejected, e);
    var s2 := Moved(s1, 2, Rejected);
    ServedNext(s2, Advance(1, e));
    InitLands(s2, e);
    assert Uncovered(Goto(s2.(t := s2.t.(projectBudgets := map[7 := EMPTY])), 1, Idle), 7);
  }

  // ---- A paid budget ----

  const PAYMENTS: map<string, FinancePayment> := map["p" := FinancePayment("d", "a", ONE)]
  const PAID := ProjectBudget("d", 1, "COUPON", "COUPON_CASHBACK", ONE, ONE, 0, 0, 0)

  /** One unit has been paid into the one budget; worker 1 is idle. */
  function PaidState(detail: seq<DetailLine>, b: ProjectBudget, requests: map<Id, IssueRequest>,
                     issueBudgets: map<Id, IssueBudget>, c: Worker): Sys
  {
    Sys(Tables(A_CONFIG, map["d" := FinanceDoc(1, detail, Approved)], PAYMENTS, map[7 := b], requests, issueBudgets,
               map[], map[]),
        map[1 := Idle, 2 := c], Remote(map[], []), [], [], [])
  }

  lemma OneIsStored()
    ensures Stored(Number(1.0)) == ONE && Value(ONE) == 1.0
    ensures WithinDocAmount(0, Number(1.0), Number(1.0))
  {
    FormatIsExactOnGrid(ONE);
    GuardIsExact(0, Number(1.0), Number(1.0));
  }

  lemma PaymentBegins(s: Sys)
    requires s.t.configs == A_CONFIG && s.t.docs == Docs(Approved) && WorkerAt(s, 1) == Idle
    ensures Next(s, BeginPayment(1, "d", "a", Number(1.0))) == Goto(s, 1, Priced("d", "a", Number(1.0), Number(1.0)))
  {
    DetailIsAcceptable(1.0);
  }

  lemma BudgetIsFound(s: Sys, e: Env)
    requires s.t.configs == A_CONFIG && s.t.projectBudgets == map[7 := EMPTY]
    requires WorkerAt(s, 1) == Priced("d", "a", Number(1.0), Number(1.0))
    ensures Next(s, Advance(1, e)) == Goto(s, 1, Paying("d", "a", 7, Number(1.0), Number(1.0)))
  {
    OneIsStored();
    assert BelongsToDoc(s.t.projectBudgets[7], "d", "COUPON", "COUPON_CASHBACK");
  }

  lemma PaymentLands(s: Sys, e: Env)
    requires WorkerAt(s, 1) == Paying("d", "a", 7, Number(1.0), Number(1.0)) && e.paymentId == "p"
    requires s.t.payments == map[] && s.t.projectBudgets == map[7 := EMPTY]
    ensures Next(s, Advance(1, e))
            == Goto(s.(t := s.t.(payments := PAYMENTS, projectBudgets := map[7 := PAID])), 1, Idle)
  {
    OneIsStored();
    assert PaymentAllowed(s.t, "p", 7, Number(1.0), Number(1.0));
    assert s.t.projectBudgets[7 := PAID] == map[7 := PAID];
  }

  lemma BudgetIsPaid(c: Worker, e: Env)
    requires IsServed(StateOf(Docs(Draft), map[], map[2 := c])) && e.budgetIds == [7] && e.paymentId == "p"
    ensures IsServed(PaidState(Detail(1.0), PAID, map[], map[], c))
  {
    hide IsServed, Next;
    DocIsApproved(c, e);
    BudgetIsOpened(c, e);
    var s := StateOf(Docs(Approved), map[7 := EMPTY], map[1 := Idle, 2 := c]);
    ServedNext(s, BeginPayment(1, "d", "a", Number(1.0)));
    PaymentBegins(s);
    var s1 := Goto(s, 1, Priced("d", "a", Number(1.0), Number(1.0)));
    ServedNext(s1, Advance(1, e));
    BudgetIsFound(s1, e);
    var s2 := Goto(s1, 1, Paying("d", "a", 7, Number(1.0), Number(1.0)));
    ServedNext(s2, Advance(1, e));
    PaymentLands(s2, e);
    assert s2.workers[1 := Idle] == map[1 := Idle, 2 := c];
  }

  // ---- A late content write ----

  lemma EditBegins(s: Sys, amount: real)
    requires s.t.configs == A_CONFIG && s.t.docs == Docs(Draft) && WorkerAt(s, 2) == Idle
    ensures Next(s, BeginEditDoc(2, "d", Detail(amount))) == Goto(s, 2, EditingDoc("d", Detail(amount)))
  {
    DetailIsAcceptable(amount);
  }

  lemma EditLands(e: Env)
    ensures Next(PaidState(Detail(1.0), PAID, map[], map[], EditingDoc("d", Detail(0.5))), Advance(2, e))
            == PaidState(Detail(0.5), PAID, map[], map[], Idle)
  {
    var s := PaidState(Detail(1.0), PAID, map[], map[], EditingDoc("d", Detail(0.5)));
    assert s.t.docs["d" := s.t.docs["d"].(detail := Detail(0.5))] == map["d" := FinanceDoc(1, Detail(0.5), Approved)];
    assert s.workers[2 := Idle] == map[1 := Idle, 2 := Idle];
  }

  /** A worker begins to lower the amount while the doc is a draft; the doc is approved and paid in full;
      then the edit lands, and the total is above its line. */
  lemma LateContentCanBreakTheCap()
    ensures exists s ::
              && IsServed(s) && Uncovered(s, 7)
              && "d" in s.t.docs && s.t.docs["d"].status == Approved && s.t.docs["d"].detail == Detail(0.5)
              && Value(s.t.projectBudgets[7].total) > 0.5
  {
    var e, c := AnyEnv(), EditingDoc("d", Detail(0.5));
    DocIsCreated();
    var s := StateOf(Docs(Draft), map[], map[]);
    ServedNext(s, BeginEditDoc(2, "d", Detail(0.5)));
    EditBegins(s, 0.5);
    assert s.workers[2 := c] == map[2 := c];
    BudgetIsPaid(c, e);
    ServedNext(PaidState(Detail(1.0), PAID, map[], map[], c), Advance(2, e));
    EditLands(e);
    var s' := PaidState(Detail(0.5), PAID, map[], map[], Idle);
    LineIsTooLow(s');
  }

  lemma LineIsTooLow(s: Sys)
    requires s == PaidState(Detail(0.5), PAID, map[], map[], Idle)
    ensures Uncovered(s, 7) && Value(s.t.projectBudgets[7].total) > 0.5
  {
    OneIsStored();
  }

  // ---- Late edits of an issue request ----

  lemma IdleAndPaid(e: Env)
    requires e.budgetIds == [7] && e.paymentId == "p"
    ensures IsServed(PaidState(Detail(1.0), PAID, map[], map[], Idle))
  {
    DocIsCreated();
    ServedNext(StateOf(Docs(Draft), map[], map[]), Crash(2));
    BudgetIsPaid(Idle, e);
  }

  function Request(amount: int, status: ReviewStatus): IssueRequest {
    IssueRequest(1, "COUPON", "COUPON_CASHBACK", amount, status)
  }

  /** The paid budget as it stands, and request 5. */
  function TablesOf(b: ProjectBudget, amount: int, status: ReviewStatus, issueBudgets: map<Id, IssueBudget>): Tables {
    PaidState(Detail(1.0), b, map[5 := Request(amount, status)], issueBudgets, Idle).t
  }

  /** Worker 1 idle, and worker 2 wherever it is. */
  function With(t: Tables, c: Worker): Sys { Sys(t, map[1 := Idle, 2 := c], Remote(map[], []), [], [], []) }

  function Editing(t: Tables, other: int): Sys { With(t, EditingRequest(5, "COUPON", "COUPON_CASHBACK", other)) }

  function Edited(t: Tables): Sys { With(t, Idle) }

  lemma TakesUpToOne(t: Tables, amount: real)
    requires t.docs == Docs(Approved) && t.projectBudgets == map[7 := PAID] && 0.0 <= amount <= 1.0
    ensures TakesAmount(t, KEY, Number(amount))
  {
    assert "d" in t.docs && t.docs["d"].status == Approved && t.docs["d"].projectId == 1;
    TheBudget(t);
    hide ProjectBudgetFor;
    OneIsStored();
  }

  lemma RequestIsCreated(amount: real, e: Env)
    requires e.budgetIds == [7] && e.paymentId == "p" && 0.0 <= amount <= 1.0
    ensures IsServed(Edited(TablesOf(PAID, FormatAmount(amount), Draft, map[])))
  {
    IdleAndPaid(e);
    hide IsServed, AdvanceWorker, FormatAmount, TakesAmount;
    var paid := PaidState(Detail(1.0), PAID, map[], map[], Idle);
    TakesUpToOne(paid.t, amount);
    ServedNext(paid, CreateRequestStep(5, KEY, Number(amount)));
  }

  /** Worker 2 checks the draft of an amount, meaning to write the other; the budget has room for either. */
  lemma EditIsUnderWay(amount: real, other: real, e: Env)
    requires e.budgetIds == [7] && e.paymentId == "p" && 0.0 <= amount <= 1.0 && 0.0 <= other <= 1.0
    ensures IsServed(Editing(TablesOf(PAID, FormatAmount(amount), Draft, map[]), FormatAmount(other)))
  {
    RequestIsCreated(amount, e);
    hide IsServed, AdvanceWorker, FormatAmount, TakesAmount;
    var s := Edited(TablesOf(PAID, FormatAmount(amount), Draft, map[]));
    TakesUpToOne(s.t, other);
    ServedNext(s, BeginEditRequest(2, 5, "COUPON", "COUPON_CASHBACK", Number(other)));
    var c := EditingRequest(5, "COUPON", "COUPON_CASHBACK", FormatAmount(other));
    assert s.workers[2 := c] == map[1 := Idle, 2 := c];
  }

  lemma TheBudget(t: Tables)
    requires t.projectBudgets.Keys == {7} && BudgetKey(t.projectBudgets[7]) == KEY
    ensures ProjectBudgetFor(t, KEY) == Some(7)
  {
    assert 7 in t.projectBudgets;
  }

  lemma Submits(b: ProjectBudget, amount: int)
    requires BudgetKey(b) == KEY && b.available >= amount
    ensures Submit(TablesOf(b, amount, Draft, map[]), 5)
            == TablesOf(b.(available := b.available - amount, withhold := b.withhold + amount), amount, ToApprove,
                        map[])
  {
    var t := TablesOf(b, amount, Draft, map[]);
    TheBudget(t);
    hide ProjectBudgetFor;
    assert RequestKey(t.issueRequests[5]) == KEY;
  }

  lemma Approves(b: ProjectBudget, amount: int)
    requires BudgetKey(b) == KEY && b.withhold >= amount
    ensures Approve(TablesOf(b, amount, ToApprove, map[]), 5)
            == TablesOf(b.(issued := b.issued + amount, withhold := b.withhold - amount), amount, Approved, map[])
  {
    var t := TablesOf(b, amount, ToApprove, map[]);
    TheBudget(t);
    hide ProjectBudgetFor;
    assert RequestKey(t.issueRequests[5]) == KEY;
  }

  lemma RejectsNothing(b: ProjectBudget)
    requires BudgetKey(b) == KEY && b.withhold >= 0
    ensures Reject(TablesOf(b, 0, ToApprove, map[]), 5) == TablesOf(b, 0, Rejected, map[])
  {
    var t := TablesOf(b, 0, ToApprove, map[]);
    TheBudget(t);
    hide ProjectBudgetFor;
    assert RequestKey(t.issueRequests[5]) == KEY;
    assert b.(available := b.available + 0, withhold := b.withhold - 0) == b;
  }

  function OneIssueBudget(amount: int): map<Id, IssueBudget> {
    map[9 := IssueBudget(5, "COUPON", "COUPON_CASHBACK", amount, amount, 0, 0, OngoingBudget)]
  }

  lemma Starts(b: ProjectBudget, amount: int)
    ensures StartIssueBudget(TablesOf(b, amount, Approved, map[]), 5, 9, false)
            == TablesOf(b, amount, Ongoing, OneIssueBudget(amount))
  {
  }

  /** A commit by somebody else, upon request 5. */
  lemma Commits(b: ProjectBudget, amount: int, status: ReviewStatus, issueBudgets: map<Id, IssueBudget>, t': Tables,
                c: Worker, step: Step)
    requires IsServed(With(TablesOf(b, amount, status, issueBudgets), c))
    requires var t := TablesOf(b, amount, status, issueBudgets);
             match step
             case SubmitStep(id) => id == 5 && t' == Submit(t, id)
             case ApproveStep(id) => id == 5 && t' == Approve(t, id)
             case RejectStep(id) => id == 5 && t' == Reject(t, id)
             case StartIssueBudgetStep(id, newId, translated) => t' == StartIssueBudget(t, id, newId, translated)
             case _ => false
    ensures IsServed(With(t', c))
  {
    var t := TablesOf(b, amount, status, issueBudgets);
    assert "d" in t.docs && t.docs["d"].status == Approved && t.docs["d"].projectId == 1;
    assert OfApprovedDoc(t, 5);
    hide IsServed, AdvanceWorker, Submit, Approve, Reject, StartIssueBudget, TablesOf, OfApprovedDoc;
    ServedNext(With(t, c), step);
  }

  lemma RequestEditLands(b: ProjectBudget, amount: int, status: ReviewStatus, issueBudgets: map<Id, IssueBudget>,
                         other: int, e: Env)
    requires IsServed(Editing(TablesOf(b, amount, status, issueBudgets), other))
    ensures IsServed(Edited(TablesOf(b, other, status, issueBudgets)))
  {
    var t, c := TablesOf(b, amount, status, issueBudgets), EditingRequest(5, "COUPON", "COUPON_CASHBACK", other);
    assert t.issueRequests[5 := Request(other, status)] == map[5 := Request(other, status)];
    assert WriteRequestFields(t, 5, "COUPON", "COUPON_CASHBACK", other) == TablesOf(b, other, status, issueBudgets);
    hide IsServed, AdvanceWorker, Next, WriteRequestFields, TablesOf;
    ServedNext(With(t, c), Advance(2, e));
    LateWriteIsTheStep(With(t, c), 2, c, e);
    AdvanceIsNext(With(t, c), 2, e);
    assert With(t, c).workers[2 := Idle] == map[1 := Idle, 2 := Idle];
  }

  lemma AdvanceIsNext(s: Sys, w: Id, e: Env)
    ensures Next(s, Advance(w, e)) == AdvanceWorker(s, w, WorkerAt(s, w), e)
  {
    hide AdvanceWorker;
  }

  lemma AmountsAreStored()
    ensures FormatAmount(0.0) == 0 && FormatAmount(1.0) == ONE && FormatAmount(0.5) == HALF
  {
    FormatIsExactOnGrid(0);
    FormatIsExactOnGrid(ONE);
    FormatIsExactOnGrid(HALF);
    assert Value(0) == 0.0 && Value(ONE) == 1.0 && Value(HALF) == 0.5;
  }

  lemma SumOfOne(r: IssueRequest, c: Column)
    ensures RequestSum(map[5 := r], KEY, c) == RequestWeight(r, KEY, c)
    ensures RequestSum(map[], KEY, c) == 0
  {
    RequestSumAfterPut(map[], 5, r, KEY, c);
    var none: map<Id, IssueRequest> := map[];
    assert (map i | i in none :: RequestWeight(none[i], KEY, c)) == map[];
    assert none[5 := r] == map[5 := r];
  }

  lemma BlockedIsReached(e: Env)
    requires e.budgetIds == [7] && e.paymentId == "p"
    ensures IsServed(Edited(TablesOf(PAID, ONE, ToApprove, map[])))
  {
    var c := EditingRequest(5, "COUPON", "COUPON_CASHBACK", ONE);
    AmountsAreStored();
    EditIsUnderWay(0.0, 1.0, e);
    hide IsServed, FormatAmount, Submit, Approve, Reject, StartIssueBudget, TablesOf, With, OneIssueBudget;
    Submits(PAID, 0);
    Commits(PAID, 0, Draft, map[], TablesOf(PAID, 0, ToApprove, map[]), c, SubmitStep(5));
    RequestEditLands(PAID, 0, ToApprove, map[], ONE, e);
  }

  ghost predicate Blocked(s: Sys) {
    && 7 in s.t.projectBudgets && BudgetKey(s.t.projectBudgets[7]) == KEY
    && 5 in s.t.issueRequests && s.t.issueRequests[5].status == ToApprove
    && s.t.projectBudgets[7].withhold != RequestSum(s.t.issueRequests, KEY, Withheld)
    && !CanDecide(s.t, 5, Approved) && !CanDecide(s.t, 5, Rejected)
  }

  lemma BlockedHere(s: Sys)
    requires s == Edited(TablesOf(PAID, ONE, ToApprove, map[]))
    ensures Blocked(s)
  {
    SumOfOne(Request(ONE, ToApprove), Withheld);
    TheBudget(s.t);
    assert RequestKey(s.t.issueRequests[5]) == KEY;
  }

  /** A request over nothing is submitted; then its late edit raises the amount. What is withheld is not
      what awaits a decision, and neither decision is possible any more. */
  lemma LateEditCanBlockADecision()
    ensures exists s :: IsServed(s) && Blocked(s)
  {
    BlockedIsReached(AnyEnv());
    BlockedHere(Edited(TablesOf(PAID, ONE, ToApprove, map[])));
  }

  lemma StrandedIsReached(e: Env)
    requires e.budgetIds == [7] && e.paymentId == "p"
    ensures IsServed(Edited(TablesOf(PAID.(available := 0, withhold := ONE), 0, Rejected, map[])))
  {
    var b, c := PAID.(available := 0, withhold := ONE), EditingRequest(5, "COUPON", "COUPON_CASHBACK", 0);
    AmountsAreStored();
    EditIsUnderWay(1.0, 0.0, e);
    hide IsServed, FormatAmount, Submit, Approve, Reject, StartIssueBudget, TablesOf, With, OneIssueBudget;
    Submits(PAID, ONE);
    Commits(PAID, ONE, Draft, map[], TablesOf(b, ONE, ToApprove, map[]), c, SubmitStep(5));
    RequestEditLands(b, ONE, ToApprove, map[], 0, e);
    RejectsNothing(b);
    Commits(b, 0, ToApprove, map[], TablesOf(b, 0, Rejected, map[]), Idle, RejectStep(5));
  }

  /** The only request is editable, and yet something is withheld. */
  ghost predicate Stranded(s: Sys) {
    && 7 in s.t.projectBudgets && BudgetKey(s.t.projectBudgets[7]) == KEY
    && s.t.issueRequests.Keys == {5} && Editable(s.t.issueRequests[5].status)
    && RequestSum(s.t.issueRequests - {5}, KEY, Withheld) == 0 < s.t.projectBudgets[7].withhold
  }

  lemma StrandedHere(s: Sys)
    requires s == Edited(TablesOf(PAID.(available := 0, withhold := ONE), 0, Rejected, map[]))
    ensures Stranded(s)
  {
    SumOfOne(Request(0, Rejected), Withheld);
    assert s.t.issueRequests - {5} == map[];
  }

  /** A request is submitted; its late edit lowers the amount to nothing, and it is rejected. It may be
      edited again, but its amount stays withheld for no request at all. */
  lemma LateEditCanStrandAnAmount()
    ensures exists s :: IsServed(s) && Stranded(s)
  {
    StrandedIsReached(AnyEnv());
    StrandedHere(Edited(TablesOf(PAID.(available := 0, withhold := ONE), 0, Rejected, map[])));
  }

  lemma DetachedIsReached(e: Env)
    requires e.budgetIds == [7] && e.paymentId == "p"
    ensures IsServed(Edited(TablesOf(PAID.(available := 0, issued := ONE), HALF, Ongoing, OneIssueBudget(ONE))))
  {
    var b, b' := PAID.(available := 0, withhold := ONE), PAID.(available := 0, issued := ONE);
    var c := EditingRequest(5, "COUPON", "COUPON_CASHBACK", HALF);
    AmountsAreStored();
    EditIsUnderWay(1.0, 0.5, e);
    hide IsServed, FormatAmount, Submit, Approve, Reject, StartIssueBudget, TablesOf, With, OneIssueBudget;
    Submits(PAID, ONE);
    Commits(PAID, ONE, Draft, map[], TablesOf(b, ONE, ToApprove, map[]), c, SubmitStep(5));
    Approves(b, ONE);
    Commits(b, ONE, ToApprove, map[], TablesOf(b', ONE, Approved, map[]), c, ApproveStep(5));
    Starts(b', ONE);
    Commits(b', ONE, Approved, map[], TablesOf(b', ONE, Ongoing, OneIssueBudget(ONE)), c,
            StartIssueBudgetStep(5, 9, false));
    RequestEditLands(b', ONE, Ongoing, OneIssueBudget(ONE), HALF, e);
  }

  /** An issue budget that is not over the amount of its request. */
  ghost predicate Detached(s: Sys) {
    && 9 in s.t.issueBudgets && s.t.issueBudgets[9].issueRequestId in s.t.issueRequests
    && s.t.issueBudgets[9].total != s.t.issueRequests[s.t.issueBudgets[9].issueRequestId].amount
  }

  lemma DetachedHere(s: Sys)
    requires s == Edited(TablesOf(PAID.(available := 0, issued := ONE), HALF, Ongoing, OneIssueBudget(ONE)))
    ensures Detached(s)
  {
  }

  /** A request is approved and its issue budget opened; then its late edit lands, and the issue budget is
      not the request's any more. */
  lemma LateEditCanDetachAnIssueBudget()
    ensures exists s :: IsServed(s) && Detached(s)
  {
    DetachedIsReached(AnyEnv());
    DetachedHere(Edited(TablesOf(PAID.(available := 0, issued := ONE), HALF, Ongoing, OneIssueBudget(ONE))));
  }

  // ---- A second request ----

  /** As TablesOf, with request 6 over the same pair. */
  function Two(b: ProjectBudget, amount: int, status: ReviewStatus, other: int, otherStatus: ReviewStatus): Tables {
    var t := TablesOf(b, amount, status, map[]);
    t.(issueRequests := map[5 := Request(amount, status), 6 := Request(other, otherStatus)])
  }

  lemma SecondIsCreated(c: Worker)
    requires IsServed(With(TablesOf(PAID, 0, ToApprove, map[]), c))
    ensures IsServed(With(Two(PAID, 0, ToApprove, ONE, Draft), c))
  {
    var s := With(TablesOf(PAID, 0, ToApprove, map[]), c);
    AmountsAreStored();
    OneIsStored();
    TakesUpToOne(s.t, 1.0);
    hide IsServed, AdvanceWorker, FormatAmount, TakesAmount;
    ServedNext(s, CreateRequestStep(6, KEY, Number(1.0)));
    assert s.t.issueRequests[6 := Request(ONE, Draft)] == map[5 := Request(0, ToApprove), 6 := Request(ONE, Draft)];
  }

  const WITHHELD := PAID.(available := 0, withhold := ONE)

  lemma SecondSubmits()
    ensures Submit(Two(PAID, 0, ToApprove, ONE, Draft), 6) == Two(WITHHELD, 0, ToApprove, ONE, ToApprove)
  {
    var t := Two(PAID, 0, ToApprove, ONE, Draft);
    TheBudget(t);
    hide ProjectBudgetFor;
    assert RequestKey(t.issueRequests[6]) == KEY;
    assert t.issueRequests[6 := Request(ONE, ToApprove)]
           == map[5 := Request(0, ToApprove), 6 := Request(ONE, ToApprove)];
    assert t.projectBudgets[7 := WITHHELD] == map[7 := WITHHELD];
  }

  lemma SecondIsSubmitted(c: Worker)
    requires IsServed(With(Two(PAID, 0, ToApprove, ONE, Draft), c))
    ensures IsServed(With(Two(WITHHELD, 0, ToApprove, ONE, ToApprove), c))
  {
    var t := Two(PAID, 0, ToApprove, ONE, Draft);
    assert "d" in t.docs && t.docs["d"].status == Approved && t.docs["d"].projectId == 1;
    assert OfApprovedDoc(t, 6);
    SecondSubmits();
    hide IsServed, AdvanceWorker, Submit, Two, OfApprovedDoc;
    ServedNext(With(t, c), SubmitStep(6));
  }

  lemma SecondEditLands(e: Env)
    requires IsServed(With(Two(WITHHELD, 0, ToApprove, ONE, ToApprove),
                           EditingRequest(5, "COUPON", "COUPON_CASHBACK", ONE)))
    ensures IsServed(Edited(Two(WITHHELD, ONE, ToApprove, ONE, ToApprove)))
  {
    var t, c := Two(WITHHELD, 0, ToApprove, ONE, ToApprove), EditingRequest(5, "COUPON", "COUPON_CASHBACK", ONE);
    var t' := Two(WITHHELD, ONE, ToApprove, ONE, ToApprove);
    assert t.issueRequests[5 := Request(ONE, ToApprove)] == t'.issueRequests;
    assert WriteRequestFields(t, 5, "COUPON", "COUPON_CASHBACK", ONE) == t';
    hide IsServed, AdvanceWorker, Next, WriteRequestFields, Two;
    ServedNext(With(t, c), Advance(2, e));
    LateWriteIsTheStep(With(t, c), 2, c, e);
    AdvanceIsNext(With(t, c), 2, e);
    assert With(t, c).workers[2 := Idle] == map[1 := Idle, 2 := Idle];
  }

  lemma SumOfTwo()
    ensures var t := Two(WITHHELD, ONE, ToApprove, ONE, ToApprove);
            && RequestSum(t.issueRequests, KEY, Withheld) == 2 * ONE && RequestSum(t.issueRequests, KEY, Issued) == 0
            && Theorems.Allocated(t, 7) >= 2 * ONE
  {
    var r, t := Request(ONE, ToApprove), Two(WITHHELD, ONE, ToApprove, ONE, ToApprove);
    assert t.issueRequests == map[5 := r][6 := r];
    SumOfOne(r, Withheld);
    SumOfOne(r, Issued);
    RequestSumAfterPut(map[5 := r], 6, r, KEY, Withheld);
    RequestSumAfterPut(map[5 := r], 6, r, KEY, Issued);
    RecordSumIsNonNegative(map[], map[], KEY, Issued);
    RecordSumIsNonNegative(map[], map[], KEY, PreOccupied);
    RecordSumIsNonNegative(map[], map[], KEY, Refunded);
  }

  lemma OverAllocatedIsReached(e: Env)
    requires e.budgetIds == [7] && e.paymentId == "p"
    ensures IsServed(Edited(Two(WITHHELD, ONE, ToApprove, ONE, ToApprove)))
  {
    var c := EditingRequest(5, "COUPON", "COUPON_CASHBACK", ONE);
    AmountsAreStored();
    EditIsUnderWay(0.0, 1.0, e);
    hide IsServed, FormatAmount, Submit, Approve, Reject, StartIssueBudget, TablesOf, With, Two;
    Submits(PAID, 0);
    Commits(PAID, 0, Draft, map[], TablesOf(PAID, 0, ToApprove, map[]), c, SubmitStep(5));
    SecondIsCreated(c);
    SecondIsSubmitted(c);
    SecondEditLands(e);
  }

  lemma OverAllocated(s: Sys)
    requires s == Edited(Two(WITHHELD, ONE, ToApprove, ONE, ToApprove))
    ensures 7 in s.t.projectBudgets && Theorems.Allocated(s.t, 7) > s.t.projectBudgets[7].total
  {
    SumOfTwo();
  }

  /** One request is submitted over nothing and a second over all there is; then the late edit of the first
      raises its amount. What is allocated is twice the total. */
  lemma LateEditCanOverAllocate()
    ensures exists s ::
              IsServed(s) && 7 in s.t.projectBudgets && Theorems.Allocated(s.t, 7) > s.t.projectBudgets[7].total
  {
    OverAllocatedIsReached(AnyEnv());
    OverAllocated(Edited(Two(WITHHELD, ONE, ToApprove, ONE, ToApprove)));
  }

  // ---- How exact the payment guard is ----

  /** A payment the guard lets through takes the exact total at most half a unit over the cap; when the
      amount is on the grid, the guard is exact. */
  lemma GuardSlack(total: int, amount: real, cap: real)
    requires total >= 0 && amount >= 0.0 && cap >= 0.0
    ensures WithinDocAmount(total, Number(amount), Number(cap)) ==> (Value(total) + amount) * SCALE < cap * SCALE + 0.5
    ensures amount == Value(FormatAmount(amount)) ==>
              (WithinDocAmount(total, Number(amount), Number(cap)) <==> Value(total) + amount <= cap)
  {
    GuardIsExact(total, Number(amount), Number(cap));
    assert Value(total + FormatAmount(amount)) * SCALE == (total + FormatAmount(amount)) as real;
  }

  /** The half unit is really given away. */
  lemma GuardSlackIsReal()
    ensures exists amount, cap :: WithinDocAmount(0, Number(amount), Number(cap)) && amount > cap
  {
    FormatIsNearest(1.000000004, 100000000);
    GuardIsExact(0, Number(1.000000004), Number(1.0));
    assert Value(0 + Stored(Number(1.000000004))) == 1.0;
    assert WithinDocAmount(0, Number(1.000000004), Number(1.0)) && 1.000000004 > 1.0;
  }
}
