/** Approved docs: exactly when they are final, and what follows for whoever remembers one.

    Checks let nobody change an approved doc, but the write of an edit or of a decision does not look again.
    Approved docs stay as they are exactly in the runs in which no such write lands on one; those runs keep
    the cover of budgets and payments, and so do all runs whose writes would still pass their checks. */
module ApprovedDocs {
  import opened Amounts
  import opened BudgetItems
  import opened GuardedSteps
  import opened LateWrites
  import opened Ledger
  import opened MeaningSteps
  import opened Reachable
  import opened Schema
  import opened SystemInvariant
  import opened SystemSteps
  import opened Transactions
  import opened Workers
  import opened Wrappers

  // ---- Final docs ----

  /** Approved docs are still there, unchanged. */
  ghost predicate ApprovedKept(docs: map<string, FinanceDoc>, docs': map<string, FinanceDoc>) {
    forall d | d in docs && docs[d].status == Approved :: d in docs' && docs'[d] == docs[d]
  }

  /** The write finds the doc not approved, or writes what is there. */
  predicate SparesDocs(docs: map<string, FinanceDoc>, c: Worker) {
    match c
    case EditingDoc(docId, detail) =>
      docId in docs && docs[docId].status == Approved ==> detail == docs[docId].detail
    case MovingDoc(docId, target) => docId in docs && docs[docId].status == Approved ==> target == Approved
    case _ => true
  }

  predicate SparesApproved(s: Sys, step: Step) {
    step.Advance? ==> SparesDocs(s.t.docs, WorkerAt(s, step.w))
  }

  lemma OverwriteKeepsApproved(docs: map<string, FinanceDoc>, docId: string, doc: FinanceDoc)
    requires docId in docs
    ensures ApprovedKept(docs, docs[docId := doc]) <==> docs[docId].status != Approved || doc == docs[docId]
  {
    if ApprovedKept(docs, docs[docId := doc]) && docs[docId].status == Approved {
      assert docs[docId := doc][docId] == docs[docId];
    }
  }

  lemma DocsKeptThemselves(docs: map<string, FinanceDoc>)
    ensures ApprovedKept(docs, docs)
  {
  }

  lemma LateWriteSparesExactly(t: Tables, c: Worker, e: Env)
    requires WritesLate(c)
    ensures ApprovedKept(t.docs, LateWrite(t, c, e).docs) <==> SparesDocs(t.docs, c)
  {
    hide ApprovedKept, InsertBudgets, Pay, WriteRequestFields;
    LateWriteFrame(t, c, e);
    DocsKeptThemselves(t.docs);
    match c {
      case EditingDoc(docId, detail) =>
        if docId in t.docs { OverwriteKeepsApproved(t.docs, docId, t.docs[docId].(detail := detail)); }
      case MovingDoc(docId, target) =>
        if docId in t.docs { OverwriteKeepsApproved(t.docs, docId, t.docs[docId].(status := target)); }
      case _ =>
    }
  }

  lemma CommitTouchesNoDoc(s: Sys, step: Step)
    requires CommitsAtOnce(step)
    ensures Next(s, step) == s.(t := Next(s, step).t) && Next(s, step).t.configs == s.t.configs
    ensures !step.CreateDocStep? ==> Next(s, step).t.docs == s.t.docs
  {
    hide AdvanceWorker;
  }

  lemma CreationKeepsApproved(t: Tables, docId: string, projectId: Id, detail: seq<DetailLine>)
    ensures ApprovedKept(t.docs, CreateDoc(t, docId, projectId, detail).docs)
  {
    hide Acceptable;
  }

  lemma CreationIsTheStep(s: Sys, docId: string, projectId: Id, detail: seq<DetailLine>)
    ensures Next(s, CreateDocStep(docId, projectId, detail)).t == CreateDoc(s.t, docId, projectId, detail)
  {
    hide CreateDoc, AdvanceWorker;
  }

  lemma CommitKeepsApproved(s: Sys, step: Step)
    requires CommitsAtOnce(step)
    ensures ApprovedKept(s.t.docs, Next(s, step).t.docs) && Next(s, step).t.configs == s.t.configs
    ensures Next(s, step).workers == s.workers
  {
    hide Next, ApprovedKept, CreateDoc;
    CommitTouchesNoDoc(s, step);
    DocsKeptThemselves(s.t.docs);
    if step.CreateDocStep? {
      CreationIsTheStep(s, step.docId, step.projectId, step.detail);
      CreationKeepsApproved(s.t, step.docId, step.projectId, step.detail);
    }
  }

  /** One step leaves every approved doc as it is exactly when its write, if any, spares them. */
  lemma StepKeepsApprovedExactlyWhenSparing(s: Sys, step: Step)
    ensures ApprovedKept(s.t.docs, Next(s, step).t.docs) <==> SparesApproved(s, step)
  {
    hide AdvanceWorker, LateWrite;
    if CommitsAtOnce(step) {
      CommitKeepsApproved(s, step);
    } else if step.Advance? {
      var c := WorkerAt(s, step.w);
      if WritesLate(c) {
        AdvanceWrites(s, step.w, step.e);
        LateWriteSparesExactly(s.t, c, step.e);
      } else {
        QuietAdvance(s, step.w, c, step.e);
      }
    } else {
      OnlyWorkersMove(s, step);
    }
  }

  predicate SparingRun(s: Sys, steps: seq<Step>)
    decreases |steps|
  {
    steps != [] ==> SparesApproved(s, steps[0]) && SparingRun(Next(s, steps[0]), steps[1..])
  }

  /** No step of the run changes a doc that is approved when it is taken. */
  ghost predicate FinalThroughout(s: Sys, steps: seq<Step>)
    decreases |steps|
  {
    steps != [] ==>
      ApprovedKept(s.t.docs, Next(s, steps[0]).t.docs) && FinalThroughout(Next(s, steps[0]), steps[1..])
  }

  /** Approved docs are final throughout a run exactly when every write in it spares them; and then a doc
      that is approved at first is still there at the end, unchanged. */
  lemma {:induction false} ApprovedIsFinalExactlyWhenSparing(s: Sys, steps: seq<Step>)
    ensures FinalThroughout(s, steps) <==> SparingRun(s, steps)
    ensures SparingRun(s, steps) ==> ApprovedKept(s.t.docs, Run(s, steps).t.docs)
    decreases |steps|
  {
    hide Next, SparesApproved;
    if steps != [] {
      StepKeepsApprovedExactlyWhenSparing(s, steps[0]);
      ApprovedIsFinalExactlyWhenSparing(Next(s, steps[0]), steps[1..]);
    }
  }

  // ---- What workers remember of an approved doc ----

  /** What was read of the doc for its budgets is what the doc still says. */
  ghost predicate ItemsAgree(t: Tables, docId: string, projectId: Id, items: seq<BudgetItem>) {
    && docId in t.docs && t.docs[docId].status == Approved && t.docs[docId].projectId == projectId
    && Acceptable(t.configs, t.docs[docId].detail) && items == Items(t.configs, t.docs[docId].detail)
  }

  lemma NewBudgetsAreCovered(t: Tables, docId: string, projectId: Id, items: seq<BudgetItem>)
    requires ItemsAgree(t, docId, projectId, items)
    ensures forall i | 0 <= i < |items| ::
              DocCovers(t.docs[docId], t.configs, ZeroBudgets(docId, projectId, items)[i])
  {
    forall i | 0 <= i < |items| ensures DocCovers(t.docs[docId], t.configs, ZeroBudgets(docId, projectId, items)[i]) {
      assert LineCovers(t.docs[docId].detail[i], t.configs, ZeroBudgets(docId, projectId, items)[i]);
    }
  }

  /** The first line of an address is the one line of its pair. */
  lemma {:induction false} DetailAmountIsALine(detail: seq<DetailLine>, address: string)
    requires DetailAmount(detail, address).Some?
    ensures exists j :: 0 <= j < |detail| && Address(detail[j]) == address
                        && DetailAmount(detail, address) == Some(detail[j].amount)
  {
    if Address(detail[0]) != address {
      DetailAmountIsALine(detail[1..], address);
      var j :| 0 <= j < |detail[1..]| && Address(detail[1..][j]) == address
               && DetailAmount(detail[1..], address) == Some(detail[1..][j].amount);
      assert Address(detail[j + 1]) == address && DetailAmount(detail, address) == Some(detail[j + 1].amount);
    } else {
      assert Address(detail[0]) == address && DetailAmount(detail, address) == Some(detail[0].amount);
    }
  }

  /** A payer that checked against the detail of an approved doc still agrees with it. */
  ghost predicate PayerAgrees(t: Tables, docId: string, address: string, cap: AmountText) {
    docId in t.docs && t.docs[docId].status == Approved && DetailAmount(t.docs[docId].detail, address) == Some(cap)
  }

  lemma PaidBudgetIsCovered(t: Tables, docId: string, address: string, budgetId: Id, amount: AmountText,
                            cap: AmountText)
    requires BudgetsCovered(t.projectBudgets, t.docs, t.configs) && DocsAcceptable(t.docs, t.configs)
    requires budgetId in t.projectBudgets && t.projectBudgets[budgetId].docId == docId
             && t.projectBudgets[budgetId].total >= 0
    requires address in t.configs && t.configs[address] == PairOf(t.projectBudgets[budgetId])
    requires PayerAgrees(t, docId, address, cap)
    requires WithinDocAmount(t.projectBudgets[budgetId].total, amount, cap)
    ensures docId in t.docs
    ensures DocCovers(t.docs[docId], t.configs,
              t.projectBudgets[budgetId].(total := t.projectBudgets[budgetId].total + Stored(amount),
                                          available := t.projectBudgets[budgetId].available + Stored(amount)))
  {
    var b, detail := t.projectBudgets[budgetId], t.docs[docId].detail;
    var i :| 0 <= i < |detail| && LineCovers(detail[i], t.configs, b);
    DetailAmountIsALine(detail, address);
    var j :| 0 <= j < |detail| && Address(detail[j]) == address && detail[j].amount == cap;
    assert Acceptable(t.configs, detail);
    assert TextAt(t.configs, detail, i) == TextAt(t.configs, detail, j);
    assert i == j;
    GuardIsExact(b.total, amount, cap);
    assert LineCovers(detail[j], t.configs,
                      b.(total := b.total + Stored(amount), available := b.available + Stored(amount)));
  }

  /** What a worker remembers of an approved doc is what the doc still says. */
  ghost predicate Agrees(t: Tables, c: Worker) {
    match c
    case Initialising(docId, projectId, items) => ItemsAgree(t, docId, projectId, items)
    case Priced(docId, address, _, cap) => PayerAgrees(t, docId, address, cap)
    case Paying(docId, address, _, _, cap) => PayerAgrees(t, docId, address, cap)
    case _ => true
  }

  ghost predicate PayersAgree(t: Tables, workers: map<Id, Worker>) {
    forall w | w in workers :: Agrees(t, workers[w])
  }

  lemma PayersStay(t: Tables, t': Tables, workers: map<Id, Worker>, w: Id, c: Worker)
    requires PayersAgree(t, workers) && ApprovedKept(t.docs, t'.docs) && t'.configs == t.configs
    ensures PayersAgree(t', workers)
    ensures Agrees(t', c) ==> PayersAgree(t', workers[w := c])
  {
  }

  lemma GoesOnAgreeing(t: Tables, t': Tables, c: Worker, c': Worker)
    requires Agrees(t, c) && RemembersNothingNew(c, c') && ApprovedKept(t.docs, t'.docs) && t'.configs == t.configs
    ensures Agrees(t', c')
  {
  }

  lemma BeginsAgreeing(s: Sys, step: Step)
    requires !CommitsAtOnce(step) && !step.Advance?
    ensures var s' := Next(s, step);
            s' == s || (s'.t == s.t && s'.workers == s.workers[step.w := WorkerAt(s', step.w)]
                        && Agrees(s.t, WorkerAt(s', step.w)))
  {
  }

  lemma PayerAt(s: Sys, w: Id)
    requires PayersAgree(s.t, s.workers)
    ensures Agrees(s.t, WorkerAt(s, w))
  {
  }

  lemma AdvancesAgreeing(s: Sys, w: Id, e: Env)
    requires PayersAgree(s.t, s.workers) && ApprovedKept(s.t.docs, AdvanceWorker(s, w, WorkerAt(s, w), e).t.docs)
    ensures var s' := AdvanceWorker(s, w, WorkerAt(s, w), e); PayersAgree(s'.t, s'.workers)
  {
    hide AdvanceWorker, LateWrite, Agrees, PayersAgree, ApprovedKept;
    var c := WorkerAt(s, w);
    var s' := AdvanceWorker(s, w, c, e);
    PayerAt(s, w);
    if WritesLate(c) {
      LateWriteIsTheStep(s, w, c, e);
      LateWriteFrame(s.t, c, e);
      IdleAgrees(s'.t);
      PayersStay(s.t, s'.t, s.workers, w, Idle);
    } else {
      QuietAdvance(s, w, c, e);
      var c' := WorkerAt(s', w);
      if s' != s {
        GoesOnAgreeing(s.t, s'.t, c, c');
        PayersStay(s.t, s'.t, s.workers, w, c');
      }
    }
  }

  lemma IdleAgrees(t: Tables)
    ensures Agrees(t, Idle)
  {
  }

  lemma SparingStepKeepsAgreement(s: Sys, step: Step)
    requires PayersAgree(s.t, s.workers) && SparesApproved(s, step)
    ensures PayersAgree(Next(s, step).t, Next(s, step).workers)
  {
    hide AdvanceWorker, Agrees, PayersAgree, ApprovedKept, SparesApproved;
    StepKeepsApprovedExactlyWhenSparing(s, step);
    if CommitsAtOnce(step) {
      CommitKeepsApproved(s, step);
      PayersStay(s.t, Next(s, step).t, s.workers, 0, Idle);
    } else if step.Advance? {
      AdvancesAgreeing(s, step.w, step.e);
    } else {
      BeginsAgreeing(s, step);
      if Next(s, step) != s {
        DocsKeptThemselves(s.t.docs);
        PayersStay(s.t, s.t, s.workers, step.w, WorkerAt(Next(s, step), step.w));
      }
    }
  }

  // ---- Runs that spare approved docs ----

  lemma SparedOpening(t: Tables, docId: string, projectId: Id, items: seq<BudgetItem>, ids: seq<Id>)
    requires ItemsAgree(t, docId, projectId, items)
    ensures OpensCovered(t, docId, projectId, items, ids)
  {
    NewBudgetsAreCovered(t, docId, projectId, items);
  }

  lemma SparedTotal(t: Tables, paymentId: string, docId: string, address: string, budgetId: Id, amount: AmountText,
                    cap: AmountText)
    requires BudgetsCovered(t.projectBudgets, t.docs, t.configs) && DocsAcceptable(t.docs, t.configs)
    requires RewardsFunded(t.rewardRequests, t.projectBudgets)
    requires BudgetsBalanced(t.projectBudgets, t.issueRecords, t.rewardRequests)
    requires budgetId in t.projectBudgets && t.projectBudgets[budgetId].docId == docId
    requires address in t.configs && t.configs[address] == PairOf(t.projectBudgets[budgetId])
    requires PayerAgrees(t, docId, address, cap)
    ensures PaysCovered(t, paymentId, docId, address, budgetId, amount, cap, LineCover)
  {
    hide BudgetsCovered, DocsAcceptable, RewardsFunded, BudgetsBalanced, WithinDocAmount, PayerAgrees, DocCovers,
         Stored;
    if PaymentAllowed(t, paymentId, budgetId, amount, cap) {
      TotalsAreNonNegative(t, budgetId);
      PaidBudgetIsCovered(t, docId, address, budgetId, amount, cap);
    }
  }

  lemma SparedAddress(t: Tables, paymentId: string, docId: string, address: string, budgetId: Id, amount: AmountText,
                      cap: AmountText)
    requires PayerAgrees(t, docId, address, cap)
    ensures PaysCovered(t, paymentId, docId, address, budgetId, amount, cap, PaymentCover)
  {
    DetailAmountIsALine(t.docs[docId].detail, address);
  }

  lemma SparedDocWrite(t: Tables, c: Worker, e: Env, which: Promise)
    requires TablesMean(t, which) && OnDocs(which) && SparesDocs(t.docs, c) && (c.EditingDoc? || c.MovingDoc?)
    ensures HarmlessWrite(t, c, e, which)
  {
    if which == LineCover {
      forall b | b in t.projectBudgets && t.projectBudgets[b].docId == c.docId
        ensures t.docs[c.docId].status == Approved && HasLineFor(t.docs[c.docId].detail, t.configs, t.projectBudgets[b])
      {
        assert DocCovers(t.docs[c.docId], t.configs, t.projectBudgets[b]);
      }
    } else {
      forall p | p in t.payments && t.payments[p].docId == c.docId
        ensures t.docs[c.docId].status == Approved && HasAddress(t.docs[c.docId].detail, t.payments[p].address)
      {
        assert OnDetail(t.payments[p], t.docs);
      }
    }
  }

  lemma SparingWriteIsHarmless(t: Tables, verdicts: map<string, bool>, c: Worker, e: Env, which: Promise)
    requires TablesOk(t) && TablesMean(t, which) && WorkerOk(t, verdicts, c) && Agrees(t, c)
    requires OnDocs(which) && SparesDocs(t.docs, c)
    ensures HarmlessWrite(t, c, e, which)
  {
    if c.EditingDoc? || c.MovingDoc? {
      SparedDocWrite(t, c, e, which);
    } else if c.Paying? {
      if which == LineCover {
        SparedTotal(t, e.paymentId, c.docId, c.address, c.budgetId, c.amount, c.cap);
      } else {
        SparedAddress(t, e.paymentId, c.docId, c.address, c.budgetId, c.amount, c.cap);
      }
    } else if c.Initialising? {
      SparedOpening(t, c.docId, c.projectId, c.items, e.budgetIds);
    }
  }

  lemma SparingStepIsHarmless(s: Sys, step: Step, which: Promise)
    requires Inv(s) && TablesMean(s.t, which) && PayersAgree(s.t, s.workers)
    requires OnDocs(which) && SparesApproved(s, step)
    ensures Harmless(s, step, which)
  {
    if step.Advance? {
      PayerAt(s, step.w);
      WorkerIsOk(s, step.w);
      hide TablesOk, TablesMean, WorkerOk, Agrees, HarmlessWrite, PayersAgree, SparesDocs, WorkersOk;
      SparingWriteIsHarmless(s.t, s.remote.verdicts, WorkerAt(s, step.w), step.e, which);
    }
  }

  /** A run that spares approved docs is harmless to the cover of budgets and of payments. */
  lemma {:induction false} SparingRunIsHarmless(s: Sys, steps: seq<Step>, which: Promise)
    requires Inv(s) && TablesMean(s.t, which) && PayersAgree(s.t, s.workers)
    requires OnDocs(which) && SparingRun(s, steps)
    ensures HarmlessRun(s, steps, which)
    decreases |steps|
  {
    hide Inv, Next, TablesMean, PayersAgree, SparesApproved, Harmless;
    if steps != [] {
      NextKeeps(s, steps[0]);
      SparingStepKeepsAgreement(s, steps[0]);
      SparingStepIsHarmless(s, steps[0], which);
      StepKeepsMeaningExactlyWhenHarmless(s, steps[0], which);
      SparingRunIsHarmless(Next(s, steps[0]), steps[1..], which);
    }
  }

  // ---- Runs whose writes would still pass their checks ----

  /** The write a worker is about to make would still pass the check it made. */
  predicate StillAllowed(t: Tables, c: Worker) {
    match c
    case EditingRequest(id, _, _, _) => id in t.issueRequests ==> Editable(t.issueRequests[id].status)
    case EditingDoc(docId, _) => docId in t.docs ==> Editable(t.docs[docId].status)
    case MovingDoc(docId, target) => docId in t.docs ==> TransitionAllowed(t.docs[docId].status, target)
    case _ => true
  }

  predicate Timely(s: Sys, step: Step) {
    step.Advance? ==> StillAllowed(s.t, WorkerAt(s, step.w))
  }

  predicate TimelyRun(s: Sys, steps: seq<Step>)
    decreases |steps|
  {
    steps != [] ==> Timely(s, steps[0]) && TimelyRun(Next(s, steps[0]), steps[1..])
  }

  lemma TimelyStep(s: Sys, step: Step, which: Promise)
    requires Timely(s, step)
    ensures SparesApproved(s, step) && (OnDocs(which) || Harmless(s, step, which))
  {
    hide Room, HasRoom;
  }

  lemma {:induction false} TimelyRunSpares(s: Sys, steps: seq<Step>, which: Promise)
    requires TimelyRun(s, steps)
    ensures SparingRun(s, steps) && (OnDocs(which) || HarmlessRun(s, steps, which))
    decreases |steps|
  {
    hide Next, Timely, SparesApproved, Harmless;
    if steps != [] {
      TimelyStep(s, steps[0], which);
      TimelyRunSpares(Next(s, steps[0]), steps[1..], which);
    }
  }

  /** Such a run is harmless to every promise, and approved docs are final in it. */
  lemma TimelyRunIsHarmless(configs: map<string, PayConfig>, steps: seq<Step>, which: Promise)
    requires TimelyRun(Init(configs), steps)
    ensures HarmlessRun(Init(configs), steps, which) && FinalThroughout(Init(configs), steps)
  {
    hide Inv, Next, TimelyRun;
    var s := Init(configs);
    InitIsOk(configs);
    InitMeans(configs, which);
    TimelyRunSpares(s, steps, which);
    ApprovedIsFinalExactlyWhenSparing(s, steps);
    if OnDocs(which) { SparingRunIsHarmless(s, steps, which); }
  }
}
