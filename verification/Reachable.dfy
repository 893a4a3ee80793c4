/** The invariant holds after every run. */
module Reachable {
  import opened Amounts
  import opened BudgetItems
  import opened CommitSteps
  import opened Evolution
  import opened Ledger
  import opened LedgerSteps
  import opened Schema
  import opened SystemInvariant
  import opened SystemSteps
  import opened Transactions
  import opened Workers
  import opened Wrappers

  // ---- Writes that follow an earlier check ----

  lemma PayTouchesNoRecord(t: Tables, paymentId: string, docId: string, address: string, budgetId: Id,
                           amount: AmountText, cap: AmountText)
    ensures Pay(t, paymentId, docId, address, budgetId, amount, cap).issueRecords == t.issueRecords
  {
  }

  predicate WritesLate(c: Worker) {
    c.Initialising? || c.Paying? || c.EditingRequest? || c.EditingDoc? || c.MovingDoc?
  }

  /** What the worker is about to write. */
  function LateWrite(t: Tables, c: Worker, e: Env): Tables
    requires WritesLate(c)
  {
    match c
    case Initialising(docId, projectId, items) => InsertBudgets(t, docId, projectId, items, e.budgetIds)
    case Paying(docId, address, b, amount, cap) => Pay(t, e.paymentId, docId, address, b, amount, cap)
    case EditingRequest(id, voucherType, unit, units) => WriteRequestFields(t, id, voucherType, unit, units)
    case EditingDoc(docId, detail) => WriteDocContent(t, docId, detail)
    case MovingDoc(docId, target) => WriteDocStatus(t, docId, target)
  }

  lemma LateWriteTablesOk(t: Tables, verdicts: map<string, bool>, c: Worker, e: Env)
    requires TablesOk(t) && WritesLate(c) && WorkerOk(t, verdicts, c)
    ensures TablesOk(LateWrite(t, c, e)) && Evolves(t, LateWrite(t, c, e))
    ensures LateWrite(t, c, e).issueRecords == t.issueRecords
  {
    hide TablesOk, Evolves;
    match c {
      case Initialising(docId, projectId, items) =>
        InsertBudgetsKeeps(t, docId, projectId, items, e.budgetIds);
        InsertBudgetsEvolves(t, docId, projectId, items, e.budgetIds);
      case Paying(docId, address, budgetId, amount, cap) =>
        hide Pay;
        PayKeeps(t, e.paymentId, docId, address, budgetId, amount, cap);
        PayEvolves(t, e.paymentId, docId, address, budgetId, amount, cap);
        PayTouchesNoRecord(t, e.paymentId, docId, address, budgetId, amount, cap);
      case EditingRequest(id, voucherType, unit, units) =>
        WriteRequestFieldsKeeps(t, id, voucherType, unit, units);
        WriteRequestFieldsEvolves(t, id, voucherType, unit, units);
      case EditingDoc(docId, detail) =>
        WriteDocContentKeeps(t, docId, detail);
        WriteDocEvolves(t, docId, detail, Draft);
      case MovingDoc(docId, target) =>
        WriteDocStatusKeeps(t, docId, target);
        WriteDocEvolves(t, docId, [], target);
      case _ =>
    }
  }

  lemma LateWriteFrame(t: Tables, c: Worker, e: Env)
    requires WritesLate(c)
    ensures LateWrite(t, c, e).configs == t.configs
    ensures !c.EditingDoc? && !c.MovingDoc? ==> LateWrite(t, c, e).docs == t.docs
  {
  }

  lemma LateWriteIsTheStep(s: Sys, w: Id, c: Worker, e: Env)
    requires WritesLate(c)
    ensures AdvanceWorker(s, w, c, e) == Goto(s.(t := LateWrite(s.t, c, e)), w, Idle)
  {
  }

  lemma LateWriteKeeps(s: Sys, w: Id, c: Worker, e: Env)
    requires Inv(s) && WritesLate(c) && WorkerOk(s.t, s.remote.verdicts, c)
    ensures Kept(s, AdvanceWorker(s, w, c, e))
  {
    hide Inv, Kept, TablesOk, Evolves, WorkerOk, AdvanceWorker, LateWrite;
    InvAt(s, w);
    LateWriteTablesOk(s.t, s.remote.verdicts, c, e);
    LateWriteIsTheStep(s, w, c, e);
    IdleIsOk(LateWrite(s.t, c, e), s.remote.verdicts);
    QuietKeeps(s, LateWrite(s.t, c, e), w, Idle);
  }

  // ---- Any step ----

  lemma AdvanceKeeps(s: Sys, w: Id, e: Env)
    requires Inv(s)
    ensures Kept(s, AdvanceWorker(s, w, WorkerAt(s, w), e))
  {
    hide Inv, Kept, TablesOk, Evolves, WorkerOk;
    hide ReadRecord, CheckRisk, CommitRiskFailure, FindProjectBudget, FindIssueBudget, CommitPreOccupy,
         EnsureCompleted, RereadRecord, RefindProjectBudget, RefindIssueBudget, CallDownstream, CommitFinalize,
         Publish;
    var c := WorkerAt(s, w);
    InvAt(s, w);
    match c {
      case Idle => StayingKeeps(s);
      case RiskRefused(_, _, _) => RiskFailureKeeps(s, w, c, e);
      case HasBudgets(_, _, _, _) => PreOccupyStepKeeps(s, w, c, e);
      case HasTerminalRecord(_, _, _, _) => RepairKeeps(s, w, c);
      case ReadyToIssue(_, _, _, _, _, _) => CallDownstreamKeeps(s, w, c, e);
      case Answered(_, _, _, _, _, _, _, _) =>
        AnsweredRecord(s.t, s.remote.verdicts, c);
        FinalizeStepKeeps(s, w, c);
      case Settled(_, _, _, _) => PublishKeeps(s, w, c);
      case BudgetGone(_) => NoBudgetIsEverGone(s.t, s.remote.verdicts, c);
      case _ =>
        if OnlyReads(c) { ReadingKeeps(s, w, c, e); } else { LateWriteKeeps(s, w, c, e); }
    }
  }

  /** No worker ever finds a budget missing. */
  lemma NoBudgetIsEverGone(t: Tables, verdicts: map<string, bool>, c: Worker)
    requires WorkerOk(t, verdicts, c)
    ensures !c.BudgetGone?
  {
  }

  /** Steps that commit without a worker. */
  predicate CommitsAtOnce(step: Step) {
    step.CreateDocStep? || step.CreateRequestStep? || step.SubmitStep? || step.ApproveStep?
    || step.RejectStep? || step.StartIssueBudgetStep? || step.AcceptRewardStep?
  }

  lemma CommitTouchesNoRecord(s: Sys, step: Step)
    requires CommitsAtOnce(step)
    ensures Next(s, step) == s.(t := Next(s, step).t) && Next(s, step).t.issueRecords == s.t.issueRecords
  {
    hide AdvanceWorker;
  }

  lemma CommitKeeps(s: Sys, step: Step)
    requires Inv(s) && CommitsAtOnce(step)
    ensures Kept(s, Next(s, step))
  {
    hide Inv, Kept, TablesOk, Evolves, AdvanceWorker, CreateDoc, CreateRequest, Submit, Approve, Reject,
         StartIssueBudget, AcceptReward;
    InvAt(s, 0);
    CommitTouchesNoRecord(s, step);
    match step {
      case CreateDocStep(docId, projectId, detail) =>
        CreateDocKeeps(s.t, docId, projectId, detail);
        CreateDocEvolves(s.t, docId, projectId, detail);
      case CreateRequestStep(id, key, amount) =>
        CreateRequestKeeps(s.t, id, key, amount);
        CreateRequestEvolves(s.t, id, key, amount);
      case SubmitStep(id) =>
        SubmitKeeps(s.t, id);
        SubmitEvolves(s.t, id);
      case ApproveStep(id) =>
        ApproveKeeps(s.t, id);
        ApproveEvolves(s.t, id);
      case RejectStep(id) =>
        RejectKeeps(s.t, id);
        RejectEvolves(s.t, id);
      case StartIssueBudgetStep(id, newId, translated) =>
        StartIssueBudgetKeeps(s.t, id, newId, translated);
        StartIssueBudgetEvolves(s.t, id, newId, translated);
      case AcceptRewardStep(id, clientRef, userId, key, value) =>
        if value > 0.0 {
          AcceptRewardKeeps(s.t, id, clientRef, userId, key, FormatAmount(value));
          AcceptRewardEvolves(s.t, id, clientRef, userId, key, FormatAmount(value));
        } else {
          SelfEvolves(s.t);
          assert s.(t := s.t) == s;
        }
      case _ =>
    }
    TablesStepKeeps(s, Next(s, step).t);
  }

  /** A worker that starts remembers what it has just read. */
  ghost predicate Started(s: Sys, s': Sys, w: Id) {
    s' == s || (s' == Goto(s, w, WorkerAt(s', w)) && WorkerOk(s.t, s.remote.verdicts, WorkerAt(s', w))
                && !WorkerAt(s', w).Settled?)
  }

  lemma ReadDocStarts(s: Sys, w: Id, docId: string, address: string, amount: AmountText)
    ensures Started(s, s, w)
    ensures Started(s, ReadDocAmount(s, w, docId, address, amount), w)
    ensures Started(s, ReadDocItems(s, w, docId), w)
  {
    hide RequestSeen, RecordSeen, BudgetSeen, IssueBudgetSeen, RowsOf, OutcomeFits, DetailAmount, ParseAmount;
  }

  lemma DeliveryStarts(s: Sys, w: Id, rewardId: Id)
    ensures Started(s, Next(s, Deliver(w, rewardId)), w)
  {
  }

  lemma EditStarts(s: Sys, step: Step)
    requires step.BeginEditDoc? || step.BeginMoveDoc? || step.BeginEditRequest? || step.Crash?
    ensures Started(s, Next(s, step), step.w)
  {
    hide ReadDocAmount, ReadDocItems, AdvanceWorker, CreateDoc, CreateRequest, Submit, Approve, Reject,
         StartIssueBudget, AcceptReward, Acceptable;
    hide RequestSeen, RecordSeen, BudgetSeen, IssueBudgetSeen, RowsOf, OutcomeFits;
  }

  lemma BeginStarts(s: Sys, step: Step)
    requires !CommitsAtOnce(step) && !step.Advance?
    ensures Started(s, Next(s, step), step.w)
  {
    match step {
      case BeginPayment(w, docId, address, amount) => ReadDocStarts(s, w, docId, address, amount);
      case BeginInit(w, docId) => ReadDocStarts(s, w, docId, "", Blank);
      case Deliver(w, rewardId) => DeliveryStarts(s, w, rewardId);
      case _ => EditStarts(s, step);
    }
  }

  lemma NextKeeps(s: Sys, step: Step)
    requires Inv(s)
    ensures Kept(s, Next(s, step))
  {
    hide Inv, Kept, WorkerOk, AdvanceWorker;
    if CommitsAtOnce(step) {
      CommitKeeps(s, step);
    } else if step.Advance? {
      AdvanceKeeps(s, step.w, step.e);
    } else {
      BeginStarts(s, step);
      if Next(s, step) == s {
        StayingKeeps(s);
      } else {
        LocalKeeps(s, step.w, WorkerAt(Next(s, step), step.w));
      }
    }
  }

  // ---- Any run ----

  lemma InitIsOk(configs: map<string, PayConfig>)
    ensures Inv(Init(configs))
  {
  }

  lemma VerdictsTransitive(u: map<string, bool>, v: map<string, bool>, w: map<string, bool>)
    requires VerdictsKept(u, v) && VerdictsKept(v, w)
    ensures VerdictsKept(u, w)
  {
  }

  /** From a good state, every run leads to a good state and undoes nothing. */
  lemma {:induction false} RunKeeps(s: Sys, steps: seq<Step>)
    requires Inv(s)
    ensures Kept(s, Run(s, steps))
    decreases |steps|
  {
    if steps == [] {
      StayingKeeps(s);
    } else {
      var n := Next(s, steps[0]);
      NextKeeps(s, steps[0]);
      RunKeeps(n, steps[1..]);
      EvolvesIsTransitive(s.t, n.t, Run(s, steps).t);
      VerdictsTransitive(s.remote.verdicts, n.remote.verdicts, Run(s, steps).remote.verdicts);
    }
  }

  ghost predicate IsReachable(s: Sys) {
    exists configs, steps :: s == Run(Init(configs), steps)
  }

  /** Main invariant: it holds of every reachable state. */
  lemma ReachableIsOk(s: Sys)
    requires IsReachable(s)
    ensures Inv(s)
  {
    var configs, steps :| s == Run(Init(configs), steps);
    InitIsOk(configs);
    RunKeeps(Init(configs), steps);
  }
}
