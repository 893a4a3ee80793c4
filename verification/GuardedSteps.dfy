/** The steps that read and write in one transaction, or only read: none of them breaks a promise, and none
    but the creation of a doc touches a doc. */
module GuardedSteps {
  import opened Amounts
  import opened CommitSteps
  import opened Ledger
  import opened MeaningSteps
  import opened Reachable
  import opened Schema
  import opened SystemInvariant
  import opened SystemSteps
  import opened Transactions
  import opened Workers
  import opened Wrappers

  lemma CommitKeepsMeaning(s: Sys, step: Step, which: Promise)
    requires TablesOk(s.t) && TablesMean(s.t, which) && CommitsAtOnce(step)
    ensures TablesMean(Next(s, step).t, which)
  {
    hide TablesOk, TablesMean, AdvanceWorker, Submit, Approve, Reject, StartIssueBudget, AcceptReward,
         CreateRequest, CreateDoc;
    match step {
      case CreateDocStep(docId, projectId, detail) => CreateDocKeepsMeaning(s.t, docId, projectId, detail, which);
      case CreateRequestStep(id, key, amount) => CreateRequestKeepsMeaning(s.t, id, key, amount, which);
      case SubmitStep(id) => SubmitKeepsMeaning(s.t, id, which);
      case ApproveStep(id) => ApproveKeepsMeaning(s.t, id, which);
      case RejectStep(id) => RejectKeepsMeaning(s.t, id, which);
      case StartIssueBudgetStep(id, newId, translated) =>
        StartIssueBudgetKeepsMeaning(s.t, id, newId, translated, which);
      case AcceptRewardStep(id, clientRef, userId, key, value) =>
        if value > 0.0 { AcceptRewardKeepsMeaning(s.t, id, clientRef, userId, key, FormatAmount(value), which); }
      case _ =>
    }
  }

  lemma RiskFailureKeepsMeaning(s: Sys, w: Id, c: Worker, e: Env, which: Promise)
    requires TablesOk(s.t) && TablesMean(s.t, which) && c.RiskRefused?
    ensures TablesMean(CommitRiskFailure(s, w, c, e).t, which)
  {
    hide TablesOk, TablesMean, FailAtRisk;
    FailAtRiskKeepsMeaning(s.t, e.newId, RiskFailureRecord(c.rewardId, c.rr, e.voucherId, c.reason), which);
  }

  lemma PreOccupyStepKeepsMeaning(s: Sys, w: Id, c: Worker, e: Env, which: Promise)
    requires TablesOk(s.t) && TablesMean(s.t, which) && c.HasBudgets? && c.issueBudgetId in s.t.issueBudgets
    ensures TablesMean(CommitPreOccupy(s, w, c, e).t, which)
  {
    hide TablesOk, TablesMean, PreOccupy;
    var rec := PendingRecordFor(c.rewardId, c.rr, s.t.issueBudgets[c.issueBudgetId].issueRequestId, e.voucherId);
    PreOccupyKeepsMeaning(s.t, c.budgetId, c.issueBudgetId, c.rr.amount, e.newId, rec, which);
  }

  lemma AnsweredFits(t: Tables, verdicts: map<string, bool>, c: Worker)
    requires TablesOk(t) && c.Answered? && WorkerOk(t, verdicts, c) && IsPending(t, c.rewardId)
    ensures var rec := WithOutcome(c.rec, c.rr.amount, c.success, c.reason);
            && c.recordId in t.issueRecords && t.issueRecords[c.recordId].status == PendingRecord
            && rec.rewardRequestId == c.rewardId && rec.issueRequestId.Some?
            && t.rewardRequests[c.rewardId].amount == c.rr.amount
            && c.budgetId in t.projectBudgets && BudgetKey(t.projectBudgets[c.budgetId]) == RecordKey(rec)
            && c.issueBudgetId in t.issueBudgets
  {
    AnsweredRecord(t, verdicts, c);
    RecordIsPending(t, c.recordId);
  }

  lemma FinalizeStepKeepsMeaning(s: Sys, w: Id, c: Worker, which: Promise)
    requires TablesOk(s.t) && TablesMean(s.t, which) && c.Answered? && WorkerOk(s.t, s.remote.verdicts, c)
    ensures TablesMean(CommitFinalize(s, w, c).t, which)
  {
    if IsPending(s.t, c.rewardId) {
      var rec := WithOutcome(c.rec, c.rr.amount, c.success, c.reason);
      AnsweredFits(s.t, s.remote.verdicts, c);
      hide TablesOk, TablesMean, WorkerOk, Finalize;
      FinalizeKeepsMeaning(s.t, c.budgetId, c.issueBudgetId, c.rr.amount, c.success, c.recordId, rec, c.rewardId,
                           which);
    }
  }

  /** Steps of a distribution that do not commit. */
  predicate CommitsNothing(c: Worker) {
    OnlyReads(c) || c.ReadyToIssue? || c.Settled?
  }

  predicate RemembersDoc(c: Worker) { c.Initialising? || c.Priced? || c.Paying? }

  /** A payer goes on with what it remembers; nobody else begins to remember a doc. */
  predicate RemembersNothingNew(c: Worker, c': Worker) {
    RemembersDoc(c') ==>
      c.Priced? && c'.Paying? && c'.docId == c.docId && c'.address == c.address && c'.cap == c.cap
  }

  lemma CallIsLocal(s: Sys, w: Id, c: Worker, e: Env)
    requires c.ReadyToIssue?
    ensures var s' := AdvanceWorker(s, w, c, e);
            s'.t == s.t && s'.workers == s.workers[w := WorkerAt(s', w)] && !RemembersDoc(WorkerAt(s', w))
  {
    hide ReplyOf, RemoteAfter, SnapshotOf;
  }

  lemma ReadIsLocal(s: Sys, w: Id, c: Worker, e: Env)
    requires CommitsNothing(c) && !c.ReadyToIssue?
    ensures var s' := AdvanceWorker(s, w, c, e);
            s'.t == s.t && s'.workers == s.workers[w := WorkerAt(s', w)] && RemembersNothingNew(c, WorkerAt(s', w))
  {
    hide CallDownstream, CommitFinalize, CommitPreOccupy, CommitRiskFailure, EnsureCompleted, ProjectBudgetFor,
         IssueBudgetFor, FirstAvailableForDistribution, RecordByRef, ProjectBudgetOfDoc, WithinDocAmount, TerminalEvent,
         Pay, InsertBudgets, WriteRequestFields, WriteDocContent, WriteDocStatus, Complete;
  }

  /** The step touches no doc, moves this worker only, and does not let it remember a doc. */
  predicate LocalCommit(s: Sys, w: Id, s': Sys) {
    && s'.t.docs == s.t.docs && s'.t.configs == s.t.configs
    && s'.workers == s.workers[w := WorkerAt(s', w)] && !RemembersDoc(WorkerAt(s', w))
  }

  lemma SettlingIsLocal(s: Sys, w: Id, c: Worker, e: Env)
    ensures c.RiskRefused? ==> LocalCommit(s, w, CommitRiskFailure(s, w, c, e))
    ensures c.Answered? ==> LocalCommit(s, w, CommitFinalize(s, w, c))
  {
    hide RecordInsertable, RiskFailureRecord, WithOutcome;
  }

  lemma CompletingIsLocal(s: Sys, w: Id, c: Worker, e: Env)
    ensures c.HasTerminalRecord? ==> LocalCommit(s, w, EnsureCompleted(s, w, c))
    ensures c.HasBudgets? ==> LocalCommit(s, w, CommitPreOccupy(s, w, c, e))
    ensures c.BudgetGone? ==> LocalCommit(s, w, Goto(s.(t := Complete(s.t, c.rewardId)), w, Idle))
  {
    hide CanPreOccupy;
  }

  lemma CommitIsLocal(s: Sys, w: Id, c: Worker, e: Env)
    requires c.RiskRefused? || c.HasBudgets? || c.Answered? || c.HasTerminalRecord? || c.BudgetGone?
    ensures LocalCommit(s, w, AdvanceWorker(s, w, c, e))
  {
    hide LocalCommit, CommitRiskFailure, CommitFinalize, EnsureCompleted, CommitPreOccupy, Complete, ReadRecord,
         CheckRisk, FindProjectBudget, FindIssueBudget, RereadRecord, RefindProjectBudget, RefindIssueBudget,
         CallDownstream, Publish, FindPaidBudget, Pay, InsertBudgets, WriteRequestFields, WriteDocContent,
         WriteDocStatus;
    SettlingIsLocal(s, w, c, e);
    CompletingIsLocal(s, w, c, e);
  }

  lemma QuietAdvance(s: Sys, w: Id, c: Worker, e: Env)
    requires WorkerAt(s, w) == c && !WritesLate(c)
    ensures var s' := AdvanceWorker(s, w, c, e);
            && s'.t.docs == s.t.docs && s'.t.configs == s.t.configs
            && (CommitsNothing(c) ==> s'.t == s.t)
            && (s' == s || (s'.workers == s.workers[w := WorkerAt(s', w)] && RemembersNothingNew(c, WorkerAt(s', w))))
  {
    hide AdvanceWorker;
    if c.ReadyToIssue? {
      CallIsLocal(s, w, c, e);
    } else if CommitsNothing(c) {
      ReadIsLocal(s, w, c, e);
    } else if c.Idle? {
      IdleStays(s, w, e);
    } else {
      CommitIsLocal(s, w, c, e);
    }
  }

  lemma IdleStays(s: Sys, w: Id, e: Env)
    ensures AdvanceWorker(s, w, Idle, e) == s
  {
  }

  lemma RepairIsLocal(s: Sys, w: Id, c: Worker)
    requires TablesOk(s.t) && c.HasTerminalRecord? && WorkerOk(s.t, s.remote.verdicts, c)
    ensures EnsureCompleted(s, w, c) == Goto(s, w, Idle)
  {
    RepairNeverFires(s.t, s.remote.verdicts, c);
  }

  lemma SeenIssueBudget(t: Tables, verdicts: map<string, bool>, c: Worker)
    requires WorkerOk(t, verdicts, c) && c.HasBudgets?
    ensures c.issueBudgetId in t.issueBudgets
  {
  }

  lemma QuietAdvanceKeepsMeaning(s: Sys, w: Id, e: Env, which: Promise)
    requires Inv(s) && TablesMean(s.t, which) && !WritesLate(WorkerAt(s, w))
    ensures TablesMean(AdvanceWorker(s, w, WorkerAt(s, w), e).t, which)
  {
    hide Inv, TablesOk, WorkerOk, TablesMean, ReadRecord, CheckRisk, CommitRiskFailure, FindProjectBudget,
         FindIssueBudget, CommitPreOccupy, EnsureCompleted, RereadRecord, RefindProjectBudget, RefindIssueBudget,
         CallDownstream, CommitFinalize, Publish;
    var c := WorkerAt(s, w);
    InvAt(s, w);
    QuietAdvance(s, w, c, e);
    match c {
      case Idle =>
      case RiskRefused(_, _, _) => RiskFailureKeepsMeaning(s, w, c, e, which);
      case HasBudgets(_, _, _, _) =>
        SeenIssueBudget(s.t, s.remote.verdicts, c);
        PreOccupyStepKeepsMeaning(s, w, c, e, which);
      case Answered(_, _, _, _, _, _, _, _) => FinalizeStepKeepsMeaning(s, w, c, which);
      case HasTerminalRecord(_, _, _, _) => RepairIsLocal(s, w, c);
      case BudgetGone(_) => NoBudgetIsEverGone(s.t, s.remote.verdicts, c);
      case _ =>
    }
  }

  /** Begins, deliveries and crashes change no table. */
  lemma OnlyWorkersMove(s: Sys, step: Step)
    requires !CommitsAtOnce(step) && !step.Advance?
    ensures Next(s, step).t == s.t
  {
  }

  /** No promise is broken by a step that is not a late write. */
  lemma QuietStepKeepsMeaning(s: Sys, step: Step, which: Promise)
    requires Inv(s) && TablesMean(s.t, which) && (step.Advance? ==> !WritesLate(WorkerAt(s, step.w)))
    ensures TablesMean(Next(s, step).t, which)
  {
    hide AdvanceWorker, TablesMean;
    if CommitsAtOnce(step) {
      CommitKeepsMeaning(s, step, which);
    } else if step.Advance? {
      QuietAdvanceKeepsMeaning(s, step.w, step.e, which);
    } else {
      OnlyWorkersMove(s, step);
    }
  }
}
