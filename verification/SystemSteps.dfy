/** Every step keeps the invariant, and undoes nothing that is final: frames, and the steps that
    only read. */
module SystemSteps {
  import opened Amounts
  import opened BudgetItems
  import opened Evolution
  import opened Ledger
  import opened Schema
  import opened SystemInvariant
  import opened Transactions
  import opened VoucherIssuer
  import opened Workers
  import opened Wrappers

  /** What one step may do: keep the invariant, and let tables, decisions and history only grow. */
  ghost predicate Kept(s: Sys, s': Sys) {
    && Inv(s')
    && Evolves(s.t, s'.t)
    && VerdictsKept(s.remote.verdicts, s'.remote.verdicts)
    && s.calls <= s'.calls && s.moves <= s'.moves && s.published <= s'.published
    && s.remote.credits <= s'.remote.credits
  }

  lemma VerdictsSelf(v: map<string, bool>)
    ensures VerdictsKept(v, v)
  {
  }

  // ---- Workers ----

  lemma WorkersPut(t: Tables, verdicts: map<string, bool>, workers: map<Id, Worker>, w: Id, c: Worker)
    requires WorkersOk(t, verdicts, workers) && WorkerOk(t, verdicts, c)
    ensures WorkersOk(t, verdicts, workers[w := c])
  {
  }

  lemma WorkerIsOk(s: Sys, w: Id)
    requires WorkersOk(s.t, s.remote.verdicts, s.workers)
    ensures WorkerOk(s.t, s.remote.verdicts, WorkerAt(s, w))
  {
  }

  /** What a step relies on: the tables, and where its worker is. */
  lemma InvAt(s: Sys, w: Id)
    requires Inv(s)
    ensures TablesOk(s.t) && WorkerOk(s.t, s.remote.verdicts, WorkerAt(s, w))
  {
    WorkerIsOk(s, w);
  }

  lemma UnsettledPut(workers: map<Id, Worker>, published: seq<Publication>, w: Id, c: Worker)
    requires SettledOnce(workers, published) && !c.Settled?
    ensures SettledOnce(workers[w := c], published)
  {
  }

  /** A commit that touches no record, while a worker moves on without having settled anything. */
  lemma QuietKeeps(s: Sys, t': Tables, w: Id, c: Worker)
    requires Inv(s) && TablesOk(t') && Evolves(s.t, t') && t'.issueRecords == s.t.issueRecords
    requires WorkerOk(t', s.remote.verdicts, c) && !c.Settled?
    ensures Kept(s, Goto(s.(t := t'), w, c))
  {
    VerdictsSelf(s.remote.verdicts);
    WorkersStay(s.t, t', s.remote.verdicts, s.remote.verdicts, s.workers);
    WorkersPut(t', s.remote.verdicts, s.workers, w, c);
    HistoryStays(s, t');
    UnsettledPut(s.workers, s.published, w, c);
  }

  /** A commit that touches no record and no worker. */
  lemma TablesStepKeeps(s: Sys, t': Tables)
    requires Inv(s) && TablesOk(t') && Evolves(s.t, t') && t'.issueRecords == s.t.issueRecords
    ensures Kept(s, s.(t := t'))
  {
    VerdictsSelf(s.remote.verdicts);
    WorkersStay(s.t, t', s.remote.verdicts, s.remote.verdicts, s.workers);
    HistoryStays(s, t');
  }

  lemma SelfEvolves(t: Tables)
    ensures Evolves(t, t)
  {
    NothingChanged(t);
  }

  lemma StayingKeeps(s: Sys)
    requires Inv(s)
    ensures Kept(s, s)
  {
    VerdictsSelf(s.remote.verdicts);
    SelfEvolves(s.t);
  }

  /** A worker moves on without any commit. */
  lemma LocalKeeps(s: Sys, w: Id, c: Worker)
    requires Inv(s) && WorkerOk(s.t, s.remote.verdicts, c) && !c.Settled?
    ensures Kept(s, Goto(s, w, c))
  {
    SelfEvolves(s.t);
    QuietKeeps(s, s.t, w, c);
    assert s.(t := s.t) == s;
  }

  lemma IdleIsOk(t: Tables, verdicts: map<string, bool>)
    ensures WorkerOk(t, verdicts, Idle)
  {
  }

  // ---- Facts read off the tables ----

  lemma LookupRecord(t: Tables, rewardId: Id, rr: RewardRequest)
    requires RecordsMatchRewards(t.issueRecords, t.rewardRequests) && RewardsUnique(t.rewardRequests)
    requires RequestSeen(t, rewardId, rr)
    ensures RecordByRef(t, rr.clientRef).Some? ==>
              var id := RecordByRef(t, rr.clientRef).value;
              id in t.issueRecords && Repeats(t.issueRecords[id], rewardId, rr)
              && (t.issueRecords[id].status == PendingRecord ==> t.issueRecords[id].issueRequestId.Some?)
  {
    if RecordByRef(t, rr.clientRef).Some? {
      var rec := t.issueRecords[RecordByRef(t, rr.clientRef).value];
      assert t.rewardRequests[rec.rewardRequestId].clientRef == t.rewardRequests[rewardId].clientRef;
    }
  }

  lemma LookupBudget(t: Tables, k: Key)
    requires HasBudget(t.projectBudgets, k)
    ensures ProjectBudgetFor(t, k).Some? && BudgetSeen(t, ProjectBudgetFor(t, k).value, k)
  {
    var id :| id in t.projectBudgets && BudgetKey(t.projectBudgets[id]) == k;
  }

  lemma RewardHasBudget(t: Tables, rewardId: Id, rr: RewardRequest)
    requires RewardsFunded(t.rewardRequests, t.projectBudgets) && RequestSeen(t, rewardId, rr)
    ensures HasBudget(t.projectBudgets, RewardKey(rr)) && rr.amount >= 0
  {
  }

  lemma LookupCharge(t: Tables, id: Id)
    requires RecordsCharged(t.issueRecords, t.issueBudgets, t.issueRequests) && IssueBudgetsUnique(t.issueBudgets)
    requires id in t.issueRecords && t.issueRecords[id].issueRequestId.Some?
    ensures var ib := IssueBudgetFor(t, t.issueRecords[id].issueRequestId.value);
            ib.Some? && ib.value in t.issueBudgets
            && ChargedTo(t.issueRecords[id], t.issueBudgets[ib.value], t.issueRequests)
  {
    assert HasCharge(t.issueRecords[id], t.issueBudgets, t.issueRequests);
    var i :| i in t.issueBudgets && ChargedTo(t.issueRecords[id], t.issueBudgets[i], t.issueRequests);
  }

  /** Same identity, same charge. */
  lemma ChargeOfSame(a: IssueRecord, b: IssueRecord, ib: IssueBudget, requests: map<Id, IssueRequest>)
    requires SameIdentity(a, b) && ChargedTo(a, ib, requests)
    ensures ChargedTo(b, ib, requests)
  {
  }

  /** The request of a terminal record is completed. */
  lemma TerminalMeansCompleted(t: Tables, id: Id)
    requires RecordsMatchRewards(t.issueRecords, t.rewardRequests) && id in t.issueRecords
             && Terminal(t.issueRecords[id])
    ensures !IsPending(t, t.issueRecords[id].rewardRequestId)
  {
  }

  // ---- The steps of a distribution that only read ----

  /** The worker moved to a state that is fine, and nothing else changed. */
  ghost predicate MovedOn(s: Sys, s': Sys, w: Id) {
    s' == Goto(s, w, WorkerAt(s', w)) && WorkerOk(s.t, s.remote.verdicts, WorkerAt(s', w)) && !WorkerAt(s', w).Settled?
  }

  lemma ReadRecordMoves(s: Sys, w: Id, c: Worker)
    requires RecordsMatchRewards(s.t.issueRecords, s.t.rewardRequests) && RewardsUnique(s.t.rewardRequests)
    requires c.HasRequest? && WorkerOk(s.t, s.remote.verdicts, c)
    ensures MovedOn(s, ReadRecord(s, w, c), w)
  {
    LookupRecord(s.t, c.rewardId, c.rr);
  }

  lemma CheckRiskMoves(s: Sys, w: Id, c: Worker, e: Env)
    requires c.NoRecordYet? && WorkerOk(s.t, s.remote.verdicts, c)
    ensures MovedOn(s, CheckRisk(s, w, c, e), w)
  {
  }

  lemma FindProjectBudgetMoves(s: Sys, w: Id, c: Worker)
    requires RewardsFunded(s.t.rewardRequests, s.t.projectBudgets)
    requires c.RiskPassed? && WorkerOk(s.t, s.remote.verdicts, c)
    ensures MovedOn(s, FindProjectBudget(s, w, c), w)
  {
    RewardHasBudget(s.t, c.rewardId, c.rr);
    LookupBudget(s.t, RewardKey(c.rr));
  }

  lemma FindIssueBudgetMoves(s: Sys, w: Id, c: Worker)
    requires c.HasProjectBudget? && WorkerOk(s.t, s.remote.verdicts, c)
    ensures MovedOn(s, FindIssueBudget(s, w, c), w)
  {
  }

  lemma RereadRecordMoves(s: Sys, w: Id, c: Worker)
    requires c.HasPendingRecord? && WorkerOk(s.t, s.remote.verdicts, c)
    ensures MovedOn(s, RereadRecord(s, w, c), w)
  {
  }

  lemma RefindProjectBudgetMoves(s: Sys, w: Id, c: Worker)
    requires RewardsFunded(s.t.rewardRequests, s.t.projectBudgets)
    requires c.Reread? && WorkerOk(s.t, s.remote.verdicts, c)
    ensures MovedOn(s, RefindProjectBudget(s, w, c), w)
  {
    RewardHasBudget(s.t, c.rewardId, c.rr);
    assert RewardKey(c.rr) == RecordKey(c.rec);
    LookupBudget(s.t, RecordKey(c.rec));
  }

  lemma RefindIssueBudgetMoves(s: Sys, w: Id, c: Worker)
    requires RecordsCharged(s.t.issueRecords, s.t.issueBudgets, s.t.issueRequests)
             && IssueBudgetsUnique(s.t.issueBudgets)
    requires c.RereadBudget? && WorkerOk(s.t, s.remote.verdicts, c)
    ensures MovedOn(s, RefindIssueBudget(s, w, c), w)
  {
    LookupCharge(s.t, c.recordId);
    var ib := IssueBudgetFor(s.t, c.rec.issueRequestId.value).value;
    ChargeOfSame(s.t.issueRecords[c.recordId], c.rec, s.t.issueBudgets[ib], s.t.issueRequests);
  }

  lemma FindPaidBudgetMoves(s: Sys, w: Id, c: Worker)
    requires c.Priced? && WorkerOk(s.t, s.remote.verdicts, c)
    ensures MovedOn(s, FindPaidBudget(s, w, c), w)
  {
  }

  lemma MovedOnKeeps(s: Sys, s': Sys, w: Id)
    requires Inv(s) && MovedOn(s, s', w)
    ensures Kept(s, s')
  {
    LocalKeeps(s, w, WorkerAt(s', w));
  }

  predicate OnlyReads(c: Worker) {
    c.HasRequest? || c.NoRecordYet? || c.RiskPassed? || c.HasProjectBudget? || c.HasPendingRecord?
    || c.Reread? || c.RereadBudget? || c.Priced?
  }

  lemma ReadingKeeps(s: Sys, w: Id, c: Worker, e: Env)
    requires Inv(s) && OnlyReads(c) && WorkerOk(s.t, s.remote.verdicts, c)
    ensures Kept(s, AdvanceWorker(s, w, c, e))
  {
    hide WorkersOk, CallsOk, CreditsOk, CreditsFollowVerdicts, OutcomesOk, MovesOk, MovesUnique, MovesComplete,
         PublishedOk, PublishedOnce, SettledOnce, Evolves, WorkerOk, BudgetsUnique, DocsUnique,
         IssueBudgetsUnique, RewardsUnique, RecordsUnique, BudgetsHaveDocs, DocsAcceptable, PaymentsHaveBudgets,
         RewardsFunded, RequestAmounts, IssueBudgetsOngoing, OngoingBudgeted, RecordsCharged,
         RecordsMatchRewards, CompletedHaveRecords, BudgetsBalanced, BudgetsPaid, IssueBudgetsBalanced;
    match c {
      case HasRequest(_, _) => ReadRecordMoves(s, w, c);
      case NoRecordYet(_, _) => CheckRiskMoves(s, w, c, e);
      case RiskPassed(_, _) => FindProjectBudgetMoves(s, w, c);
      case HasProjectBudget(_, _, _) => FindIssueBudgetMoves(s, w, c);
      case HasPendingRecord(_, _, _) => RereadRecordMoves(s, w, c);
      case Reread(_, _, _, _) => RefindProjectBudgetMoves(s, w, c);
      case RereadBudget(_, _, _, _, _) => RefindIssueBudgetMoves(s, w, c);
      case Priced(_, _, _, _) => FindPaidBudgetMoves(s, w, c);
      case _ =>
    }
    MovedOnKeeps(s, AdvanceWorker(s, w, c, e), w);
  }

  // ---- The repair path ----

  /** The repair path only ever loses its compare-and-set. */
  lemma RepairNeverFires(t: Tables, verdicts: map<string, bool>, c: Worker)
    requires RecordsMatchRewards(t.issueRecords, t.rewardRequests)
    requires c.HasTerminalRecord? && WorkerOk(t, verdicts, c)
    ensures !IsPending(t, c.rewardId)
  {
    TerminalMeansCompleted(t, c.recordId);
  }

  lemma RepairKeeps(s: Sys, w: Id, c: Worker)
    requires Inv(s) && c.HasTerminalRecord? && WorkerOk(s.t, s.remote.verdicts, c)
    ensures Kept(s, EnsureCompleted(s, w, c)) && EnsureCompleted(s, w, c) == Goto(s, w, Idle)
  {
    RepairNeverFires(s.t, s.remote.verdicts, c);
    IdleIsOk(s.t, s.remote.verdicts);
    LocalKeeps(s, w, Idle);
  }
}
