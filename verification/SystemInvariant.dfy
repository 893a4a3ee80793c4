/** What holds of the whole system in every reachable state, whatever the interleaving. */
module SystemInvariant {
  import opened Amounts
  import opened BudgetItems
  import opened Evolution
  import opened Ledger
  import opened Schema
  import opened Transactions
  import opened VoucherIssuer
  import opened Workers
  import opened Wrappers

  // ---- What a worker remembers stays true enough ----

  ghost predicate RequestSeen(t: Tables, rewardId: Id, rr: RewardRequest) {
    rewardId in t.rewardRequests && rr.status == PendingReward && RewardEvolves(rr, t.rewardRequests[rewardId])
  }

  ghost predicate RecordSeen(t: Tables, rewardId: Id, rr: RewardRequest, recordId: Id, rec: IssueRecord) {
    && recordId in t.issueRecords && RecordEvolves(rec, t.issueRecords[recordId])
    && Repeats(rec, rewardId, rr) && rec.issueRequestId.Some?
  }

  ghost predicate BudgetSeen(t: Tables, budgetId: Id, k: Key) {
    budgetId in t.projectBudgets && BudgetKey(t.projectBudgets[budgetId]) == k
  }

  ghost predicate IssueBudgetSeen(t: Tables, issueBudgetId: Id, k: Key) {
    && issueBudgetId in t.issueBudgets
    && var ib := t.issueBudgets[issueBudgetId];
       && ib.voucherType == k.voucherType && ib.unit == k.unit
       && ib.issueRequestId in t.issueRequests && t.issueRequests[ib.issueRequestId].projectId == k.projectId
  }

  /** The rows debited for a record: the budget of its key and the issue budget it names. */
  ghost predicate RowsOf(t: Tables, rec: IssueRecord, budgetId: Id, issueBudgetId: Id) {
    && BudgetSeen(t, budgetId, RecordKey(rec))
    && issueBudgetId in t.issueBudgets && ChargedTo(rec, t.issueBudgets[issueBudgetId], t.issueRequests)
  }

  /** An outcome is backed by the asset service's decision, for vouchers it is asked about. */
  predicate OutcomeFits(verdicts: map<string, bool>, rec: IssueRecord, success: bool) {
    rec.voucherType == CRYPTO ==>
      if success then
        AssetCodeFromUnit(rec.unit).Some? && rec.voucherId in verdicts && verdicts[rec.voucherId]
      else
        AssetCodeFromUnit(rec.unit).None? || (rec.voucherId in verdicts && !verdicts[rec.voucherId])
  }

  ghost predicate WorkerOk(t: Tables, verdicts: map<string, bool>, c: Worker) {
    match c
    case Idle => true
    case HasRequest(r, rr) => RequestSeen(t, r, rr)
    case NoRecordYet(r, rr) => RequestSeen(t, r, rr)
    case RiskRefused(r, rr, _) => RequestSeen(t, r, rr)
    case RiskPassed(r, rr) => RequestSeen(t, r, rr)
    case HasProjectBudget(r, rr, b) => RequestSeen(t, r, rr) && BudgetSeen(t, b, RewardKey(rr))
    case HasBudgets(r, rr, b, ib) =>
      RequestSeen(t, r, rr) && BudgetSeen(t, b, RewardKey(rr)) && IssueBudgetSeen(t, ib, RewardKey(rr))
    case HasTerminalRecord(r, rr, id, rec) =>
      RequestSeen(t, r, rr) && id in t.issueRecords && t.issueRecords[id] == rec && Terminal(rec) && Repeats(rec, r, rr)
    case HasPendingRecord(r, rr, id) =>
      RequestSeen(t, r, rr) && id in t.issueRecords && Repeats(t.issueRecords[id], r, rr)
      && t.issueRecords[id].issueRequestId.Some?
    case Reread(r, rr, id, rec) => RequestSeen(t, r, rr) && RecordSeen(t, r, rr, id, rec)
    case RereadBudget(r, rr, id, rec, b) =>
      RequestSeen(t, r, rr) && RecordSeen(t, r, rr, id, rec) && BudgetSeen(t, b, RecordKey(rec))
    case ReadyToIssue(r, rr, id, rec, b, ib) =>
      RequestSeen(t, r, rr) && RecordSeen(t, r, rr, id, rec) && RowsOf(t, rec, b, ib)
    case Answered(r, rr, id, rec, b, ib, success, _) =>
      RequestSeen(t, r, rr) && RecordSeen(t, r, rr, id, rec) && RowsOf(t, rec, b, ib)
      && OutcomeFits(verdicts, rec, success)
    case Settled(r, rr, id, rec) =>
      && RequestSeen(t, r, rr) && t.rewardRequests[r].status == CompletedReward
      && id in t.issueRecords && t.issueRecords[id] == rec && Terminal(rec) && Repeats(rec, r, rr)
    case BudgetGone(_) => false
    case Initialising(docId, projectId, _) => docId in t.docs && t.docs[docId].projectId == projectId
    case Priced(_, address, _, _) => address in t.configs
    case Paying(docId, address, b, _, _) =>
      b in t.projectBudgets && t.projectBudgets[b].docId == docId
      && address in t.configs && t.configs[address] == PairOf(t.projectBudgets[b])
    case EditingRequest(_, _, _, units) => units >= 0
    case EditingDoc(_, detail) => Acceptable(t.configs, detail)
    case MovingDoc(_, _) => true
  }

  ghost predicate WorkersOk(t: Tables, verdicts: map<string, bool>, workers: map<Id, Worker>) {
    forall w | w in workers :: WorkerOk(t, verdicts, workers[w])
  }

  // ---- History ----

  /** The row a history entry speaks of: committed, pre-occupied, of that reward request. */
  ghost predicate RecordOf(t: Tables, recordId: Id, rewardId: Id) {
    && recordId in t.issueRecords && t.issueRecords[recordId].rewardRequestId == rewardId
    && rewardId in t.rewardRequests && t.issueRecords[recordId].issueRequestId.Some?
  }

  ghost predicate CallOk(c: Call, t: Tables) {
    && RecordOf(t, c.recordId, c.rewardId)
    && c.snap == SnapshotOf(t.issueRecords[c.recordId])
    && c.amount == t.rewardRequests[c.rewardId].amount
  }

  ghost predicate CallsOk(calls: seq<Call>, t: Tables) {
    forall i | 0 <= i < |calls| :: CallOk(calls[i], t)
  }

  ghost predicate CreditOk(c: Credit, t: Tables) {
    && RecordOf(t, c.recordId, c.rewardId)
    && var rec := t.issueRecords[c.recordId];
       && rec.voucherType == CRYPTO && AssetCodeFromUnit(rec.unit).Some?
       && c.request == RequestFor(SnapshotOf(rec), t.rewardRequests[c.rewardId].amount)
  }

  ghost predicate CreditsOk(credits: seq<Credit>, t: Tables) {
    forall i | 0 <= i < |credits| :: CreditOk(credits[i], t)
  }

  /** A credit happens exactly when the asset service decides so, once per BizId. */
  ghost predicate CreditsFollowVerdicts(r: Remote) {
    && (forall i | 0 <= i < |r.credits| ::
          r.credits[i].request.bizId in r.verdicts && r.verdicts[r.credits[i].request.bizId])
    && (forall i, j | 0 <= i < j < |r.credits| :: r.credits[i].request.bizId != r.credits[j].request.bizId)
    && (forall v | v in r.verdicts && r.verdicts[v] :: Credited(r.credits, v))
  }

  ghost predicate Credited(credits: seq<Credit>, bizId: string) {
    exists i :: 0 <= i < |credits| && credits[i].request.bizId == bizId
  }

  /** A settled record agrees with the asset service. */
  ghost predicate OutcomesOk(records: map<Id, IssueRecord>, verdicts: map<string, bool>) {
    forall id | id in records && Terminal(records[id]) && records[id].issueRequestId.Some? ::
      OutcomeFits(verdicts, records[id], records[id].status == IssuedRecord)
  }

  ghost predicate MoveOk(m: Move, t: Tables) {
    && RecordOf(t, m.recordId, m.rewardId)
    && RowsOf(t, t.issueRecords[m.recordId], m.budgetId, m.issueBudgetId)
    && m.amount == t.rewardRequests[m.rewardId].amount
    && (m.kind.Settle? ==>
          t.issueRecords[m.recordId].status == (if m.kind.success then IssuedRecord else FailedRecord))
  }

  ghost predicate MovesOk(moves: seq<Move>, t: Tables) {
    forall i | 0 <= i < |moves| :: MoveOk(moves[i], t)
  }

  /** Two movements of one reward request are a debit and, later, its settlement. */
  ghost predicate MovesUnique(moves: seq<Move>) {
    forall i, j | 0 <= i < j < |moves| && moves[i].rewardId == moves[j].rewardId ::
      moves[i].kind.Debit? && moves[j].kind.Settle?
  }

  ghost predicate Moved(moves: seq<Move>, recordId: Id, settled: bool) {
    exists i :: 0 <= i < |moves| && moves[i].recordId == recordId && moves[i].kind.Settle? == settled
  }

  ghost predicate MovesComplete(moves: seq<Move>, records: map<Id, IssueRecord>) {
    forall id | id in records && records[id].issueRequestId.Some? ::
      Moved(moves, id, false) && (Terminal(records[id]) ==> Moved(moves, id, true))
  }

  ghost predicate PublicationOk(p: Publication, t: Tables) {
    && p.recordId in t.issueRecords && t.issueRecords[p.recordId].rewardRequestId == p.rewardId
    && Terminal(t.issueRecords[p.recordId])
    && p.rewardId in t.rewardRequests && t.rewardRequests[p.rewardId].status == CompletedReward
    && p.event == TerminalEvent(t.rewardRequests[p.rewardId], t.issueRecords[p.recordId])
  }

  ghost predicate PublishedOk(published: seq<Publication>, t: Tables) {
    forall i | 0 <= i < |published| :: PublicationOk(published[i], t)
  }

  ghost predicate PublishedOnce(published: seq<Publication>) {
    forall i, j | 0 <= i < j < |published| :: published[i].rewardId != published[j].rewardId
  }

  /** Who is about to publish has not been overtaken. */
  ghost predicate SettledOnce(workers: map<Id, Worker>, published: seq<Publication>) {
    && (forall w, i | w in workers && workers[w].Settled? && 0 <= i < |published| ::
          published[i].rewardId != workers[w].rewardId)
    && (forall w, v | w in workers && v in workers && workers[w].Settled? && workers[v].Settled?
                      && workers[w].rewardId == workers[v].rewardId :: w == v)
  }

  ghost predicate Inv(s: Sys) {
    && TablesOk(s.t)
    && WorkersOk(s.t, s.remote.verdicts, s.workers)
    && CallsOk(s.calls, s.t)
    && CreditsOk(s.remote.credits, s.t)
    && CreditsFollowVerdicts(s.remote)
    && OutcomesOk(s.t.issueRecords, s.remote.verdicts)
    && MovesOk(s.moves, s.t)
    && MovesUnique(s.moves)
    && MovesComplete(s.moves, s.t.issueRecords)
    && PublishedOk(s.published, s.t)
    && PublishedOnce(s.published)
    && SettledOnce(s.workers, s.published)
  }

  // ---- Nothing of this is undone by what others commit ----

  ghost predicate VerdictsKept(v: map<string, bool>, v': map<string, bool>) {
    forall b | b in v :: b in v' && v'[b] == v[b]
  }

  lemma WorkerStays(t: Tables, t': Tables, v: map<string, bool>, v': map<string, bool>, c: Worker)
    requires WorkerOk(t, v, c) && Evolves(t, t') && VerdictsKept(v, v')
    ensures WorkerOk(t', v', c)
  {
  }

  lemma WorkersStay(t: Tables, t': Tables, v: map<string, bool>, v': map<string, bool>, workers: map<Id, Worker>)
    requires WorkersOk(t, v, workers) && Evolves(t, t') && VerdictsKept(v, v')
    ensures WorkersOk(t', v', workers)
  {
    forall w | w in workers ensures WorkerOk(t', v', workers[w]) {
      WorkerStays(t, t', v, v', workers[w]);
    }
  }

  lemma CallStays(c: Call, t: Tables, t': Tables)
    requires CallOk(c, t) && Evolves(t, t')
    ensures CallOk(c, t')
  {
  }

  lemma CreditStays(c: Credit, t: Tables, t': Tables)
    requires CreditOk(c, t) && Evolves(t, t')
    ensures CreditOk(c, t')
  {
  }

  lemma MoveStays(m: Move, t: Tables, t': Tables)
    requires MoveOk(m, t) && Evolves(t, t')
    ensures MoveOk(m, t')
  {
  }

  lemma PublicationStays(p: Publication, t: Tables, t': Tables)
    requires PublicationOk(p, t) && Evolves(t, t')
    ensures PublicationOk(p, t')
  {
  }

  lemma HistoryStays(s: Sys, t': Tables)
    requires CallsOk(s.calls, s.t) && CreditsOk(s.remote.credits, s.t) && MovesOk(s.moves, s.t)
             && PublishedOk(s.published, s.t)
    requires Evolves(s.t, t')
    ensures CallsOk(s.calls, t') && CreditsOk(s.remote.credits, t') && MovesOk(s.moves, t')
            && PublishedOk(s.published, t')
  {
    forall i | 0 <= i < |s.calls| ensures CallOk(s.calls[i], t') { CallStays(s.calls[i], s.t, t'); }
    forall i | 0 <= i < |s.remote.credits| ensures CreditOk(s.remote.credits[i], t') {
      CreditStays(s.remote.credits[i], s.t, t');
    }
    forall i | 0 <= i < |s.moves| ensures MoveOk(s.moves[i], t') { MoveStays(s.moves[i], s.t, t'); }
    forall i | 0 <= i < |s.published| ensures PublicationOk(s.published[i], t') {
      PublicationStays(s.published[i], s.t, t');
    }
  }
}
