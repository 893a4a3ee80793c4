/** The steps of a distribution that commit, call or publish keep the invariant. */
module CommitSteps {
  import opened DistributionSteps
  import opened Evolution
  import opened Ledger
  import opened LedgerSteps
  import opened Schema
  import opened SystemInvariant
  import opened SystemSteps
  import opened Transactions
  import opened VoucherIssuer
  import opened Workers
  import opened Wrappers

  // ---- Settling happens once ----

  /** Nobody has published, or is about to publish, a request that is still pending. */
  lemma PendingIsUnpublished(s: Sys, rewardId: Id)
    requires WorkersOk(s.t, s.remote.verdicts, s.workers) && PublishedOk(s.published, s.t)
    requires IsPending(s.t, rewardId)
    ensures forall i | 0 <= i < |s.published| :: s.published[i].rewardId != rewardId
    ensures forall w | w in s.workers && s.workers[w].Settled? :: s.workers[w].rewardId != rewardId
  {
    forall w | w in s.workers && s.workers[w].Settled? ensures s.workers[w].rewardId != rewardId {
      assert WorkerOk(s.t, s.remote.verdicts, s.workers[w]);
    }
    forall i | 0 <= i < |s.published| ensures s.published[i].rewardId != rewardId {
      assert PublicationOk(s.published[i], s.t);
    }
  }

  lemma SettledPut(workers: map<Id, Worker>, published: seq<Publication>, w: Id, c: Worker)
    requires SettledOnce(workers, published) && c.Settled?
    requires forall i | 0 <= i < |published| :: published[i].rewardId != c.rewardId
    requires forall v | v in workers && workers[v].Settled? :: workers[v].rewardId != c.rewardId
    ensures SettledOnce(workers[w := c], published)
  {
  }

  // ---- Failure at the risk check ----

  lemma OutcomesAfterUncharged(records: map<Id, IssueRecord>, verdicts: map<string, bool>, moves: seq<Move>,
                               id: Id, rec: IssueRecord)
    requires OutcomesOk(records, verdicts) && MovesComplete(moves, records) && rec.issueRequestId.None?
    ensures OutcomesOk(records[id := rec], verdicts) && MovesComplete(moves, records[id := rec])
  {
  }

  lemma RiskFailureFits(t: Tables, verdicts: map<string, bool>, c: Worker, rec: IssueRecord, recordId: Id)
    requires c.RiskRefused? && WorkerOk(t, verdicts, c)
    requires rec == RiskFailureRecord(c.rewardId, c.rr, rec.voucherId, c.reason)
    requires RecordInsertable(t, recordId, rec) && IsPending(t, c.rewardId)
    ensures c.rewardId in t.rewardRequests && Repeats(rec, c.rewardId, t.rewardRequests[c.rewardId])
    ensures StatusFits(rec, 0)
    ensures WorkerOk(FailAtRisk(t, recordId, rec), verdicts, Settled(c.rewardId, c.rr, recordId, rec))
  {
  }

  lemma RiskFailureKeeps(s: Sys, w: Id, c: Worker, e: Env)
    requires Inv(s) && c.RiskRefused? && WorkerOk(s.t, s.remote.verdicts, c)
    ensures Kept(s, CommitRiskFailure(s, w, c, e))
  {
    var rec := RiskFailureRecord(c.rewardId, c.rr, e.voucherId, c.reason);
    if RecordInsertable(s.t, e.newId, rec) && IsPending(s.t, c.rewardId) {
      var t' := FailAtRisk(s.t, e.newId, rec);
      var v := s.remote.verdicts;
      RiskFailureFits(s.t, v, c, rec, e.newId);
      FailAtRiskKeeps(s.t, e.newId, rec);
      FailAtRiskEvolves(s.t, e.newId, rec);
      VerdictsSelf(v);
      WorkersStay(s.t, t', v, v, s.workers);
      WorkersPut(t', v, s.workers, w, Settled(c.rewardId, c.rr, e.newId, rec));
      HistoryStays(s, t');
      OutcomesAfterUncharged(s.t.issueRecords, v, s.moves, e.newId, rec);
      PendingIsUnpublished(s, c.rewardId);
      SettledPut(s.workers, s.published, w, Settled(c.rewardId, c.rr, e.newId, rec));
    } else {
      IdleIsOk(s.t, s.remote.verdicts);
      LocalKeeps(s, w, Idle);
    }
  }

  // ---- Pre-occupation ----

  lemma MovesAfter(moves: seq<Move>, t: Tables, m: Move)
    requires MovesOk(moves, t) && MovesUnique(moves) && MoveOk(m, t)
    requires forall i | 0 <= i < |moves| && moves[i].rewardId == m.rewardId :: moves[i].kind.Debit? && m.kind.Settle?
    ensures MovesOk(moves + [m], t) && MovesUnique(moves + [m])
  {
  }

  lemma NoMoveWithoutRecord(moves: seq<Move>, t: Tables, rewardId: Id)
    requires MovesOk(moves, t)
    requires forall id | id in t.issueRecords :: t.issueRecords[id].rewardRequestId != rewardId
    ensures forall i | 0 <= i < |moves| :: moves[i].rewardId != rewardId
  {
    forall i | 0 <= i < |moves| ensures moves[i].rewardId != rewardId {
      assert MoveOk(moves[i], t);
    }
  }

  lemma MovesStayComplete(moves: seq<Move>, m: Move, id: Id, settled: bool)
    requires Moved(moves, id, settled)
    ensures Moved(moves + [m], id, settled)
  {
    var i :| 0 <= i < |moves| && moves[i].recordId == id && moves[i].kind.Settle? == settled;
    assert (moves + [m])[i] == moves[i];
  }

  lemma NewMoveCounts(moves: seq<Move>, m: Move)
    ensures Moved(moves + [m], m.recordId, m.kind.Settle?)
  {
    assert (moves + [m])[|moves|] == m;
  }

  lemma CompleteAfterDebit(moves: seq<Move>, m: Move, records: map<Id, IssueRecord>, rec: IssueRecord)
    requires MovesComplete(moves, records) && m.kind.Debit? && rec.status == PendingRecord
    ensures MovesComplete(moves + [m], records[m.recordId := rec])
  {
    forall id, settled | Moved(moves, id, settled) ensures Moved(moves + [m], id, settled) {
      MovesStayComplete(moves, m, id, settled);
    }
    NewMoveCounts(moves, m);
  }

  lemma OutcomesAfterPending(records: map<Id, IssueRecord>, verdicts: map<string, bool>, id: Id, rec: IssueRecord)
    requires OutcomesOk(records, verdicts) && rec.status == PendingRecord
    ensures OutcomesOk(records[id := rec], verdicts)
  {
  }

  lemma DebitFits(t: Tables, verdicts: map<string, bool>, c: Worker, voucherId: string, recordId: Id)
    requires c.HasBudgets? && WorkerOk(t, verdicts, c)
    ensures c.issueBudgetId in t.issueBudgets
    ensures var rec := PendingRecordFor(c.rewardId, c.rr, t.issueBudgets[c.issueBudgetId].issueRequestId, voucherId);
            && c.rewardId in t.rewardRequests && Repeats(rec, c.rewardId, t.rewardRequests[c.rewardId])
            && StatusFits(rec, c.rr.amount) && t.rewardRequests[c.rewardId].amount == c.rr.amount
            && c.budgetId in t.projectBudgets && BudgetKey(t.projectBudgets[c.budgetId]) == RecordKey(rec)
            && ChargedTo(rec, t.issueBudgets[c.issueBudgetId], t.issueRequests)
            && (CanPreOccupy(t, c.budgetId, c.issueBudgetId, c.rr.amount, recordId, rec) ==>
                  var t' := PreOccupy(t, c.budgetId, c.issueBudgetId, c.rr.amount, recordId, rec);
                  && WorkerOk(t', verdicts, ReadyToIssue(c.rewardId, c.rr, recordId, rec, c.budgetId, c.issueBudgetId))
                  && MoveOk(Move(Debit, c.rewardId, recordId, c.budgetId, c.issueBudgetId, c.rr.amount), t'))
  {
  }

  lemma PreOccupyStepKeeps(s: Sys, w: Id, c: Worker, e: Env)
    requires Inv(s) && c.HasBudgets? && WorkerOk(s.t, s.remote.verdicts, c)
    ensures Kept(s, CommitPreOccupy(s, w, c, e))
  {
    var v := s.remote.verdicts;
    DebitFits(s.t, v, c, e.voucherId, e.newId);
    var rec := PendingRecordFor(c.rewardId, c.rr, s.t.issueBudgets[c.issueBudgetId].issueRequestId, e.voucherId);
    if CanPreOccupy(s.t, c.budgetId, c.issueBudgetId, c.rr.amount, e.newId, rec) {
      var t' := PreOccupy(s.t, c.budgetId, c.issueBudgetId, c.rr.amount, e.newId, rec);
      var m := Move(Debit, c.rewardId, e.newId, c.budgetId, c.issueBudgetId, c.rr.amount);
      PreOccupyKeeps(s.t, c.budgetId, c.issueBudgetId, c.rr.amount, e.newId, rec);
      PreOccupyEvolves(s.t, c.budgetId, c.issueBudgetId, c.rr.amount, e.newId, rec);
      VerdictsSelf(v);
      WorkersStay(s.t, t', v, v, s.workers);
      WorkersPut(t', v, s.workers, w, ReadyToIssue(c.rewardId, c.rr, e.newId, rec, c.budgetId, c.issueBudgetId));
      HistoryStays(s, t');
      NoMoveWithoutRecord(s.moves, s.t, c.rewardId);
      MovesAfter(s.moves, t', m);
      CompleteAfterDebit(s.moves, m, s.t.issueRecords, rec);
      OutcomesAfterPending(s.t.issueRecords, v, e.newId, rec);
      UnsettledPut(s.workers, s.published, w,
                   ReadyToIssue(c.rewardId, c.rr, e.newId, rec, c.budgetId, c.issueBudgetId));
    } else {
      IdleIsOk(s.t, v);
      LocalKeeps(s, w, Idle);
    }
  }

  // ---- Settlement ----

  lemma OutcomesAfterSettle(records: map<Id, IssueRecord>, verdicts: map<string, bool>, id: Id, rec: IssueRecord)
    requires OutcomesOk(records, verdicts) && OutcomeFits(verdicts, rec, rec.status == IssuedRecord)
    ensures OutcomesOk(records[id := rec], verdicts)
  {
  }

  lemma CompleteAfterSettle(moves: seq<Move>, m: Move, records: map<Id, IssueRecord>, rec: IssueRecord)
    requires MovesComplete(moves, records) && m.kind.Settle? && m.recordId in records
    requires records[m.recordId].issueRequestId.Some?
    ensures MovesComplete(moves + [m], records[m.recordId := rec])
  {
    forall id, settled | Moved(moves, id, settled) ensures Moved(moves + [m], id, settled) {
      MovesStayComplete(moves, m, id, settled);
    }
    NewMoveCounts(moves, m);
  }

  /** While the request is pending, its movements so far are at most its debit. */
  lemma PendingHasNoSettlement(moves: seq<Move>, t: Tables, rewardId: Id)
    requires MovesOk(moves, t) && RecordsMatchRewards(t.issueRecords, t.rewardRequests) && IsPending(t, rewardId)
    ensures forall i | 0 <= i < |moves| && moves[i].rewardId == rewardId :: moves[i].kind.Debit?
  {
    forall i | 0 <= i < |moves| && moves[i].rewardId == rewardId ensures moves[i].kind.Debit? {
      assert MoveOk(moves[i], t);
      if moves[i].kind.Settle? {
        TerminalMeansCompleted(t, moves[i].recordId);
      }
    }
  }

  lemma RecordIsPending(t: Tables, id: Id)
    requires RecordsMatchRewards(t.issueRecords, t.rewardRequests) && id in t.issueRecords
    requires IsPending(t, t.issueRecords[id].rewardRequestId)
    ensures t.issueRecords[id].status == PendingRecord
  {
  }

  lemma SettleFits(t: Tables, verdicts: map<string, bool>, c: Worker)
    requires c.Answered? && WorkerOk(t, verdicts, c) && IsPending(t, c.rewardId)
    requires c.recordId in t.issueRecords && t.issueRecords[c.recordId].status == PendingRecord
    ensures var rec := WithOutcome(c.rec, c.rr.amount, c.success, c.reason);
            && SameIdentity(t.issueRecords[c.recordId], rec) && RecordEvolves(t.issueRecords[c.recordId], rec)
            && rec.rewardRequestId == c.rewardId && t.rewardRequests[c.rewardId].amount == c.rr.amount
            && StatusFits(rec, c.rr.amount)
            && c.budgetId in t.projectBudgets && BudgetKey(t.projectBudgets[c.budgetId]) == RecordKey(rec)
            && c.issueBudgetId in t.issueBudgets
            && ChargedTo(rec, t.issueBudgets[c.issueBudgetId], t.issueRequests)
            && OutcomeFits(verdicts, rec, c.success)
            && var t' := Finalize(t, c.budgetId, c.issueBudgetId, c.rr.amount, c.success, c.recordId, rec, c.rewardId);
            && WorkerOk(t', verdicts, Settled(c.rewardId, c.rr, c.recordId, rec))
            && MoveOk(Move(Settle(c.success), c.rewardId, c.recordId, c.budgetId, c.issueBudgetId, c.rr.amount), t')
  {
  }

  lemma FinalizeStepKeeps(s: Sys, w: Id, c: Worker)
    requires Inv(s) && c.Answered? && WorkerOk(s.t, s.remote.verdicts, c)
    requires c.recordId in s.t.issueRecords && s.t.issueRecords[c.recordId].rewardRequestId == c.rewardId
    ensures Kept(s, CommitFinalize(s, w, c))
  {
    hide WorkersOk, CallsOk, CreditsOk, CreditsFollowVerdicts, OutcomesOk, MovesOk, MovesUnique, MovesComplete,
         PublishedOk, PublishedOnce, SettledOnce, Evolves, WorkerOk, BudgetsUnique, DocsUnique,
         IssueBudgetsUnique, RewardsUnique, RecordsUnique, BudgetsHaveDocs, DocsAcceptable, PaymentsHaveBudgets,
         RewardsFunded, RequestAmounts, IssueBudgetsOngoing, OngoingBudgeted, RecordsCharged,
         RecordsMatchRewards, CompletedHaveRecords, BudgetsBalanced, BudgetsPaid, IssueBudgetsBalanced;
    hide MoveOk;
    var v := s.remote.verdicts;
    if IsPending(s.t, c.rewardId) {
      var rec := WithOutcome(c.rec, c.rr.amount, c.success, c.reason);
      var t' := Finalize(s.t, c.budgetId, c.issueBudgetId, c.rr.amount, c.success, c.recordId, rec, c.rewardId);
      var m := Move(Settle(c.success), c.rewardId, c.recordId, c.budgetId, c.issueBudgetId, c.rr.amount);
      var c' := Settled(c.rewardId, c.rr, c.recordId, rec);
      RecordIsPending(s.t, c.recordId);
      SettleFits(s.t, v, c);
      FinalizeKeeps(s.t, c.budgetId, c.issueBudgetId, c.rr.amount, c.success, c.recordId, rec, c.rewardId);
      FinalizeEvolves(s.t, c.budgetId, c.issueBudgetId, c.rr.amount, c.success, c.recordId, rec, c.rewardId);
      VerdictsSelf(v);
      WorkersStay(s.t, t', v, v, s.workers);
      WorkersPut(t', v, s.workers, w, c');
      HistoryStays(s, t');
      PendingHasNoSettlement(s.moves, s.t, c.rewardId);
      MovesAfter(s.moves, t', m);
      CompleteAfterSettle(s.moves, m, s.t.issueRecords, rec);
      OutcomesAfterSettle(s.t.issueRecords, v, c.recordId, rec);
      PendingIsUnpublished(s, c.rewardId);
      SettledPut(s.workers, s.published, w, c');
    } else {
      IdleIsOk(s.t, v);
      LocalKeeps(s, w, Idle);
    }
  }

  lemma AnsweredRecord(t: Tables, verdicts: map<string, bool>, c: Worker)
    requires c.Answered? && WorkerOk(t, verdicts, c)
    ensures c.recordId in t.issueRecords && t.issueRecords[c.recordId].rewardRequestId == c.rewardId
  {
  }

  // ---- Publication ----

  lemma PublishFits(t: Tables, verdicts: map<string, bool>, c: Worker)
    requires c.Settled? && WorkerOk(t, verdicts, c)
    ensures PublicationOk(Publication(c.rewardId, c.recordId, TerminalEvent(c.rr, c.rec)), t)
  {
  }

  lemma PublishedAfter(workers: map<Id, Worker>, published: seq<Publication>, t: Tables, w: Id, p: Publication)
    requires PublishedOk(published, t) && PublishedOnce(published) && SettledOnce(workers, published)
    requires w in workers && workers[w].Settled? && workers[w].rewardId == p.rewardId && PublicationOk(p, t)
    ensures PublishedOk(published + [p], t) && PublishedOnce(published + [p])
    ensures SettledOnce(workers[w := Idle], published + [p])
  {
  }

  lemma PublishKeeps(s: Sys, w: Id, c: Worker)
    requires Inv(s) && c.Settled? && w in s.workers && s.workers[w] == c && WorkerOk(s.t, s.remote.verdicts, c)
    ensures Kept(s, Publish(s, w, c))
  {
    PublishFits(s.t, s.remote.verdicts, c);
    PublishedAfter(s.workers, s.published, s.t, w, Publication(c.rewardId, c.recordId, TerminalEvent(c.rr, c.rec)));
    IdleIsOk(s.t, s.remote.verdicts);
    WorkersPut(s.t, s.remote.verdicts, s.workers, w, Idle);
    SelfEvolves(s.t);
    VerdictsSelf(s.remote.verdicts);
  }

  // ---- The downstream call ----

  lemma CallFits(t: Tables, verdicts: map<string, bool>, c: Worker)
    requires c.ReadyToIssue? && WorkerOk(t, verdicts, c)
    ensures CallOk(Call(c.rewardId, c.recordId, SnapshotOf(c.rec), c.rr.amount), t)
    ensures c.rec.voucherType == CRYPTO && AssetCodeFromUnit(c.rec.unit).Some? ==>
              CreditOk(Credit(c.rewardId, c.recordId, RequestFor(SnapshotOf(c.rec), c.rr.amount)), t)
  {
  }

  lemma ContactFollows(r: Remote, rewardId: Id, recordId: Id, request: AssetRequest, decision: Option<bool>)
    requires CreditsFollowVerdicts(r)
    ensures var r' := Contact(r, rewardId, recordId, request, decision);
            && CreditsFollowVerdicts(r') && VerdictsKept(r.verdicts, r'.verdicts) && r.credits <= r'.credits
  {
    var r' := Contact(r, rewardId, recordId, request, decision);
    if r' != r {
      forall v | Credited(r.credits, v) ensures Credited(r'.credits, v) {
        var i :| 0 <= i < |r.credits| && r.credits[i].request.bizId == v;
        assert r'.credits[i] == r.credits[i];
      }
      if decision.value {
        assert r'.credits[|r.credits|].request.bizId == request.bizId;
        assert Credited(r'.credits, request.bizId);
      }
    }
  }

  lemma CreditsAfterContact(r: Remote, rewardId: Id, recordId: Id, request: AssetRequest, decision: Option<bool>,
                            t: Tables)
    requires CreditsOk(r.credits, t) && CreditOk(Credit(rewardId, recordId, request), t)
    ensures CreditsOk(Contact(r, rewardId, recordId, request, decision).credits, t)
  {
  }

  lemma OutcomesStay(records: map<Id, IssueRecord>, v: map<string, bool>, v': map<string, bool>)
    requires OutcomesOk(records, v) && VerdictsKept(v, v')
    ensures OutcomesOk(records, v')
  {
  }

  lemma CallsAfter(calls: seq<Call>, t: Tables, c: Call)
    requires CallsOk(calls, t) && CallOk(c, t)
    ensures CallsOk(calls + [c], t)
  {
  }

  /** What the worker concludes is what the asset service decided. */
  lemma AnswerFits(s: Sys, c: Worker, e: Env)
    requires c.ReadyToIssue?
    ensures var remote := RemoteAfter(s, c, e);
            var outcome := Issue(e.clientReady, SnapshotOf(c.rec), ReplyOf(remote, c.rec.voucherId, e));
            && (outcome.Succeeded? ==> OutcomeFits(remote.verdicts, c.rec, true))
            && (outcome.Refused? ==> OutcomeFits(remote.verdicts, c.rec, false))
  {
    var remote := RemoteAfter(s, c, e);
    IssueClassifies(e.clientReady, SnapshotOf(c.rec), ReplyOf(remote, c.rec.voucherId, e));
  }

  lemma AnsweredIsOk(t: Tables, verdicts: map<string, bool>, c: Worker, success: bool, reason: string)
    requires c.ReadyToIssue? && WorkerOk(t, verdicts, c) && OutcomeFits(verdicts, c.rec, success)
    ensures WorkerOk(t, verdicts,
              Answered(c.rewardId, c.rr, c.recordId, c.rec, c.budgetId, c.issueBudgetId, success, reason))
  {
  }

  lemma CallDownstreamKeeps(s: Sys, w: Id, c: Worker, e: Env)
    requires Inv(s) && c.ReadyToIssue? && WorkerOk(s.t, s.remote.verdicts, c)
    ensures Kept(s, CallDownstream(s, w, c, e))
  {
    hide TablesOk, WorkersOk, CallsOk, CreditsOk, CreditsFollowVerdicts, OutcomesOk, MovesOk, MovesUnique,
         MovesComplete, PublishedOk, PublishedOnce, SettledOnce, Evolves, WorkerOk;
    hide CallOk, CreditOk, OutcomeFits, Issue, ReplyOf, Contact;
    var remote := RemoteAfter(s, c, e);
    var s' := CallDownstream(s, w, c, e);
    CallFits(s.t, s.remote.verdicts, c);
    CallsAfter(s.calls, s.t, Call(c.rewardId, c.recordId, SnapshotOf(c.rec), c.rr.amount));
    if CallsAssetService(e.clientReady, SnapshotOf(c.rec)) {
      var request := RequestFor(SnapshotOf(c.rec), c.rr.amount);
      ContactFollows(s.remote, c.rewardId, c.recordId, request, e.decision);
      CreditsAfterContact(s.remote, c.rewardId, c.recordId, request, e.decision, s.t);
    } else {
      VerdictsSelf(s.remote.verdicts);
    }
    SelfEvolves(s.t);
    WorkersStay(s.t, s.t, s.remote.verdicts, remote.verdicts, s.workers);
    WorkerStays(s.t, s.t, s.remote.verdicts, remote.verdicts, c);
    OutcomesStay(s.t.issueRecords, s.remote.verdicts, remote.verdicts);
    AnswerFits(s, c, e);
    var outcome := Issue(e.clientReady, SnapshotOf(c.rec), ReplyOf(remote, c.rec.voucherId, e));
    if !outcome.Transient? {
      AnsweredIsOk(s.t, remote.verdicts, c, outcome.Succeeded?, if outcome.Refused? then outcome.reason else "");
    }
    IdleIsOk(s.t, remote.verdicts);
    WorkersPut(s.t, remote.verdicts, s.workers, w, WorkerAt(s', w));
    UnsettledPut(s.workers, s.published, w, WorkerAt(s', w));
  }
}
