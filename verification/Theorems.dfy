/** What the invariants mean for whoever relies on the service. Each theorem is about every reachable
    state, that is, about every run of any number of workers. */
module Theorems {
  import opened Amounts
  import opened BudgetItems
  import opened CommitSteps
  import opened DistributionSteps
  import opened Evolution
  import opened FirstFit
  import opened GuardedSteps
  import opened LateWrites
  import opened Ledger
  import opened LedgerSteps
  import opened MeaningSteps
  import opened Reachable
  import opened Schema
  import opened Sums
  import opened SystemInvariant
  import opened SystemSteps
  import opened Totals
  import opened Transactions
  import opened VoucherIssuer
  import opened Workers
  import opened Wrappers

  // ---- Exactly-once settlement ----

  predicate SameRows(m: Move, n: Move) {
    && m.rewardId == n.rewardId && m.recordId == n.recordId && m.amount == n.amount
    && m.budgetId == n.budgetId && m.issueBudgetId == n.issueBudgetId
  }

  lemma MovesOfOneRequest(t: Tables, m: Move, n: Move)
    requires BudgetsUnique(t.projectBudgets) && IssueBudgetsUnique(t.issueBudgets) && RecordsUnique(t.issueRecords)
    requires MoveOk(m, t) && MoveOk(n, t) && m.rewardId == n.rewardId
    ensures SameRows(m, n)
  {
  }

  lemma RecordOfMoved(t: Tables, moves: seq<Move>, i: int, j: int)
    requires BudgetsUnique(t.projectBudgets) && IssueBudgetsUnique(t.issueBudgets) && RecordsUnique(t.issueRecords)
    requires MovesOk(moves, t) && 0 <= i < |moves| && 0 <= j < |moves|
    requires moves[i].rewardId == moves[j].rewardId || moves[i].recordId == moves[j].recordId
    ensures SameRows(moves[i], moves[j])
  {
    assert MoveOk(moves[i], t) && MoveOk(moves[j], t);
    MovesOfOneRequest(t, moves[i], moves[j]);
  }

  lemma SettlementHasItsDebit(s: Sys, j: int)
    requires Inv(s) && 0 <= j < |s.moves| && s.moves[j].kind.Settle?
    ensures exists i | 0 <= i < j :: s.moves[i].kind.Debit? && SameRows(s.moves[i], s.moves[j])
  {
    ChargedRecordIsMoved(s, j);
    var i :| 0 <= i < |s.moves| && s.moves[i].recordId == s.moves[j].recordId && s.moves[i].kind.Settle? == false;
    RecordOfMoved(s.t, s.moves, i, j);
    if i >= j { OrderOfMoves(s.moves, j, i); }
  }

  lemma OrderOfMoves(moves: seq<Move>, i: int, j: int)
    requires MovesUnique(moves) && 0 <= i <= j < |moves| && moves[i].rewardId == moves[j].rewardId
    ensures i == j || (moves[i].kind.Debit? && moves[j].kind.Settle?)
  {
  }

  lemma ChargedRecordIsMoved(s: Sys, j: int)
    requires MovesOk(s.moves, s.t) && MovesComplete(s.moves, s.t.issueRecords) && 0 <= j < |s.moves|
    ensures Moved(s.moves, s.moves[j].recordId, false)
  {
    assert MoveOk(s.moves[j], s.t);
  }

  lemma MovesFit(t: Tables, moves: seq<Move>, i: int)
    requires MovesOk(moves, t) && 0 <= i < |moves|
    ensures moves[i].rewardId in t.rewardRequests && moves[i].amount == t.rewardRequests[moves[i].rewardId].amount
  {
    assert MoveOk(moves[i], t);
  }

  /** However often a reward request is delivered and whoever works on it, its amount leaves `available`
      at most once, enters `issued` or `refund` at most once and never both, and does so on the very rows
      it was taken from; and a record that was charged has been debited, and settled once it is terminal. */
  lemma ExactlyOnceSettlement(s: Sys)
    requires IsReachable(s)
    ensures forall i, j | 0 <= i < |s.moves| && 0 <= j < |s.moves| && s.moves[i].rewardId == s.moves[j].rewardId
                          && s.moves[i].kind.Debit? == s.moves[j].kind.Debit? :: i == j
    ensures forall j | 0 <= j < |s.moves| && s.moves[j].kind.Settle? ::
              exists i | 0 <= i < j :: s.moves[i].kind.Debit? && SameRows(s.moves[i], s.moves[j])
    ensures forall i | 0 <= i < |s.moves| ::
              s.moves[i].rewardId in s.t.rewardRequests
              && s.moves[i].amount == s.t.rewardRequests[s.moves[i].rewardId].amount
    ensures forall id | id in s.t.issueRecords && s.t.issueRecords[id].issueRequestId.Some? ::
              Moved(s.moves, id, false) && (Terminal(s.t.issueRecords[id]) ==> Moved(s.moves, id, true))
  {
    ReachableIsOk(s);
    forall i | 0 <= i < |s.moves|
      ensures s.moves[i].rewardId in s.t.rewardRequests
              && s.moves[i].amount == s.t.rewardRequests[s.moves[i].rewardId].amount
    {
      MovesFit(s.t, s.moves, i);
    }
    forall j | 0 <= j < |s.moves| && s.moves[j].kind.Settle?
      ensures exists i | 0 <= i < j :: s.moves[i].kind.Debit? && SameRows(s.moves[i], s.moves[j])
    {
      SettlementHasItsDebit(s, j);
    }
    forall i, j | 0 <= i < |s.moves| && 0 <= j < |s.moves| && s.moves[i].rewardId == s.moves[j].rewardId
                  && s.moves[i].kind.Debit? == s.moves[j].kind.Debit?
      ensures i == j
    {
      OneMoveOfAKind(s, i, j);
    }
  }

  lemma OneMoveOfAKind(s: Sys, i: int, j: int)
    requires Inv(s) && 0 <= i < |s.moves| && 0 <= j < |s.moves|
    requires s.moves[i].rewardId == s.moves[j].rewardId && s.moves[i].kind.Debit? == s.moves[j].kind.Debit?
    ensures i == j
  {
    if i <= j { OrderOfMoves(s.moves, i, j); } else { OrderOfMoves(s.moves, j, i); }
  }

  // ---- The movements in the history are the movements of the columns ----

  function BudgetAfter(m: Move, b: ProjectBudget): ProjectBudget {
    match m.kind
    case Debit => b.(available := b.available - m.amount)
    case Settle(success) =>
      if success then b.(issued := b.issued + m.amount) else b.(refund := b.refund + m.amount)
  }

  function IssueBudgetAfter(m: Move, ib: IssueBudget): IssueBudget {
    match m.kind
    case Debit => ib.(available := ib.available - m.amount)
    case Settle(success) =>
      if success then ib.(issued := ib.issued + m.amount) else ib.(refund := ib.refund + m.amount)
  }

  /** Budgets change as the newly logged movement says, or not at all. */
  ghost predicate MovesAreLogged(s: Sys, s': Sys) {
    || (s'.moves == s.moves && s'.t.projectBudgets == s.t.projectBudgets && s'.t.issueBudgets == s.t.issueBudgets)
    || exists m :: s'.moves == s.moves + [m] && LoggedAs(s.t, s'.t, m)
  }

  ghost predicate LoggedAs(t: Tables, t': Tables, m: Move) {
    && m.budgetId in t.projectBudgets && m.issueBudgetId in t.issueBudgets
    && t'.projectBudgets == t.projectBudgets[m.budgetId := BudgetAfter(m, t.projectBudgets[m.budgetId])]
    && t'.issueBudgets == t.issueBudgets[m.issueBudgetId := IssueBudgetAfter(m, t.issueBudgets[m.issueBudgetId])]
  }

  lemma DebitIsLogged(s: Sys, w: Id, c: Worker, e: Env)
    requires c.HasBudgets?
    ensures MovesAreLogged(s, CommitPreOccupy(s, w, c, e))
  {
    var s' := CommitPreOccupy(s, w, c, e);
    if s'.moves != s.moves {
      assert LoggedAs(s.t, s'.t, s'.moves[|s.moves|]);
    }
  }

  lemma SettlementIsLogged(s: Sys, w: Id, c: Worker)
    requires c.Answered? && c.budgetId in s.t.projectBudgets && c.issueBudgetId in s.t.issueBudgets
    ensures MovesAreLogged(s, CommitFinalize(s, w, c))
  {
    var s' := CommitFinalize(s, w, c);
    if s'.moves != s.moves {
      assert LoggedAs(s.t, s'.t, s'.moves[|s.moves|]);
    }
  }

  lemma AnsweredRows(t: Tables, verdicts: map<string, bool>, c: Worker)
    requires c.Answered? && WorkerOk(t, verdicts, c)
    ensures c.budgetId in t.projectBudgets && c.issueBudgetId in t.issueBudgets
  {
  }

  /** Nothing in a distribution moves a column without leaving its trace in the history. */
  lemma DistributionMovesAreLogged(s: Sys, w: Id, e: Env)
    requires IsReachable(s) && !WorkerAt(s, w).Paying? && !WorkerAt(s, w).Initialising?
    ensures MovesAreLogged(s, Next(s, Advance(w, e)))
  {
    hide IsReachable, Inv, TablesOk, WorkerOk;
    ReachableIsOk(s);
    var c := WorkerAt(s, w);
    InvAt(s, w);
    if c.HasBudgets? {
      hide CommitPreOccupy, MovesAreLogged;
      DebitIsLogged(s, w, c, e);
    } else if c.Answered? {
      hide CommitFinalize, MovesAreLogged;
      AnsweredRows(s.t, s.remote.verdicts, c);
      SettlementIsLogged(s, w, c);
    } else {
      hide AdvanceWorker;
      OthersMoveNothing(s, w, c, e);
    }
  }

  lemma OthersMoveNothing(s: Sys, w: Id, c: Worker, e: Env)
    requires !c.HasBudgets? && !c.Answered? && !c.Paying? && !c.Initialising?
    ensures var s' := AdvanceWorker(s, w, c, e);
            s'.moves == s.moves && s'.t.projectBudgets == s.t.projectBudgets && s'.t.issueBudgets == s.t.issueBudgets
  {
    hide ProjectBudgetFor, IssueBudgetFor, FirstAvailableForDistribution, RecordByRef, ProjectBudgetOfDoc,
         WithinDocAmount, CanPreOccupy, RecordInsertable, RiskFailureRecord, WithOutcome, Issue, ReplyOf,
         RemoteAfter, TerminalEvent, InsertBudgets, Pay;
  }

  // ---- The downstream call ----

  lemma CallsOfOneRequest(t: Tables, c: Call, d: Call)
    requires RecordsUnique(t.issueRecords) && CallOk(c, t) && CallOk(d, t) && c.rewardId == d.rewardId
    ensures c == d
  {
  }

  /** All calls ever made for one reward request carry the same voucher id, user, unit and amount. */
  lemma StableDownstreamIdentity(s: Sys)
    requires IsReachable(s)
    ensures forall i, j | 0 <= i < |s.calls| && 0 <= j < |s.calls| && s.calls[i].rewardId == s.calls[j].rewardId ::
              s.calls[i] == s.calls[j]
  {
    ReachableIsOk(s);
    forall i, j | 0 <= i < |s.calls| && 0 <= j < |s.calls| && s.calls[i].rewardId == s.calls[j].rewardId
      ensures s.calls[i] == s.calls[j]
    {
      SameCall(s, i, j);
    }
  }

  lemma SameCall(s: Sys, i: int, j: int)
    requires Inv(s) && 0 <= i < |s.calls| && 0 <= j < |s.calls| && s.calls[i].rewardId == s.calls[j].rewardId
    ensures s.calls[i] == s.calls[j]
  {
    CallAt(s.calls, s.t, i);
    CallAt(s.calls, s.t, j);
    CallsOfOneRequest(s.t, s.calls[i], s.calls[j]);
  }

  lemma CallAt(calls: seq<Call>, t: Tables, i: int)
    requires CallsOk(calls, t) && 0 <= i < |calls|
    ensures CallOk(calls[i], t)
  {
  }

  lemma NewCall(s: Sys, w: Id, c: Worker, e: Env)
    requires c.ReadyToIssue? && WorkerAt(s, w) == c
    ensures Next(s, Advance(w, e)).calls == s.calls + [Call(c.rewardId, c.recordId, SnapshotOf(c.rec), c.rr.amount)]
  {
  }

  /** The voucher id a call carries was committed before the call was made. */
  lemma VoucherIsCommittedFirst(s: Sys, w: Id, e: Env)
    requires IsReachable(s) && WorkerAt(s, w).ReadyToIssue?
    ensures var s' := Next(s, Advance(w, e));
            |s'.calls| == |s.calls| + 1 && CallOk(s'.calls[|s.calls|], s.t)
  {
    ReachableIsOk(s);
    WorkerIsOk(s, w);
    NewCall(s, w, WorkerAt(s, w), e);
    CallFits(s.t, s.remote.verdicts, WorkerAt(s, w));
  }

  // ---- Agreement with the asset service ----

  lemma CreditAt(credits: seq<Credit>, t: Tables, i: int)
    requires CreditsOk(credits, t) && 0 <= i < |credits|
    ensures CreditOk(credits[i], t)
  {
  }

  /** A credit of a request is a credit of its record's voucher. */
  lemma CreditIsOfTheRecord(t: Tables, c: Credit, id: Id)
    requires RecordsUnique(t.issueRecords) && CreditOk(c, t)
    requires id in t.issueRecords && t.issueRecords[id].rewardRequestId == c.rewardId
    ensures c.recordId == id && c.request.bizId == t.issueRecords[id].voucherId
    ensures t.issueRecords[id].issueRequestId.Some? && AssetCodeFromUnit(t.issueRecords[id].unit).Some?
    ensures c.rewardId in t.rewardRequests
            && c.request == RequestFor(SnapshotOf(t.issueRecords[id]), t.rewardRequests[c.rewardId].amount)
  {
  }

  lemma CreditOfVoucherIsOfTheRecord(t: Tables, c: Credit, id: Id)
    requires RecordsUnique(t.issueRecords) && CreditOk(c, t)
    requires id in t.issueRecords && t.issueRecords[id].voucherId == c.request.bizId
    ensures c.recordId == id && c.rewardId == t.issueRecords[id].rewardRequestId
  {
  }

  lemma IssuedIsCreditedOnce(s: Sys, id: Id)
    requires RecordsUnique(s.t.issueRecords) && CreditsOk(s.remote.credits, s.t) && CreditsFollowVerdicts(s.remote)
    requires OutcomesOk(s.t.issueRecords, s.remote.verdicts)
    requires RecordsMatchRewards(s.t.issueRecords, s.t.rewardRequests)
    requires id in s.t.issueRecords && s.t.issueRecords[id].voucherType == CRYPTO
    requires s.t.issueRecords[id].status == IssuedRecord
    ensures exists i | 0 <= i < |s.remote.credits| :: IsTheCredit(s, i, id)
  {
    var rec := s.t.issueRecords[id];
    assert Credited(s.remote.credits, rec.voucherId);
    var i :| 0 <= i < |s.remote.credits| && s.remote.credits[i].request.bizId == rec.voucherId;
    CreditAt(s.remote.credits, s.t, i);
    CreditOfVoucherIsOfTheRecord(s.t, s.remote.credits[i], id);
    CreditIsOfTheRecord(s.t, s.remote.credits[i], id);
    forall j | 0 <= j < |s.remote.credits| && s.remote.credits[j].rewardId == rec.rewardRequestId ensures j == i {
      CreditAt(s.remote.credits, s.t, j);
      CreditIsOfTheRecord(s.t, s.remote.credits[j], id);
      assert s.remote.credits[j].request.bizId == s.remote.credits[i].request.bizId;
    }
    assert IsTheCredit(s, i, id);
  }

  /** Credit i is the one credit of the record's reward request, to its user, in its unit, of its amount. */
  ghost predicate IsTheCredit(s: Sys, i: int, id: Id)
    requires 0 <= i < |s.remote.credits| && id in s.t.issueRecords
  {
    var rec := s.t.issueRecords[id];
    && AssetCodeFromUnit(rec.unit).Some?
    && s.remote.credits[i].rewardId == rec.rewardRequestId
    && s.remote.credits[i].request == RequestFor(SnapshotOf(rec), rec.rewardAmount)
    && forall j | 0 <= j < |s.remote.credits| && s.remote.credits[j].rewardId == rec.rewardRequestId :: j == i
  }

  lemma FailedIsNeverCredited(s: Sys, id: Id)
    requires RecordsUnique(s.t.issueRecords) && CreditsOk(s.remote.credits, s.t) && CreditsFollowVerdicts(s.remote)
    requires OutcomesOk(s.t.issueRecords, s.remote.verdicts)
    requires id in s.t.issueRecords && s.t.issueRecords[id].status == FailedRecord
    ensures forall i | 0 <= i < |s.remote.credits| ::
              s.remote.credits[i].rewardId != s.t.issueRecords[id].rewardRequestId
  {
    forall i | 0 <= i < |s.remote.credits|
      ensures s.remote.credits[i].rewardId != s.t.issueRecords[id].rewardRequestId
    {
      var c := s.remote.credits[i];
      CreditAt(s.remote.credits, s.t, i);
      if c.rewardId == s.t.issueRecords[id].rewardRequestId {
        CreditIsOfTheRecord(s.t, c, id);
      }
    }
  }

  /** With an asset service that decides once per BizId: a crypto record is ISSUED only if the user was
      credited exactly once for it, and any record is FAILED only if nothing was ever credited for it. */
  lemma RemoteAgreement(s: Sys, id: Id)
    requires IsReachable(s) && id in s.t.issueRecords
    ensures s.t.issueRecords[id].voucherType == CRYPTO && s.t.issueRecords[id].status == IssuedRecord ==>
              exists i | 0 <= i < |s.remote.credits| :: IsTheCredit(s, i, id)
    ensures s.t.issueRecords[id].status == FailedRecord ==>
              forall i | 0 <= i < |s.remote.credits| ::
                s.remote.credits[i].rewardId != s.t.issueRecords[id].rewardRequestId
  {
    ReachableIsOk(s);
    if s.t.issueRecords[id].voucherType == CRYPTO && s.t.issueRecords[id].status == IssuedRecord {
      IssuedIsCreditedOnce(s, id);
    }
    if s.t.issueRecords[id].status == FailedRecord {
      FailedIsNeverCredited(s, id);
    }
  }

  // ---- Requests and records in lockstep ----

  /** A reward request is completed exactly when its one record is terminal. */
  lemma LockstepOfRequestAndRecord(s: Sys, rewardId: Id)
    requires IsReachable(s) && rewardId in s.t.rewardRequests
    ensures s.t.rewardRequests[rewardId].status == CompletedReward <==>
            exists id :: id in s.t.issueRecords && s.t.issueRecords[id].rewardRequestId == rewardId
                         && Terminal(s.t.issueRecords[id])
    ensures forall i, j | i in s.t.issueRecords && j in s.t.issueRecords
                          && s.t.issueRecords[i].rewardRequestId == s.t.issueRecords[j].rewardRequestId :: i == j
  {
    ReachableIsOk(s);
    LockstepTables(s.t.issueRecords, s.t.rewardRequests, rewardId);
  }

  lemma LockstepTables(records: map<Id, IssueRecord>, rewards: map<Id, RewardRequest>, rewardId: Id)
    requires RecordsMatchRewards(records, rewards) && CompletedHaveRecords(rewards, records) && RecordsUnique(records)
    requires rewardId in rewards
    ensures rewards[rewardId].status == CompletedReward <==>
            exists id :: id in records && records[id].rewardRequestId == rewardId && Terminal(records[id])
    ensures forall i, j | i in records && j in records
                          && records[i].rewardRequestId == records[j].rewardRequestId :: i == j
  {
    if rewards[rewardId].status == CompletedReward {
      assert HasRecord(records, rewardId);
      var id :| id in records && records[id].rewardRequestId == rewardId;
      assert Terminal(records[id]);
    }
  }

  /** Terminal records, completed requests and the issue budget totals are final; rows never vanish. */
  lemma TerminalIsFinal(s: Sys, steps: seq<Step>)
    requires IsReachable(s)
    ensures var s' := Run(s, steps);
            && (forall id | id in s.t.issueRecords && Terminal(s.t.issueRecords[id]) ::
                  id in s'.t.issueRecords && s'.t.issueRecords[id] == s.t.issueRecords[id])
            && (forall r | r in s.t.rewardRequests && s.t.rewardRequests[r].status == CompletedReward ::
                  r in s'.t.rewardRequests && s'.t.rewardRequests[r] == s.t.rewardRequests[r])
            && (forall b | b in s.t.issueBudgets ::
                  b in s'.t.issueBudgets && s'.t.issueBudgets[b].total == s.t.issueBudgets[b].total)
  {
    ReachableIsOk(s);
    RunKeeps(s, steps);
    FinalRows(s.t, Run(s, steps).t);
  }

  lemma FinalRows(t: Tables, t': Tables)
    requires Evolves(t, t')
    ensures forall id | id in t.issueRecords && Terminal(t.issueRecords[id]) ::
              id in t'.issueRecords && t'.issueRecords[id] == t.issueRecords[id]
    ensures forall r | r in t.rewardRequests && t.rewardRequests[r].status == CompletedReward ::
              r in t'.rewardRequests && t'.rewardRequests[r] == t.rewardRequests[r]
    ensures forall b | b in t.issueBudgets ::
              b in t'.issueBudgets && t'.issueBudgets[b].total == t.issueBudgets[b].total
  {
  }

  /** In a reachable state the repair path finds the request completed already, and publishes nothing. */
  lemma RepairPathOnlyLoses(s: Sys, w: Id, e: Env)
    requires IsReachable(s) && WorkerAt(s, w).HasTerminalRecord?
    ensures Next(s, Advance(w, e)) == Goto(s, w, Idle)
  {
    hide IsReachable, Next, EnsureCompleted, TablesOk, Kept, WorkerOk, WorkersOk;
    ReachableIsOk(s);
    WorkerIsOk(s, w);
    RepairStep(s, w, e);
    RepairIsLocal(s, w, WorkerAt(s, w));
  }

  lemma RepairStep(s: Sys, w: Id, e: Env)
    requires WorkerAt(s, w).HasTerminalRecord?
    ensures Next(s, Advance(w, e)) == EnsureCompleted(s, w, WorkerAt(s, w))
  {
    hide EnsureCompleted;
  }

  // ---- Result events ----

  /** What an event says about the committed record. */
  ghost predicate EventAgrees(e: ResultEvent, rec: IssueRecord, rr: RewardRequest) {
    && e.clientRef == rr.clientRef && e.voucherId == rec.voucherId
    && (e.status == Distributed <==> rec.status == IssuedRecord)
    && (e.status == Distributed ==> e.amount == rr.amount && e.reason == "")
    && (e.status == DistributionFailed ==> rec.status == FailedRecord && e.amount == 0 && e.reason == rec.reason != "")
  }

  /** At most one result is published per reward request, and it tells the committed outcome. */
  lemma ResultEventSafety(s: Sys)
    requires IsReachable(s)
    ensures forall i, j | 0 <= i < j < |s.published| :: s.published[i].rewardId != s.published[j].rewardId
    ensures forall i | 0 <= i < |s.published| ::
              var p := s.published[i];
              && p.recordId in s.t.issueRecords && p.rewardId in s.t.rewardRequests
              && s.t.issueRecords[p.recordId].rewardRequestId == p.rewardId
              && s.t.rewardRequests[p.rewardId].status == CompletedReward
              && EventAgrees(p.event, s.t.issueRecords[p.recordId], s.t.rewardRequests[p.rewardId])
  {
    ReachableIsOk(s);
    EventsOfTables(s.published, s.t);
  }

  lemma EventsOfTables(published: seq<Publication>, t: Tables)
    requires PublishedOk(published, t) && PublishedOnce(published)
    requires RecordsMatchRewards(t.issueRecords, t.rewardRequests)
    ensures forall i, j | 0 <= i < j < |published| :: published[i].rewardId != published[j].rewardId
    ensures forall i | 0 <= i < |published| ::
              var p := published[i];
              && p.recordId in t.issueRecords && p.rewardId in t.rewardRequests
              && t.issueRecords[p.recordId].rewardRequestId == p.rewardId
              && t.rewardRequests[p.rewardId].status == CompletedReward
              && EventAgrees(p.event, t.issueRecords[p.recordId], t.rewardRequests[p.rewardId])
  {
    forall i | 0 <= i < |published|
      ensures var p := published[i];
              && p.recordId in t.issueRecords && p.rewardId in t.rewardRequests
              && t.issueRecords[p.recordId].rewardRequestId == p.rewardId
              && t.rewardRequests[p.rewardId].status == CompletedReward
              && EventAgrees(p.event, t.issueRecords[p.recordId], t.rewardRequests[p.rewardId])
    {
      assert PublicationOk(published[i], t);
      assert StatusFits(t.issueRecords[published[i].recordId], t.rewardRequests[published[i].rewardId].amount);
    }
  }

  /** Who publishes does so after the settling commit. */
  lemma PublishedAfterCommit(s: Sys, w: Id, e: Env)
    requires IsReachable(s)
    ensures var s' := Next(s, Advance(w, e));
            s'.published != s.published ==>
              && |s'.published| == |s.published| + 1
              && PublicationOk(s'.published[|s.published|], s.t)
  {
    hide IsReachable, Next, Publish, TablesOk, PublicationOk, WorkerOk, WorkersOk;
    ReachableIsOk(s);
    WorkerIsOk(s, w);
    if WorkerAt(s, w).Settled? {
      PublishStep(s, w, e);
      PublishFits(s.t, s.remote.verdicts, WorkerAt(s, w));
    } else {
      OnlySettledPublishes(s, w, e);
    }
  }

  lemma PublishStep(s: Sys, w: Id, e: Env)
    requires WorkerAt(s, w).Settled?
    ensures var c := WorkerAt(s, w);
            Next(s, Advance(w, e)).published
            == s.published + [Publication(c.rewardId, c.recordId, TerminalEvent(c.rr, c.rec))]
  {
    hide TerminalEvent;
  }

  lemma OnlySettledPublishes(s: Sys, w: Id, e: Env)
    requires !WorkerAt(s, w).Settled?
    ensures Next(s, Advance(w, e)).published == s.published
  {
  }

  // ---- Balance ----

  /** In every reachable state a project budget's total is what is available, withheld, issued, refunded
      and pre-occupied by pending records; no column is negative; the total is what has been paid in. */
  lemma ProjectBudgetConservation(s: Sys, id: Id)
    requires IsReachable(s) && id in s.t.projectBudgets
    ensures var b := s.t.projectBudgets[id];
            && b.available >= 0 && b.withhold >= 0 && b.issued >= 0 && b.refund >= 0
            && RecordSum(s.t.issueRecords, s.t.rewardRequests, BudgetKey(b), PreOccupied) >= 0
            && b.total == b.available + b.withhold + b.issued + b.refund
                          + RecordSum(s.t.issueRecords, s.t.rewardRequests, BudgetKey(b), PreOccupied)
            && b.refund == RecordSum(s.t.issueRecords, s.t.rewardRequests, BudgetKey(b), Refunded)
            && b.total == PaidSum(s.t.payments, s.t.configs, b.docId, PairOf(b))
  {
    ReachableIsOk(s);
    BudgetIsNonNegative(s.t.projectBudgets, s.t.issueRecords, s.t.rewardRequests, id);
    BudgetIsPaid(s.t, id);
    RewardAmounts(s.t.rewardRequests, s.t.projectBudgets);
    RecordSumIsNonNegative(s.t.issueRecords, s.t.rewardRequests, BudgetKey(s.t.projectBudgets[id]), PreOccupied);
  }

  lemma BudgetIsPaid(t: Tables, id: Id)
    requires BudgetsPaid(t.projectBudgets, t.payments, t.configs) && id in t.projectBudgets
    ensures t.projectBudgets[id].total
            == PaidSum(t.payments, t.configs, t.projectBudgets[id].docId, PairOf(t.projectBudgets[id]))
  {
  }

  lemma RewardAmounts(rewards: map<Id, RewardRequest>, budgets: map<Id, ProjectBudget>)
    requires RewardsFunded(rewards, budgets)
    ensures forall r | r in rewards :: rewards[r].amount >= 0
  {
  }

  /** In every reachable state an issue budget's total is what is available, issued, refunded and
      pre-occupied by the records charged to it, and no column is negative. */
  lemma IssueBudgetConservation(s: Sys, id: Id)
    requires IsReachable(s) && id in s.t.issueBudgets
    ensures var ib := s.t.issueBudgets[id];
            && ib.available >= 0 && ib.issued >= 0 && ib.refund >= 0
            && ib.issued == ChargeSum(s.t.issueRecords, s.t.rewardRequests, ib.issueRequestId, Issued)
            && ib.refund == ChargeSum(s.t.issueRecords, s.t.rewardRequests, ib.issueRequestId, Refunded)
            && ib.total == ib.available + ib.issued + ib.refund
                           + ChargeSum(s.t.issueRecords, s.t.rewardRequests, ib.issueRequestId, PreOccupied)
  {
    ReachableIsOk(s);
    IssueBudgetIsBalanced(s.t.issueBudgets, s.t.issueRecords, s.t.rewardRequests, id);
    RewardAmounts(s.t.rewardRequests, s.t.projectBudgets);
    var r := s.t.issueBudgets[id].issueRequestId;
    ChargeSumIsNonNegative(s.t.issueRecords, s.t.rewardRequests, r, Issued);
    ChargeSumIsNonNegative(s.t.issueRecords, s.t.rewardRequests, r, Refunded);
  }

  lemma IssueBudgetIsBalanced(m: map<Id, IssueBudget>, records: map<Id, IssueRecord>,
                              rewards: map<Id, RewardRequest>, id: Id)
    requires IssueBudgetsBalanced(m, records, rewards) && id in m
    ensures IssueBudgetBalanced(m[id], records, rewards)
  {
  }

  lemma ChargeSumIsNonNegative(records: map<Id, IssueRecord>, rewards: map<Id, RewardRequest>, r: Id, c: Column)
    requires forall i | i in rewards :: rewards[i].amount >= 0
    ensures ChargeSum(records, rewards, r, c) >= 0
  {
    var w := map i | i in records :: ChargeWeight(records[i], rewards, r, c);
    assert forall i | i in w :: w[i] >= 0;
    TotalBounds(w);
  }

  // ---- Issue budgets and ongoing requests ----

  /** An issue budget exists exactly for the ongoing requests, and only one. */
  lemma OneIssueBudgetPerOngoingRequest(s: Sys, id: Id)
    requires IsReachable(s) && id in s.t.issueRequests
    ensures s.t.issueRequests[id].status == Ongoing <==>
            exists b :: b in s.t.issueBudgets && s.t.issueBudgets[b].issueRequestId == id
    ensures forall a, b | a in s.t.issueBudgets && b in s.t.issueBudgets
                          && s.t.issueBudgets[a].issueRequestId == s.t.issueBudgets[b].issueRequestId :: a == b
  {
    ReachableIsOk(s);
    OngoingTables(s.t.issueRequests, s.t.issueBudgets, id);
  }

  lemma OngoingTables(requests: map<Id, IssueRequest>, m: map<Id, IssueBudget>, id: Id)
    requires IssueBudgetsOngoing(m, requests) && OngoingBudgeted(requests, m) && id in requests
    ensures requests[id].status == Ongoing <==> HasIssueBudget(m, id)
  {
  }

  lemma StartTouchesNoBudget(t: Tables, id: Id, first: Id, translated: bool)
    ensures forall b | b in t.issueBudgets ::
              b in StartIssueBudget(t, id, first, translated).issueBudgets
              && StartIssueBudget(t, id, first, translated).issueBudgets[b] == t.issueBudgets[b]
  {
  }

  lemma StartedIsNotApproved(t: Tables, id: Id, first: Id, translated: bool)
    requires id in t.issueRequests
    ensures var u := StartIssueBudget(t, id, first, translated);
            u != t ==> id in u.issueRequests && u.issueRequests[id].status == Ongoing
  {
  }

  /** Delivering the update event again changes nothing: no spent budget is ever reset. */
  lemma RedeliveryChangesNothing(t: Tables, id: Id, first: Id, second: Id, translated: bool)
    requires id in t.issueRequests
    ensures t.issueRequests[id].status != Approved ==> StartIssueBudget(t, id, first, translated) == t
    ensures var u := StartIssueBudget(t, id, first, translated);
            u != t ==> StartIssueBudget(u, id, second, translated) == u
    ensures forall b | b in t.issueBudgets ::
              b in StartIssueBudget(t, id, first, translated).issueBudgets
              && StartIssueBudget(t, id, first, translated).issueBudgets[b] == t.issueBudgets[b]
  {
    StartTouchesNoBudget(t, id, first, translated);
    StartedIsNotApproved(t, id, first, translated);
  }

  // ---- With harmless writes: what the columns mean, and what covers them ----

  /** Withhold is what awaits approval; issued is what was approved plus what was issued; refund is what
      was pre-occupied and failed. */
  lemma ColumnMeaning(s: Sys, id: Id)
    requires HarmlesslyReachable(s, ColumnSums) && id in s.t.projectBudgets
    ensures var b := s.t.projectBudgets[id]; var k := BudgetKey(b);
            && b.withhold == RequestSum(s.t.issueRequests, k, Withheld)
            && b.issued == RequestSum(s.t.issueRequests, k, Issued)
                           + RecordSum(s.t.issueRecords, s.t.rewardRequests, k, Issued)
            && b.refund == RecordSum(s.t.issueRecords, s.t.rewardRequests, k, Refunded)
  {
    HarmlesslyReachableMeans(s, ColumnSums);
    MeaningIn(s, id, ColumnSums);
  }

  lemma MeaningIn(s: Sys, id: Id, which: Promise)
    requires Inv(s) && TablesMean(s.t, which) && OnColumns(which) && id in s.t.projectBudgets
    ensures BudgetMeans(s.t.projectBudgets[id], s.t.issueRequests, s.t.issueRecords, s.t.rewardRequests, which)
    ensures BudgetBalanced(s.t.projectBudgets[id], s.t.issueRecords, s.t.rewardRequests)
  {
    BudgetIsNonNegative(s.t.projectBudgets, s.t.issueRecords, s.t.rewardRequests, id);
    BudgetIsMeant(s.t, id, which);
  }

  lemma BudgetIsMeant(t: Tables, id: Id, which: Promise)
    requires ColumnsMean(t, which) && id in t.projectBudgets
    ensures BudgetMeans(t.projectBudgets[id], t.issueRequests, t.issueRecords, t.rewardRequests, which)
  {
  }

  /** The withhold guard never refuses an approval or a rejection the status allows, as long as withhold
      covers what awaits one. */
  lemma WithholdGuardNeverRefuses(s: Sys, id: Id)
    requires HarmlesslyReachable(s, WithholdCover) && id in s.t.issueRequests
    ensures CanDecide(s.t, id, Approved) <==> s.t.issueRequests[id].status == ToApprove
    ensures CanDecide(s.t, id, Rejected) <==> s.t.issueRequests[id].status == ToApprove
  {
    hide HarmlesslyReachable;
    HarmlesslyReachableMeans(s, WithholdCover);
    if s.t.issueRequests[id].status == ToApprove {
      WithheldEnough(s.t, id);
    }
  }

  lemma WithheldEnough(t: Tables, id: Id)
    requires TablesOk(t) && ColumnsMean(t, WithholdCover) && id in t.issueRequests
    requires t.issueRequests[id].status == ToApprove
    ensures var b := ProjectBudgetFor(t, RequestKey(t.issueRequests[id]));
            b.Some? && t.projectBudgets[b.value].withhold >= t.issueRequests[id].amount
  {
    var k := RequestKey(t.issueRequests[id]);
    RequestIsFunded(t, id);
    LookupBudget(t, k);
    var b := ProjectBudgetFor(t, k).value;
    BudgetIsMeant(t, b, WithholdCover);
    RequestSumBounds(t.issueRequests, k, Withheld);
    assert RequestWeight(t.issueRequests[id], k, Withheld) == t.issueRequests[id].amount;
  }

  lemma RequestIsFunded(t: Tables, id: Id)
    requires ColumnsMean(t, WithholdCover) && id in t.issueRequests && t.issueRequests[id].status == ToApprove
    ensures HasBudget(t.projectBudgets, RequestKey(t.issueRequests[id]))
  {
  }

  /** A run that keeps the sums keeps the columns covering them. */
  lemma SumsAreCovers(configs: map<string, PayConfig>, steps: seq<Step>, which: Promise)
    requires HarmlessRun(Init(configs), steps, ColumnSums) && OnColumns(which)
    ensures HarmlessRun(Init(configs), steps, which)
  {
    hide Inv, Next, HarmlessRun, TablesMean;
    InitMeans(configs, ColumnSums);
    InitMeans(configs, which);
    InitIsOk(configs);
    RunKeepsMeaningExactlyWhenHarmless(Init(configs), steps, ColumnSums);
    RunKeepsMeaningExactlyWhenHarmless(Init(configs), steps, which);
    forall n | 0 <= n <= |steps| ensures TablesMean(Run(Init(configs), steps[..n]).t, which) {
      SumIsCover(Run(Init(configs), steps[..n]).t, which);
    }
  }

  lemma SumIsCover(t: Tables, which: Promise)
    requires OnColumns(which)
    ensures TablesMean(t, ColumnSums) ==> TablesMean(t, which)
  {
    if TablesMean(t, ColumnSums) {
      forall id | id in t.projectBudgets
        ensures BudgetMeans(t.projectBudgets[id], t.issueRequests, t.issueRecords, t.rewardRequests, which)
      {
        BudgetIsMeant(t, id, ColumnSums);
      }
    }
  }

  /** After any run, no column passes the total, and issued, pending and failed vouchers together stay within
      it. With approved allocations, they do as long as withhold and issued cover theirs; and the total stays
      within the approved amount of the one line the budget comes from as long as that line covers it. */
  lemma NoOverspend(s: Sys, id: Id)
    requires IsReachable(s) && id in s.t.projectBudgets
    ensures var b := s.t.projectBudgets[id]; var k := BudgetKey(b);
            && 0 <= b.available <= b.total && 0 <= b.withhold <= b.total && 0 <= b.issued <= b.total
            && 0 <= b.refund <= b.total
            && RecordSum(s.t.issueRecords, s.t.rewardRequests, k, Issued)
               + RecordSum(s.t.issueRecords, s.t.rewardRequests, k, PreOccupied)
               + RecordSum(s.t.issueRecords, s.t.rewardRequests, k, Refunded) <= b.total
    ensures HarmlesslyReachable(s, WithholdCover) && HarmlesslyReachable(s, IssuedCover) ==>
              Allocated(s.t, id) <= s.t.projectBudgets[id].total
    ensures HarmlesslyReachable(s, LineCover) ==>
              var b := s.t.projectBudgets[id]; b.docId in s.t.docs && DocCovers(s.t.docs[b.docId], s.t.configs, b)
  {
    hide HarmlesslyReachable, Allocated, DocCovers;
    ReachableIsOk(s);
    BalancedIn(s, id);
    if HarmlesslyReachable(s, WithholdCover) && HarmlesslyReachable(s, IssuedCover) { AllocatedIn(s, id); }
    if HarmlesslyReachable(s, LineCover) {
      HarmlesslyReachableMeans(s, LineCover);
      CoverIn(s, id);
    }
  }

  /** What is promised or spent of a budget: requests awaiting approval, approved and ongoing ones, and
      vouchers issued, pending and failed. */
  ghost function Allocated(t: Tables, id: Id): int
    requires id in t.projectBudgets
  {
    var k := BudgetKey(t.projectBudgets[id]);
    RequestSum(t.issueRequests, k, Withheld) + RequestSum(t.issueRequests, k, Issued)
    + RecordSum(t.issueRecords, t.rewardRequests, k, Issued)
    + RecordSum(t.issueRecords, t.rewardRequests, k, PreOccupied)
    + RecordSum(t.issueRecords, t.rewardRequests, k, Refunded)
  }

  lemma AllocatedIn(s: Sys, id: Id)
    requires HarmlesslyReachable(s, WithholdCover) && HarmlesslyReachable(s, IssuedCover) && id in s.t.projectBudgets
    ensures Allocated(s.t, id) <= s.t.projectBudgets[id].total
  {
    hide HarmlesslyReachable, RequestSum, RecordSum;
    HarmlesslyReachableMeans(s, WithholdCover);
    HarmlesslyReachableMeans(s, IssuedCover);
    MeaningIn(s, id, WithholdCover);
    MeaningIn(s, id, IssuedCover);
  }

  lemma BalancedIn(s: Sys, id: Id)
    requires Inv(s) && id in s.t.projectBudgets
    ensures BudgetBalanced(s.t.projectBudgets[id], s.t.issueRecords, s.t.rewardRequests)
    ensures RecordSum(s.t.issueRecords, s.t.rewardRequests, BudgetKey(s.t.projectBudgets[id]), PreOccupied) >= 0
  {
    BudgetIsNonNegative(s.t.projectBudgets, s.t.issueRecords, s.t.rewardRequests, id);
    RewardAmounts(s.t.rewardRequests, s.t.projectBudgets);
    RecordSumIsNonNegative(s.t.issueRecords, s.t.rewardRequests, BudgetKey(s.t.projectBudgets[id]), PreOccupied);
  }

  lemma CoverIn(s: Sys, id: Id)
    requires TablesMean(s.t, LineCover) && id in s.t.projectBudgets
    ensures var b := s.t.projectBudgets[id]; b.docId in s.t.docs && DocCovers(s.t.docs[b.docId], s.t.configs, b)
  {
  }

  /** The issue budget is over the amount and pair of its request, which is ongoing. */
  ghost predicate Matches(t: Tables, ib: IssueBudget) {
    && ib.issueRequestId in t.issueRequests
    && var r := t.issueRequests[ib.issueRequestId];
       r.status == Ongoing && ib.total == r.amount && ib.voucherType == r.voucherType && ib.unit == r.unit
  }

  lemma MatchTables(t: Tables)
    requires TablesOk(t)
    ensures TablesMean(t, IssueBudgetMatch) <==> forall id | id in t.issueBudgets :: Matches(t, t.issueBudgets[id])
  {
    OngoingIssueBudgets(t);
    hide TablesOk;
    if forall id | id in t.issueBudgets :: Matches(t, t.issueBudgets[id]) {
      forall id | id in t.issueBudgets && t.issueBudgets[id].issueRequestId in t.issueRequests
        ensures t.issueRequests[t.issueBudgets[id].issueRequestId].amount == t.issueBudgets[id].total
      {
        assert Matches(t, t.issueBudgets[id]);
      }
    }
  }

  lemma OngoingIssueBudgets(t: Tables)
    requires TablesOk(t)
    ensures IssueBudgetsOngoing(t.issueBudgets, t.issueRequests)
  {
  }

  /** An issue budget keeps the amount and pair of the request it was created from. */
  lemma IssueBudgetMatchesRequest(s: Sys, id: Id)
    requires HarmlesslyReachable(s, IssueBudgetMatch) && id in s.t.issueBudgets
    ensures Matches(s.t, s.t.issueBudgets[id])
  {
    hide HarmlesslyReachable, TablesMean, TablesOk;
    HarmlesslyReachableMeans(s, IssueBudgetMatch);
    MatchTables(s.t);
  }

  /** The runs in which every issue budget always matches its request are exactly those in which no late edit
      changes an ongoing request. */
  lemma IssueBudgetsMatchExactlyInHarmlessRuns(configs: map<string, PayConfig>, steps: seq<Step>)
    ensures HarmlessRun(Init(configs), steps, IssueBudgetMatch) <==>
            forall n | 0 <= n <= |steps| :: AllMatch(StateAt(configs, steps, n).t)
  {
    hide Inv, Next, HarmlessRun, TablesMean, AllMatch;
    InitMeans(configs, IssueBudgetMatch);
    InitIsOk(configs);
    RunKeepsMeaningExactlyWhenHarmless(Init(configs), steps, IssueBudgetMatch);
    forall n | 0 <= n <= |steps|
      ensures AllMatch(StateAt(configs, steps, n).t) <==>
              TablesMean(Run(Init(configs), steps[..n]).t, IssueBudgetMatch)
    {
      RunIsReachable(configs, steps[..n]);
      MatchIn(Run(Init(configs), steps[..n]));
    }
  }

  ghost predicate AllMatch(t: Tables) {
    forall id | id in t.issueBudgets :: Matches(t, t.issueBudgets[id])
  }

  lemma MatchIn(s: Sys)
    requires IsReachable(s)
    ensures AllMatch(s.t) <==> TablesMean(s.t, IssueBudgetMatch)
  {
    hide IsReachable, TablesMean, TablesOk;
    ReachableIsOk(s);
    MatchTables(s.t);
  }

  // ---- Rejection undoes submission ----

  lemma PutBack<K, V>(m: map<K, V>, k: K, x: V)
    requires k in m
    ensures m[k := x][k := m[k]] == m
  {
  }

  lemma PutTwice<K, V>(m: map<K, V>, k: K, x: V, y: V)
    ensures m[k := x][k := y] == m[k := y]
  {
  }

  lemma WithholdIsNonNegative(t: Tables, id: Id)
    requires BudgetsBalanced(t.projectBudgets, t.issueRecords, t.rewardRequests) && id in t.projectBudgets
    ensures t.projectBudgets[id].withhold >= 0
  {
    BudgetIsNonNegative(t.projectBudgets, t.issueRecords, t.rewardRequests, id);
  }

  /** Submitting and then rejecting restores every budget row. */
  lemma RejectUndoesSubmit(t: Tables, id: Id)
    requires CanSubmit(t, id) && RequestAmounts(t.issueRequests)
    requires BudgetsBalanced(t.projectBudgets, t.issueRecords, t.rewardRequests)
    ensures CanDecide(Submit(t, id), id, Rejected)
    ensures Reject(Submit(t, id), id)
            == t.(issueRequests := t.issueRequests[id := t.issueRequests[id].(status := Rejected)])
  {
    var r := t.issueRequests[id];
    var budgetId := ProjectBudgetFor(t, RequestKey(r)).value;
    var u := Submit(t, id);
    WithholdIsNonNegative(t, budgetId);
    hide BudgetsBalanced, ProjectBudgetFor;
    SameLookup(t, u, budgetId, RequestKey(r));
    var b := t.projectBudgets[budgetId];
    PutBack(t.projectBudgets, budgetId, u.projectBudgets[budgetId]);
    PutTwice(t.issueRequests, id, u.issueRequests[id], r.(status := Rejected));
    assert u.projectBudgets[budgetId]
           == b.(available := b.available - r.amount, withhold := b.withhold + r.amount);
  }

  /** Changing the columns of a row does not change which row a key finds. */
  lemma SameLookup(t: Tables, u: Tables, budgetId: Id, k: Key)
    requires ProjectBudgetFor(t, k) == Some(budgetId)
    requires u.projectBudgets.Keys == t.projectBudgets.Keys
    requires forall i | i in t.projectBudgets :: BudgetKey(u.projectBudgets[i]) == BudgetKey(t.projectBudgets[i])
    ensures ProjectBudgetFor(u, k) == Some(budgetId)
  {
    assert BudgetKey(u.projectBudgets[budgetId]) == k;
  }

  /** A request in draft or rejected contributes to no column, whatever it went through: every budget row
      reads as if the request did not exist. */
  lemma EditableRequestsContributeNothing(s: Sys, r: Id, id: Id)
    requires HarmlesslyReachable(s, ColumnSums) && id in s.t.projectBudgets
    requires r in s.t.issueRequests && Editable(s.t.issueRequests[r].status)
    ensures var b := s.t.projectBudgets[id]; var k := BudgetKey(b); var others := s.t.issueRequests - {r};
            && b.withhold == RequestSum(others, k, Withheld)
            && b.issued == RequestSum(others, k, Issued) + RecordSum(s.t.issueRecords, s.t.rewardRequests, k, Issued)
            && b.refund == RecordSum(s.t.issueRecords, s.t.rewardRequests, k, Refunded)
            && b.available == b.total - RequestSum(others, k, Withheld) - RequestSum(others, k, Issued)
                              - RecordSum(s.t.issueRecords, s.t.rewardRequests, k, Issued)
                              - RecordSum(s.t.issueRecords, s.t.rewardRequests, k, Refunded)
                              - RecordSum(s.t.issueRecords, s.t.rewardRequests, k, PreOccupied)
  {
    HarmlesslyReachableMeans(s, ColumnSums);
    MeaningIn(s, id, ColumnSums);
    var k := BudgetKey(s.t.projectBudgets[id]);
    WithoutWeightless(s.t.issueRequests, r, k, Withheld);
    WithoutWeightless(s.t.issueRequests, r, k, Issued);
  }

  lemma WithoutWeightless(requests: map<Id, IssueRequest>, r: Id, k: Key, c: Column)
    requires r in requests && Editable(requests[r].status)
    ensures RequestSum(requests - {r}, k, c) == RequestSum(requests, k, c)
  {
    var rest := requests - {r};
    assert rest[r := requests[r]] == requests;
    RequestSumAfterPut(rest, r, requests[r], k, c);
  }

  // ---- Funding ----

  /** The budget rests on one line of its approved doc, and all payments behind it went to that address. */
  ghost predicate PaidThroughOneLine(t: Tables, b: ProjectBudget) {
    && b.docId in t.docs && t.docs[b.docId].status == Approved
    && exists i | 0 <= i < |t.docs[b.docId].detail| ::
         && LineCovers(t.docs[b.docId].detail[i], t.configs, b)
         && forall p | p in t.payments && PaysFor(t.payments[p], t.configs, b.docId, PairOf(b)) ::
              t.payments[p].address == Address(t.docs[b.docId].detail[i])
  }

  ghost predicate AllPaidThroughOneLine(t: Tables) {
    forall id | id in t.projectBudgets :: PaidThroughOneLine(t, t.projectBudgets[id])
  }

  lemma OneLineMeansOnDetail(t: Tables, p: string)
    requires PaymentsHaveBudgets(t.payments, t.projectBudgets, t.configs) && AllPaidThroughOneLine(t) && p in t.payments
    ensures OnDetail(t.payments[p], t.docs)
  {
    var pair := t.configs[t.payments[p].address];
    assert HasDocBudget(t.projectBudgets, t.payments[p].docId, pair);
    var id :| id in t.projectBudgets && t.projectBudgets[id].docId == t.payments[p].docId
              && PairOf(t.projectBudgets[id]) == pair;
    assert PaidThroughOneLine(t, t.projectBudgets[id]);
  }

  lemma OneLineMeansCovered(t: Tables)
    requires AllPaidThroughOneLine(t)
    ensures BudgetsCovered(t.projectBudgets, t.docs, t.configs)
  {
    forall id | id in t.projectBudgets ensures Covered(t.projectBudgets[id], t.docs, t.configs) {
      assert PaidThroughOneLine(t, t.projectBudgets[id]);
    }
  }

  lemma OneLineMeansCovers(t: Tables)
    requires TablesOk(t) && AllPaidThroughOneLine(t)
    ensures TablesMean(t, LineCover) && TablesMean(t, PaymentCover)
  {
    hide TablesOk, AllPaidThroughOneLine, OnDetail, DocsAcceptable, PaymentsHaveBudgets, BudgetsCovered;
    DocsAndPayments(t);
    OneLineMeansCovered(t);
    forall p | p in t.payments ensures OnDetail(t.payments[p], t.docs) {
      OneLineMeansOnDetail(t, p);
    }
  }

  lemma CoversMeanOneLines(t: Tables)
    requires TablesOk(t) && TablesMean(t, LineCover) && TablesMean(t, PaymentCover)
    ensures AllPaidThroughOneLine(t)
  {
    hide TablesOk, PaidThroughOneLine, DocsAcceptable, PaymentsHaveBudgets, BudgetsCovered, PaymentsOnDetail;
    DocsAndPayments(t);
    forall id | id in t.projectBudgets ensures PaidThroughOneLine(t, t.projectBudgets[id]) {
      OneAddressTables(t, id);
    }
  }

  lemma DocsAndPayments(t: Tables)
    requires TablesOk(t)
    ensures DocsAcceptable(t.docs, t.configs) && PaymentsHaveBudgets(t.payments, t.projectBudgets, t.configs)
  {
  }

  /** Both covers together say just this of every budget. */
  lemma CoversMeanOneLine(t: Tables)
    requires TablesOk(t)
    ensures AllPaidThroughOneLine(t) <==> TablesMean(t, LineCover) && TablesMean(t, PaymentCover)
  {
    hide TablesOk, AllPaidThroughOneLine, TablesMean;
    if AllPaidThroughOneLine(t) { OneLineMeansCovers(t); }
    if TablesMean(t, LineCover) && TablesMean(t, PaymentCover) { CoversMeanOneLines(t); }
  }

  /** All payments behind a budget went to the one address of its doc whose configuration maps to its pair. */
  lemma FundedThroughOneAddress(s: Sys, id: Id)
    requires HarmlesslyReachable(s, LineCover) && HarmlesslyReachable(s, PaymentCover) && id in s.t.projectBudgets
    ensures PaidThroughOneLine(s.t, s.t.projectBudgets[id])
  {
    hide HarmlesslyReachable, PaidThroughOneLine, TablesMean, TablesOk;
    HarmlesslyReachableMeans(s, LineCover);
    HarmlesslyReachableMeans(s, PaymentCover);
    CoversMeanOneLine(s.t);
  }

  /** The state of a run after n steps. */
  function StateAt(configs: map<string, PayConfig>, steps: seq<Step>, n: int): Sys
    requires 0 <= n <= |steps|
  {
    Run(Init(configs), steps[..n])
  }

  /** The runs in which no budget ever passes its approved line are exactly those whose late writes are
      harmless to it. */
  lemma CapHoldsExactlyInHarmlessRuns(configs: map<string, PayConfig>, steps: seq<Step>)
    ensures HarmlessRun(Init(configs), steps, LineCover) <==>
            forall n, id | 0 <= n <= |steps| && id in StateAt(configs, steps, n).t.projectBudgets ::
              var t := StateAt(configs, steps, n).t; var b := t.projectBudgets[id];
              b.docId in t.docs && DocCovers(t.docs[b.docId], t.configs, b)
  {
    hide Next, HarmlessRun, DocCovers;
    InitMeans(configs, LineCover);
    InitIsOk(configs);
    RunKeepsMeaningExactlyWhenHarmless(Init(configs), steps, LineCover);
    if MeansThroughout(Init(configs), steps, LineCover) {
      forall n | 0 <= n <= |steps| ensures TablesMean(StateAt(configs, steps, n).t, LineCover) {
      }
    } else {
      var n :| 0 <= n <= |steps| && !TablesMean(Run(Init(configs), steps[..n]).t, LineCover);
      assert !TablesMean(StateAt(configs, steps, n).t, LineCover);
    }
  }

  /** The runs in which every budget always rests on one approved line, with all its payments behind it, are
      exactly those whose late writes are harmless to both covers. */
  lemma OneAddressExactlyInHarmlessRuns(configs: map<string, PayConfig>, steps: seq<Step>)
    ensures HarmlessRun(Init(configs), steps, LineCover) && HarmlessRun(Init(configs), steps, PaymentCover) <==>
            forall n | 0 <= n <= |steps| :: AllPaidThroughOneLine(StateAt(configs, steps, n).t)
  {
    hide Inv, Next, HarmlessRun, TablesMean, AllPaidThroughOneLine;
    InitMeans(configs, LineCover);
    InitMeans(configs, PaymentCover);
    InitIsOk(configs);
    RunKeepsMeaningExactlyWhenHarmless(Init(configs), steps, LineCover);
    RunKeepsMeaningExactlyWhenHarmless(Init(configs), steps, PaymentCover);
    forall n | 0 <= n <= |steps|
      ensures AllPaidThroughOneLine(StateAt(configs, steps, n).t) <==>
              TablesMean(Run(Init(configs), steps[..n]).t, LineCover)
              && TablesMean(Run(Init(configs), steps[..n]).t, PaymentCover)
    {
      RunIsReachable(configs, steps[..n]);
      OneLineIn(Run(Init(configs), steps[..n]));
    }
  }

  lemma OneLineIn(s: Sys)
    requires IsReachable(s)
    ensures AllPaidThroughOneLine(s.t) <==> TablesMean(s.t, LineCover) && TablesMean(s.t, PaymentCover)
  {
    hide IsReachable, TablesMean, TablesOk, AllPaidThroughOneLine;
    ReachableIsOk(s);
    CoversMeanOneLine(s.t);
  }

  lemma CoveringLine(t: Tables, id: Id) returns (i: int)
    requires BudgetsCovered(t.projectBudgets, t.docs, t.configs) && id in t.projectBudgets
    ensures t.projectBudgets[id].docId in t.docs
    ensures 0 <= i < |t.docs[t.projectBudgets[id].docId].detail|
            && LineCovers(t.docs[t.projectBudgets[id].docId].detail[i], t.configs, t.projectBudgets[id])
  {
    var detail := t.docs[t.projectBudgets[id].docId].detail;
    i :| 0 <= i < |detail| && LineCovers(detail[i], t.configs, t.projectBudgets[id]);
  }

  lemma PaymentAt(t: Tables, p: string)
    requires PaymentsOnDetail(t.payments, t.docs) && p in t.payments
    ensures OnDetail(t.payments[p], t.docs)
  {
  }

  lemma OneAddressTables(t: Tables, id: Id)
    requires BudgetsCovered(t.projectBudgets, t.docs, t.configs) && DocsAcceptable(t.docs, t.configs)
    requires PaymentsOnDetail(t.payments, t.docs) && id in t.projectBudgets
    ensures PaidThroughOneLine(t, t.projectBudgets[id])
  {
    var b := t.projectBudgets[id];
    var i := CoveringLine(t, id);
    DocIsAcceptable(t.docs, t.configs, b.docId);
    forall p | p in t.payments && PaysFor(t.payments[p], t.configs, b.docId, PairOf(b))
      ensures t.payments[p].address == Address(t.docs[b.docId].detail[i])
    {
      PaymentAt(t, p);
      PaymentGoesToTheLine(t, t.payments[p], b, i);
    }
  }

  lemma PaymentGoesToTheLine(t: Tables, p: FinancePayment, b: ProjectBudget, i: int)
    requires OnDetail(p, t.docs) && PaysFor(p, t.configs, b.docId, PairOf(b)) && b.docId in t.docs
    requires Acceptable(t.configs, t.docs[b.docId].detail)
    requires 0 <= i < |t.docs[b.docId].detail| && LineCovers(t.docs[b.docId].detail[i], t.configs, b)
    ensures p.address == Address(t.docs[b.docId].detail[i])
  {
    var detail := t.docs[b.docId].detail;
    var j :| 0 <= j < |detail| && Address(detail[j]) == p.address;
    LinesOfOnePair(t.configs, detail, i, j);
  }

  lemma LinesOfOnePair(configs: map<string, PayConfig>, detail: seq<DetailLine>, i: int, j: int)
    requires Acceptable(configs, detail) && 0 <= i < |detail| && 0 <= j < |detail|
    requires Address(detail[i]) in configs && Address(detail[j]) in configs
    requires configs[Address(detail[i])] == configs[Address(detail[j])]
    ensures i == j
  {
    assert TextAt(configs, detail, i) == TextAt(configs, detail, j);
  }
}
