/** Executing a reward distribution: the service's control flow, statement by statement, in the midst of
    whatever other workers do. Every path through it is a path of the state machine. */
module DistributionService {
  import opened Database
  import opened Interleaving
  import opened Ledger
  import opened Reachable
  import opened Schema
  import opened SystemInvariant
  import opened SystemSteps
  import opened Transactions
  import V = VoucherIssuer
  import opened Workers
  import opened Wrappers

  /** How a call ends. The first two are both a nil error. */
  datatype Outcome =
    | Skipped
    | Published
    | Deferred
    | Retry
    | Failed(error: Error)

  // ---- Why a call ends the way it does ----

  predicate BothCover(t: Tables, budgetId: Id, issueBudgetId: Id, amount: int) {
    && budgetId in t.projectBudgets && t.projectBudgets[budgetId].available >= amount
    && issueBudgetId in t.issueBudgets && t.issueBudgets[issueBudgetId].available >= amount
  }

  /** A row the retry path reads again by its id is not there, or names no issue request. */
  predicate RowGone(t: Tables, c: Worker) {
    || (c.HasPendingRecord? && (c.recordId !in t.issueRecords || t.issueRecords[c.recordId].issueRequestId.None?))
    || (c.RereadBudget? && c.budgetId !in t.projectBudgets)
    || (c.ReadyToIssue? && c.issueBudgetId !in t.issueBudgets)
  }

  /** The state in which the ending was decided. */
  ghost predicate Reason(s: Sys, w: Id, rewardId: Id, e: Env, o: Outcome) {
    var c := WorkerAt(s, w);
    match o
    case Skipped => !IsPending(s.t, rewardId)
    case Published => c.Settled? && c.rewardId == rewardId
    case Deferred =>
      c.HasProjectBudget? && c.rewardId == rewardId
      && forall id :: !Fits(s.t, id, RewardKey(c.rr), c.rr.amount)
    case Retry =>
      c.ReadyToIssue? && c.rewardId == rewardId
      && V.Issue(e.clientReady, SnapshotOf(c.rec), ReplyOf(RemoteAfter(s, c, e), c.rec.voucherId, e)).Transient?
    case Failed(error) =>
      match error
      case DriverError => true
      case Rejected => rewardId <= 0
      case NotFound => RowGone(s.t, c) && c.rewardId == rewardId
      case Insufficient =>
        c.HasBudgets? && c.rewardId == rewardId && !BothCover(s.t, c.budgetId, c.issueBudgetId, c.rr.amount)
      case DuplicateKey =>
        || (c.HasBudgets? && c.rewardId == rewardId && c.issueBudgetId in s.t.issueBudgets
            && !RecordInsertable(s.t, e.newId, PendingRecordFor(
                 rewardId, c.rr, s.t.issueBudgets[c.issueBudgetId].issueRequestId, e.voucherId)))
        || (c.RiskRefused? && c.rewardId == rewardId
            && !RecordInsertable(s.t, e.newId, RiskFailureRecord(rewardId, c.rr, e.voucherId, c.reason)))
      case InvalidTransition => !IsPending(s.t, rewardId)
  }

  /** Somewhere in the steps from `from` on is the reason; a published result is published right there. */
  ghost predicate Explained(start: Sys, trace: seq<Step>, from: nat, w: Id, rewardId: Id, e: Env, o: Outcome) {
    exists i :: ReasonAt(start, trace, from, w, rewardId, e, o, i)
  }

  ghost predicate ReasonAt(start: Sys, trace: seq<Step>, from: nat, w: Id, rewardId: Id, e: Env, o: Outcome, i: int) {
    && from <= i <= |trace|
    && Reason(Run(start, trace[..i]), w, rewardId, e, o)
    && (o.Published? || o.Retry? ==> i < |trace| && trace[i] == Advance(w, e))
  }

  lemma ReasonNow(start: Sys, before: seq<Step>, trace: seq<Step>, from: nat, w: Id, rewardId: Id, e: Env, o: Outcome)
    requires from <= |before| && before <= trace && Reason(Run(start, before), w, rewardId, e, o)
    requires o.Published? || o.Retry? ==> |before| < |trace| && trace[|before|] == Advance(w, e)
    ensures Explained(start, trace, from, w, rewardId, e, o)
  {
    assert trace[..|before|] == before;
    assert ReasonAt(start, trace, from, w, rewardId, e, o, |before|);
  }

  lemma ReasonEarlier(start: Sys, trace: seq<Step>, from: nat, early: nat, w: Id, rewardId: Id, e: Env, o: Outcome)
    requires early <= from && Explained(start, trace, from, w, rewardId, e, o)
    ensures Explained(start, trace, early, w, rewardId, e, o)
  {
    var i :| ReasonAt(start, trace, from, w, rewardId, e, o, i);
    assert ReasonAt(start, trace, early, w, rewardId, e, o, i);
  }

  // ---- Transactions ----

  predicate DebitRefused(t: Tables, budgetId: Id, issueBudgetId: Id, amount: int, newId: Id, rec: IssueRecord,
                         faults: set<nat>, err: Error)
  {
    || (err == DriverError && faults != {})
    || (err == Insufficient && !BothCover(t, budgetId, issueBudgetId, amount))
    || (err == DuplicateKey && !RecordInsertable(t, newId, rec))
  }

  method PreOccupyInTx(db: Db, budgetId: Id, issueBudgetId: Id, amount: int, newId: Id, rec: IssueRecord,
                       faults: set<nat>)
    returns (err: Option<Error>)
    modifies db
    ensures err.None? <==>
              {10, 11, 12} !! faults && CanPreOccupy(old(db.View()), budgetId, issueBudgetId, amount, newId, rec)
    ensures err.Some? ==> DebitRefused(old(db.View()), budgetId, issueBudgetId, amount, newId, rec, faults, err.value)
    ensures err.None? ==> db.View() == PreOccupy(old(db.View()), budgetId, issueBudgetId, amount, newId, rec)
  {
    err := db.DeductProjectBudget(budgetId, amount, 10 in faults);
    if err.Some? { return; }
    err := db.DeductIssueBudget(issueBudgetId, amount, 11 in faults);
    if err.Some? { return; }
    err := db.CreateRecord(newId, rec, 12 in faults);
  }

  /** Both budgets and the record change, or nothing does. */
  method PreOccupyBudget(db: Db, budgetId: Id, issueBudgetId: Id, amount: int, newId: Id, rec: IssueRecord,
                         faults: set<nat>)
    returns (err: Option<Error>)
    modifies db
    ensures err.None? <==>
              {10, 11, 12, 13} !! faults && CanPreOccupy(old(db.View()), budgetId, issueBudgetId, amount, newId, rec)
    ensures err.Some? ==> DebitRefused(old(db.View()), budgetId, issueBudgetId, amount, newId, rec, faults, err.value)
    ensures db.View() == if err.None? then PreOccupy(old(db.View()), budgetId, issueBudgetId, amount, newId, rec)
                         else old(db.View())
  {
    var snapshot := db.View();
    err := PreOccupyInTx(db, budgetId, issueBudgetId, amount, newId, rec, faults);
    err := Finish(db, snapshot, err, 13 in faults);
  }

  /** The outcome's budgets: issued on both, or refunded on both. */
  method ApplyOutcomeBudgets(db: Db, budgetId: Id, issueBudgetId: Id, amount: int, success: bool, faults: set<nat>)
    returns (err: Option<Error>)
    modifies db`projectBudgets, db`issueBudgets
    ensures err.None? <==> {10, 11} !! faults
    ensures err.Some? ==> err.value == DriverError
    ensures err.None? ==>
              && db.projectBudgets == Shifted(old(db.projectBudgets), budgetId, 0, 0, 0,
                                              if success then amount else 0, if success then 0 else amount)
              && db.issueBudgets == ShiftedIssue(old(db.issueBudgets), issueBudgetId, 0,
                                                 if success then amount else 0, if success then 0 else amount)
  {
    if success {
      err := db.IssueFromProjectBudget(budgetId, amount, 10 in faults);
      if err.Some? { return; }
      err := db.IssueFromIssueBudget(issueBudgetId, amount, 11 in faults);
    } else {
      err := db.RefundToProjectBudget(budgetId, amount, 10 in faults);
      if err.Some? { return; }
      err := db.RefundToIssueBudget(issueBudgetId, amount, 11 in faults);
    }
  }

  method FinalizeInTx(db: Db, budgetId: Id, issueBudgetId: Id, amount: int, success: bool,
                      recordId: Id, rec: IssueRecord, rewardId: Id, faults: set<nat>)
    returns (err: Option<Error>)
    modifies db
    ensures err.None? <==> {10, 11, 12, 13} !! faults && IsPending(old(db.View()), rewardId)
    ensures err.Some? ==> err.value == if {10, 11, 12, 13} !! faults then InvalidTransition else DriverError
    ensures err.None? ==>
              db.View() == Finalize(old(db.View()), budgetId, issueBudgetId, amount, success, recordId, rec, rewardId)
  {
    err := ApplyOutcomeBudgets(db, budgetId, issueBudgetId, amount, success, faults);
    if err.Some? { return; }
    err := db.SaveRecord(recordId, rec, 12 in faults);
    if err.Some? { return; }
    err := db.CompleteReward(rewardId, 13 in faults);
  }

  /** All four rows change, or none does; who loses the compare-and-set changes nothing. */
  method FinalizeBudgets(db: Db, budgetId: Id, issueBudgetId: Id, amount: int, success: bool,
                         recordId: Id, rec: IssueRecord, rewardId: Id, faults: set<nat>)
    returns (err: Option<Error>)
    modifies db
    ensures err.None? <==> {10, 11, 12, 13, 14} !! faults && IsPending(old(db.View()), rewardId)
    ensures err == Some(InvalidTransition) <==> {10, 11, 12, 13} !! faults && !IsPending(old(db.View()), rewardId)
    ensures err.Some? ==> err.value == DriverError || err.value == InvalidTransition
    ensures err == Some(DriverError) ==> faults != {}
    ensures db.View() == if err.None?
                         then Finalize(old(db.View()), budgetId, issueBudgetId, amount, success, recordId, rec,
                                       rewardId)
                         else old(db.View())
  {
    var snapshot := db.View();
    err := FinalizeInTx(db, budgetId, issueBudgetId, amount, success, recordId, rec, rewardId, faults);
    err := Finish(db, snapshot, err, 14 in faults);
  }

  method RecordRiskFailure(db: Db, newId: Id, rec: IssueRecord, faults: set<nat>) returns (err: Option<Error>)
    modifies db
    ensures err.None? <==> {10, 11, 12} !! faults && RecordInsertable(old(db.View()), newId, rec)
                           && IsPending(old(db.View()), rec.rewardRequestId)
    ensures err.Some? ==>
              || (err.value == DriverError && faults != {})
              || (err.value == DuplicateKey && !RecordInsertable(old(db.View()), newId, rec))
              || (err.value == InvalidTransition && !IsPending(old(db.View()), rec.rewardRequestId))
    ensures db.View() == if err.None? then FailAtRisk(old(db.View()), newId, rec) else old(db.View())
  {
    var snapshot := db.View();
    err := db.CreateRecord(newId, rec, 10 in faults);
    if err.None? {
      err := db.CompleteReward(rec.rewardRequestId, 11 in faults);
    }
    err := Finish(db, snapshot, err, 12 in faults);
  }

  // ---- What the machine does from each place ----

  /** One step of a worker is what is written for the place it is at. */
  lemma AdvanceIs(s: Sys, w: Id, c: Worker, e: Env)
    requires WorkerAt(s, w) == c
    ensures Next(s, Advance(w, e)) ==
            match c
            case HasRequest(_, _) => ReadRecord(s, w, c)
            case NoRecordYet(_, _) => CheckRisk(s, w, c, e)
            case RiskRefused(_, _, _) => CommitRiskFailure(s, w, c, e)
            case RiskPassed(_, _) => FindProjectBudget(s, w, c)
            case HasProjectBudget(_, _, _) => FindIssueBudget(s, w, c)
            case HasBudgets(_, _, _, _) => CommitPreOccupy(s, w, c, e)
            case HasTerminalRecord(_, _, _, _) => EnsureCompleted(s, w, c)
            case HasPendingRecord(_, _, _) => RereadRecord(s, w, c)
            case Reread(_, _, _, _) => RefindProjectBudget(s, w, c)
            case RereadBudget(_, _, _, _, _) => RefindIssueBudget(s, w, c)
            case ReadyToIssue(_, _, _, _, _, _) => CallDownstream(s, w, c, e)
            case Answered(_, _, _, _, _, _, _, _) => CommitFinalize(s, w, c)
            case Settled(_, _, _, _) => Publish(s, w, c)
            case BudgetGone(rewardId) => Goto(s.(t := Complete(s.t, rewardId)), w, Idle)
            case _ => AdvanceWorker(s, w, c, e)
  {
  }

  lemma FinalizeMoves(s: Sys, w: Id, c: Worker, e: Env, rec: IssueRecord)
    requires WorkerAt(s, w) == c && c.Answered? && rec == WithOutcome(c.rec, c.rr.amount, c.success, c.reason)
    ensures var s' := Next(s, Advance(w, e));
            if IsPending(s.t, c.rewardId) then
              && s'.t == Finalize(s.t, c.budgetId, c.issueBudgetId, c.rr.amount, c.success, c.recordId, rec, c.rewardId)
              && WorkerAt(s', w) == Settled(c.rewardId, c.rr, c.recordId, rec)
            else s'.t == s.t && WorkerAt(s', w) == Idle
  {
    AdvanceIs(s, w, c, e);
    hide Finalize, Next;
  }

  lemma RiskMoves(s: Sys, w: Id, c: Worker, e: Env, rec: IssueRecord)
    requires WorkerAt(s, w) == c && c.RiskRefused?
    requires rec == RiskFailureRecord(c.rewardId, c.rr, e.voucherId, c.reason)
    requires RecordInsertable(s.t, e.newId, rec) && IsPending(s.t, c.rewardId)
    ensures var s' := Next(s, Advance(w, e));
            s'.t == FailAtRisk(s.t, e.newId, rec) && WorkerAt(s', w) == Settled(c.rewardId, c.rr, e.newId, rec)
  {
    AdvanceIs(s, w, c, e);
  }

  lemma RepairMoves(s: Sys, w: Id, c: Worker, e: Env)
    requires WorkerAt(s, w) == c && c.HasTerminalRecord? && c.rr.status == PendingReward
    ensures var s' := Next(s, Advance(w, e));
            && s'.t == Complete(s.t, c.rewardId) && !IsPending(s'.t, c.rewardId)
            && WorkerAt(s', w) == if IsPending(s.t, c.rewardId) then Settled(c.rewardId, c.rr, c.recordId, c.rec)
                                  else Idle
    ensures !IsPending(s.t, c.rewardId) ==> Complete(s.t, c.rewardId) == s.t
  {
    AdvanceIs(s, w, c, e);
  }

  lemma GoneMoves(s: Sys, w: Id, c: Worker, e: Env)
    requires WorkerAt(s, w) == c && c.BudgetGone?
    ensures var s' := Next(s, Advance(w, e));
            s'.t == Complete(s.t, c.rewardId) && !IsPending(s'.t, c.rewardId) && WorkerAt(s', w) == Idle
    ensures !IsPending(s.t, c.rewardId) ==> Complete(s.t, c.rewardId) == s.t
  {
    AdvanceIs(s, w, c, e);
  }

  /** The worker that goes on after an answer. */
  function AfterAnswer(c: Worker, answer: V.Outcome): Worker
    requires c.ReadyToIssue?
  {
    match answer
    case Transient => Idle
    case Succeeded => Answered(c.rewardId, c.rr, c.recordId, c.rec, c.budgetId, c.issueBudgetId, true, "")
    case Refused(reason) => Answered(c.rewardId, c.rr, c.recordId, c.rec, c.budgetId, c.issueBudgetId, false, reason)
  }

  lemma IssueMoves(s: Sys, w: Id, c: Worker, e: Env)
    requires WorkerAt(s, w) == c && c.ReadyToIssue?
    ensures var s' := Next(s, Advance(w, e));
            && s'.t == s.t && s'.remote == RemoteAfter(s, c, e)
            && WorkerAt(s', w) == AfterAnswer(c, V.Issue(e.clientReady, SnapshotOf(c.rec),
                                                         ReplyOf(RemoteAfter(s, c, e), c.rec.voucherId, e)))
  {
    AdvanceIs(s, w, c, e);
  }

  // ---- The call ----

  method PublishTerminalResult(world: World, w: Id, rewardId: Id, rr: RewardRequest, recordId: Id, rec: IssueRecord,
                               around: Surroundings)
    returns (o: Outcome)
    requires world.Valid() && LeavesAlone(around, w)
    requires WorkerAt(world.sys, w) == Settled(rewardId, rr, recordId, rec)
    modifies world`sys, world`trace, world.db
    ensures world.Valid() && old(world.trace) <= world.trace && WorkerAt(world.sys, w) == Idle
    ensures o.Published? || (o == Failed(DriverError) && around.faults != {})
    ensures Explained(world.start, world.trace, |old(world.trace)|, w, rewardId, around.e, o)
  {
    hide Run, Next, Explained, Finalize, PreOccupy, WithOutcome, Complete, ReadRecord, CheckRisk, CommitRiskFailure,
         FindProjectBudget, FindIssueBudget, CommitPreOccupy, EnsureCompleted, RereadRecord,
         RefindProjectBudget, RefindIssueBudget, CallDownstream, CommitFinalize, AdvanceWorker;
    ghost var from := |world.trace|;
    var err := world.Await(w, 9, around);
    ghost var before := world.trace;
    if err.Some? {
      ReasonNow(world.start, world.trace, world.trace, from, w, rewardId, around.e, Failed(DriverError));
      return Failed(DriverError);
    }
    AdvanceIs(world.sys, w, WorkerAt(world.sys, w), around.e);
    world.Take(Advance(w, around.e));
    ReasonNow(world.start, before, world.trace, from, w, rewardId, around.e, Published);
    return Published;
  }

  /** A record that is settled already: complete the request after the fact. */
  method EnsureCompletedAndSkip(world: World, w: Id, rewardId: Id, rr: RewardRequest, recordId: Id, rec: IssueRecord,
                                around: Surroundings)
    returns (o: Outcome)
    requires world.Valid() && LeavesAlone(around, w)
    requires WorkerAt(world.sys, w) == HasTerminalRecord(rewardId, rr, recordId, rec) && rr.status == PendingReward
    modifies world`sys, world`trace, world.db
    ensures world.Valid() && old(world.trace) <= world.trace && WorkerAt(world.sys, w) == Idle
    ensures o.Failed? ==> o.error == DriverError && around.faults != {}
    ensures Explained(world.start, world.trace, |old(world.trace)|, w, rewardId, around.e, o)
  {
    hide Run, Next, Explained, Finalize, PreOccupy, WithOutcome, ReadRecord, CheckRisk, CommitRiskFailure,
         FindProjectBudget, FindIssueBudget, CommitPreOccupy, RereadRecord, RefindProjectBudget,
         RefindIssueBudget, CallDownstream, CommitFinalize, Publish, AdvanceWorker, EnsureCompleted, Complete,
         IsPending;
    ghost var from := |world.trace|;
    var err := world.Await(w, 2, around);
    ghost var before := world.trace;
    if err.Some? {
      ReasonNow(world.start, world.trace, world.trace, from, w, rewardId, around.e, Failed(DriverError));
      return Failed(DriverError);
    }
    RepairMoves(world.sys, w, WorkerAt(world.sys, w), around.e);
    err := world.db.CompleteReward(rewardId, false);
    world.Take(Advance(w, around.e));
    if err.Some? {
      ReasonNow(world.start, before, world.trace, from, w, rewardId, around.e, Skipped);
      return Skipped;
    }
    o := PublishTerminalResult(world, w, rewardId, rr, recordId, rec, around);
    ReasonEarlier(world.start, world.trace, |before| + 1, from, w, rewardId, around.e, o);
  }

  /** The outcome written into the fields of the record at hand. */
  method ApplyIssueRecordOutcome(record: IssueRecord, amount: int, success: bool, failedReason: string)
    returns (rec: IssueRecord)
    ensures rec == WithOutcome(record, amount, success, failedReason)
    ensures StatusFits(rec, amount) || record.issueRequestId.None?
  {
    rec := record;
    if success {
      rec := rec.(status := IssuedRecord);
      rec := rec.(rewardAmount := amount);
      rec := rec.(reason := "");
      return;
    }
    rec := rec.(status := FailedRecord);
    rec := rec.(rewardAmount := 0);
    rec := rec.(reason := failedReason);
    if rec.reason == "" {
      rec := rec.(reason := "downstream business failure");
    }
  }

  /** The settling transaction; losing its compare-and-set means the request is not pending any more. */
  method Settle(world: World, w: Id, c: Worker, rec: IssueRecord, around: Surroundings) returns (err: Option<Error>)
    requires world.Valid() && LeavesAlone(around, w) && WorkerAt(world.sys, w) == c && c.Answered?
    requires rec == WithOutcome(c.rec, c.rr.amount, c.success, c.reason)
    modifies world`sys, world`trace, world.db
    ensures world.Valid() && old(world.trace) <= world.trace
    ensures WorkerAt(world.sys, w) == if err.None? then Settled(c.rewardId, c.rr, c.recordId, rec) else Idle
    ensures err.Some? ==> err.value == DriverError || err.value == InvalidTransition
    ensures err == Some(DriverError) ==> around.faults != {}
    ensures err == Some(InvalidTransition) ==>
              Explained(world.start, world.trace, |old(world.trace)|, w, c.rewardId, around.e, Skipped)
  {
    hide Run, Next, Explained, Finalize, PreOccupy, WithOutcome, Complete, ReadRecord, CheckRisk,
         CommitRiskFailure, FindProjectBudget, FindIssueBudget, CommitPreOccupy, EnsureCompleted, RereadRecord,
         RefindProjectBudget, RefindIssueBudget, CallDownstream, CommitFinalize, Publish, AdvanceWorker,
         IsPending;
    ghost var from := |world.trace|;
    err := world.Await(w, 8, around);
    if err.Some? { return; }
    ghost var before := world.trace;
    FinalizeMoves(world.sys, w, c, around.e, rec);
    AfterCrash(world.sys, w);
    err := FinalizeBudgets(world.db, c.budgetId, c.issueBudgetId, c.rr.amount, c.success, c.recordId, rec, c.rewardId,
                           around.faults);
    if err.None? || err.value == InvalidTransition {
      world.Take(Advance(w, around.e));
    } else {
      world.Take(Crash(w));
    }
    if err == Some(InvalidTransition) {
      ReasonNow(world.start, before, world.trace, from, w, c.rewardId, around.e, Skipped);
    }
  }

  method FinalizeDistribution(world: World, w: Id, c: Worker, around: Surroundings) returns (o: Outcome)
    requires world.Valid() && LeavesAlone(around, w) && WorkerAt(world.sys, w) == c && c.Answered?
    modifies world`sys, world`trace, world.db
    ensures world.Valid() && old(world.trace) <= world.trace && WorkerAt(world.sys, w) == Idle
    ensures o == Failed(DriverError) ==> around.faults != {}
    ensures Explained(world.start, world.trace, |old(world.trace)|, w, c.rewardId, around.e, o)
  {
    ghost var from := |world.trace|;
    var rec := ApplyIssueRecordOutcome(c.rec, c.rr.amount, c.success, c.reason);
    var err := Settle(world, w, c, rec, around);
    if err == Some(InvalidTransition) {
      return Skipped;
    }
    if err.Some? {
      ReasonNow(world.start, world.trace, world.trace, from, w, c.rewardId, around.e, Failed(DriverError));
      return Failed(DriverError);
    }
    ghost var mid := |world.trace|;
    o := PublishTerminalResult(world, w, c.rewardId, c.rr, c.recordId, rec, around);
    ReasonEarlier(world.start, world.trace, mid, from, w, c.rewardId, around.e, o);
  }

  /** The downstream call, and what follows from its classification. */
  method IssueAndFinalize(world: World, w: Id, c: Worker, around: Surroundings) returns (o: Outcome)
    requires world.Valid() && LeavesAlone(around, w) && WorkerAt(world.sys, w) == c && c.ReadyToIssue?
    modifies world`sys, world`trace, world.db
    ensures world.Valid() && old(world.trace) <= world.trace && WorkerAt(world.sys, w) == Idle
    ensures o == Failed(DriverError) ==> around.faults != {}
    ensures Explained(world.start, world.trace, |old(world.trace)|, w, c.rewardId, around.e, o)
  {
    hide Run, Next, Explained, Finalize, PreOccupy, WithOutcome, Complete, ReadRecord, CheckRisk, CommitRiskFailure,
         FindProjectBudget, FindIssueBudget, CommitPreOccupy, EnsureCompleted, RereadRecord,
         RefindProjectBudget, RefindIssueBudget, CallDownstream, CommitFinalize, Publish, AdvanceWorker,
         V.Issue, ReplyOf, RemoteAfter, IsPending, Fits;
    ghost var from := |world.trace|;
    var err := world.Await(w, 7, around);
    ghost var before := world.trace;
    if err.Some? {
      ReasonNow(world.start, world.trace, world.trace, from, w, c.rewardId, around.e, Failed(DriverError));
      return Failed(DriverError);
    }
    IssueMoves(world.sys, w, c, around.e);
    world.Take(Advance(w, around.e));
    var answer :=
      V.Issue(around.e.clientReady, SnapshotOf(c.rec), ReplyOf(world.sys.remote, c.rec.voucherId, around.e));
    if answer.Transient? {
      ReasonNow(world.start, before, world.trace, from, w, c.rewardId, around.e, Retry);
      return Retry;
    }
    o := FinalizeDistribution(world, w, AfterAnswer(c, answer), around);
    ReasonEarlier(world.start, world.trace, |before| + 1, from, w, c.rewardId, around.e, o);
  }

  /** A budget that should be there is not: the request is completed without a result. */
  method HandleRewardRequestComplete(world: World, w: Id, c: Worker, around: Surroundings) returns (o: Outcome)
    requires world.Valid() && LeavesAlone(around, w) && WorkerAt(world.sys, w) == c && c.BudgetGone?
    modifies world`sys, world`trace, world.db
    ensures world.Valid() && old(world.trace) <= world.trace && WorkerAt(world.sys, w) == Idle
    ensures o == Failed(DriverError) ==> around.faults != {}
    ensures Explained(world.start, world.trace, |old(world.trace)|, w, c.rewardId, around.e, o)
  {
    hide Run, Next, Explained, Finalize, PreOccupy, WithOutcome, ReadRecord, CheckRisk, CommitRiskFailure,
         FindProjectBudget, FindIssueBudget, CommitPreOccupy, EnsureCompleted, RereadRecord,
         RefindProjectBudget, RefindIssueBudget, CallDownstream, CommitFinalize, Publish, AdvanceWorker,
         Complete, IsPending;
    ghost var from := |world.trace|;
    var err := world.Await(w, 6, around);
    ghost var before := world.trace;
    if err.Some? {
      ReasonNow(world.start, world.trace, world.trace, from, w, c.rewardId, around.e, Failed(DriverError));
      return Failed(DriverError);
    }
    GoneMoves(world.sys, w, c, around.e);
    err := world.db.CompleteReward(c.rewardId, false);
    world.Take(Advance(w, around.e));
    ReasonNow(world.start, world.trace, world.trace, from, w, c.rewardId, around.e, Skipped);
    return Skipped;
  }

  /** The fresh path: find both budgets, pre-occupy them with a new pending record, and go on. */
  method AttemptFresh(world: World, w: Id, c: Worker, around: Surroundings) returns (o: Outcome)
    requires world.Valid() && LeavesAlone(around, w) && WorkerAt(world.sys, w) == c && c.RiskPassed?
    modifies world`sys, world`trace, world.db
    ensures world.Valid() && old(world.trace) <= world.trace && WorkerAt(world.sys, w) == Idle
    ensures o == Failed(DriverError) ==> around.faults != {}
    ensures Explained(world.start, world.trace, |old(world.trace)|, w, c.rewardId, around.e, o)
  {
    hide Run, Next, Explained, Finalize, PreOccupy, WithOutcome, Complete, ReadRecord, CheckRisk,
         CommitRiskFailure, FindIssueBudget, CommitPreOccupy, EnsureCompleted, RereadRecord,
         RefindProjectBudget, RefindIssueBudget, CallDownstream, CommitFinalize, Publish, AdvanceWorker;
    ghost var from := |world.trace|;
    var err := world.Await(w, 3, around);
    ghost var before := world.trace;
    if err.Some? {
      ReasonNow(world.start, world.trace, world.trace, from, w, c.rewardId, around.e, Failed(DriverError));
      return Failed(DriverError);
    }
    var budgetId := ProjectBudgetFor(world.db.View(), RewardKey(c.rr));
    AdvanceIs(world.sys, w, c, around.e);
    world.Take(Advance(w, around.e));
    if budgetId.None? {
      ghost var mid := |world.trace|;
      o := HandleRewardRequestComplete(world, w, BudgetGone(c.rewardId), around);
      ReasonEarlier(world.start, world.trace, mid, from, w, c.rewardId, around.e, o);
      return;
    }
    ghost var mid := |world.trace|;
    o := AttemptFunded(world, w, HasProjectBudget(c.rewardId, c.rr, budgetId.value), around);
    ReasonEarlier(world.start, world.trace, mid, from, w, c.rewardId, around.e, o);
  }

  method AttemptFunded(world: World, w: Id, c: Worker, around: Surroundings) returns (o: Outcome)
    requires world.Valid() && LeavesAlone(around, w) && WorkerAt(world.sys, w) == c && c.HasProjectBudget?
    modifies world`sys, world`trace, world.db
    ensures world.Valid() && old(world.trace) <= world.trace && WorkerAt(world.sys, w) == Idle
    ensures o == Failed(DriverError) ==> around.faults != {}
    ensures Explained(world.start, world.trace, |old(world.trace)|, w, c.rewardId, around.e, o)
  {
    hide Run, Next, Explained, Finalize, PreOccupy, WithOutcome, Complete, ReadRecord, CheckRisk, CommitRiskFailure,
         FindProjectBudget, CommitPreOccupy, EnsureCompleted, RereadRecord, RefindProjectBudget,
         RefindIssueBudget, CallDownstream, CommitFinalize, Publish, AdvanceWorker;
    ghost var from := |world.trace|;
    var err := world.Await(w, 4, around);
    ghost var before := world.trace;
    if err.Some? {
      ReasonNow(world.start, world.trace, world.trace, from, w, c.rewardId, around.e, Failed(DriverError));
      return Failed(DriverError);
    }
    var issueBudgetId := FirstAvailableForDistribution(world.db.View(), RewardKey(c.rr), c.rr.amount);
    AdvanceIs(world.sys, w, c, around.e);
    world.Take(Advance(w, around.e));
    if issueBudgetId.None? {
      ReasonNow(world.start, before, world.trace, from, w, c.rewardId, around.e, Deferred);
      return Deferred;
    }
    ghost var mid := |world.trace|;
    o := PreOccupyAndIssue(world, w, HasBudgets(c.rewardId, c.rr, c.budgetId, issueBudgetId.value), around);
    ReasonEarlier(world.start, world.trace, mid, from, w, c.rewardId, around.e, o);
  }

  method PreOccupyAndIssue(world: World, w: Id, c: Worker, around: Surroundings) returns (o: Outcome)
    requires world.Valid() && LeavesAlone(around, w) && WorkerAt(world.sys, w) == c && c.HasBudgets?
    modifies world`sys, world`trace, world.db
    ensures world.Valid() && old(world.trace) <= world.trace && WorkerAt(world.sys, w) == Idle
    ensures o == Failed(DriverError) ==> around.faults != {}
    ensures Explained(world.start, world.trace, |old(world.trace)|, w, c.rewardId, around.e, o)
  {
    hide Run, Next, Explained, Finalize, PreOccupy, WithOutcome, Complete, ReadRecord, CheckRisk,
         CommitRiskFailure, FindProjectBudget, FindIssueBudget, EnsureCompleted, RereadRecord,
         RefindProjectBudget, RefindIssueBudget, CallDownstream, CommitFinalize, Publish, AdvanceWorker,
         PendingRecordFor, RecordInsertable, CanPreOccupy;
    ghost var from := |world.trace|;
    var err := world.Await(w, 5, around);
    ghost var before := world.trace;
    if err.Some? {
      ReasonNow(world.start, world.trace, world.trace, from, w, c.rewardId, around.e, Failed(DriverError));
      return Failed(DriverError);
    }
    AdvanceIs(world.sys, w, c, around.e);
    AfterCrash(world.sys, w);
    if c.issueBudgetId !in world.db.issueBudgets {
      world.Take(Advance(w, around.e));
      ReasonNow(world.start, before, world.trace, from, w, c.rewardId, around.e, Failed(Insufficient));
      return Failed(Insufficient);
    }
    var rec := PendingRecordFor(c.rewardId, c.rr, world.db.issueBudgets[c.issueBudgetId].issueRequestId,
                                around.e.voucherId);
    err := PreOccupyBudget(world.db, c.budgetId, c.issueBudgetId, c.rr.amount, around.e.newId, rec, around.faults);
    if err.Some? {
      world.Take(Crash(w));
      o := Failed(err.value);
      if err.value == Insufficient {
        ReasonNow(world.start, before, world.trace, from, w, c.rewardId, around.e, Failed(Insufficient));
      } else if err.value == DuplicateKey {
        ReasonNow(world.start, before, world.trace, from, w, c.rewardId, around.e, Failed(DuplicateKey));
      } else {
        ReasonNow(world.start, world.trace, world.trace, from, w, c.rewardId, around.e, Failed(DriverError));
      }
      return;
    }
    world.Take(Advance(w, around.e));
    o := IssueAndFinalize(world, w,
      ReadyToIssue(c.rewardId, c.rr, around.e.newId, rec, c.budgetId, c.issueBudgetId), around);
    ReasonEarlier(world.start, world.trace, |before| + 1, from, w, c.rewardId, around.e, o);
  }

  /** The retry path: take the record as it is now, and the very budgets it was charged to. */
  method AttemptExisting(world: World, w: Id, c: Worker, around: Surroundings) returns (o: Outcome)
    requires world.Valid() && LeavesAlone(around, w) && WorkerAt(world.sys, w) == c && c.HasPendingRecord?
    modifies world`sys, world`trace, world.db
    ensures world.Valid() && old(world.trace) <= world.trace && WorkerAt(world.sys, w) == Idle
    ensures o == Failed(DriverError) ==> around.faults != {}
    ensures Explained(world.start, world.trace, |old(world.trace)|, w, c.rewardId, around.e, o)
  {
    hide Run, Next, Explained, Finalize, PreOccupy, WithOutcome, Complete, ReadRecord, CheckRisk,
         CommitRiskFailure, FindProjectBudget, FindIssueBudget, CommitPreOccupy, EnsureCompleted,
         RefindProjectBudget, RefindIssueBudget, CallDownstream, CommitFinalize, Publish, AdvanceWorker;
    ghost var from := |world.trace|;
    var err := world.Await(w, 3, around);
    ghost var before := world.trace;
    if err.Some? {
      ReasonNow(world.start, world.trace, world.trace, from, w, c.rewardId, around.e, Failed(DriverError));
      return Failed(DriverError);
    }
    AdvanceIs(world.sys, w, c, around.e);
    world.Take(Advance(w, around.e));
    if c.recordId !in world.db.issueRecords || world.db.issueRecords[c.recordId].issueRequestId.None? {
      ReasonNow(world.start, before, world.trace, from, w, c.rewardId, around.e, Failed(NotFound));
      return Failed(NotFound);
    }
    ghost var mid := |world.trace|;
    o := AttemptReread(world, w, Reread(c.rewardId, c.rr, c.recordId, world.db.issueRecords[c.recordId]), around);
    ReasonEarlier(world.start, world.trace, mid, from, w, c.rewardId, around.e, o);
  }

  method AttemptReread(world: World, w: Id, c: Worker, around: Surroundings) returns (o: Outcome)
    requires world.Valid() && LeavesAlone(around, w) && WorkerAt(world.sys, w) == c && c.Reread?
    requires c.rec.issueRequestId.Some?
    modifies world`sys, world`trace, world.db
    ensures world.Valid() && old(world.trace) <= world.trace && WorkerAt(world.sys, w) == Idle
    ensures o == Failed(DriverError) ==> around.faults != {}
    ensures Explained(world.start, world.trace, |old(world.trace)|, w, c.rewardId, around.e, o)
  {
    hide Run, Next, Explained, Finalize, PreOccupy, WithOutcome, Complete, ReadRecord, CheckRisk,
         CommitRiskFailure, FindProjectBudget, FindIssueBudget, CommitPreOccupy, EnsureCompleted, RereadRecord,
         RefindIssueBudget, CallDownstream, CommitFinalize, Publish, AdvanceWorker;
    ghost var from := |world.trace|;
    var err := world.Await(w, 4, around);
    ghost var before := world.trace;
    if err.Some? {
      ReasonNow(world.start, world.trace, world.trace, from, w, c.rewardId, around.e, Failed(DriverError));
      return Failed(DriverError);
    }
    AdvanceIs(world.sys, w, c, around.e);
    var budgetId := ProjectBudgetFor(world.db.View(), RecordKey(c.rec));
    world.Take(Advance(w, around.e));
    ghost var mid := |world.trace|;
    if budgetId.None? {
      o := HandleRewardRequestComplete(world, w, BudgetGone(c.rewardId), around);
      ReasonEarlier(world.start, world.trace, mid, from, w, c.rewardId, around.e, o);
      return;
    }
    o := AttemptRereadBudget(world, w, RereadBudget(c.rewardId, c.rr, c.recordId, c.rec, budgetId.value), around);
    ReasonEarlier(world.start, world.trace, mid, from, w, c.rewardId, around.e, o);
  }

  method AttemptRereadBudget(world: World, w: Id, c: Worker, around: Surroundings) returns (o: Outcome)
    requires world.Valid() && LeavesAlone(around, w) && WorkerAt(world.sys, w) == c && c.RereadBudget?
    requires c.rec.issueRequestId.Some?
    modifies world`sys, world`trace, world.db
    ensures world.Valid() && old(world.trace) <= world.trace && WorkerAt(world.sys, w) == Idle
    ensures o == Failed(DriverError) ==> around.faults != {}
    ensures Explained(world.start, world.trace, |old(world.trace)|, w, c.rewardId, around.e, o)
  {
    hide Run, Next, Explained;
    ghost var from := |world.trace|;
    var err := RereadRow(world, w, c, 15, around);
    if err.Some? {
      return Failed(err.value);
    }
    ghost var mid := |world.trace|;
    o := AttemptRereadIssueBudget(world, w, c, around);
    ReasonEarlier(world.start, world.trace, mid, from, w, c.rewardId, around.e, o);
  }

  /** The budget that was found, read again by its id. */
  method RereadRow(world: World, w: Id, c: Worker, k: nat, around: Surroundings) returns (err: Option<Error>)
    requires world.Valid() && LeavesAlone(around, w) && WorkerAt(world.sys, w) == c
    requires c.RereadBudget? || c.ReadyToIssue?
    modifies world`sys, world`trace, world.db
    ensures world.Valid() && old(world.trace) <= world.trace
    ensures WorkerAt(world.sys, w) == if err.None? then c else Idle
    ensures err == Some(DriverError) ==> around.faults != {}
    ensures err.Some? ==>
              Explained(world.start, world.trace, |old(world.trace)|, w, c.rewardId, around.e, Failed(err.value))
  {
    hide Run, Next, Explained;
    ghost var from := |world.trace|;
    err := world.Await(w, k, around);
    if err.Some? {
      ReasonNow(world.start, world.trace, world.trace, from, w, c.rewardId, around.e, Failed(DriverError));
      return;
    }
    var there := if c.RereadBudget? then c.budgetId in world.db.projectBudgets
                 else c.issueBudgetId in world.db.issueBudgets;
    if !there {
      ghost var before := world.trace;
      AfterCrash(world.sys, w);
      world.Take(Crash(w));
      ReasonNow(world.start, before, world.trace, from, w, c.rewardId, around.e, Failed(NotFound));
      return Some(NotFound);
    }
  }

  method AttemptRereadIssueBudget(world: World, w: Id, c: Worker, around: Surroundings) returns (o: Outcome)
    requires world.Valid() && LeavesAlone(around, w) && WorkerAt(world.sys, w) == c && c.RereadBudget?
    requires c.rec.issueRequestId.Some?
    modifies world`sys, world`trace, world.db
    ensures world.Valid() && old(world.trace) <= world.trace && WorkerAt(world.sys, w) == Idle
    ensures o == Failed(DriverError) ==> around.faults != {}
    ensures Explained(world.start, world.trace, |old(world.trace)|, w, c.rewardId, around.e, o)
  {
    hide Run, Next, Explained, Finalize, PreOccupy, WithOutcome, Complete, ReadRecord, CheckRisk,
         CommitRiskFailure, FindProjectBudget, FindIssueBudget, CommitPreOccupy, EnsureCompleted, RereadRecord,
         RefindProjectBudget, CallDownstream, CommitFinalize, Publish, AdvanceWorker;
    ghost var from := |world.trace|;
    var err := world.Await(w, 5, around);
    if err.Some? {
      ReasonNow(world.start, world.trace, world.trace, from, w, c.rewardId, around.e, Failed(DriverError));
      return Failed(DriverError);
    }
    AdvanceIs(world.sys, w, c, around.e);
    var issueBudgetId := IssueBudgetFor(world.db.View(), c.rec.issueRequestId.value);
    world.Take(Advance(w, around.e));
    ghost var mid := |world.trace|;
    if issueBudgetId.None? {
      o := HandleRewardRequestComplete(world, w, BudgetGone(c.rewardId), around);
      ReasonEarlier(world.start, world.trace, mid, from, w, c.rewardId, around.e, o);
      return;
    }
    var ready := ReadyToIssue(c.rewardId, c.rr, c.recordId, c.rec, c.budgetId, issueBudgetId.value);
    err := RereadRow(world, w, ready, 16, around);
    if err.Some? {
      o := Failed(err.value);
    } else {
      ghost var reread := |world.trace|;
      o := IssueAndFinalize(world, w, ready, around);
      ReasonEarlier(world.start, world.trace, reread, mid, w, c.rewardId, around.e, o);
    }
    ReasonEarlier(world.start, world.trace, mid, from, w, c.rewardId, around.e, o);
  }

  /** No record yet: the risk check decides between a failed record and an attempt. */
  method CheckRiskAndAttempt(world: World, w: Id, c: Worker, around: Surroundings) returns (o: Outcome)
    requires world.Valid() && LeavesAlone(around, w) && WorkerAt(world.sys, w) == c && c.NoRecordYet?
    modifies world`sys, world`trace, world.db
    ensures world.Valid() && old(world.trace) <= world.trace && WorkerAt(world.sys, w) == Idle
    ensures o == Failed(DriverError) ==> around.faults != {}
    ensures Explained(world.start, world.trace, |old(world.trace)|, w, c.rewardId, around.e, o)
  {
    hide Run, Next, Explained, Finalize, PreOccupy, WithOutcome, Complete, ReadRecord, CommitRiskFailure,
         FindProjectBudget, FindIssueBudget, CommitPreOccupy, EnsureCompleted, RereadRecord,
         RefindProjectBudget, RefindIssueBudget, CallDownstream, CommitFinalize, Publish, AdvanceWorker;
    ghost var from := |world.trace|;
    AdvanceIs(world.sys, w, c, around.e);
    world.Take(Advance(w, around.e));
    ghost var mid := |world.trace|;
    if around.e.riskPassed {
      o := AttemptFresh(world, w, RiskPassed(c.rewardId, c.rr), around);
    } else {
      o := HandleRiskFailure(world, w, RiskRefused(c.rewardId, c.rr, around.e.riskReason), around);
    }
    ReasonEarlier(world.start, world.trace, mid, from, w, c.rewardId, around.e, o);
  }

  method HandleRiskFailure(world: World, w: Id, c: Worker, around: Surroundings) returns (o: Outcome)
    requires world.Valid() && LeavesAlone(around, w) && WorkerAt(world.sys, w) == c && c.RiskRefused?
    modifies world`sys, world`trace, world.db
    ensures world.Valid() && old(world.trace) <= world.trace && WorkerAt(world.sys, w) == Idle
    ensures o == Failed(DriverError) ==> around.faults != {}
    ensures Explained(world.start, world.trace, |old(world.trace)|, w, c.rewardId, around.e, o)
  {
    hide Run, Next, Explained, Finalize, PreOccupy, WithOutcome, Complete, ReadRecord, CheckRisk,
         FindProjectBudget, FindIssueBudget, CommitPreOccupy, EnsureCompleted, RereadRecord,
         RefindProjectBudget, RefindIssueBudget, CallDownstream, CommitFinalize, Publish, AdvanceWorker,
         CommitRiskFailure, IsPending, RecordInsertable, FailAtRisk, BothCover;
    ghost var from := |world.trace|;
    var err := world.Await(w, 3, around);
    ghost var before := world.trace;
    if err.Some? {
      ReasonNow(world.start, world.trace, world.trace, from, w, c.rewardId, around.e, Failed(DriverError));
      return Failed(DriverError);
    }
    AfterCrash(world.sys, w);
    var rec := RiskFailureRecord(c.rewardId, c.rr, around.e.voucherId, c.reason);
    ghost var s := world.sys;
    err := RecordRiskFailure(world.db, around.e.newId, rec, around.faults);
    if err.None? { RiskMoves(s, w, c, around.e, rec); }
    if err.Some? {
      world.Take(Crash(w));
      o := Failed(err.value);
      if err.value == DuplicateKey {
        ReasonNow(world.start, before, world.trace, from, w, c.rewardId, around.e, Failed(DuplicateKey));
      } else if err.value == InvalidTransition {
        ReasonNow(world.start, before, world.trace, from, w, c.rewardId, around.e, Failed(InvalidTransition));
      } else {
        ReasonNow(world.start, world.trace, world.trace, from, w, c.rewardId, around.e, Failed(DriverError));
      }
      return;
    }
    world.Take(Advance(w, around.e));
    o := PublishTerminalResult(world, w, c.rewardId, c.rr, around.e.newId, rec, around);
    ReasonEarlier(world.start, world.trace, |before| + 1, from, w, c.rewardId, around.e, o);
  }

  lemma RowsStay(s: Sys, w: Id, rewardId: Id, e: Env)
    requires Inv(s)
    ensures !Reason(s, w, rewardId, e, Failed(NotFound))
  {
    InvAt(s, w);
    hide Inv, TablesOk;
  }

  /** In reachable states a pending record names the issue request it was charged to, and what was found
      once is still there. */
  lemma NeverGone(start: Sys, before: seq<Step>, trace: seq<Step>, w: Id, rewardId: Id, e: Env)
    requires before <= trace && IsReachable(Run(start, before))
    ensures !Explained(start, trace, |before|, w, rewardId, e, Failed(NotFound))
  {
    hide IsReachable, Run, Reason, Inv, WorkerOk;
    if Explained(start, trace, |before|, w, rewardId, e, Failed(NotFound)) {
      var i :| ReasonAt(start, trace, |before|, w, rewardId, e, Failed(NotFound), i);
      ReachableLater(start, before, trace[..i]);
      ReachableIsOk(Run(start, trace[..i]));
      RowsStay(Run(start, trace[..i]), w, rewardId, e);
      assert false;
    }
  }

  /** One delivery of a reward request, whatever others do meanwhile and whatever fails. What it does is a
      run of the machine, and it ends the way it does for a reason found in that run. */
  method ExecuteRewardDistribution(world: World, w: Id, rewardId: Id, around: Surroundings) returns (o: Outcome)
    requires world.Valid() && LeavesAlone(around, w) && WorkerAt(world.sys, w) == Idle
    modifies world`sys, world`trace, world.db
    ensures world.Valid() && old(world.trace) <= world.trace && WorkerAt(world.sys, w) == Idle
    ensures o == Failed(DriverError) ==> around.faults != {}
    ensures Explained(world.start, world.trace, |old(world.trace)|, w, rewardId, around.e, o)
    ensures IsReachable(old(world.sys)) ==> IsReachable(world.sys) && o != Failed(NotFound)
  {
    ghost var trace := world.trace;
    o := Execute(world, w, rewardId, around);
    if IsReachable(Run(world.start, trace)) {
      ReachableLater(world.start, trace, world.trace);
      NeverGone(world.start, trace, world.trace, w, rewardId, around.e);
    }
  }

  method Execute(world: World, w: Id, rewardId: Id, around: Surroundings) returns (o: Outcome)
    requires world.Valid() && LeavesAlone(around, w) && WorkerAt(world.sys, w) == Idle
    modifies world`sys, world`trace, world.db
    ensures world.Valid() && old(world.trace) <= world.trace && WorkerAt(world.sys, w) == Idle
    ensures o == Failed(DriverError) ==> around.faults != {}
    ensures Explained(world.start, world.trace, |old(world.trace)|, w, rewardId, around.e, o)
  {
    hide Run, Explained, Finalize, PreOccupy, WithOutcome, Complete, ReadRecord, CheckRisk,
         CommitRiskFailure, FindProjectBudget, FindIssueBudget, CommitPreOccupy, EnsureCompleted, RereadRecord,
         RefindProjectBudget, RefindIssueBudget, CallDownstream, CommitFinalize, Publish, AdvanceWorker;
    ghost var from := |world.trace|;
    if rewardId <= 0 {
      ReasonNow(world.start, world.trace, world.trace, from, w, rewardId, around.e, Failed(Error.Rejected));
      return Failed(Error.Rejected);
    }
    var err := world.Await(w, 0, around);
    ghost var before := world.trace;
    if err.Some? {
      ReasonNow(world.start, world.trace, world.trace, from, w, rewardId, around.e, Failed(DriverError));
      return Failed(DriverError);
    }
    if rewardId !in world.db.rewardRequests || world.db.rewardRequests[rewardId].status != PendingReward {
      ReasonNow(world.start, before, world.trace, from, w, rewardId, around.e, Skipped);
      return Skipped;
    }
    var rr := world.db.rewardRequests[rewardId];
    world.Take(Deliver(w, rewardId));
    ghost var mid := |world.trace|;
    o := ExecuteLoaded(world, w, HasRequest(rewardId, rr), around);
    ReasonEarlier(world.start, world.trace, mid, from, w, rewardId, around.e, o);
  }

  method ExecuteLoaded(world: World, w: Id, c: Worker, around: Surroundings) returns (o: Outcome)
    requires world.Valid() && LeavesAlone(around, w) && WorkerAt(world.sys, w) == c && c.HasRequest?
    requires c.rr.status == PendingReward
    modifies world`sys, world`trace, world.db
    ensures world.Valid() && old(world.trace) <= world.trace && WorkerAt(world.sys, w) == Idle
    ensures o == Failed(DriverError) ==> around.faults != {}
    ensures Explained(world.start, world.trace, |old(world.trace)|, w, c.rewardId, around.e, o)
  {
    hide Run, Next, Explained, Finalize, PreOccupy, WithOutcome, Complete, CheckRisk, CommitRiskFailure,
         FindProjectBudget, FindIssueBudget, CommitPreOccupy, EnsureCompleted, RereadRecord,
         RefindProjectBudget, RefindIssueBudget, CallDownstream, CommitFinalize, Publish, AdvanceWorker;
    ghost var from := |world.trace|;
    var err := world.Await(w, 1, around);
    ghost var before := world.trace;
    if err.Some? {
      ReasonNow(world.start, world.trace, world.trace, from, w, c.rewardId, around.e, Failed(DriverError));
      return Failed(DriverError);
    }
    AdvanceIs(world.sys, w, c, around.e);
    var existing := RecordByRef(world.db.View(), c.rr.clientRef);
    world.Take(Advance(w, around.e));
    ghost var mid := |world.trace|;
    if existing.None? {
      o := CheckRiskAndAttempt(world, w, NoRecordYet(c.rewardId, c.rr), around);
    } else if world.db.issueRecords[existing.value].status != PendingRecord {
      o := EnsureCompletedAndSkip(world, w, c.rewardId, c.rr, existing.value, world.db.issueRecords[existing.value],
                                  around);
    } else {
      o := AttemptExisting(world, w, HasPendingRecord(c.rewardId, c.rr, existing.value), around);
    }
    ReasonEarlier(world.start, world.trace, mid, from, w, c.rewardId, around.e, o);
  }
}
