/** Issue requests: calls that look first, without a lock, and then decide under one; the transactions
    as ordered statements on the database, each proved to have the effect of the atomic step it stands
    for, or none.

    Statements 10 and up of `around.faults` are those of the transaction; the last is the commit. */
module IssueRequestService {
  import opened Amounts
  import opened Database
  import opened Interleaving
  import opened Reachable
  import opened Schema
  import opened Text
  import opened Transactions
  import opened Vouchers
  import opened Workers
  import opened Wrappers

  /** A column compared with an amount through their texts. */
  predicate Covers(column: int, amount: AmountText) {
    var cmp := CmpAmount(Number(Value(column)), amount);
    cmp.Some? && cmp.value >= 0
  }

  lemma CoversIsNumeric(column: int, amount: int)
    ensures Covers(column, Number(Value(amount))) <==> 0 <= amount <= column
  {
    assert Value(column) >= 0.0 <==> column >= 0;
    assert Value(amount) >= 0.0 <==> amount >= 0;
    assert Value(column) < Value(amount) <==> column < amount;
  }

  /** The column a request must fit in to be given the status: what is free, or what was withheld. */
  function Column(b: ProjectBudget, target: ReviewStatus): int {
    if target == ToApprove then b.available else b.withhold
  }

  predicate ColumnCovers(t: Tables, key: Key, target: ReviewStatus, amount: AmountText) {
    var b := ProjectBudgetFor(t, key);
    b.Some? && Covers(Column(t.projectBudgets[b.value], target), amount)
  }

  function AmountOf(r: IssueRequest): AmountText { Number(Value(r.amount)) }

  // ---- The transactions ----

  /** What the rows, read under the lock, have against giving the request the status. */
  predicate LockedRefusal(t: Tables, id: Id, target: ReviewStatus, err: Error) {
    if id !in t.issueRequests then err == NotFound
    else
      var r := t.issueRequests[id];
      if !TransitionAllowed(r.status, target) then err == InvalidTransition
      else if ProjectBudgetFor(t, RequestKey(r)).None? then err == NotFound
      else err == Insufficient && !ColumnCovers(t, RequestKey(r), target, AmountOf(r))
  }

  method SubmitInTx(db: Db, id: Id, faults: set<nat>) returns (err: Option<Error>)
    modifies db
    ensures err.None? <==> {10, 11, 12, 13} !! faults
                           && CanSubmit(old(db.View()), id) && old(db.issueRequests)[id].amount >= 0
    ensures err.None? ==> db.View() == Submit(old(db.View()), id)
    ensures err == Some(DriverError) ==> faults != {}
    ensures err.Some? && err != Some(DriverError) ==> LockedRefusal(old(db.View()), id, ToApprove, err.value)
  {
    if 10 in faults { return Some(DriverError); }
    if id !in db.issueRequests { return Some(NotFound); }
    var locked := db.issueRequests[id];
    if !TransitionAllowed(locked.status, ToApprove) { return Some(InvalidTransition); }
    if 11 in faults { return Some(DriverError); }
    var budgetId := ProjectBudgetFor(db.View(), RequestKey(locked));
    if budgetId.None? { return Some(NotFound); }
    CoversIsNumeric(db.projectBudgets[budgetId.value].available, locked.amount);
    if !Covers(db.projectBudgets[budgetId.value].available, AmountOf(locked)) { return Some(Insufficient); }
    err := db.UpdateRequestStatus(id, locked.status, ToApprove, 12 in faults);
    if err.Some? { return; }
    err := db.ApplySubmitWithhold(budgetId.value, locked.amount, 13 in faults);
  }

  /** The request and the budget change together, or not at all. */
  method CommitSubmission(db: Db, id: Id, faults: set<nat>) returns (err: Option<Error>)
    modifies db
    ensures err.None? <==> {10, 11, 12, 13, 14} !! faults
                           && CanSubmit(old(db.View()), id) && old(db.issueRequests)[id].amount >= 0
    ensures db.View() == if err.None? then Submit(old(db.View()), id) else old(db.View())
    ensures err == Some(DriverError) ==> faults != {}
    ensures err.Some? && err != Some(DriverError) ==> LockedRefusal(old(db.View()), id, ToApprove, err.value)
  {
    var snapshot := db.View();
    err := SubmitInTx(db, id, faults);
    err := Finish(db, snapshot, err, 14 in faults);
  }

  method ApproveInTx(db: Db, id: Id, faults: set<nat>) returns (err: Option<Error>)
    modifies db
    ensures err.None? <==> {10, 11, 12, 13} !! faults
                           && CanDecide(old(db.View()), id, Approved) && old(db.issueRequests)[id].amount >= 0
    ensures err.None? ==> db.View() == Approve(old(db.View()), id)
    ensures err == Some(DriverError) ==> faults != {}
    ensures err.Some? && err != Some(DriverError) ==> LockedRefusal(old(db.View()), id, Approved, err.value)
  {
    if 10 in faults { return Some(DriverError); }
    if id !in db.issueRequests { return Some(NotFound); }
    var locked := db.issueRequests[id];
    if !TransitionAllowed(locked.status, Approved) { return Some(InvalidTransition); }
    if 11 in faults { return Some(DriverError); }
    var budgetId := ProjectBudgetFor(db.View(), RequestKey(locked));
    if budgetId.None? { return Some(NotFound); }
    CoversIsNumeric(db.projectBudgets[budgetId.value].withhold, locked.amount);
    if !Covers(db.projectBudgets[budgetId.value].withhold, AmountOf(locked)) { return Some(Insufficient); }
    err := db.UpdateRequestStatus(id, ToApprove, Approved, 12 in faults);
    if err.Some? { return; }
    err := db.ApplyApproveIssued(budgetId.value, locked.amount, 13 in faults);
  }

  method RejectInTx(db: Db, id: Id, faults: set<nat>) returns (err: Option<Error>)
    modifies db
    ensures err.None? <==> {10, 11, 12, 13} !! faults
                           && CanDecide(old(db.View()), id, ReviewStatus.Rejected)
                           && old(db.issueRequests)[id].amount >= 0
    ensures err.None? ==> db.View() == Reject(old(db.View()), id)
    ensures err == Some(DriverError) ==> faults != {}
    ensures err.Some? && err != Some(DriverError) ==>
              LockedRefusal(old(db.View()), id, ReviewStatus.Rejected, err.value)
  {
    if 10 in faults { return Some(DriverError); }
    if id !in db.issueRequests { return Some(NotFound); }
    var locked := db.issueRequests[id];
    if !TransitionAllowed(locked.status, ReviewStatus.Rejected) { return Some(InvalidTransition); }
    if 11 in faults { return Some(DriverError); }
    var budgetId := ProjectBudgetFor(db.View(), RequestKey(locked));
    if budgetId.None? { return Some(NotFound); }
    CoversIsNumeric(db.projectBudgets[budgetId.value].withhold, locked.amount);
    if !Covers(db.projectBudgets[budgetId.value].withhold, AmountOf(locked)) { return Some(Insufficient); }
    err := db.UpdateRequestStatus(id, ToApprove, ReviewStatus.Rejected, 12 in faults);
    if err.Some? { return; }
    err := db.ApplyRejectRelease(budgetId.value, locked.amount, 13 in faults);
  }

  function Decide(t: Tables, id: Id, target: ReviewStatus): Tables {
    if target == Approved then Approve(t, id) else Reject(t, id)
  }

  method CommitDecision(db: Db, id: Id, target: ReviewStatus, faults: set<nat>) returns (err: Option<Error>)
    requires target == Approved || target == ReviewStatus.Rejected
    modifies db
    ensures err.None? <==> {10, 11, 12, 13, 14} !! faults
                           && CanDecide(old(db.View()), id, target) && old(db.issueRequests)[id].amount >= 0
    ensures db.View() == if err.None? then Decide(old(db.View()), id, target) else old(db.View())
    ensures err == Some(DriverError) ==> faults != {}
    ensures err.Some? && err != Some(DriverError) ==> LockedRefusal(old(db.View()), id, target, err.value)
  {
    var snapshot := db.View();
    if target == Approved {
      err := ApproveInTx(db, id, faults);
    } else {
      err := RejectInTx(db, id, faults);
    }
    err := Finish(db, snapshot, err, 14 in faults);
  }

  /** `newId` is the id the database will give a new row. A duplicate key is recognised only when the
      driver translates it. */
  method InitInTx(db: Db, id: Id, newId: Id, translated: bool, faults: set<nat>) returns (err: Option<Error>)
    requires newId > 0 && newId !in db.issueBudgets
    modifies db
    ensures err.None? ==> db.View() == StartIssueBudget(old(db.View()), id, newId, translated)
    ensures err == Some(DriverError) ==> faults != {}
    ensures {10, 11, 12} !! faults && err.Some? ==> Unrecognised(old(db.View()), id, translated)
    ensures err.None? ==> !Unrecognised(old(db.View()), id, translated)
    ensures err.Some? && err != Some(DriverError) ==>
              err.value == DuplicateKey && Unrecognised(old(db.View()), id, translated)
  {
    if 10 in faults { return Some(DriverError); }
    if id !in db.issueRequests || db.issueRequests[id].status != Approved { return None; }
    var locked := db.issueRequests[id];
    var ib := IssueBudget(id, locked.voucherType, locked.unit, locked.amount, locked.amount, 0, 0, OngoingBudget);
    assert IssueBudgetInsertable(db.View(), newId, ib) <==> IssueBudgetFor(db.View(), id).None?;
    err := db.CreateIssueBudget(newId, ib, 11 in faults);
    if err == Some(DuplicateKey) && translated {
      err := db.MarkRequestOngoing(id, 12 in faults);
      return;
    }
    if err.Some? { return; }
    err := db.MarkRequestOngoing(id, 12 in faults);
  }

  /** An approved request has its issue budget already, and the driver does not say so in gorm's words. */
  predicate Unrecognised(t: Tables, id: Id, translated: bool) {
    && id in t.issueRequests && t.issueRequests[id].status == Approved
    && IssueBudgetFor(t, id).Some? && !translated
  }

  // ---- What a call saw, and what it did ----

  datatype Fact =
    | NoDoc(docId: string)
    | UnapprovedDoc(docId: string)
    | ApprovedDoc(docId: string, projectId: Id)
    | NoRequest(id: Id)
    | ForeignRequest(id: Id, projectId: Id)
    | RequestRow(id: Id, row: IssueRequest)
    | NoBudget(key: Key)
    | Short(key: Key, target: ReviewStatus, amount: AmountText)
    | Enough(key: Key, target: ReviewStatus, amount: AmountText)
    | RefusedUnderLock(id: Id, target: ReviewStatus, err: Error)
    | KeyNotRecognised(id: Id, translated: bool)
    | IdTaken(newId: Id)
    | RequestIdTaken(newId: Id)

  predicate Holds(t: Tables, f: Fact) {
    match f
    case NoDoc(docId) => docId !in t.docs
    case UnapprovedDoc(docId) => docId in t.docs && t.docs[docId].status != Approved
    case ApprovedDoc(docId, projectId) =>
      docId in t.docs && t.docs[docId].status == Approved && t.docs[docId].projectId == projectId
    case NoRequest(id) => id !in t.issueRequests
    case ForeignRequest(id, projectId) => id in t.issueRequests && t.issueRequests[id].projectId != projectId
    case RequestRow(id, row) => id in t.issueRequests && t.issueRequests[id] == row
    case NoBudget(key) => ProjectBudgetFor(t, key).None?
    case Short(key, target, amount) => ProjectBudgetFor(t, key).Some? && !ColumnCovers(t, key, target, amount)
    case Enough(key, target, amount) => ColumnCovers(t, key, target, amount)
    case RefusedUnderLock(id, target, err) => LockedRefusal(t, id, target, err)
    case KeyNotRecognised(id, translated) => Unrecognised(t, id, translated)
    case IdTaken(newId) => newId <= 0 || newId in t.issueBudgets
    case RequestIdTaken(newId) => newId <= 0 || newId in t.issueRequests
  }

  /** At some point of the steps from `from` on, the fact held. */
  ghost predicate Saw(start: Sys, trace: seq<Step>, from: nat, f: Fact) {
    exists i :: SawAt(start, trace, from, f, i)
  }

  ghost predicate SawAt(start: Sys, trace: seq<Step>, from: nat, f: Fact, i: int) {
    from <= i <= |trace| && Holds(Run(start, trace[..i]).t, f)
  }

  lemma SawNow(start: Sys, before: seq<Step>, trace: seq<Step>, from: nat, f: Fact)
    requires from <= |before| && before <= trace && Holds(Run(start, before).t, f)
    ensures Saw(start, trace, from, f)
  {
    assert trace[..|before|] == before;
    assert SawAt(start, trace, from, f, |before|);
  }

  lemma SawBefore(start: Sys, trace: seq<Step>, longer: seq<Step>, from: nat, f: Fact)
    requires trace <= longer && Saw(start, trace, from, f)
    ensures Saw(start, longer, from, f)
  {
    var i :| SawAt(start, trace, from, f, i);
    assert longer[..i] == trace[..i];
    assert SawAt(start, longer, from, f, i);
  }

  /** The transaction was committed as this step, in a state where it takes effect. */
  ghost predicate Took(start: Sys, trace: seq<Step>, from: nat, step: Step) {
    exists i :: TookAt(start, trace, from, step, i)
  }

  ghost predicate TookAt(start: Sys, trace: seq<Step>, from: nat, step: Step, i: int) {
    from <= i < |trace| && trace[i] == step && TakesEffect(Run(start, trace[..i]).t, step)
  }

  predicate TakesEffect(t: Tables, step: Step) {
    || (step.SubmitStep? && CanSubmit(t, step.id))
    || (step.ApproveStep? && CanDecide(t, step.id, Approved))
    || (step.RejectStep? && CanDecide(t, step.id, ReviewStatus.Rejected))
    || (step.StartIssueBudgetStep? && step.id in t.issueRequests && t.issueRequests[step.id].status == Approved
        && !Unrecognised(t, step.id, step.translated))
    || (step.CreateRequestStep? && step.id > 0 && step.id !in t.issueRequests && ParseAmount(step.amount).Some?)
  }

  lemma TookNow(start: Sys, before: seq<Step>, trace: seq<Step>, from: nat, step: Step)
    requires from <= |before| && trace == before + [step] && TakesEffect(Run(start, before).t, step)
    ensures Took(start, trace, from, step)
  {
    assert trace[..|before|] == before;
    assert TookAt(start, trace, from, step, |before|);
  }

  /** The doc was seen approved, and the request as this row of the doc's project. */
  ghost predicate Belongs(start: Sys, trace: seq<Step>, from: nat, docId: string, id: Id, row: IssueRequest) {
    Saw(start, trace, from, ApprovedDoc(docId, row.projectId)) && Saw(start, trace, from, RequestRow(id, row))
  }

  lemma BelongedBefore(start: Sys, trace: seq<Step>, longer: seq<Step>, from: nat, docId: string, id: Id,
                       row: IssueRequest)
    requires trace <= longer && Belongs(start, trace, from, docId, id, row)
    ensures Belongs(start, longer, from, docId, id, row)
  {
    SawBefore(start, trace, longer, from, ApprovedDoc(docId, row.projectId));
    SawBefore(start, trace, longer, from, RequestRow(id, row));
  }

  ghost predicate LoadRefusal(start: Sys, trace: seq<Step>, from: nat, docId: string, id: Id, err: Error) {
    || DocRefusal(start, trace, from, docId, err)
    || (err == NotFound
        && (Saw(start, trace, from, NoRequest(id))
            || exists p :: Saw(start, trace, from, ApprovedDoc(docId, p))
                           && Saw(start, trace, from, ForeignRequest(id, p))))
  }

  ghost predicate DocRefusal(start: Sys, trace: seq<Step>, from: nat, docId: string, err: Error) {
    || err == DriverError
    || (err == Error.Rejected && docId == "")
    || (err == InvalidTransition && Saw(start, trace, from, UnapprovedDoc(docId)))
    || (err == NotFound && Saw(start, trace, from, NoDoc(docId)))
  }

  ghost predicate ColumnRefusal(start: Sys, trace: seq<Step>, from: nat, key: Key, target: ReviewStatus,
                                amount: AmountText, err: Error)
  {
    || (err == NotFound && Saw(start, trace, from, NoBudget(key)))
    || (err == Insufficient && Saw(start, trace, from, Short(key, target, amount)))
  }

  lemma ColumnRefusedBefore(start: Sys, trace: seq<Step>, longer: seq<Step>, from: nat, key: Key,
                            target: ReviewStatus, amount: AmountText, err: Error)
    requires trace <= longer && ColumnRefusal(start, trace, from, key, target, amount, err)
    ensures ColumnRefusal(start, longer, from, key, target, amount, err)
  {
    if err == NotFound {
      SawBefore(start, trace, longer, from, NoBudget(key));
    } else {
      SawBefore(start, trace, longer, from, Short(key, target, amount));
    }
  }

  /** Why a request was not given the status. */
  ghost predicate MoveRefusal(start: Sys, trace: seq<Step>, from: nat, docId: string, id: Id, target: ReviewStatus,
                              err: Error)
  {
    || LoadRefusal(start, trace, from, docId, id, err)
    || Saw(start, trace, from, RefusedUnderLock(id, target, err))
    || exists row :: Belongs(start, trace, from, docId, id, row) && RowRefusal(start, trace, from, row, target, err)
  }

  /** What the row that was read has against the status, by itself or with the budget read after it. */
  ghost predicate RowRefusal(start: Sys, trace: seq<Step>, from: nat, row: IssueRequest, target: ReviewStatus,
                             err: Error)
  {
    || (err == InvalidTransition && !TransitionAllowed(row.status, target))
    || ColumnRefusal(start, trace, from, RequestKey(row), target, AmountOf(row), err)
  }

  // ---- The reads before the lock ----

  /** The doc, approved; its project. */
  method LoadApprovedDoc(world: World, w: Id, docId: string, ghost from: nat, around: Surroundings)
    returns (r: Result<Id, Error>)
    requires world.Valid() && LeavesAlone(around, w) && WorkerAt(world.sys, w) == Idle && from <= |world.trace|
    modifies world`sys, world`trace, world.db
    ensures world.Valid() && old(world.trace) <= world.trace && WorkerAt(world.sys, w) == Idle
    ensures r.Failure? ==> DocRefusal(world.start, world.trace, from, docId, r.error)
    ensures r == Failure(DriverError) ==> around.faults != {}
    ensures r.Success? ==> Saw(world.start, world.trace, from, ApprovedDoc(docId, r.value))
  {
    hide Run, Next, Saw;
    if docId == "" { return Failure(Error.Rejected); }
    var err := world.Await(w, 0, around);
    if err.Some? { return Failure(err.value); }
    if docId !in world.db.docs {
      SawNow(world.start, world.trace, world.trace, from, NoDoc(docId));
      return Failure(NotFound);
    }
    if world.db.docs[docId].status != Approved {
      SawNow(world.start, world.trace, world.trace, from, UnapprovedDoc(docId));
      return Failure(InvalidTransition);
    }
    SawNow(world.start, world.trace, world.trace, from, ApprovedDoc(docId, world.db.docs[docId].projectId));
    return Success(world.db.docs[docId].projectId);
  }

  /** Then the request, of the doc's project. */
  method LoadIssueRequestForDoc(world: World, w: Id, docId: string, id: Id, ghost from: nat, around: Surroundings)
    returns (r: Result<IssueRequest, Error>)
    requires world.Valid() && LeavesAlone(around, w) && WorkerAt(world.sys, w) == Idle && from <= |world.trace|
    modifies world`sys, world`trace, world.db
    ensures world.Valid() && old(world.trace) <= world.trace && WorkerAt(world.sys, w) == Idle
    ensures r.Failure? ==> LoadRefusal(world.start, world.trace, from, docId, id, r.error)
    ensures r == Failure(DriverError) ==> around.faults != {}
    ensures r.Success? ==> Belongs(world.start, world.trace, from, docId, id, r.value)
    ensures r.Success? ==> Holds(world.db.View(), RequestRow(id, r.value))
  {
    hide Run, Next, Saw;
    var loaded := LoadApprovedDoc(world, w, docId, from, around);
    if loaded.Failure? { return Failure(loaded.error); }
    var projectId := loaded.value;
    ghost var earlier := world.trace;
    var err := world.Await(w, 1, around);
    if err.Some? { return Failure(err.value); }
    SawBefore(world.start, earlier, world.trace, from, ApprovedDoc(docId, projectId));
    if id !in world.db.issueRequests {
      SawNow(world.start, world.trace, world.trace, from, NoRequest(id));
      return Failure(NotFound);
    }
    var row := world.db.issueRequests[id];
    if row.projectId != projectId {
      SawNow(world.start, world.trace, world.trace, from, ForeignRequest(id, projectId));
      return Failure(NotFound);
    }
    SawNow(world.start, world.trace, world.trace, from, RequestRow(id, row));
    return Success(row);
  }

  /** The budget of the key, with enough in the column. */
  method EnsureColumn(world: World, w: Id, key: Key, target: ReviewStatus, amount: AmountText, ghost from: nat,
                      around: Surroundings)
    returns (err: Option<Error>)
    requires world.Valid() && LeavesAlone(around, w) && from <= |world.trace|
    modifies world`sys, world`trace, world.db
    ensures world.Valid() && old(world.trace) <= world.trace
    ensures WorkerAt(world.sys, w) == if err == Some(DriverError) then Idle else old(WorkerAt(world.sys, w))
    ensures err == Some(DriverError) ==> around.faults != {}
    ensures err.Some? && err != Some(DriverError) ==>
              ColumnRefusal(world.start, world.trace, from, key, target, amount, err.value)
    ensures err.None? ==> Saw(world.start, world.trace, from, Enough(key, target, amount))
  {
    hide Run, Next, Saw;
    err := world.Await(w, 2, around);
    if err.Some? { return; }
    var budgetId := ProjectBudgetFor(world.db.View(), key);
    if budgetId.None? {
      SawNow(world.start, world.trace, world.trace, from, NoBudget(key));
      return Some(NotFound);
    }
    if !Covers(Column(world.db.projectBudgets[budgetId.value], target), amount) {
      SawNow(world.start, world.trace, world.trace, from, Short(key, target, amount));
      return Some(Insufficient);
    }
    SawNow(world.start, world.trace, world.trace, from, Enough(key, target, amount));
    return None;
  }

  // ---- The calls ----

  /** Why a request was not created. */
  ghost predicate CreateRefusal(start: Sys, trace: seq<Step>, from: nat, docId: string, voucherType: string,
                                unit: string, amount: AmountText, err: Error)
  {
    || DocRefusal(start, trace, from, docId, err)
    || (err == Error.Rejected && (voucherType !in VOUCHER_TYPES || unit !in UNITS || ParseAmount(amount).None?))
    || exists p :: Saw(start, trace, from, ApprovedDoc(docId, p))
                   && ColumnRefusal(start, trace, from, Key(p, voucherType, unit), ToApprove, amount, err)
  }

  /** A draft, in the project of an approved doc, with room for its amount in the budget of its pair. The id
      the database gives it is fresh; anything else counts as its failure. */
  method CreateIssueRequest(world: World, w: Id, docId: string, voucherType: string, unit: string, amount: AmountText,
                            around: Surroundings)
    returns (err: Option<Error>, ghost key: Key)
    requires world.Valid() && LeavesAlone(around, w) && WorkerAt(world.sys, w) == Idle
    modifies world`sys, world`trace, world.db
    ensures world.Valid() && old(world.trace) <= world.trace && WorkerAt(world.sys, w) == Idle
    ensures err == Some(DriverError) ==>
              around.faults != {} || Saw(world.start, world.trace, |old(world.trace)|, RequestIdTaken(around.e.newId))
    ensures err.None? ==>
              && key == Key(key.projectId, TrimSpace(voucherType), TrimSpace(unit))
              && key.voucherType in VOUCHER_TYPES && key.unit in UNITS
              && Saw(world.start, world.trace, |old(world.trace)|, ApprovedDoc(docId, key.projectId))
              && Saw(world.start, world.trace, |old(world.trace)|, Enough(key, ToApprove, amount))
              && Took(world.start, world.trace, |old(world.trace)|, CreateRequestStep(around.e.newId, key, amount))
    ensures err.Some? ==> CreateRefusal(world.start, world.trace, |old(world.trace)|, docId, TrimSpace(voucherType),
                                        TrimSpace(unit), amount, err.value)
  {
    hide Run, Next, Saw, Took, TrimSpace;
    key := Key(0, "", "");
    ghost var from := |world.trace|;
    var loaded := LoadApprovedDoc(world, w, docId, from, around);
    if loaded.Failure? { return Some(loaded.error), key; }
    var knownType, knownUnit := ValidateVoucherType(voucherType), ValidateUnit(unit);
    if knownType.None? || knownUnit.None? || ParseAmount(amount).None? { return Some(Error.Rejected), key; }
    var k := Key(loaded.value, knownType.value, knownUnit.value);
    key := k;
    ghost var seen := world.trace;
    err := EnsureColumn(world, w, k, ToApprove, amount, from, around);
    SawBefore(world.start, seen, world.trace, from, ApprovedDoc(docId, k.projectId));
    if err.Some? { return; }
    seen := world.trace;
    err := InsertRequest(world, w, k, amount, from, around);
    SawBefore(world.start, seen, world.trace, from, ApprovedDoc(docId, k.projectId));
    SawBefore(world.start, seen, world.trace, from, Enough(k, ToApprove, amount));
  }

  method InsertRequest(world: World, w: Id, key: Key, amount: AmountText, ghost from: nat, around: Surroundings)
    returns (err: Option<Error>)
    requires world.Valid() && LeavesAlone(around, w) && WorkerAt(world.sys, w) == Idle && from <= |world.trace|
    requires ParseAmount(amount).Some?
    modifies world`sys, world`trace, world.db
    ensures world.Valid() && old(world.trace) <= world.trace && WorkerAt(world.sys, w) == Idle
    ensures err.Some? ==>
              err.value == DriverError
              && (around.faults != {} || Saw(world.start, world.trace, from, RequestIdTaken(around.e.newId)))
    ensures err.None? ==> Took(world.start, world.trace, from, CreateRequestStep(around.e.newId, key, amount))
  {
    hide Run, AdvanceWorker, Saw, Took, Stored, ParseAmount;
    err := world.Await(w, 3, around);
    if err.Some? { return; }
    var id := around.e.newId;
    if id <= 0 || id in world.db.issueRequests {
      SawNow(world.start, world.trace, world.trace, from, RequestIdTaken(id));
      return Some(DriverError);
    }
    ghost var before := world.trace;
    err := world.db.CreateIssueRequest(
      id, IssueRequest(key.projectId, key.voucherType, key.unit, Stored(amount), Draft), false);
    world.Take(CreateRequestStep(id, key, amount));
    TookNow(world.start, before, world.trace, from, CreateRequestStep(id, key, amount));
  }

  method SubmitIssueRequest(world: World, w: Id, docId: string, id: Id, around: Surroundings)
    returns (err: Option<Error>)
    requires world.Valid() && LeavesAlone(around, w) && WorkerAt(world.sys, w) == Idle
    modifies world`sys, world`trace, world.db
    ensures world.Valid() && old(world.trace) <= world.trace && WorkerAt(world.sys, w) == Idle
    ensures err == Some(DriverError) ==> around.faults != {}
    ensures err.None? ==> Took(world.start, world.trace, |old(world.trace)|, SubmitStep(id))
    ensures err.None? ==> exists row :: Belongs(world.start, world.trace, |old(world.trace)|, docId, id, row)
    ensures err.Some? ==> MoveRefusal(world.start, world.trace, |old(world.trace)|, docId, id, ToApprove, err.value)
  {
    hide Run, Next, Saw, Took, Belongs, LoadRefusal;
    ghost var from := |world.trace|;
    var loaded := LoadIssueRequestForDoc(world, w, docId, id, from, around);
    if loaded.Failure? { return Some(loaded.error); }
    var row := loaded.value;
    if !TransitionAllowed(row.status, ToApprove) {
      assert RowRefusal(world.start, world.trace, from, row, ToApprove, InvalidTransition);
      return Some(InvalidTransition);
    }
    ghost var earlier := world.trace;
    err := EnsureColumn(world, w, RequestKey(row), ToApprove, AmountOf(row), from, around);
    BelongedBefore(world.start, earlier, world.trace, from, docId, id, row);
    if err.Some? {
      DriverErrorNeedsNoReason(world.start, world.trace, from, docId, id);
      assert err != Some(DriverError) ==> RowRefusal(world.start, world.trace, from, row, ToApprove, err.value);
      return;
    }
    ghost var seen := world.trace;
    err := SubmitLocked(world, w, docId, id, from, around);
    BelongedBefore(world.start, seen, world.trace, from, docId, id, row);
  }

  lemma DriverErrorNeedsNoReason(start: Sys, trace: seq<Step>, from: nat, docId: string, id: Id)
    ensures LoadRefusal(start, trace, from, docId, id, DriverError)
  {
  }

  /** Others act between the reads and the lock. */
  method SubmitLocked(world: World, w: Id, docId: string, id: Id, ghost from: nat, around: Surroundings)
    returns (err: Option<Error>)
    requires world.Valid() && LeavesAlone(around, w) && WorkerAt(world.sys, w) == Idle && from <= |world.trace|
    modifies world`sys, world`trace, world.db
    ensures world.Valid() && old(world.trace) <= world.trace && WorkerAt(world.sys, w) == Idle
    ensures err == Some(DriverError) ==> around.faults != {}
    ensures err.None? ==> Took(world.start, world.trace, from, SubmitStep(id))
    ensures err.Some? ==> MoveRefusal(world.start, world.trace, from, docId, id, ToApprove, err.value)
  {
    hide Run, AdvanceWorker, Saw, Took, CanSubmit, LockedRefusal;
    err := world.Await(w, 3, around);
    if err.Some? { return; }
    ghost var before := world.trace;
    err := CommitSubmission(world.db, id, around.faults);
    if err.None? {
      world.Take(SubmitStep(id));
      TookNow(world.start, before, world.trace, from, SubmitStep(id));
    } else if err != Some(DriverError) {
      SawNow(world.start, before, world.trace, from, RefusedUnderLock(id, ToApprove, err.value));
    }
  }

  function DecisionStep(id: Id, target: ReviewStatus): Step {
    if target == Approved then ApproveStep(id) else RejectStep(id)
  }

  /** Approval looks at the withheld column before it takes the lock, rejection does not. An approval
      is announced after it is committed; when that fails, so does the call, but the approval stays. */
  method ApproveIssueRequest(world: World, w: Id, docId: string, id: Id, target: ReviewStatus, around: Surroundings)
    returns (err: Option<Error>, announced: bool)
    requires world.Valid() && LeavesAlone(around, w) && WorkerAt(world.sys, w) == Idle
    modifies world`sys, world`trace, world.db
    ensures world.Valid() && old(world.trace) <= world.trace && WorkerAt(world.sys, w) == Idle
    ensures err == Some(DriverError) ==> around.faults != {}
    ensures err.None? || announced ==> Took(world.start, world.trace, |old(world.trace)|, DecisionStep(id, target))
    ensures err.None? ==> exists row :: Belongs(world.start, world.trace, |old(world.trace)|, docId, id, row)
    ensures announced <==> err.None? && target == Approved
    ensures err.Some? ==> (err.value == Error.Rejected && target != Approved && target != ReviewStatus.Rejected)
                          || MoveRefusal(world.start, world.trace, |old(world.trace)|, docId, id, target, err.value)
  {
    hide Run, Next, Saw, Took, Belongs, LoadRefusal;
    announced := false;
    ghost var from := |world.trace|;
    var loaded := LoadIssueRequestForDoc(world, w, docId, id, from, around);
    if loaded.Failure? { return Some(loaded.error), false; }
    var row := loaded.value;
    if target != Approved && target != ReviewStatus.Rejected { return Some(Error.Rejected), false; }
    if !TransitionAllowed(row.status, target) {
      assert RowRefusal(world.start, world.trace, from, row, target, InvalidTransition);
      return Some(InvalidTransition), false;
    }
    if target == Approved {
      ghost var earlier := world.trace;
      err := EnsureColumn(world, w, RequestKey(row), Approved, AmountOf(row), from, around);
      BelongedBefore(world.start, earlier, world.trace, from, docId, id, row);
      if err.Some? {
        DriverErrorNeedsNoReason(world.start, world.trace, from, docId, id);
        assert err != Some(DriverError) ==> RowRefusal(world.start, world.trace, from, row, Approved, err.value);
        return;
      }
    }
    ghost var seen := world.trace;
    err := DecideLocked(world, w, docId, id, target, from, around);
    BelongedBefore(world.start, seen, world.trace, from, docId, id, row);
    if err.None? && target == Approved {
      if 4 in around.faults {
        DriverErrorNeedsNoReason(world.start, world.trace, from, docId, id);
        return Some(DriverError), false;
      }
      announced := true;
    }
  }

  method DecideLocked(world: World, w: Id, docId: string, id: Id, target: ReviewStatus, ghost from: nat,
                      around: Surroundings)
    returns (err: Option<Error>)
    requires world.Valid() && LeavesAlone(around, w) && WorkerAt(world.sys, w) == Idle && from <= |world.trace|
    requires target == Approved || target == ReviewStatus.Rejected
    modifies world`sys, world`trace, world.db
    ensures world.Valid() && old(world.trace) <= world.trace && WorkerAt(world.sys, w) == Idle
    ensures err == Some(DriverError) ==> around.faults != {}
    ensures err.None? ==> Took(world.start, world.trace, from, DecisionStep(id, target))
    ensures err.Some? ==> MoveRefusal(world.start, world.trace, from, docId, id, target, err.value)
  {
    hide Run, AdvanceWorker, Saw, Took, CanDecide, LockedRefusal, Approve, Reject, RowRefusal, ProjectBudgetFor;
    err := world.Await(w, 3, around);
    if err.Some? { return; }
    ghost var before := world.trace;
    err := CommitDecision(world.db, id, target, around.faults);
    if err.None? {
      world.Take(DecisionStep(id, target));
      TookNow(world.start, before, world.trace, from, DecisionStep(id, target));
    } else if err != Some(DriverError) {
      SawNow(world.start, before, world.trace, from, RefusedUnderLock(id, target, err.value));
    }
  }

  /** The update event, as often as it is delivered. The id the database gives a new row is fresh;
      anything else counts as its failure. */
  method ProcessUpdateEvent(world: World, w: Id, id: Id, translated: bool, around: Surroundings)
    returns (err: Option<Error>)
    requires world.Valid() && LeavesAlone(around, w) && WorkerAt(world.sys, w) == Idle
    modifies world`sys, world`trace, world.db
    ensures world.Valid() && old(world.trace) <= world.trace && WorkerAt(world.sys, w) == Idle
    ensures var start, trace, from := world.start, world.trace, |old(world.trace)|;
            match err
            case None =>
              || Took(start, trace, from, StartIssueBudgetStep(id, around.e.newId, translated))
              || Saw(start, trace, from, NoRequest(id))
              || exists row: IssueRequest :: row.status != Approved && Saw(start, trace, from, RequestRow(id, row))
            case Some(e) =>
              || (e == DriverError && (around.faults != {} || Saw(start, trace, from, IdTaken(around.e.newId))))
              || (e == NotFound && Saw(start, trace, from, NoRequest(id)))
              || (e == DuplicateKey && Saw(start, trace, from, KeyNotRecognised(id, translated)))
  {
    hide Run, Next, Saw, Took, StartIssueBudget, Unrecognised;
    ghost var from := |world.trace|;
    err := world.Await(w, 0, around);
    if err.Some? { return; }
    if id !in world.db.issueRequests {
      SawNow(world.start, world.trace, world.trace, from, NoRequest(id));
      return Some(NotFound);
    }
    if world.db.issueRequests[id].status != Approved {
      SawNow(world.start, world.trace, world.trace, from, RequestRow(id, world.db.issueRequests[id]));
      return None;
    }
    err := StartLocked(world, w, id, translated, from, around);
  }

  method StartLocked(world: World, w: Id, id: Id, translated: bool, ghost from: nat, around: Surroundings)
    returns (err: Option<Error>)
    requires world.Valid() && LeavesAlone(around, w) && WorkerAt(world.sys, w) == Idle && from <= |world.trace|
    modifies world`sys, world`trace, world.db
    ensures world.Valid() && old(world.trace) <= world.trace && WorkerAt(world.sys, w) == Idle
    ensures var start, trace := world.start, world.trace;
            match err
            case None =>
              || Took(start, trace, from, StartIssueBudgetStep(id, around.e.newId, translated))
              || Saw(start, trace, from, NoRequest(id))
              || exists row: IssueRequest :: row.status != Approved && Saw(start, trace, from, RequestRow(id, row))
            case Some(e) =>
              || (e == DriverError && (around.faults != {} || Saw(start, trace, from, IdTaken(around.e.newId))))
              || (e == DuplicateKey && Saw(start, trace, from, KeyNotRecognised(id, translated)))
  {
    hide Run, AdvanceWorker, Saw, Took, StartIssueBudget, Unrecognised;
    err := world.Await(w, 1, around);
    if err.Some? { return; }
    var newId := around.e.newId;
    if newId <= 0 || newId in world.db.issueBudgets {
      SawNow(world.start, world.trace, world.trace, from, IdTaken(newId));
      return Some(DriverError);
    }
    ghost var before, t := world.trace, world.db.View();
    err := CommitIssueBudget(world.db, id, newId, translated, around.faults);
    if err.Some? {
      if err != Some(DriverError) {
        SawNow(world.start, before, world.trace, from, KeyNotRecognised(id, translated));
      }
      return;
    }
    world.Take(StartIssueBudgetStep(id, newId, translated));
    if id !in t.issueRequests {
      SawNow(world.start, before, world.trace, from, NoRequest(id));
    } else if t.issueRequests[id].status != Approved {
      SawNow(world.start, before, world.trace, from, RequestRow(id, t.issueRequests[id]));
    } else {
      TookNow(world.start, before, world.trace, from, StartIssueBudgetStep(id, newId, translated));
    }
  }

  method CommitIssueBudget(db: Db, id: Id, newId: Id, translated: bool, faults: set<nat>) returns (err: Option<Error>)
    requires newId > 0 && newId !in db.issueBudgets
    modifies db
    ensures db.View() == if err.None? then StartIssueBudget(old(db.View()), id, newId, translated) else old(db.View())
    ensures err == Some(DriverError) ==> faults != {}
    ensures {10, 11, 12, 13} !! faults && err.Some? ==> Unrecognised(old(db.View()), id, translated)
    ensures err.None? ==> !Unrecognised(old(db.View()), id, translated)
    ensures err.Some? && err != Some(DriverError) ==>
              err.value == DuplicateKey && Unrecognised(old(db.View()), id, translated)
  {
    var snapshot := db.View();
    err := InitInTx(db, id, newId, translated, faults);
    err := Finish(db, snapshot, err, 13 in faults);
  }

  /** Why an edit of a request was refused. */
  ghost predicate EditRefusal(start: Sys, trace: seq<Step>, from: nat, docId: string, id: Id, voucherType: string,
                              unit: string, amount: AmountText, err: Error)
  {
    || LoadRefusal(start, trace, from, docId, id, err)
    || (err == Error.Rejected && (voucherType !in VOUCHER_TYPES || unit !in UNITS || ParseAmount(amount).None?))
    || exists row :: Belongs(start, trace, from, docId, id, row)
                     && ((err == InvalidTransition && !Editable(row.status))
                         || ColumnRefusal(start, trace, from, Key(row.projectId, voucherType, unit), ToApprove, amount,
                                          err))
  }

  /** What an edit looked at before it wrote: known names, an editable request of an approved doc, and
      room for the new amount in the budget of the new pair. */
  ghost predicate EditChecked(start: Sys, trace: seq<Step>, from: nat, docId: string, id: Id, voucherType: string,
                              unit: string, amount: AmountText)
  {
    && voucherType in VOUCHER_TYPES && unit in UNITS && ParseAmount(amount).Some?
    && exists row :: Belongs(start, trace, from, docId, id, row) && Editable(row.status)
                     && Saw(start, trace, from, Enough(Key(row.projectId, voucherType, unit), ToApprove, amount))
  }

  method UpdateIssueRequest(world: World, w: Id, docId: string, id: Id, voucherType: string, unit: string,
                            amount: AmountText, around: Surroundings)
    returns (err: Option<Error>)
    requires world.Valid() && LeavesAlone(around, w) && WorkerAt(world.sys, w) == Idle
    modifies world`sys, world`trace, world.db
    ensures world.Valid() && old(world.trace) <= world.trace && WorkerAt(world.sys, w) == Idle
    ensures err == Some(DriverError) ==> around.faults != {}
    ensures err.None? ==> Wrote(world.start, world.trace, |old(world.trace)|, w, around.e,
                                EditingRequest(id, TrimSpace(voucherType), TrimSpace(unit), Stored(amount)))
    ensures err.None? ==> EditChecked(world.start, world.trace, |old(world.trace)|, docId, id, TrimSpace(voucherType),
                                      TrimSpace(unit), amount)
    ensures err.Some? ==> EditRefusal(world.start, world.trace, |old(world.trace)|, docId, id, TrimSpace(voucherType),
                                      TrimSpace(unit), amount, err.value)
  {
    hide Run, Next, Saw, Wrote, Belongs, LoadRefusal, TrimSpace;
    ghost var from := |world.trace|;
    var loaded := LoadIssueRequestForDoc(world, w, docId, id, from, around);
    if loaded.Failure? { return Some(loaded.error); }
    var row := loaded.value;
    if !Editable(row.status) { return Some(InvalidTransition); }
    var knownType, knownUnit := ValidateVoucherType(voucherType), ValidateUnit(unit);
    if knownType.None? || knownUnit.None? || ParseAmount(amount).None? { return Some(Error.Rejected); }
    err := WriteIfCovered(world, w, docId, id, row, knownType.value, knownUnit.value, amount, from, around);
  }

  /** The edit once its input is parsed: the column is looked up, and then the row is overwritten. */
  method WriteIfCovered(world: World, w: Id, docId: string, id: Id, row: IssueRequest, voucherType: string,
                        unit: string, amount: AmountText, ghost from: nat, around: Surroundings)
    returns (err: Option<Error>)
    requires world.Valid() && LeavesAlone(around, w) && WorkerAt(world.sys, w) == Idle && from <= |world.trace|
    requires Belongs(world.start, world.trace, from, docId, id, row) && Holds(world.db.View(), RequestRow(id, row))
    requires Editable(row.status) && ParseAmount(amount).Some? && voucherType in VOUCHER_TYPES && unit in UNITS
    modifies world`sys, world`trace, world.db
    ensures world.Valid() && old(world.trace) <= world.trace && WorkerAt(world.sys, w) == Idle
    ensures err == Some(DriverError) ==> around.faults != {}
    ensures err.None? ==> Wrote(world.start, world.trace, from, w, around.e,
                                EditingRequest(id, voucherType, unit, Stored(amount)))
    ensures err.None? ==> EditChecked(world.start, world.trace, from, docId, id, voucherType, unit, amount)
    ensures err.Some? ==> EditRefusal(world.start, world.trace, from, docId, id, voucherType, unit, amount, err.value)
  {
    hide Run, AdvanceWorker, Saw, Wrote, Belongs, LoadRefusal, Stored, ParseAmount, Submit, Approve, Reject,
         CreateDoc, ProjectBudgetFor, ColumnRefusal, StartIssueBudget, CreateRequest, AcceptReward;
    ghost var read := world.trace;
    var key, at := Key(row.projectId, voucherType, unit), EditingRequest(id, voucherType, unit, Stored(amount));
    world.Take(BeginEditRequest(w, id, voucherType, unit, amount));
    err := EnsureColumn(world, w, key, ToApprove, amount, from, around);
    ghost var seen := world.trace;
    if err.Some? {
      AfterCrash(world.sys, w);
      world.Take(Crash(w));
    } else {
      err := LandEdit(world, w, at, 3, around);
      SawBefore(world.start, seen, world.trace, from, Enough(key, ToApprove, amount));
    }
    DriverErrorNeedsNoReason(world.start, world.trace, from, docId, id);
    BelongedBefore(world.start, read, world.trace, from, docId, id, row);
    if err.None? {
      WroteSince(world.start, world.trace, |seen|, from, w, around.e, at);
    } else if err != Some(DriverError) {
      ColumnRefusedBefore(world.start, seen, world.trace, from, key, ToApprove, amount, err.value);
    }
  }
}
