/** Finance docs, the budgets opened from them, and payments: calls whose checks and writes are separate
    statements, each proved to be a path of the state machine whatever others do in between. */
module FundingService {
  import opened Amounts
  import opened BudgetItems
  import opened Database
  import opened Interleaving
  import opened Reachable
  import opened Schema
  import opened Transactions
  import opened Workers
  import opened Wrappers

  // ---- Why a call is refused ----

  datatype Call =
    | OpenDoc(docId: string, projectId: Id, detail: seq<DetailLine>, projects: set<Id>)
    | EditDoc(docId: string, detail: seq<DetailLine>)
    | MoveDoc(docId: string, target: ReviewStatus)
    | OpenBudgets(docId: string, translated: bool)
    | MakePayment(docId: string, address: string, amount: AmountText)

  ghost predicate Refusal(s: Sys, w: Id, e: Env, call: Call, err: Error) {
    var t, c := s.t, WorkerAt(s, w);
    match err
    case DriverError => true
    case NotFound => Missing(t, c, call)
    case InvalidTransition => WrongStatus(t, call)
    case Rejected => Unacceptable(t, call)
    case Insufficient => call.MakePayment? && OverCap(t, c, call)
    case DuplicateKey =>
      || (call.OpenBudgets? && c.Initialising? && c.docId == call.docId
          && !CanInsertBudgets(t, c.docId, c.projectId, c.items, e.budgetIds))
      || (call.MakePayment? && e.paymentId in t.payments)
      || (call.OpenDoc? && !DocInsertable(t, call.docId, FinanceDoc(call.projectId, call.detail, Draft)))
  }

  ghost predicate Missing(t: Tables, c: Worker, call: Call) {
    match call
    case OpenDoc(_, projectId, _, projects) => projectId !in projects
    case EditDoc(docId, _) => docId !in t.docs
    case MoveDoc(docId, _) => docId !in t.docs
    case OpenBudgets(docId, _) => docId !in t.docs
    case MakePayment(docId, address, _) =>
      docId !in t.docs || address !in t.configs || (c.Paying? && c.budgetId !in t.projectBudgets)
      || ProjectBudgetOfDoc(t, docId, t.configs[address].voucherType, t.configs[address].unit).None?
  }

  ghost predicate WrongStatus(t: Tables, call: Call) {
    match call
    case OpenDoc(_, _, _, _) => false
    case EditDoc(docId, _) => docId in t.docs && !Editable(t.docs[docId].status)
    case MoveDoc(docId, target) => docId in t.docs && !TransitionAllowed(t.docs[docId].status, target)
    case OpenBudgets(docId, _) => docId in t.docs && t.docs[docId].status != Approved
    case MakePayment(docId, _, _) => docId in t.docs && t.docs[docId].status != Approved
  }

  ghost predicate Unacceptable(t: Tables, call: Call) {
    match call
    case OpenDoc(_, projectId, detail, _) => projectId <= 0 || !Acceptable(t.configs, detail)
    case EditDoc(_, detail) => !Acceptable(t.configs, detail)
    case MoveDoc(_, _) => false
    case OpenBudgets(docId, _) => docId in t.docs && !Acceptable(t.configs, t.docs[docId].detail)
    case MakePayment(docId, address, amount) =>
      docId == "" || address == "" || ParseAmount(amount).None?
      || (docId in t.docs && DetailAmount(t.docs[docId].detail, address).None?)
  }

  /** The total of the budget paid into would exceed the amount the worker read from the doc. */
  ghost predicate OverCap(t: Tables, c: Worker, call: Call)
    requires call.MakePayment?
  {
    || (c.Priced? && c.docId == call.docId && c.address == call.address && c.address in t.configs
        && var pair := t.configs[c.address];
           var b := ProjectBudgetOfDoc(t, c.docId, pair.voucherType, pair.unit);
           b.Some? && !WithinDocAmount(t.projectBudgets[b.value].total, call.amount, c.cap))
    || (c.Paying? && c.docId == call.docId && c.address == call.address && c.budgetId in t.projectBudgets
        && !WithinDocAmount(t.projectBudgets[c.budgetId].total, call.amount, c.cap))
  }

  ghost predicate Justified(start: Sys, trace: seq<Step>, from: nat, w: Id, e: Env, call: Call, err: Error) {
    exists i :: JustifiedAt(start, trace, from, w, e, call, err, i)
  }

  ghost predicate JustifiedAt(start: Sys, trace: seq<Step>, from: nat, w: Id, e: Env, call: Call, err: Error, i: int) {
    from <= i <= |trace| && Refusal(Run(start, trace[..i]), w, e, call, err)
  }

  lemma RefusedNow(start: Sys, before: seq<Step>, trace: seq<Step>, from: nat, w: Id, e: Env, call: Call, err: Error,
                   at: Worker)
    requires from <= |before| && before <= trace && Refusal(Run(start, before), w, e, call, err)
    ensures Ends(start, trace, from, w, e, call, Some(err), at)
  {
    assert trace[..|before|] == before;
    assert JustifiedAt(start, trace, from, w, e, call, err, |before|);
  }

  /** How a call ends. Without an error, its write was made and took hold, or it recognised that the
      budgets exist; with one, something in the tables it saw justified refusing it. */
  ghost predicate Ends(start: Sys, trace: seq<Step>, from: nat, w: Id, e: Env, call: Call, err: Option<Error>,
                       at: Worker)
  {
    match err
    case None =>
      || Wrote(start, trace, from, w, e, at)
      || (call.OpenBudgets? && call.translated && Justified(start, trace, from, w, e, call, DuplicateKey))
    case Some(reason) => Justified(start, trace, from, w, e, call, reason)
  }

  lemma WroteNow(start: Sys, before: seq<Step>, trace: seq<Step>, from: nat, w: Id, e: Env, call: Call, at: Worker)
    requires from <= |before| && trace == before + [Advance(w, e)] && WorkerAt(Run(start, before), w) == at
    requires TakesHold(Run(start, before).t, at, e)
    ensures Ends(start, trace, from, w, e, call, None, at)
  {
    hide Run, TakesHold;
    assert trace[..|before|] == before;
    assert WroteAt(start, trace, from, w, e, at, |before|);
  }

  lemma RecognisedNow(start: Sys, before: seq<Step>, trace: seq<Step>, from: nat, w: Id, e: Env, call: Call, at: Worker)
    requires from <= |before| && before <= trace && Refusal(Run(start, before), w, e, call, DuplicateKey)
    requires call.OpenBudgets? && call.translated
    ensures Ends(start, trace, from, w, e, call, None, at)
  {
    hide Run, Refusal;
    RefusedNow(start, before, trace, from, w, e, call, DuplicateKey, at);
  }

  lemma JustifiedSince(start: Sys, trace: seq<Step>, from: nat, early: nat, w: Id, e: Env, call: Call, err: Error)
    requires early <= from && Justified(start, trace, from, w, e, call, err)
    ensures Justified(start, trace, early, w, e, call, err)
  {
    hide Run, Refusal;
    var i :| JustifiedAt(start, trace, from, w, e, call, err, i);
    assert JustifiedAt(start, trace, early, w, e, call, err, i);
  }

  lemma EndsEarlier(start: Sys, trace: seq<Step>, from: nat, early: nat, w: Id, e: Env, call: Call, err: Option<Error>,
                    at: Worker)
    requires early <= from && Ends(start, trace, from, w, e, call, err, at)
    ensures Ends(start, trace, early, w, e, call, err, at)
  {
    hide Wrote, Justified;
    if err.None? && Wrote(start, trace, from, w, e, at) {
      WroteSince(start, trace, from, early, w, e, at);
    } else {
      JustifiedSince(start, trace, from, early, w, e, call, if err.None? then DuplicateKey else err.value);
    }
  }

  // ---- What the machine does ----

  lemma FromPriced(s: Sys, w: Id, c: Worker, e: Env)
    requires WorkerAt(s, w) == c && c.Priced? && c.address in s.t.configs
    ensures var s' := Next(s, Advance(w, e)); var pair := s.t.configs[c.address];
            && s'.t == s.t
            && WorkerAt(s', w) ==
               match ProjectBudgetOfDoc(s.t, c.docId, pair.voucherType, pair.unit)
               case None => Idle
               case Some(b) =>
                 if WithinDocAmount(s.t.projectBudgets[b].total, c.amount, c.cap)
                 then Paying(c.docId, c.address, b, c.amount, c.cap) else Idle
  {
    hide ProjectBudgetOfDoc, WithinDocAmount;
  }

  // ---- Finance docs ----

  /** The doc was created by a step from `from` on that found no doc of its id or its project. */
  ghost predicate Created(start: Sys, trace: seq<Step>, from: nat, docId: string, projectId: Id,
                          detail: seq<DetailLine>)
  {
    exists i :: CreatedAt(start, trace, from, docId, projectId, detail, i)
  }

  ghost predicate CreatedAt(start: Sys, trace: seq<Step>, from: nat, docId: string, projectId: Id,
                            detail: seq<DetailLine>, i: int)
  {
    && from <= i < |trace| && trace[i] == CreateDocStep(docId, projectId, detail)
    && var t := Run(start, trace[..i]).t;
       Acceptable(t.configs, detail) && DocInsertable(t, docId, FinanceDoc(projectId, detail, Draft))
  }

  lemma CreatedNow(start: Sys, before: seq<Step>, trace: seq<Step>, from: nat, docId: string, projectId: Id,
                   detail: seq<DetailLine>)
    requires from <= |before| && trace == before + [CreateDocStep(docId, projectId, detail)]
    requires var t := Run(start, before).t;
             Acceptable(t.configs, detail) && DocInsertable(t, docId, FinanceDoc(projectId, detail, Draft))
    ensures Created(start, trace, from, docId, projectId, detail)
  {
    assert trace[..|before|] == before;
    assert CreatedAt(start, trace, from, docId, projectId, detail, |before|);
  }

  lemma RefusedToOpen(start: Sys, trace: seq<Step>, from: nat, w: Id, e: Env, docId: string, projectId: Id,
                      detail: seq<DetailLine>, projects: set<Id>, err: Error)
    requires from <= |trace|
    requires match err
             case DriverError => true
             case NotFound => projectId !in projects
             case Rejected => projectId <= 0 || !Acceptable(Run(start, trace).t.configs, detail)
             case DuplicateKey => !DocInsertable(Run(start, trace).t, docId, FinanceDoc(projectId, detail, Draft))
             case Insufficient => false
             case InvalidTransition => false
    ensures Justified(start, trace, from, w, e, OpenDoc(docId, projectId, detail, projects), err)
  {
    hide Run;
    RefusedNow(start, trace, trace, from, w, e, OpenDoc(docId, projectId, detail, projects), err, Idle);
  }

  /** `projects` are the projects there are, which never vanish. That a project has no doc yet is read
      first; what decides is the unique key. */
  method CreateFinanceDoc(world: World, w: Id, docId: string, projectId: Id, detail: seq<DetailLine>, projects: set<Id>,
                          around: Surroundings)
    returns (err: Option<Error>)
    requires world.Valid() && LeavesAlone(around, w) && WorkerAt(world.sys, w) == Idle
    modifies world`sys, world`trace, world.db
    ensures world.Valid() && old(world.trace) <= world.trace && WorkerAt(world.sys, w) == Idle
    ensures err == Some(DriverError) ==> around.faults != {}
    ensures err.None? ==> Created(world.start, world.trace, |old(world.trace)|, docId, projectId, detail)
    ensures err.Some? ==> Justified(world.start, world.trace, |old(world.trace)|, w, around.e,
                                    OpenDoc(docId, projectId, detail, projects), err.value)
  {
    hide Run, Next, Justified, CreatedAt;
    ghost var from := |world.trace|;
    if projectId <= 0 || detail == [] {
      RefusedToOpen(world.start, world.trace, from, w, around.e, docId, projectId, detail, projects, Error.Rejected);
      return Some(Error.Rejected);
    }
    hide Acceptable, CleanUpTo, ErrorAt;
    err := world.Await(w, 0, around);
    if err.None? && projectId !in projects { err := Some(NotFound); }
    if err.None? {
      err := world.Await(w, 1, around);
      if err.None? && exists d | d in world.db.docs :: world.db.docs[d].projectId == projectId {
        err := Some(DuplicateKey);
      }
    }
    if err.None? {
      var items, _ := ResolveBudgetItems(world.db.configs, detail);
      if items.Failure? { err := Some(Error.Rejected); }
    }
    if err.Some? {
      RefusedToOpen(world.start, world.trace, from, w, around.e, docId, projectId, detail, projects, err.value);
      return;
    }
    err := InsertDoc(world, w, docId, projectId, detail, projects, from, around);
  }

  method InsertDoc(world: World, w: Id, docId: string, projectId: Id, detail: seq<DetailLine>, projects: set<Id>,
                   ghost from: nat, around: Surroundings)
    returns (err: Option<Error>)
    requires world.Valid() && LeavesAlone(around, w) && WorkerAt(world.sys, w) == Idle
    requires Acceptable(world.db.configs, detail) && from <= |world.trace|
    modifies world`sys, world`trace, world.db
    ensures world.Valid() && old(world.trace) <= world.trace && WorkerAt(world.sys, w) == Idle
    ensures err == Some(DriverError) ==> around.faults != {}
    ensures err.None? ==> Created(world.start, world.trace, from, docId, projectId, detail)
    ensures err.Some? ==> Justified(world.start, world.trace, from, w, around.e,
                                    OpenDoc(docId, projectId, detail, projects), err.value)
  {
    hide Run, AdvanceWorker, Acceptable, Justified, CreatedAt;
    err := world.Await(w, 2, around);
    if err.None? {
      ghost var before := world.trace;
      err := world.db.CreateFinanceDoc(docId, FinanceDoc(projectId, detail, Draft), false);
      if err.None? {
        world.Take(CreateDocStep(docId, projectId, detail));
        CreatedNow(world.start, before, world.trace, from, docId, projectId, detail);
        return;
      }
    }
    RefusedToOpen(world.start, world.trace, from, w, around.e, docId, projectId, detail, projects, err.value);
  }

  method UpdateFinanceDoc(world: World, w: Id, docId: string, detail: seq<DetailLine>, around: Surroundings)
    returns (err: Option<Error>, ghost at: Worker)
    requires world.Valid() && LeavesAlone(around, w) && WorkerAt(world.sys, w) == Idle
    modifies world`sys, world`trace, world.db
    ensures world.Valid() && old(world.trace) <= world.trace && WorkerAt(world.sys, w) == Idle
    ensures err == Some(DriverError) ==> around.faults != {}
    ensures Ends(world.start, world.trace, |old(world.trace)|, w, around.e, EditDoc(docId, detail), err, at)
    ensures at == EditingDoc(docId, detail)
  {
    hide Run, AdvanceWorker, Acceptable, CleanUpTo, ErrorAt, Wrote, Justified;
    at := EditingDoc(docId, detail);
    ghost var from, call := |world.trace|, EditDoc(docId, detail);
    err := world.Await(w, 0, around);
    if err.None? {
      var items, _ := ResolveBudgetItems(world.db.configs, detail);
      err := if docId !in world.db.docs then Some(NotFound)
             else if !Editable(world.db.docs[docId].status) then Some(InvalidTransition)
             else if items.Failure? then Some(Error.Rejected) else None;
    }
    if err.Some? {
      RefusedNow(world.start, world.trace, world.trace, from, w, around.e, call, err.value, at);
      return;
    }
    world.Take(BeginEditDoc(w, docId, detail));
    ghost var mid := |world.trace|;
    err := LandEdit(world, w, EditingDoc(docId, detail), 1, around);
    if err.Some? {
      RefusedNow(world.start, world.trace, world.trace, from, w, around.e, call, DriverError, at);
      return;
    }
    WroteSince(world.start, world.trace, mid, from, w, around.e, at);
  }

  method UpdateFinanceDocStatus(world: World, w: Id, docId: string, target: ReviewStatus, around: Surroundings)
    returns (err: Option<Error>, ghost at: Worker)
    requires world.Valid() && LeavesAlone(around, w) && WorkerAt(world.sys, w) == Idle
    modifies world`sys, world`trace, world.db
    ensures world.Valid() && old(world.trace) <= world.trace && WorkerAt(world.sys, w) == Idle
    ensures err == Some(DriverError) ==> around.faults != {}
    ensures Ends(world.start, world.trace, |old(world.trace)|, w, around.e, MoveDoc(docId, target), err, at)
    ensures at == MovingDoc(docId, target)
  {
    hide Run, AdvanceWorker, TransitionAllowed, Wrote, Justified;
    at := MovingDoc(docId, target);
    ghost var from, call := |world.trace|, MoveDoc(docId, target);
    err := world.Await(w, 0, around);
    if err.None? {
      err := if docId !in world.db.docs then Some(NotFound)
             else if !TransitionAllowed(world.db.docs[docId].status, target) then Some(InvalidTransition) else None;
    }
    if err.Some? {
      RefusedNow(world.start, world.trace, world.trace, from, w, around.e, call, err.value, at);
      return;
    }
    world.Take(BeginMoveDoc(w, docId, target));
    ghost var mid := |world.trace|;
    err := LandEdit(world, w, MovingDoc(docId, target), 1, around);
    if err.Some? {
      RefusedNow(world.start, world.trace, world.trace, from, w, around.e, call, DriverError, at);
      return;
    }
    WroteSince(world.start, world.trace, mid, from, w, around.e, at);
  }

  // ---- Budgets of an approved doc ----

  method InsertInTx(db: Db, docId: string, projectId: Id, items: seq<BudgetItem>, ids: seq<Id>, faults: set<nat>)
    returns (err: Option<Error>)
    requires docId in db.docs && |ids| == |items|
    modifies db
    ensures err.None? <==> {10, 11} !! faults && CanInsertBudgets(old(db.View()), docId, projectId, items, ids)
    ensures err.Some? ==> err.value == DriverError
                          || (err.value == DuplicateKey
                              && !CanInsertBudgets(old(db.View()), docId, projectId, items, ids))
    ensures err == Some(DriverError) ==> faults != {}
    ensures db.View() == if err.None? then InsertBudgets(old(db.View()), docId, projectId, items, ids)
                         else old(db.View())
  {
    var snapshot := db.View();
    err := db.BatchCreate(ids, ZeroBudgets(docId, projectId, items), 10 in faults);
    err := Finish(db, snapshot, err, 11 in faults);
  }

  /** The approved event, as often as it is delivered. `translated` tells whether a duplicate key is
      recognised as budgets that exist already, which ends the call without an error. The database hands
      out one id per row; anything else counts as its failure. */
  method InitFromApprovedDoc(world: World, w: Id, docId: string, translated: bool, around: Surroundings)
    returns (err: Option<Error>, ghost at: Worker)
    requires world.Valid() && LeavesAlone(around, w) && WorkerAt(world.sys, w) == Idle
    modifies world`sys, world`trace, world.db
    ensures world.Valid() && old(world.trace) <= world.trace && WorkerAt(world.sys, w) == Idle
    ensures Ends(world.start, world.trace, |old(world.trace)|, w, around.e, OpenBudgets(docId, translated), err, at)
    ensures err.None? ==> at.Initialising? && at.docId == docId
    ensures err == Some(DuplicateKey) ==> !translated
  {
    hide Run, Ends, AdvanceWorker, InsertBudgets, CanInsertBudgets;
    at := Idle;
    ghost var from, call := |world.trace|, OpenBudgets(docId, translated);
    err := world.Await(w, 0, around);
    if err.None? {
      err := if docId !in world.db.docs then Some(NotFound)
             else if world.db.docs[docId].status != Approved then Some(InvalidTransition) else None;
    }
    if err.Some? {
      RefusedNow(world.start, world.trace, world.trace, from, w, around.e, call, err.value, at);
      return;
    }
    var doc := world.db.docs[docId];
    var items, _ := ResolveBudgetItems(world.db.configs, doc.detail);
    if items.Failure? {
      RefusedNow(world.start, world.trace, world.trace, from, w, around.e, call, Error.Rejected, at);
      return Some(Error.Rejected), at;
    }
    assert items.value == Items(world.db.configs, doc.detail);
    world.Take(BeginInit(w, docId));
    ghost var mid := |world.trace|;
    err, at := InsertResolved(world, w, docId, doc.projectId, items.value, translated, around);
    EndsEarlier(world.start, world.trace, mid, from, w, around.e, call, err, at);
  }

  method InsertResolved(world: World, w: Id, docId: string, projectId: Id, items: seq<BudgetItem>, translated: bool,
                        around: Surroundings)
    returns (err: Option<Error>, ghost at: Worker)
    requires world.Valid() && LeavesAlone(around, w)
    requires WorkerAt(world.sys, w) == Initialising(docId, projectId, items)
    modifies world`sys, world`trace, world.db
    ensures world.Valid() && old(world.trace) <= world.trace && WorkerAt(world.sys, w) == Idle
    ensures Ends(world.start, world.trace, |old(world.trace)|, w, around.e, OpenBudgets(docId, translated), err, at)
    ensures at == Initialising(docId, projectId, items)
    ensures err == Some(DuplicateKey) ==> !translated
  {
    hide Run, Ends, Next, CanInsertBudgets, InsertedBudgets, ZeroBudgets;
    at := Initialising(docId, projectId, items);
    ghost var from, call := |world.trace|, OpenBudgets(docId, translated);
    err := world.Await(w, 1, around);
    if err.Some? {
      RefusedNow(world.start, world.trace, world.trace, from, w, around.e, call, err.value, at);
      return;
    }
    AfterCrash(world.sys, w);
    FromLateWrite(world.sys, w, at, around.e);
    ghost var before := world.trace;
    if docId !in world.db.docs || |around.e.budgetIds| != |items| {
      err := Some(DriverError);
    } else {
      err := InsertInTx(world.db, docId, projectId, items, around.e.budgetIds, around.faults);
    }
    if err == Some(DriverError) {
      world.Take(Crash(w));
      RefusedNow(world.start, before, world.trace, from, w, around.e, call, DriverError, at);
      return;
    }
    world.Take(Advance(w, around.e));
    if err == Some(DuplicateKey) {
      if translated {
        RecognisedNow(world.start, before, world.trace, from, w, around.e, call, at);
        return None, at;
      }
      RefusedNow(world.start, before, world.trace, from, w, around.e, call, DuplicateKey, at);
      return;
    }
    WroteNow(world.start, before, world.trace, from, w, around.e, call, at);
  }

  // ---- Payments ----

  /** The amount of the first line of the address, if that line has one. */
  method FindApplicationDetailAmount(detail: seq<DetailLine>, address: string) returns (r: Option<AmountText>)
    ensures r == DetailAmount(detail, address)
  {
    for i := 0 to |detail|
      invariant DetailAmount(detail, address) == DetailAmount(detail[i..], address)
    {
      assert detail[i..][1..] == detail[i + 1..];
      if Address(detail[i]) == address {
        return if detail[i].amount == Blank then None else Some(detail[i].amount);
      }
    }
    return None;
  }

  predicate PaymentRefused(t: Tables, paymentId: string, budgetId: Id, amount: AmountText, cap: AmountText,
                           faults: set<nat>, err: Error)
  {
    || (err == DriverError && faults != {})
    || (err == NotFound && budgetId !in t.projectBudgets)
    || (err == Insufficient && budgetId in t.projectBudgets
        && !WithinDocAmount(t.projectBudgets[budgetId].total, amount, cap))
    || (err == DuplicateKey && paymentId in t.payments)
  }

  /** The guard again, under the lock, and then payment and budget together or neither. */
  method CreatePaymentInTx(db: Db, paymentId: string, docId: string, address: string, budgetId: Id,
                           amount: AmountText, cap: AmountText, faults: set<nat>)
    returns (err: Option<Error>)
    modifies db
    ensures err.None? <==> {10, 11, 12} !! faults && PaymentAllowed(old(db.View()), paymentId, budgetId, amount, cap)
    ensures err.Some? ==> PaymentRefused(old(db.View()), paymentId, budgetId, amount, cap, faults, err.value)
    ensures err.None? ==> db.View() == Pay(old(db.View()), paymentId, docId, address, budgetId, amount, cap)
  {
    if 10 in faults { return Some(DriverError); }
    if budgetId !in db.projectBudgets { return Some(NotFound); }
    if !WithinDocAmount(db.projectBudgets[budgetId].total, amount, cap) { return Some(Insufficient); }
    err := db.CreatePayment(paymentId, FinancePayment(docId, address, Stored(amount)), 11 in faults);
    if err.Some? { return; }
    err := db.UpdateTotalAndAvailableAmount(budgetId, Stored(amount), 12 in faults);
  }

  method CommitPayment(db: Db, paymentId: string, docId: string, address: string, budgetId: Id,
                       amount: AmountText, cap: AmountText, faults: set<nat>)
    returns (err: Option<Error>)
    modifies db
    ensures err.None? <==>
              {10, 11, 12, 13} !! faults && PaymentAllowed(old(db.View()), paymentId, budgetId, amount, cap)
    ensures err.Some? ==> PaymentRefused(old(db.View()), paymentId, budgetId, amount, cap, faults, err.value)
    ensures db.View() == if err.None? then Pay(old(db.View()), paymentId, docId, address, budgetId, amount, cap)
                         else old(db.View())
  {
    var snapshot := db.View();
    err := CreatePaymentInTx(db, paymentId, docId, address, budgetId, amount, cap, faults);
    err := Finish(db, snapshot, err, 13 in faults);
  }

  /** A payment ends without error only if its write was made with the guard holding of what was locked. */
  method CreateFinancePayment(world: World, w: Id, docId: string, address: string, amount: AmountText,
                              around: Surroundings)
    returns (err: Option<Error>, ghost at: Worker)
    requires world.Valid() && LeavesAlone(around, w) && WorkerAt(world.sys, w) == Idle
    modifies world`sys, world`trace, world.db
    ensures world.Valid() && old(world.trace) <= world.trace && WorkerAt(world.sys, w) == Idle
    ensures err == Some(DriverError) ==> around.faults != {}
    ensures Ends(world.start, world.trace, |old(world.trace)|, w, around.e, MakePayment(docId, address, amount), err,
                 at)
    ensures err.None? ==> at.Paying? && at.docId == docId && at.address == address && at.amount == amount
  {
    hide Run, Ends, AdvanceWorker, WithinDocAmount, DetailAmount;
    at := Idle;
    ghost var from, call := |world.trace|, MakePayment(docId, address, amount);
    if docId == "" || address == "" || ParseAmount(amount).None? {
      RefusedNow(world.start, world.trace, world.trace, from, w, around.e, call, Error.Rejected, at);
      return Some(Error.Rejected), at;
    }
    err := world.Await(w, 0, around);
    if err.None? {
      err := if docId !in world.db.docs then Some(NotFound)
             else if world.db.docs[docId].status != Approved then Some(InvalidTransition)
             else if address !in world.db.configs then Some(NotFound) else None;
    }
    if err.Some? {
      RefusedNow(world.start, world.trace, world.trace, from, w, around.e, call, err.value, at);
      return;
    }
    var cap := FindApplicationDetailAmount(world.db.docs[docId].detail, address);
    if cap.None? {
      RefusedNow(world.start, world.trace, world.trace, from, w, around.e, call, Error.Rejected, at);
      return Some(Error.Rejected), at;
    }
    world.Take(BeginPayment(w, docId, address, amount));
    ghost var mid := |world.trace|;
    err, at := PayPriced(world, w, Priced(docId, address, amount, cap.value), around);
    EndsEarlier(world.start, world.trace, mid, from, w, around.e, call, err, at);
  }

  method PayPriced(world: World, w: Id, c: Worker, around: Surroundings) returns (err: Option<Error>, ghost at: Worker)
    requires world.Valid() && LeavesAlone(around, w) && WorkerAt(world.sys, w) == c
    requires c.Priced? && c.address in world.db.configs
    modifies world`sys, world`trace, world.db
    ensures world.Valid() && old(world.trace) <= world.trace && WorkerAt(world.sys, w) == Idle
    ensures err == Some(DriverError) ==> around.faults != {}
    ensures Ends(world.start, world.trace, |old(world.trace)|, w, around.e, MakePayment(c.docId, c.address, c.amount),
                 err, at)
    ensures err.None? ==> at.Paying? && at.docId == c.docId && at.address == c.address && at.amount == c.amount
  {
    hide Run, Ends, Next, WithinDocAmount;
    at := Idle;
    ghost var from, call := |world.trace|, MakePayment(c.docId, c.address, c.amount);
    err := world.Await(w, 1, around);
    if err.Some? {
      RefusedNow(world.start, world.trace, world.trace, from, w, around.e, call, err.value, at);
      return;
    }
    FromPriced(world.sys, w, c, around.e);
    var pair := world.db.configs[c.address];
    var budgetId := ProjectBudgetOfDoc(world.db.View(), c.docId, pair.voucherType, pair.unit);
    err := if budgetId.None? then Some(NotFound)
           else if !WithinDocAmount(world.db.projectBudgets[budgetId.value].total, c.amount, c.cap)
             then Some(Insufficient)
           else None;
    ghost var before := world.trace;
    world.Take(Advance(w, around.e));
    if err.Some? {
      RefusedNow(world.start, before, world.trace, from, w, around.e, call, err.value, at);
      return;
    }
    ghost var mid := |world.trace|;
    err, at := PayFound(world, w, Paying(c.docId, c.address, budgetId.value, c.amount, c.cap), around);
    EndsEarlier(world.start, world.trace, mid, from, w, around.e, call, err, at);
  }

  method PayFound(world: World, w: Id, c: Worker, around: Surroundings) returns (err: Option<Error>, ghost at: Worker)
    requires world.Valid() && LeavesAlone(around, w) && WorkerAt(world.sys, w) == c && c.Paying?
    modifies world`sys, world`trace, world.db
    ensures world.Valid() && old(world.trace) <= world.trace && WorkerAt(world.sys, w) == Idle
    ensures err == Some(DriverError) ==> around.faults != {}
    ensures Ends(world.start, world.trace, |old(world.trace)|, w, around.e, MakePayment(c.docId, c.address, c.amount),
                 err, at)
    ensures at == c
  {
    hide Run, Ends, Next, WithinDocAmount, Pay;
    at := c;
    ghost var from, call := |world.trace|, MakePayment(c.docId, c.address, c.amount);
    err := world.Await(w, 2, around);
    if err.Some? {
      RefusedNow(world.start, world.trace, world.trace, from, w, around.e, call, err.value, at);
      return;
    }
    AfterCrash(world.sys, w);
    FromLateWrite(world.sys, w, c, around.e);
    ghost var before := world.trace;
    err := CommitPayment(world.db, around.e.paymentId, c.docId, c.address, c.budgetId, c.amount, c.cap, around.faults);
    if err.Some? {
      world.Take(Crash(w));
      RefusedNow(world.start, before, world.trace, from, w, around.e, call, err.value, at);
      return;
    }
    WroteNow(world.start, before, before + [Advance(w, around.e)], from, w, around.e, call, at);
    world.Take(Advance(w, around.e));
  }
}
