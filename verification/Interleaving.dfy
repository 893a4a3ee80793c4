/** The setting a service call runs in: the database object, the asset service, and everybody else.

    `sys` is the state machine of module Workers, kept beside the database. A call takes its statements
    one at a time; before each of them the other workers may take any steps of the machine. Methods of
    the services are proved to keep `Valid()`: whatever they do to the database, with whatever others
    do in between, is a run of the machine. */
module Interleaving {
  import opened Database
  import opened Reachable
  import opened Schema
  import opened Transactions
  import opened VoucherIssuer
  import opened Workers
  import opened Wrappers

  /** What surrounds one call: what others do before its k-th statement, which statements the driver
      fails, and what the risk check, the id generators and the asset service will say. */
  datatype Surroundings = Surroundings(gaps: map<nat, seq<Step>>, faults: set<nat>, e: Env)

  /** The step is one that worker w takes. */
  predicate TakenBy(step: Step, w: Id) {
    match step
    case BeginEditDoc(v, _, _) => v == w
    case BeginMoveDoc(v, _, _) => v == w
    case BeginPayment(v, _, _, _) => v == w
    case BeginInit(v, _) => v == w
    case BeginEditRequest(v, _, _, _, _) => v == w
    case Deliver(v, _) => v == w
    case Advance(v, _) => v == w
    case Crash(v) => v == w
    case _ => false
  }

  predicate TakenByOthers(steps: seq<Step>, w: Id) {
    forall i | 0 <= i < |steps| :: !TakenBy(steps[i], w)
  }

  predicate LeavesAlone(around: Surroundings, w: Id) {
    forall k | k in around.gaps :: TakenByOthers(around.gaps[k], w)
  }

  // ---- Facts about runs ----

  lemma {:induction false} RunAppend(s: Sys, a: seq<Step>, b: seq<Step>)
    ensures Run(s, a + b) == Run(Run(s, a), b)
    decreases |a|
  {
    if a == [] {
      assert a + b == b;
    } else {
      assert (a + b)[1..] == a[1..] + b && (a + b)[0] == a[0];
      RunAppend(Next(s, a[0]), a[1..], b);
    }
  }

  lemma RunOne(s: Sys, step: Step)
    ensures Run(s, [step]) == Next(s, step)
  {
    assert [step][1..] == [];
  }

  lemma StepLeavesAlone(s: Sys, v: Id, c: Worker, e: Env, w: Id)
    requires v != w && !WritesLate(c)
    ensures WorkerAt(AdvanceWorker(s, v, c, e), w) == WorkerAt(s, w)
    ensures AdvanceWorker(s, v, c, e).t.configs == s.t.configs
  {
    hide ProjectBudgetFor, IssueBudgetFor, FirstAvailableForDistribution, RecordByRef, ProjectBudgetOfDoc,
         WithinDocAmount, CanPreOccupy, RecordInsertable, RiskFailureRecord, WithOutcome, Issue, ReplyOf,
         RemoteAfter, TerminalEvent, InsertBudgets, Pay, WriteRequestFields, WriteDocContent, WriteDocStatus;
  }

  lemma AdvanceLeavesAlone(s: Sys, v: Id, c: Worker, e: Env, w: Id)
    requires v != w
    ensures WorkerAt(AdvanceWorker(s, v, c, e), w) == WorkerAt(s, w)
    ensures AdvanceWorker(s, v, c, e).t.configs == s.t.configs
  {
    hide AdvanceWorker, LateWrite;
    if WritesLate(c) {
      LateWriteIsTheStep(s, v, c, e);
      LateWriteFrame(s.t, c, e);
    } else {
      StepLeavesAlone(s, v, c, e, w);
    }
  }

  lemma OthersLeaveAlone(s: Sys, step: Step, w: Id)
    requires !TakenBy(step, w)
    ensures WorkerAt(Next(s, step), w) == WorkerAt(s, w)
  {
    hide AdvanceWorker;
    if step.Advance? {
      AdvanceLeavesAlone(s, step.w, WorkerAt(s, step.w), step.e, w);
    }
  }

  lemma ConfigsStay(s: Sys, step: Step)
    ensures Next(s, step).t.configs == s.t.configs
  {
    hide AdvanceWorker;
    if step.Advance? {
      AdvanceLeavesAlone(s, step.w, WorkerAt(s, step.w), step.e, step.w + 1);
    }
  }

  /** Whatever others do, a worker stays where it is. */
  lemma {:induction false} OthersRunLeavesAlone(s: Sys, steps: seq<Step>, w: Id)
    requires TakenByOthers(steps, w)
    ensures WorkerAt(Run(s, steps), w) == WorkerAt(s, w)
    ensures Run(s, steps).t.configs == s.t.configs
    decreases |steps|
  {
    if steps != [] {
      OthersLeaveAlone(s, steps[0], w);
      ConfigsStay(s, steps[0]);
      OthersRunLeavesAlone(Next(s, steps[0]), steps[1..], w);
    }
  }

  /** A prolonged run is a run, so what a run reaches from a reachable state is reachable. */
  lemma ReachableOn(s: Sys, steps: seq<Step>)
    requires IsReachable(s)
    ensures IsReachable(Run(s, steps))
  {
    var configs, before :| s == Run(Init(configs), before);
    RunAppend(Init(configs), before, steps);
  }

  lemma ReachableLater(start: Sys, a: seq<Step>, b: seq<Step>)
    requires a <= b && IsReachable(Run(start, a))
    ensures IsReachable(Run(start, b))
  {
    RunAppend(start, a, b[|a|..]);
    assert b == a + b[|a|..];
    ReachableOn(Run(start, a), b[|a|..]);
  }

  class World {
    const db: Db
    var sys: Sys
    ghost var start: Sys
    ghost var trace: seq<Step>

    /** The machine has come to `sys` by the steps recorded. */
    ghost predicate Tracked()
      reads this
    {
      sys == Run(start, trace)
    }

    /** ... and the database holds the tables of `sys`. */
    ghost predicate Valid()
      reads this, db
    {
      Tracked() && sys.t == db.View()
    }

    constructor (db: Db, asset: Remote)
      ensures Valid() && this.db == db && trace == []
      ensures sys == Sys(db.View(), map[], asset, [], [], [])
    {
      this.db := db;
      var s := Sys(db.View(), map[], asset, [], [], []);
      sys, start, trace := s, s, [];
    }

    /** The machine takes the step that the call has just carried out. */
    method Take(step: Step)
      requires Tracked()
      modifies this`sys, this`trace
      ensures Tracked() && sys == Next(old(sys), step) && trace == old(trace) + [step]
    {
      RunAppend(start, trace, [step]);
      RunOne(sys, step);
      sys, trace := Next(sys, step), trace + [step];
    }

    method Elsewhere(steps: seq<Step>, ghost w: Id)
      requires Valid() && TakenByOthers(steps, w)
      modifies this`sys, this`trace, db
      ensures Valid() && trace == old(trace) + steps
      ensures WorkerAt(sys, w) == old(WorkerAt(sys, w))
    {
      RunAppend(start, trace, steps);
      OthersRunLeavesAlone(sys, steps, w);
      sys, trace := Run(sys, steps), trace + steps;
      db.Rollback(sys.t);
    }

    /** Before the k-th statement of a call: others act, and then the driver may fail, upon which the
        call is over. */
    method Await(w: Id, k: nat, around: Surroundings) returns (err: Option<Error>)
      requires Valid() && LeavesAlone(around, w)
      modifies this`sys, this`trace, db
      ensures Valid() && old(trace) <= trace
      ensures err.None? ==> WorkerAt(sys, w) == old(WorkerAt(sys, w))
      ensures err.Some? ==> WorkerAt(sys, w) == Idle && err.value == DriverError && k in around.faults
    {
      if k in around.gaps {
        Elsewhere(around.gaps[k], w);
      }
      if k in around.faults {
        Take(Crash(w));
        return Some(DriverError);
      }
      return None;
    }
  }

  // ---- What a call did ----

  /** The database accepts the write: a payment keeps its guard, and new rows violate no key. */
  predicate TakesHold(t: Tables, c: Worker, e: Env) {
    match c
    case Paying(_, _, budgetId, amount, cap) => PaymentAllowed(t, e.paymentId, budgetId, amount, cap)
    case Initialising(docId, projectId, items) => CanInsertBudgets(t, docId, projectId, items, e.budgetIds)
    case _ => true
  }

  /** In the steps from `from` on, the worker stood at `at` and then made its write, which took hold. */
  ghost predicate Wrote(start: Sys, trace: seq<Step>, from: nat, w: Id, e: Env, at: Worker) {
    exists i :: WroteAt(start, trace, from, w, e, at, i) && TakesHold(Run(start, trace[..i]).t, at, e)
  }

  ghost predicate WroteAt(start: Sys, trace: seq<Step>, from: nat, w: Id, e: Env, at: Worker, i: int) {
    from <= i < |trace| && trace[i] == Advance(w, e) && WorkerAt(Run(start, trace[..i]), w) == at
  }

  lemma WroteSince(start: Sys, trace: seq<Step>, from: nat, early: nat, w: Id, e: Env, at: Worker)
    requires early <= from && Wrote(start, trace, from, w, e, at)
    ensures Wrote(start, trace, early, w, e, at)
  {
    hide TakesHold, Next;
    var i :| WroteAt(start, trace, from, w, e, at, i) && TakesHold(Run(start, trace[..i]).t, at, e);
    assert WroteAt(start, trace, early, w, e, at, i);
  }

  lemma FromLateWrite(s: Sys, w: Id, c: Worker, e: Env)
    requires WorkerAt(s, w) == c && WritesLate(c)
    ensures WorkerAt(Next(s, Advance(w, e)), w) == Idle && Next(s, Advance(w, e)).t == LateWrite(s.t, c, e)
  {
    LateWriteIsTheStep(s, w, c, e);
  }

  lemma AfterCrash(s: Sys, w: Id)
    ensures Next(s, Crash(w)).t == s.t && WorkerAt(Next(s, Crash(w)), w) == Idle
  {
  }

  /** The write half of an edit, before which others act: it does not look again. */
  method LandEdit(world: World, w: Id, at: Worker, k: nat, around: Surroundings) returns (err: Option<Error>)
    requires world.Valid() && LeavesAlone(around, w) && WorkerAt(world.sys, w) == at
    requires at.EditingDoc? || at.MovingDoc? || at.EditingRequest?
    modifies world`sys, world`trace, world.db
    ensures world.Valid() && old(world.trace) <= world.trace && WorkerAt(world.sys, w) == Idle
    ensures err.Some? ==> err.value == DriverError && k in around.faults
    ensures err.None? ==> Wrote(world.start, world.trace, |old(world.trace)|, w, around.e, at)
  {
    hide Run, Next, WriteDocContent, WriteDocStatus, WriteRequestFields;
    ghost var from := |world.trace|;
    err := world.Await(w, k, around);
    if err.Some? { return; }
    FromLateWrite(world.sys, w, at, around.e);
    match at {
      case EditingDoc(docId, detail) => err := world.db.UpdateDocContent(docId, detail, false);
      case MovingDoc(docId, target) => err := world.db.UpdateDocStatus(docId, target, false);
      case EditingRequest(id, voucherType, unit, units) =>
        err := world.db.UpdateFields(id, voucherType, unit, units, false);
    }
    ghost var before := world.trace;
    world.Take(Advance(w, around.e));
    assert world.trace[..|before|] == before;
    assert WroteAt(world.start, world.trace, from, w, around.e, at, |before|);
  }
}
