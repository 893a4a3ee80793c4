/** Which issue budget a distribution charges: the first that fitted when the fresh path looked, whatever
    others did before the debit. */
module FirstFit {
  import opened Evolution
  import opened Interleaving
  import opened Ledger
  import opened Reachable
  import opened Schema
  import opened SystemInvariant
  import opened SystemSteps
  import opened Transactions
  import opened Workers
  import opened Wrappers

  /** The lowest-id ongoing issue budget that can pay the amount towards the key. */
  ghost predicate IsFirstFit(t: Tables, k: Key, amount: int, id: Id) {
    Fits(t, id, k, amount) && forall other | Fits(t, other, k, amount) :: id <= other
  }

  /** The fresh path takes the first issue budget that fits, and defers exactly when none does. */
  lemma FirstFitOrDefer(s: Sys, w: Id, c: Worker, e: Env)
    requires WorkerAt(s, w) == c && c.HasProjectBudget?
    ensures var s' := AdvanceWorker(s, w, c, e); var c' := WorkerAt(s', w);
            && s'.moves == s.moves
            && (c' == Idle <==> forall id :: !Fits(s.t, id, RewardKey(c.rr), c.rr.amount))
            && (c' != Idle ==> c' == HasBudgets(c.rewardId, c.rr, c.budgetId, c'.issueBudgetId)
                               && IsFirstFit(s.t, RewardKey(c.rr), c.rr.amount, c'.issueBudgetId))
  {
  }

  // ---- Where choices and debits come from ----

  /** The movement is a debit of what the worker had chosen, or a settlement. */
  predicate MovesChosen(c: Worker, m: Move) {
    m.kind.Debit? ==>
      c.HasBudgets? && m.rewardId == c.rewardId && m.issueBudgetId == c.issueBudgetId && m.amount == c.rr.amount
  }

  predicate OneMoveMore(moves: seq<Move>, moves': seq<Move>, c: Worker) {
    && |moves| <= |moves'| <= |moves| + 1
    && (forall i | 0 <= i < |moves| :: moves'[i] == moves[i])
    && (|moves| < |moves'| ==> MovesChosen(c, moves'[|moves|]))
  }

  lemma AdvanceMoves(s: Sys, w: Id, c: Worker, e: Env)
    requires WorkerAt(s, w) == c && !c.HasProjectBudget?
    ensures var s' := AdvanceWorker(s, w, c, e);
            OneMoveMore(s.moves, s'.moves, c) && (WorkerAt(s', w).HasBudgets? ==> WorkerAt(s', w) == c)
  {
    hide ProjectBudgetFor, IssueBudgetFor, FirstAvailableForDistribution, RecordByRef, ProjectBudgetOfDoc,
         WithinDocAmount, CanPreOccupy, RecordInsertable, RiskFailureRecord, WithOutcome, TerminalEvent, ReplyOf,
         RemoteAfter, InsertBudgets, Pay, WriteRequestFields, WriteDocContent, WriteDocStatus, SnapshotOf, PreOccupy,
         Finalize, FailAtRisk, Complete;
  }

  /** Whoever holds a choice after a step held it before, or has just made it. */
  ghost predicate ChosenNowOrBefore(s: Sys, c: Worker, c': Worker) {
    c'.HasBudgets? ==> c' == c || IsFirstFit(s.t, RewardKey(c'.rr), c'.rr.amount, c'.issueBudgetId)
  }

  lemma StepChooses(s: Sys, step: Step, w: Id)
    ensures ChosenNowOrBefore(s, WorkerAt(s, w), WorkerAt(Next(s, step), w))
    ensures step.Advance? ==> OneMoveMore(s.moves, Next(s, step).moves, WorkerAt(s, step.w))
    ensures !step.Advance? ==> Next(s, step).moves == s.moves
  {
    hide AdvanceWorker, Fits;
    if step.Advance? {
      var c := WorkerAt(s, step.w);
      if c.HasProjectBudget? { FirstFitOrDefer(s, step.w, c, step.e); } else { AdvanceMoves(s, step.w, c, step.e); }
      if w != step.w { AdvanceLeavesAlone(s, step.w, c, step.e, w); }
    }
  }

  // ---- Over runs ----

  /** In some state of the run, with at most `made` movements made, the issue budget was the first to fit. */
  ghost predicate WasFirstFit(start: Sys, steps: seq<Step>, made: int, k: Key, amount: int, id: Id) {
    exists n :: WasFirstFitAt(start, steps, made, k, amount, id, n)
  }

  ghost predicate WasFirstFitAt(start: Sys, steps: seq<Step>, made: int, k: Key, amount: int, id: Id, n: int) {
    && 0 <= n <= |steps|
    && var s := Run(start, steps[..n]); |s.moves| <= made && IsFirstFit(s.t, k, amount, id)
  }

  lemma WasFirstFitLater(start: Sys, steps: seq<Step>, longer: seq<Step>, made: int, more: int, k: Key, amount: int,
                         id: Id)
    requires steps <= longer && made <= more
    ensures WasFirstFit(start, steps, made, k, amount, id) ==> WasFirstFit(start, longer, more, k, amount, id)
    ensures var s := Run(start, steps);
            IsFirstFit(s.t, k, amount, id) && |s.moves| <= more ==> WasFirstFit(start, longer, more, k, amount, id)
  {
    hide Next, IsFirstFit;
    if WasFirstFit(start, steps, made, k, amount, id) {
      var n :| WasFirstFitAt(start, steps, made, k, amount, id, n);
      assert longer[..n] == steps[..n];
      assert WasFirstFitAt(start, longer, more, k, amount, id, n);
    }
    var s := Run(start, steps);
    if IsFirstFit(s.t, k, amount, id) && |s.moves| <= more {
      assert longer[..|steps|] == steps;
      assert WasFirstFitAt(start, longer, more, k, amount, id, |steps|);
    }
  }

  ghost predicate ChoiceFits(start: Sys, steps: seq<Step>, made: int, c: Worker) {
    c.HasBudgets? ==> WasFirstFit(start, steps, made, RewardKey(c.rr), c.rr.amount, c.issueBudgetId)
  }

  ghost predicate DebitFits(start: Sys, steps: seq<Step>, made: int, t: Tables, m: Move) {
    m.kind.Debit? ==>
      m.rewardId in t.rewardRequests
      && WasFirstFit(start, steps, made, RewardKey(t.rewardRequests[m.rewardId]), m.amount, m.issueBudgetId)
  }

  ghost predicate AllFit(start: Sys, steps: seq<Step>, s: Sys) {
    && (forall w | w in s.workers :: ChoiceFits(start, steps, |s.moves|, s.workers[w]))
    && (forall i | 0 <= i < |s.moves| :: DebitFits(start, steps, i, s.t, s.moves[i]))
  }

  lemma ChoiceAt(start: Sys, steps: seq<Step>, s: Sys, w: Id)
    requires AllFit(start, steps, s)
    ensures ChoiceFits(start, steps, |s.moves|, WorkerAt(s, w))
  {
    hide WasFirstFit;
  }

  lemma DebitAt(start: Sys, steps: seq<Step>, s: Sys, i: int)
    requires AllFit(start, steps, s) && 0 <= i < |s.moves|
    ensures DebitFits(start, steps, i, s.t, s.moves[i])
  {
    hide WasFirstFit;
  }

  lemma ChoiceStillFits(start: Sys, steps: seq<Step>, step: Step, s: Sys, w: Id)
    requires s == Run(start, steps) && AllFit(start, steps, s)
    ensures ChoiceFits(start, steps + [step], |Next(s, step).moves|, WorkerAt(Next(s, step), w))
  {
    hide Next, WasFirstFit, IsFirstFit, AllFit;
    ChoiceAt(start, steps, s, w);
    StepChooses(s, step, w);
    var c' := WorkerAt(Next(s, step), w);
    if c'.HasBudgets? {
      WasFirstFitLater(start, steps, steps + [step], |s.moves|, |Next(s, step).moves|, RewardKey(c'.rr), c'.rr.amount,
                       c'.issueBudgetId);
    }
  }

  lemma KeysStay(t: Tables, t': Tables, id: Id)
    requires RewardsKept(t.rewardRequests, t'.rewardRequests) && id in t.rewardRequests
    ensures id in t'.rewardRequests && RewardKey(t'.rewardRequests[id]) == RewardKey(t.rewardRequests[id])
  {
  }

  lemma ChosenRequest(s: Sys, w: Id)
    requires WorkersOk(s.t, s.remote.verdicts, s.workers) && WorkerAt(s, w).HasBudgets?
    ensures var c := WorkerAt(s, w);
            c.rewardId in s.t.rewardRequests && RewardKey(s.t.rewardRequests[c.rewardId]) == RewardKey(c.rr)
  {
    WorkerIsOk(s, w);
  }

  lemma OldDebitFits(start: Sys, steps: seq<Step>, longer: seq<Step>, made: int, t: Tables, t': Tables, m: Move)
    requires DebitFits(start, steps, made, t, m) && steps <= longer
    requires RewardsKept(t.rewardRequests, t'.rewardRequests)
    ensures DebitFits(start, longer, made, t', m)
  {
    hide Next, WasFirstFit, RewardsKept;
    if m.kind.Debit? {
      KeysStay(t, t', m.rewardId);
      WasFirstFitLater(start, steps, longer, made, made, RewardKey(t.rewardRequests[m.rewardId]), m.amount,
                       m.issueBudgetId);
    }
  }

  lemma NewDebitFits(start: Sys, steps: seq<Step>, longer: seq<Step>, s: Sys, w: Id, t': Tables, m: Move)
    requires AllFit(start, steps, s) && MovesChosen(WorkerAt(s, w), m) && steps <= longer
    requires WorkersOk(s.t, s.remote.verdicts, s.workers) && RewardsKept(s.t.rewardRequests, t'.rewardRequests)
    ensures DebitFits(start, longer, |s.moves|, t', m)
  {
    hide Next, WasFirstFit, RewardsKept, WorkersOk, AllFit;
    if m.kind.Debit? {
      ChosenRequest(s, w);
      ChoiceAt(start, steps, s, w);
      KeysStay(s.t, t', m.rewardId);
      WasFirstFitLater(start, steps, longer, |s.moves|, |s.moves|, RewardKey(WorkerAt(s, w).rr), m.amount,
                       m.issueBudgetId);
    }
  }

  lemma RewardsStay(s: Sys, step: Step)
    requires Inv(s)
    ensures RewardsKept(s.t.rewardRequests, Next(s, step).t.rewardRequests)
  {
    NextKeeps(s, step);
  }

  lemma DebitStillFits(start: Sys, steps: seq<Step>, step: Step, s: Sys, i: int)
    requires Inv(s) && AllFit(start, steps, s) && 0 <= i < |Next(s, step).moves|
    ensures DebitFits(start, steps + [step], i, Next(s, step).t, Next(s, step).moves[i])
  {
    hide Next, DebitFits, Inv, AllFit, MovesChosen, RewardsKept, WorkersOk, ChosenNowOrBefore;
    RewardsStay(s, step);
    StepChooses(s, step, 0);
    var s' := Next(s, step);
    if i < |s.moves| {
      DebitAt(start, steps, s, i);
      OldDebitFits(start, steps, steps + [step], i, s.t, s'.t, s.moves[i]);
    } else {
      SystemWorkersOk(s);
      NewDebitFits(start, steps, steps + [step], s, step.w, s'.t, s'.moves[i]);
    }
  }

  lemma SystemWorkersOk(s: Sys)
    requires Inv(s)
    ensures WorkersOk(s.t, s.remote.verdicts, s.workers)
  {
  }

  lemma {:induction false} EverythingFits(configs: map<string, PayConfig>, steps: seq<Step>)
    ensures AllFit(Init(configs), steps, Run(Init(configs), steps))
    decreases |steps|
  {
    hide Next, Inv, IsReachable, ChoiceFits, DebitFits;
    if steps != [] {
      var start, before, step := Init(configs), steps[..|steps| - 1], steps[|steps| - 1];
      var s := Run(start, before);
      assert steps == before + [step];
      RunAppend(start, before, [step]);
      RunOne(s, step);
      EverythingFits(configs, before);
      RunIsReachable(configs, before);
      ReachableIsOk(s);
      forall w | w in Next(s, step).workers
        ensures ChoiceFits(start, steps, |Next(s, step).moves|, Next(s, step).workers[w])
      {
        ChoiceStillFits(start, before, step, s, w);
      }
      forall i | 0 <= i < |Next(s, step).moves|
        ensures DebitFits(start, steps, i, Next(s, step).t, Next(s, step).moves[i])
      {
        DebitStillFits(start, before, step, s, i);
      }
    }
  }

  lemma RunIsReachable(configs: map<string, PayConfig>, steps: seq<Step>)
    ensures IsReachable(Run(Init(configs), steps))
  {
    hide Next;
  }

  /** Every debit of every run charges an issue budget that, in a state of the run before the debit, was the
      lowest-id ongoing one with enough available for the project, pair and amount of the request. */
  lemma DebitsChargeAFirstFit(configs: map<string, PayConfig>, steps: seq<Step>, i: int)
    requires 0 <= i < |Run(Init(configs), steps).moves| && Run(Init(configs), steps).moves[i].kind.Debit?
    ensures var s := Run(Init(configs), steps); var m := s.moves[i];
            && m.rewardId in s.t.rewardRequests
            && WasFirstFit(Init(configs), steps, i, RewardKey(s.t.rewardRequests[m.rewardId]), m.amount,
                           m.issueBudgetId)
  {
    hide Next, WasFirstFit;
    EverythingFits(configs, steps);
    assert DebitFits(Init(configs), steps, i, Run(Init(configs), steps).t, Run(Init(configs), steps).moves[i]);
  }
}
