/** The data access objects: rows changed in place, one statement per method.

    `fails` says that the driver reports an error for the statement, which then has no effect. */
module Database {
  import opened Schema
  import opened Transactions
  import opened Wrappers

  datatype Error =
    | DriverError
    | DuplicateKey
    | Insufficient
    | InvalidTransition
    | NotFound
    | Rejected

  /** The row's columns moved by the given amounts, if there is such a row. */
  function Shifted(budgets: map<Id, ProjectBudget>, id: Id,
                   total: int, available: int, withhold: int, issued: int, refund: int): map<Id, ProjectBudget>
  {
    if id !in budgets then budgets else
      var b := budgets[id];
      budgets[id := b.(total := b.total + total, available := b.available + available,
                       withhold := b.withhold + withhold, issued := b.issued + issued, refund := b.refund + refund)]
  }

  function ShiftedIssue(issueBudgets: map<Id, IssueBudget>, id: Id, available: int, issued: int, refund: int)
    : map<Id, IssueBudget>
  {
    if id !in issueBudgets then issueBudgets else
      var ib := issueBudgets[id];
      issueBudgets[id := ib.(available := ib.available + available, issued := ib.issued + issued,
                             refund := ib.refund + refund)]
  }

  class Db {
    const configs: map<string, PayConfig>
    var docs: map<string, FinanceDoc>
    var payments: map<string, FinancePayment>
    var projectBudgets: map<Id, ProjectBudget>
    var issueRequests: map<Id, IssueRequest>
    var issueBudgets: map<Id, IssueBudget>
    var rewardRequests: map<Id, RewardRequest>
    var issueRecords: map<Id, IssueRecord>

    /** The tables as one value. */
    function View(): Tables
      reads this
    {
      Tables(configs, docs, payments, projectBudgets, issueRequests, issueBudgets, rewardRequests, issueRecords)
    }

    constructor (configs: map<string, PayConfig>)
      ensures View() == Tables(configs, map[], map[], map[], map[], map[], map[], map[])
    {
      this.configs := configs;
      docs, payments, projectBudgets := map[], map[], map[];
      issueRequests, issueBudgets, rewardRequests, issueRecords := map[], map[], map[], map[];
    }

    /** Rolling back to the state a transaction began with. */
    method Rollback(t: Tables)
      requires t.configs == configs
      modifies this
      ensures View() == t
    {
      docs, payments, projectBudgets := t.docs, t.payments, t.projectBudgets;
      issueRequests, issueBudgets, rewardRequests, issueRecords :=
        t.issueRequests, t.issueBudgets, t.rewardRequests, t.issueRecords;
    }

    // ---- project_budget ----

    method UpdateTotalAndAvailableAmount(id: Id, amount: int, fails: bool) returns (err: Option<Error>)
      modifies this`projectBudgets
      ensures err == if fails then Some(DriverError) else None
      ensures projectBudgets == if fails then old(projectBudgets)
                                else Shifted(old(projectBudgets), id, amount, amount, 0, 0, 0)
    {
      if fails { return Some(DriverError); }
      if id in projectBudgets {
        var b := projectBudgets[id];
        projectBudgets := projectBudgets[id := b.(total := b.total + amount, available := b.available + amount)];
      }
      return None;
    }

    method ApplySubmitWithhold(id: Id, amount: int, fails: bool) returns (err: Option<Error>)
      modifies this`projectBudgets
      ensures err == if fails then Some(DriverError) else None
      ensures projectBudgets == if fails then old(projectBudgets)
                                else Shifted(old(projectBudgets), id, 0, -amount, amount, 0, 0)
    {
      if fails { return Some(DriverError); }
      if id in projectBudgets {
        var b := projectBudgets[id];
        projectBudgets := projectBudgets[id := b.(available := b.available - amount, withhold := b.withhold + amount)];
      }
      return None;
    }

    method ApplyApproveIssued(id: Id, amount: int, fails: bool) returns (err: Option<Error>)
      modifies this`projectBudgets
      ensures err == if fails then Some(DriverError) else None
      ensures projectBudgets == if fails then old(projectBudgets)
                                else Shifted(old(projectBudgets), id, 0, 0, -amount, amount, 0)
    {
      if fails { return Some(DriverError); }
      if id in projectBudgets {
        var b := projectBudgets[id];
        projectBudgets := projectBudgets[id := b.(issued := b.issued + amount, withhold := b.withhold - amount)];
      }
      return None;
    }

    method ApplyRejectRelease(id: Id, amount: int, fails: bool) returns (err: Option<Error>)
      modifies this`projectBudgets
      ensures err == if fails then Some(DriverError) else None
      ensures projectBudgets == if fails then old(projectBudgets)
                                else Shifted(old(projectBudgets), id, 0, amount, -amount, 0, 0)
    {
      if fails { return Some(DriverError); }
      if id in projectBudgets {
        var b := projectBudgets[id];
        projectBudgets := projectBudgets[id := b.(available := b.available + amount, withhold := b.withhold - amount)];
      }
      return None;
    }

    /** The update is guarded by its own condition; no row affected is an error. */
    method DeductProjectBudget(id: Id, amount: int, fails: bool) returns (err: Option<Error>)
      modifies this`projectBudgets
      ensures err.None? <==> !fails && id in old(projectBudgets) && old(projectBudgets)[id].available >= amount
      ensures err.Some? ==> err.value == if fails then DriverError else Insufficient
      ensures projectBudgets == if err.None? then Shifted(old(projectBudgets), id, 0, -amount, 0, 0, 0)
                                else old(projectBudgets)
    {
      if fails { return Some(DriverError); }
      if id !in projectBudgets || projectBudgets[id].available < amount { return Some(Insufficient); }
      var b := projectBudgets[id];
      projectBudgets := projectBudgets[id := b.(available := b.available - amount)];
      return None;
    }

    method IssueFromProjectBudget(id: Id, amount: int, fails: bool) returns (err: Option<Error>)
      modifies this`projectBudgets
      ensures err == if fails then Some(DriverError) else None
      ensures projectBudgets == if fails then old(projectBudgets)
                                else Shifted(old(projectBudgets), id, 0, 0, 0, amount, 0)
    {
      if fails { return Some(DriverError); }
      if id in projectBudgets {
        projectBudgets := projectBudgets[id := projectBudgets[id].(issued := projectBudgets[id].issued + amount)];
      }
      return None;
    }

    method RefundToProjectBudget(id: Id, amount: int, fails: bool) returns (err: Option<Error>)
      modifies this`projectBudgets
      ensures err == if fails then Some(DriverError) else None
      ensures projectBudgets == if fails then old(projectBudgets)
                                else Shifted(old(projectBudgets), id, 0, 0, 0, 0, amount)
    {
      if fails { return Some(DriverError); }
      if id in projectBudgets {
        projectBudgets := projectBudgets[id := projectBudgets[id].(refund := projectBudgets[id].refund + amount)];
      }
      return None;
    }

    /** A multi-row insert: all rows, or a duplicate key and whatever the database did before noticing,
        which the surrounding transaction takes back. */
    method BatchCreate(ids: seq<Id>, rows: seq<ProjectBudget>, fails: bool) returns (err: Option<Error>)
      requires |ids| == |rows|
      modifies this`projectBudgets
      ensures err.None? <==> !fails && BudgetsInsertable(old(projectBudgets), ids, rows)
      ensures err.Some? ==> err.value == if fails then DriverError else DuplicateKey
      ensures err.None? ==> projectBudgets == InsertedBudgets(old(projectBudgets), ids, rows)
    {
      if fails { return Some(DriverError); }
      ghost var start := projectBudgets;
      var n := 0;
      while n < |ids|
        invariant 0 <= n <= |ids|
        invariant BudgetsInsertable(start, ids, rows) <==> BudgetsInsertable(projectBudgets, ids[n..], rows[n..])
        invariant InsertedBudgets(start, ids, rows) == InsertedBudgets(projectBudgets, ids[n..], rows[n..])
      {
        if !ProjectBudgetInsertable(projectBudgets, ids[n], rows[n]) {
          return Some(DuplicateKey);
        }
        assert ids[n..][1..] == ids[n + 1..] && rows[n..][1..] == rows[n + 1..];
        projectBudgets := projectBudgets[ids[n] := rows[n]];
        n := n + 1;
      }
      return None;
    }

    // ---- finance_payments ----

    method CreatePayment(id: string, p: FinancePayment, fails: bool) returns (err: Option<Error>)
      modifies this`payments
      ensures err.None? <==> !fails && id !in old(payments)
      ensures err.Some? ==> err.value == if fails then DriverError else DuplicateKey
      ensures payments == if err.None? then old(payments)[id := p] else old(payments)
    {
      if fails { return Some(DriverError); }
      if id in payments { return Some(DuplicateKey); }
      payments := payments[id := p];
      return None;
    }

    // ---- finance_docs ----

    method CreateFinanceDoc(docId: string, doc: FinanceDoc, fails: bool) returns (err: Option<Error>)
      modifies this`docs
      ensures err.None? <==> !fails && DocInsertable(old(View()), docId, doc)
      ensures err.Some? ==> err.value == if fails then DriverError else DuplicateKey
      ensures docs == if err.None? then old(docs)[docId := doc] else old(docs)
    {
      if fails { return Some(DriverError); }
      if !DocInsertable(View(), docId, doc) { return Some(DuplicateKey); }
      docs := docs[docId := doc];
      return None;
    }

    method UpdateDocContent(docId: string, detail: seq<DetailLine>, fails: bool) returns (err: Option<Error>)
      modifies this`docs
      ensures err == if fails then Some(DriverError) else None
      ensures View() == if fails then old(View()) else WriteDocContent(old(View()), docId, detail)
    {
      if fails { return Some(DriverError); }
      if docId in docs {
        docs := docs[docId := docs[docId].(detail := detail)];
      }
      return None;
    }

    method UpdateDocStatus(docId: string, status: ReviewStatus, fails: bool) returns (err: Option<Error>)
      modifies this`docs
      ensures err == if fails then Some(DriverError) else None
      ensures View() == if fails then old(View()) else WriteDocStatus(old(View()), docId, status)
    {
      if fails { return Some(DriverError); }
      if docId in docs {
        docs := docs[docId := docs[docId].(status := status)];
      }
      return None;
    }

    // ---- issue_requests ----

    method CreateIssueRequest(id: Id, r: IssueRequest, fails: bool) returns (err: Option<Error>)
      requires id !in issueRequests
      modifies this`issueRequests
      ensures err == if fails then Some(DriverError) else None
      ensures issueRequests == if fails then old(issueRequests) else old(issueRequests)[id := r]
    {
      if fails { return Some(DriverError); }
      issueRequests := issueRequests[id := r];
      return None;
    }

    method UpdateFields(id: Id, voucherType: string, unit: string, amount: int, fails: bool)
      returns (err: Option<Error>)
      modifies this`issueRequests
      ensures err == if fails then Some(DriverError) else None
      ensures View() == if fails then old(View()) else WriteRequestFields(old(View()), id, voucherType, unit, amount)
    {
      if fails { return Some(DriverError); }
      if id in issueRequests {
        issueRequests := issueRequests[id := issueRequests[id].(voucherType := voucherType)];
        issueRequests := issueRequests[id := issueRequests[id].(unit := unit)];
        issueRequests := issueRequests[id := issueRequests[id].(amount := amount)];
      }
      return None;
    }

    /** Compare-and-set of the review status; no row affected is an error. */
    method UpdateRequestStatus(id: Id, from: ReviewStatus, target: ReviewStatus, fails: bool)
      returns (err: Option<Error>)
      modifies this`issueRequests
      ensures err.None? <==> !fails && id in old(issueRequests) && old(issueRequests)[id].status == from
      ensures err.Some? ==> err.value == if fails then DriverError else InvalidTransition
      ensures err.None? ==> issueRequests == old(issueRequests)[id := old(issueRequests)[id].(status := target)]
      ensures err.Some? ==> issueRequests == old(issueRequests)
    {
      if fails { return Some(DriverError); }
      if id !in issueRequests || issueRequests[id].status != from { return Some(InvalidTransition); }
      issueRequests := issueRequests[id := issueRequests[id].(status := target)];
      return None;
    }

    /** From approved to ongoing; here no row affected is no error. */
    method MarkRequestOngoing(id: Id, fails: bool) returns (err: Option<Error>)
      modifies this`issueRequests
      ensures err == if fails then Some(DriverError) else None
      ensures View() == if fails then old(View()) else MarkOngoing(old(View()), id)
    {
      if fails { return Some(DriverError); }
      if id in issueRequests && issueRequests[id].status == Approved {
        issueRequests := issueRequests[id := issueRequests[id].(status := Ongoing)];
      }
      return None;
    }

    // ---- issue_budget ----

    method CreateIssueBudget(id: Id, ib: IssueBudget, fails: bool) returns (err: Option<Error>)
      modifies this`issueBudgets
      ensures err.None? <==> !fails && IssueBudgetInsertable(old(View()), id, ib)
      ensures err.Some? ==> err.value == if fails then DriverError else DuplicateKey
      ensures issueBudgets == if err.None? then old(issueBudgets)[id := ib] else old(issueBudgets)
    {
      if fails { return Some(DriverError); }
      if !IssueBudgetInsertable(View(), id, ib) { return Some(DuplicateKey); }
      issueBudgets := issueBudgets[id := ib];
      return None;
    }

    method DeductIssueBudget(id: Id, amount: int, fails: bool) returns (err: Option<Error>)
      modifies this`issueBudgets
      ensures err.None? <==> !fails && id in old(issueBudgets) && old(issueBudgets)[id].available >= amount
      ensures err.Some? ==> err.value == if fails then DriverError else Insufficient
      ensures issueBudgets == if err.None? then ShiftedIssue(old(issueBudgets), id, -amount, 0, 0)
                              else old(issueBudgets)
    {
      if fails { return Some(DriverError); }
      if id !in issueBudgets || issueBudgets[id].available < amount { return Some(Insufficient); }
      issueBudgets := issueBudgets[id := issueBudgets[id].(available := issueBudgets[id].available - amount)];
      return None;
    }

    method IssueFromIssueBudget(id: Id, amount: int, fails: bool) returns (err: Option<Error>)
      modifies this`issueBudgets
      ensures err == if fails then Some(DriverError) else None
      ensures issueBudgets == if fails then old(issueBudgets) else ShiftedIssue(old(issueBudgets), id, 0, amount, 0)
    {
      if fails { return Some(DriverError); }
      if id in issueBudgets {
        issueBudgets := issueBudgets[id := issueBudgets[id].(issued := issueBudgets[id].issued + amount)];
      }
      return None;
    }

    method RefundToIssueBudget(id: Id, amount: int, fails: bool) returns (err: Option<Error>)
      modifies this`issueBudgets
      ensures err == if fails then Some(DriverError) else None
      ensures issueBudgets == if fails then old(issueBudgets) else ShiftedIssue(old(issueBudgets), id, 0, 0, amount)
    {
      if fails { return Some(DriverError); }
      if id in issueBudgets {
        issueBudgets := issueBudgets[id := issueBudgets[id].(refund := issueBudgets[id].refund + amount)];
      }
      return None;
    }

    // ---- reward_requests and issue_records ----

    method CreateRewardRequest(id: Id, r: RewardRequest, fails: bool) returns (err: Option<Error>)
      modifies this`rewardRequests
      ensures err.None? <==> !fails && RewardRequestInsertable(old(View()), id, r)
      ensures err.Some? ==> err.value == if fails then DriverError else DuplicateKey
      ensures rewardRequests == if err.None? then old(rewardRequests)[id := r] else old(rewardRequests)
    {
      if fails { return Some(DriverError); }
      if !RewardRequestInsertable(View(), id, r) { return Some(DuplicateKey); }
      rewardRequests := rewardRequests[id := r];
      return None;
    }

    /** Compare-and-set from pending to completed; no row affected is an invalid transition. */
    method CompleteReward(id: Id, fails: bool) returns (err: Option<Error>)
      modifies this`rewardRequests
      ensures err.None? <==> !fails && IsPending(old(View()), id)
      ensures err.Some? ==> err.value == if fails then DriverError else InvalidTransition
      ensures View() == if err.None? then Complete(old(View()), id) else old(View())
    {
      if fails { return Some(DriverError); }
      if id !in rewardRequests || rewardRequests[id].status != PendingReward { return Some(InvalidTransition); }
      rewardRequests := rewardRequests[id := rewardRequests[id].(status := CompletedReward)];
      return None;
    }

    method CreateRecord(id: Id, rec: IssueRecord, fails: bool) returns (err: Option<Error>)
      modifies this`issueRecords
      ensures err.None? <==> !fails && RecordInsertable(old(View()), id, rec)
      ensures err.Some? ==> err.value == if fails then DriverError else DuplicateKey
      ensures issueRecords == if err.None? then old(issueRecords)[id := rec] else old(issueRecords)
    {
      if fails { return Some(DriverError); }
      if !RecordInsertable(View(), id, rec) { return Some(DuplicateKey); }
      issueRecords := issueRecords[id := rec];
      return None;
    }

    /** Overwrites the whole row. */
    method SaveRecord(id: Id, rec: IssueRecord, fails: bool) returns (err: Option<Error>)
      modifies this`issueRecords
      ensures err == if fails then Some(DriverError) else None
      ensures issueRecords == if fails then old(issueRecords) else old(issueRecords)[id := rec]
    {
      if fails { return Some(DriverError); }
      issueRecords := issueRecords[id := rec];
      return None;
    }
  }

  /** The end of every transaction: commit, or put back what was there when it began. */
  method Finish(db: Db, snapshot: Tables, outcome: Option<Error>, commitFails: bool) returns (err: Option<Error>)
    requires snapshot.configs == db.configs
    modifies db
    ensures err.None? <==> outcome.None? && !commitFails
    ensures err.Some? ==> err == if outcome.Some? then outcome else Some(DriverError)
    ensures db.View() == if err.None? then old(db.View()) else snapshot
  {
    err := if outcome.None? && commitFails then Some(DriverError) else outcome;
    if err.Some? {
      db.Rollback(snapshot);
    }
  }
}
