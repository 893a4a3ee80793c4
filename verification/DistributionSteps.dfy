/** The distribution steps keep TablesOk: debit, settlement, and failure at the risk check. */
module DistributionSteps {
  import opened Evolution
  import opened Ledger
  import opened LedgerSteps
  import opened Schema
  import opened Sums
  import opened Transactions
  import opened Wrappers

  /** A reward request that is completed keeps everything else. */
  lemma RewardAfterComplete(rewards: map<Id, RewardRequest>, id: Id, budgets: map<Id, ProjectBudget>,
                            records: map<Id, IssueRecord>)
    requires RewardsUnique(rewards) && RewardsFunded(rewards, budgets) && id in rewards
    ensures var rewards' := rewards[id := rewards[id].(status := CompletedReward)];
            && RewardsUnique(rewards') && RewardsFunded(rewards', budgets) && SameAmounts(records, rewards, rewards')
  {
  }

  // ---- Failure at the risk check ----

  lemma LockstepAfterRiskFailure(records: map<Id, IssueRecord>, rewards: map<Id, RewardRequest>, recordId: Id,
                                 rec: IssueRecord)
    requires RecordsUnique(records) && RecordsMatchRewards(records, rewards) && CompletedHaveRecords(rewards, records)
    requires recordId > 0 && recordId !in records
    requires forall i | i in records ::
               records[i].rewardRequestId != rec.rewardRequestId && records[i].voucherId != rec.voucherId
    requires rec.rewardRequestId in rewards
    requires Repeats(rec, rec.rewardRequestId, rewards[rec.rewardRequestId])
    requires rec.status == FailedRecord && StatusFits(rec, 0)
    ensures var records' := records[recordId := rec];
            var rewards' := rewards[rec.rewardRequestId := rewards[rec.rewardRequestId].(status := CompletedReward)];
            && RecordsUnique(records') && RecordsMatchRewards(records', rewards')
            && CompletedHaveRecords(rewards', records')
  {
    var records' := records[recordId := rec];
    forall r | HasRecord(records, r) ensures HasRecord(records', r) {
      var id :| id in records && records[id].rewardRequestId == r;
      assert records'[id].rewardRequestId == r;
    }
    assert records'[recordId].rewardRequestId == rec.rewardRequestId;
  }

  lemma UnchargedRecordIsWeightless(t: Tables, recordId: Id, rec: IssueRecord)
    requires BudgetsBalanced(t.projectBudgets, t.issueRecords, t.rewardRequests)
    requires IssueBudgetsBalanced(t.issueBudgets, t.issueRecords, t.rewardRequests)
    requires recordId !in t.issueRecords && rec.issueRequestId.None?
    ensures BudgetsBalanced(t.projectBudgets, t.issueRecords[recordId := rec], t.rewardRequests)
    ensures IssueBudgetsBalanced(t.issueBudgets, t.issueRecords[recordId := rec], t.rewardRequests)
  {
    var records' := t.issueRecords[recordId := rec];
    forall id | id in t.projectBudgets ensures BudgetBalanced(t.projectBudgets[id], records', t.rewardRequests) {
      var b := t.projectBudgets[id];
      assert BudgetBalanced(b, t.issueRecords, t.rewardRequests);
      RecordSumAfterPut(t.issueRecords, t.rewardRequests, recordId, rec, BudgetKey(b), Issued);
      RecordSumAfterPut(t.issueRecords, t.rewardRequests, recordId, rec, BudgetKey(b), Refunded);
      RecordSumAfterPut(t.issueRecords, t.rewardRequests, recordId, rec, BudgetKey(b), PreOccupied);
    }
    forall id | id in t.issueBudgets ensures IssueBudgetBalanced(t.issueBudgets[id], records', t.rewardRequests) {
      var ib := t.issueBudgets[id];
      assert IssueBudgetBalanced(ib, t.issueRecords, t.rewardRequests);
      ChargeSumAfterPut(t.issueRecords, t.rewardRequests, recordId, rec, ib.issueRequestId, Issued);
      ChargeSumAfterPut(t.issueRecords, t.rewardRequests, recordId, rec, ib.issueRequestId, Refunded);
      ChargeSumAfterPut(t.issueRecords, t.rewardRequests, recordId, rec, ib.issueRequestId, PreOccupied);
    }
  }

  lemma UnchargedStaysCharged(records: map<Id, IssueRecord>, recordId: Id, rec: IssueRecord,
                              issueBudgets: map<Id, IssueBudget>, requests: map<Id, IssueRequest>)
    requires RecordsCharged(records, issueBudgets, requests)
    requires rec.issueRequestId.Some? ==> HasCharge(rec, issueBudgets, requests)
    ensures RecordsCharged(records[recordId := rec], issueBudgets, requests)
  {
  }

  lemma SameAmountsStay(records: map<Id, IssueRecord>, recordId: Id, rec: IssueRecord,
                        rewards: map<Id, RewardRequest>, id: Id)
    requires id in rewards
    ensures SameAmounts(records[recordId := rec], rewards, rewards[id := rewards[id].(status := CompletedReward)])
  {
  }

  lemma FailAtRiskKeeps(t: Tables, recordId: Id, rec: IssueRecord)
    requires TablesOk(t)
    requires rec.rewardRequestId in t.rewardRequests
    requires Repeats(rec, rec.rewardRequestId, t.rewardRequests[rec.rewardRequestId])
    requires rec.status == FailedRecord && rec.issueRequestId.None? && StatusFits(rec, 0)
    ensures TablesOk(FailAtRisk(t, recordId, rec))
  {
    if FailAtRisk(t, recordId, rec) != t {
      var rewardId := rec.rewardRequestId;
      var rewards' := t.rewardRequests[rewardId := t.rewardRequests[rewardId].(status := CompletedReward)];
      var u := t.(issueRecords := t.issueRecords[recordId := rec]);
      RewardAfterComplete(t.rewardRequests, rewardId, t.projectBudgets, t.issueRecords);
      LockstepAfterRiskFailure(t.issueRecords, t.rewardRequests, recordId, rec);
      UnchargedRecordIsWeightless(t, recordId, rec);
      SameAmountsStay(t.issueRecords, recordId, rec, t.rewardRequests, rewardId);
      BalancesIgnoreStatus(u, rewards');
      UnchargedStaysCharged(t.issueRecords, recordId, rec, t.issueBudgets, t.issueRequests);
    }
  }

  // ---- Pre-occupation ----

  lemma LockstepAfterPreOccupy(records: map<Id, IssueRecord>, rewards: map<Id, RewardRequest>, recordId: Id,
                               rec: IssueRecord)
    requires RecordsUnique(records) && RecordsMatchRewards(records, rewards) && CompletedHaveRecords(rewards, records)
    requires recordId > 0 && recordId !in records
    requires forall i | i in records ::
               records[i].rewardRequestId != rec.rewardRequestId && records[i].voucherId != rec.voucherId
    requires rec.rewardRequestId in rewards
    requires Repeats(rec, rec.rewardRequestId, rewards[rec.rewardRequestId])
    requires rec.status == PendingRecord && StatusFits(rec, rewards[rec.rewardRequestId].amount)
    ensures var records' := records[recordId := rec];
            && RecordsUnique(records') && RecordsMatchRewards(records', rewards)
            && CompletedHaveRecords(rewards, records')
            && rewards[rec.rewardRequestId].status == PendingReward
  {
    var records' := records[recordId := rec];
    forall r | HasRecord(records, r) ensures HasRecord(records', r) {
      var id :| id in records && records[id].rewardRequestId == r;
      assert records'[id].rewardRequestId == r;
    }
    assert rewards[rec.rewardRequestId].status == CompletedReward ==> HasRecord(records, rec.rewardRequestId);
  }

  /** The record takes exactly what the debit removes from the budget of its key. */
  lemma BalancedAfterDebit(budgets: map<Id, ProjectBudget>, id: Id, records: map<Id, IssueRecord>,
                           rewards: map<Id, RewardRequest>, recordId: Id, rec: IssueRecord, amount: int)
    requires BudgetsUnique(budgets) && BudgetsBalanced(budgets, records, rewards)
    requires id in budgets && BudgetKey(budgets[id]) == RecordKey(rec)
    requires budgets[id].available >= amount && AmountOf(rec, rewards) == amount
    requires recordId !in records && SitsIn(rec, PreOccupied)
    ensures BudgetsBalanced(budgets[id := budgets[id].(available := budgets[id].available - amount)],
                            records[recordId := rec], rewards)
  {
    var budgets' := budgets[id := budgets[id].(available := budgets[id].available - amount)];
    forall i | i in budgets' ensures BudgetBalanced(budgets'[i], records[recordId := rec], rewards) {
      assert BudgetBalanced(budgets[i], records, rewards);
      assert i != id ==> BudgetKey(budgets[i]) != RecordKey(rec);
      RecordSumAfterPut(records, rewards, recordId, rec, BudgetKey(budgets[i]), Issued);
      RecordSumAfterPut(records, rewards, recordId, rec, BudgetKey(budgets[i]), Refunded);
      RecordSumAfterPut(records, rewards, recordId, rec, BudgetKey(budgets[i]), PreOccupied);
    }
  }

  lemma ChargedAfterDebit(m: map<Id, IssueBudget>, id: Id, records: map<Id, IssueRecord>,
                          rewards: map<Id, RewardRequest>, recordId: Id, rec: IssueRecord, amount: int)
    requires IssueBudgetsUnique(m) && IssueBudgetsBalanced(m, records, rewards)
    requires id in m && rec.issueRequestId == Some(m[id].issueRequestId)
    requires m[id].available >= amount && AmountOf(rec, rewards) == amount
    requires recordId !in records && SitsIn(rec, PreOccupied)
    ensures IssueBudgetsBalanced(m[id := m[id].(available := m[id].available - amount)],
                                 records[recordId := rec], rewards)
  {
    var m' := m[id := m[id].(available := m[id].available - amount)];
    forall i | i in m' ensures IssueBudgetBalanced(m'[i], records[recordId := rec], rewards) {
      assert IssueBudgetBalanced(m[i], records, rewards);
      assert i != id ==> rec.issueRequestId != Some(m[i].issueRequestId);
      ChargeSumAfterPut(records, rewards, recordId, rec, m[i].issueRequestId, Issued);
      ChargeSumAfterPut(records, rewards, recordId, rec, m[i].issueRequestId, Refunded);
      ChargeSumAfterPut(records, rewards, recordId, rec, m[i].issueRequestId, PreOccupied);
    }
  }

  lemma OneIssueBudgetKept(m: map<Id, IssueBudget>, id: Id, ib: IssueBudget)
    requires id in m && SameIssueBudget(m[id], ib)
    ensures IssueBudgetsKept(m, m[id := ib]) && m[id := ib].Keys == m.Keys
  {
  }

  /** Only columns of a budget and of an issue budget change. */
  lemma ColumnsKeepReferences(t: Tables, budgetId: Id, b: ProjectBudget, issueBudgetId: Id, ib: IssueBudget)
    requires BudgetsUnique(t.projectBudgets) && BudgetsHaveDocs(t.projectBudgets, t.docs)
    requires PaymentsHaveBudgets(t.payments, t.projectBudgets, t.configs)
             && RewardsFunded(t.rewardRequests, t.projectBudgets)
    requires IssueBudgetsUnique(t.issueBudgets) && IssueBudgetsOngoing(t.issueBudgets, t.issueRequests)
    requires OngoingBudgeted(t.issueRequests, t.issueBudgets)
    requires RecordsCharged(t.issueRecords, t.issueBudgets, t.issueRequests)
    requires BudgetsPaid(t.projectBudgets, t.payments, t.configs)
    requires budgetId in t.projectBudgets && SameBudget(t.projectBudgets[budgetId], b)
             && b.total == t.projectBudgets[budgetId].total
    requires issueBudgetId in t.issueBudgets && SameIssueBudget(t.issueBudgets[issueBudgetId], ib)
    ensures var budgets', m' := t.projectBudgets[budgetId := b], t.issueBudgets[issueBudgetId := ib];
            && BudgetsUnique(budgets') && BudgetsHaveDocs(budgets', t.docs)
            && PaymentsHaveBudgets(t.payments, budgets', t.configs) && RewardsFunded(t.rewardRequests, budgets')
            && IssueBudgetsUnique(m') && IssueBudgetsOngoing(m', t.issueRequests)
            && OngoingBudgeted(t.issueRequests, m') && RecordsCharged(t.issueRecords, m', t.issueRequests)
            && BudgetsPaid(budgets', t.payments, t.configs)
  {
    OneBudgetKept(t.projectBudgets, budgetId, b);
    BudgetColumnsOnly(t.projectBudgets, t.projectBudgets[budgetId := b], t.docs, t.payments, t.configs,
                      t.rewardRequests);
    OneIssueBudgetKept(t.issueBudgets, issueBudgetId, ib);
    IssueBudgetColumnsOnly(t.issueBudgets, t.issueBudgets[issueBudgetId := ib], t.issueRequests);
    SelfKept(t.issueRequests);
    ChargesStay(t.issueRecords, t.issueBudgets, t.issueBudgets[issueBudgetId := ib], t.issueRequests, t.issueRequests);
  }

  lemma SelfKept(requests: map<Id, IssueRequest>)
    ensures RequestsKept(requests, requests)
  {
  }

  lemma PreOccupyKeeps(t: Tables, budgetId: Id, issueBudgetId: Id, amount: int, recordId: Id, rec: IssueRecord)
    requires TablesOk(t)
    requires rec.rewardRequestId in t.rewardRequests
    requires Repeats(rec, rec.rewardRequestId, t.rewardRequests[rec.rewardRequestId])
    requires rec.status == PendingRecord && StatusFits(rec, amount)
    requires t.rewardRequests[rec.rewardRequestId].amount == amount
    requires budgetId in t.projectBudgets ==> BudgetKey(t.projectBudgets[budgetId]) == RecordKey(rec)
    requires issueBudgetId in t.issueBudgets ==> ChargedTo(rec, t.issueBudgets[issueBudgetId], t.issueRequests)
    ensures TablesOk(PreOccupy(t, budgetId, issueBudgetId, amount, recordId, rec))
  {
    hide BudgetsUnique, DocsUnique, IssueBudgetsUnique, RewardsUnique, RecordsUnique, BudgetsHaveDocs,
         DocsAcceptable, PaymentsHaveBudgets, RewardsFunded, RequestAmounts, IssueBudgetsOngoing,
         OngoingBudgeted, RecordsCharged, RecordsMatchRewards, CompletedHaveRecords, BudgetsBalanced,
         BudgetsPaid, IssueBudgetsBalanced;
    if CanPreOccupy(t, budgetId, issueBudgetId, amount, recordId, rec) {
      var b, ib := t.projectBudgets[budgetId], t.issueBudgets[issueBudgetId];
      var b', ib' := b.(available := b.available - amount), ib.(available := ib.available - amount);
      var m' := t.issueBudgets[issueBudgetId := ib'];
      LockstepAfterPreOccupy(t.issueRecords, t.rewardRequests, recordId, rec);
      BalancedAfterDebit(t.projectBudgets, budgetId, t.issueRecords, t.rewardRequests, recordId, rec, amount);
      ChargedAfterDebit(t.issueBudgets, issueBudgetId, t.issueRecords, t.rewardRequests, recordId, rec, amount);
      ColumnsKeepReferences(t, budgetId, b', issueBudgetId, ib');
      assert ChargedTo(rec, m'[issueBudgetId], t.issueRequests);
      UnchargedStaysCharged(t.issueRecords, recordId, rec, m', t.issueRequests);
    }
  }

  // ---- Settlement ----

  lemma LockstepAfterFinalize(records: map<Id, IssueRecord>, rewards: map<Id, RewardRequest>, recordId: Id,
                              rec: IssueRecord)
    requires RecordsUnique(records) && RecordsMatchRewards(records, rewards) && CompletedHaveRecords(rewards, records)
    requires recordId in records && SameIdentity(records[recordId], rec)
    requires rec.rewardRequestId in rewards && rewards[rec.rewardRequestId].status == PendingReward
    requires Terminal(rec) && StatusFits(rec, rewards[rec.rewardRequestId].amount)
    ensures var records' := records[recordId := rec];
            var rewards' := rewards[rec.rewardRequestId := rewards[rec.rewardRequestId].(status := CompletedReward)];
            && RecordsUnique(records') && RecordsMatchRewards(records', rewards')
            && CompletedHaveRecords(rewards', records')
            && records[recordId].status == PendingRecord
            && records[recordId].issueRequestId.Some?
  {
    var records' := records[recordId := rec];
    forall r | HasRecord(records, r) ensures HasRecord(records', r) {
      var id :| id in records && records[id].rewardRequestId == r;
      assert records'[id].rewardRequestId == r;
    }
    assert records'[recordId].rewardRequestId == rec.rewardRequestId;
  }

  lemma BalancedAfterSettle(budgets: map<Id, ProjectBudget>, id: Id, records: map<Id, IssueRecord>,
                            rewards: map<Id, RewardRequest>, recordId: Id, rec: IssueRecord, amount: int, success: bool)
    requires BudgetsUnique(budgets) && BudgetsBalanced(budgets, records, rewards)
    requires id in budgets && BudgetKey(budgets[id]) == RecordKey(rec)
    requires AmountOf(rec, rewards) == amount >= 0
    requires recordId in records && SameIdentity(records[recordId], rec) && SitsIn(records[recordId], PreOccupied)
    requires SitsIn(rec, if success then Issued else Refunded)
    ensures BudgetsBalanced(budgets[id := SettledBudget(budgets[id], amount, success)], records[recordId := rec],
                            rewards)
  {
    var budgets' := budgets[id := SettledBudget(budgets[id], amount, success)];
    forall i | i in budgets' ensures BudgetBalanced(budgets'[i], records[recordId := rec], rewards) {
      assert BudgetBalanced(budgets[i], records, rewards);
      assert i != id ==> BudgetKey(budgets[i]) != RecordKey(rec);
      RecordSumAfterPut(records, rewards, recordId, rec, BudgetKey(budgets[i]), Issued);
      RecordSumAfterPut(records, rewards, recordId, rec, BudgetKey(budgets[i]), Refunded);
      RecordSumAfterPut(records, rewards, recordId, rec, BudgetKey(budgets[i]), PreOccupied);
    }
  }

  lemma ChargedAfterSettle(m: map<Id, IssueBudget>, id: Id, records: map<Id, IssueRecord>,
                           rewards: map<Id, RewardRequest>, recordId: Id, rec: IssueRecord, amount: int, success: bool)
    requires IssueBudgetsUnique(m) && IssueBudgetsBalanced(m, records, rewards)
    requires id in m && rec.issueRequestId == Some(m[id].issueRequestId)
    requires AmountOf(rec, rewards) == amount >= 0
    requires recordId in records && SameIdentity(records[recordId], rec) && SitsIn(records[recordId], PreOccupied)
    requires SitsIn(rec, if success then Issued else Refunded)
    ensures IssueBudgetsBalanced(m[id := SettledIssueBudget(m[id], amount, success)], records[recordId := rec], rewards)
  {
    var m' := m[id := SettledIssueBudget(m[id], amount, success)];
    forall i | i in m' ensures IssueBudgetBalanced(m'[i], records[recordId := rec], rewards) {
      assert IssueBudgetBalanced(m[i], records, rewards);
      assert i != id ==> rec.issueRequestId != Some(m[i].issueRequestId);
      ChargeSumAfterPut(records, rewards, recordId, rec, m[i].issueRequestId, Issued);
      ChargeSumAfterPut(records, rewards, recordId, rec, m[i].issueRequestId, Refunded);
      ChargeSumAfterPut(records, rewards, recordId, rec, m[i].issueRequestId, PreOccupied);
    }
  }

  lemma RewardAmount(rewards: map<Id, RewardRequest>, budgets: map<Id, ProjectBudget>, id: Id)
    requires RewardsFunded(rewards, budgets) && id in rewards
    ensures rewards[id].amount >= 0
  {
  }

  lemma FinalizeKeeps(t: Tables, budgetId: Id, issueBudgetId: Id, amount: int, success: bool,
                      recordId: Id, rec: IssueRecord, rewardId: Id)
    requires TablesOk(t)
    requires recordId in t.issueRecords && SameIdentity(t.issueRecords[recordId], rec)
    requires rec.rewardRequestId == rewardId && rewardId in t.rewardRequests
    requires t.rewardRequests[rewardId].amount == amount
    requires rec.status == (if success then IssuedRecord else FailedRecord) && StatusFits(rec, amount)
    requires budgetId in t.projectBudgets && BudgetKey(t.projectBudgets[budgetId]) == RecordKey(rec)
    requires issueBudgetId in t.issueBudgets && rec.issueRequestId == Some(t.issueBudgets[issueBudgetId].issueRequestId)
    requires ChargedTo(rec, t.issueBudgets[issueBudgetId], t.issueRequests)
    ensures TablesOk(Finalize(t, budgetId, issueBudgetId, amount, success, recordId, rec, rewardId))
  {
    if IsPending(t, rewardId) {
      var b' := SettledBudget(t.projectBudgets[budgetId], amount, success);
      var ib' := SettledIssueBudget(t.issueBudgets[issueBudgetId], amount, success);
      var u := t.(issueRecords := t.issueRecords[recordId := rec],
                  projectBudgets := t.projectBudgets[budgetId := b'],
                  issueBudgets := t.issueBudgets[issueBudgetId := ib']);
      var rewards' := t.rewardRequests[rewardId := t.rewardRequests[rewardId].(status := CompletedReward)];
      RewardAmount(t.rewardRequests, t.projectBudgets, rewardId);
      LockstepAfterFinalize(t.issueRecords, t.rewardRequests, recordId, rec);
      BalancedAfterSettle(t.projectBudgets, budgetId, t.issueRecords, t.rewardRequests, recordId, rec, amount, success);
      ChargedAfterSettle(t.issueBudgets, issueBudgetId, t.issueRecords, t.rewardRequests, recordId, rec, amount,
                         success);
      SameAmountsStay(t.issueRecords, recordId, rec, t.rewardRequests, rewardId);
      BalancesIgnoreStatus(u, rewards');
      ColumnsKeepReferences(t, budgetId, b', issueBudgetId, ib');
      RewardAfterComplete(t.rewardRequests, rewardId, t.projectBudgets[budgetId := b'], u.issueRecords);
      assert ChargedTo(rec, u.issueBudgets[issueBudgetId], t.issueRequests);
      UnchargedStaysCharged(t.issueRecords, recordId, rec, u.issueBudgets, t.issueRequests);
    }
  }
}
