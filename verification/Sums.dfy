/** How the sums of Ledger move when one row changes. */
module Sums {
  import opened Ledger
  import opened Schema
  import opened Totals
  import opened Transactions
  import opened Wrappers

  function OldRequestWeight(requests: map<Id, IssueRequest>, id: Id, k: Key, c: Column): int {
    if id in requests then RequestWeight(requests[id], k, c) else 0
  }

  lemma RequestSumAfterPut(requests: map<Id, IssueRequest>, id: Id, r: IssueRequest, k: Key, c: Column)
    ensures RequestSum(requests[id := r], k, c)
            == RequestSum(requests, k, c) - OldRequestWeight(requests, id, k, c) + RequestWeight(r, k, c)
  {
    var w := map i | i in requests :: RequestWeight(requests[i], k, c);
    var u := requests[id := r];
    assert (map i | i in u :: RequestWeight(u[i], k, c)) == w[id := RequestWeight(r, k, c)];
    TotalAfterPut(w, id, RequestWeight(r, k, c));
  }

  function OldRecordWeight(records: map<Id, IssueRecord>, rewards: map<Id, RewardRequest>, id: Id, k: Key, c: Column)
    : int
  {
    if id in records then RecordWeight(records[id], rewards, k, c) else 0
  }

  lemma RecordSumAfterPut(records: map<Id, IssueRecord>, rewards: map<Id, RewardRequest>,
                          id: Id, rec: IssueRecord, k: Key, c: Column)
    ensures RecordSum(records[id := rec], rewards, k, c)
            == RecordSum(records, rewards, k, c) - OldRecordWeight(records, rewards, id, k, c)
               + RecordWeight(rec, rewards, k, c)
  {
    var w := map i | i in records :: RecordWeight(records[i], rewards, k, c);
    var u := records[id := rec];
    assert (map i | i in u :: RecordWeight(u[i], rewards, k, c)) == w[id := RecordWeight(rec, rewards, k, c)];
    TotalAfterPut(w, id, RecordWeight(rec, rewards, k, c));
  }

  function OldChargeWeight(records: map<Id, IssueRecord>, rewards: map<Id, RewardRequest>,
                           id: Id, issueRequestId: Id, c: Column): int
  {
    if id in records then ChargeWeight(records[id], rewards, issueRequestId, c) else 0
  }

  lemma ChargeSumAfterPut(records: map<Id, IssueRecord>, rewards: map<Id, RewardRequest>,
                          id: Id, rec: IssueRecord, issueRequestId: Id, c: Column)
    ensures ChargeSum(records[id := rec], rewards, issueRequestId, c)
            == ChargeSum(records, rewards, issueRequestId, c) - OldChargeWeight(records, rewards, id, issueRequestId, c)
               + ChargeWeight(rec, rewards, issueRequestId, c)
  {
    var w := map i | i in records :: ChargeWeight(records[i], rewards, issueRequestId, c);
    var u := records[id := rec];
    assert (map i | i in u :: ChargeWeight(u[i], rewards, issueRequestId, c))
        == w[id := ChargeWeight(rec, rewards, issueRequestId, c)];
    TotalAfterPut(w, id, ChargeWeight(rec, rewards, issueRequestId, c));
  }

  lemma PaidSumAfterNew(payments: map<string, FinancePayment>, configs: map<string, PayConfig>,
                        id: string, p: FinancePayment, docId: string, pair: PayConfig)
    requires id !in payments
    ensures PaidSum(payments[id := p], configs, docId, pair)
            == PaidSum(payments, configs, docId, pair) + (if PaysFor(p, configs, docId, pair) then p.amount else 0)
  {
    var w := map i | i in payments :: if PaysFor(payments[i], configs, docId, pair) then payments[i].amount else 0;
    var u := payments[id := p];
    var v := if PaysFor(p, configs, docId, pair) then p.amount else 0;
    assert (map i | i in u :: if PaysFor(u[i], configs, docId, pair) then u[i].amount else 0) == w[id := v];
    TotalAfterPut(w, id, v);
  }

  /** The rewards agree on the amounts the records refer to. */
  ghost predicate SameAmounts(records: map<Id, IssueRecord>, rewards: map<Id, RewardRequest>,
                              rewards': map<Id, RewardRequest>)
  {
    forall id | id in records :: AmountOf(records[id], rewards') == AmountOf(records[id], rewards)
  }

  lemma SumsIgnoreStatus(records: map<Id, IssueRecord>, rewards: map<Id, RewardRequest>,
                         rewards': map<Id, RewardRequest>)
    requires SameAmounts(records, rewards, rewards')
    ensures forall k, c :: RecordSum(records, rewards', k, c) == RecordSum(records, rewards, k, c)
    ensures forall r, c :: ChargeSum(records, rewards', r, c) == ChargeSum(records, rewards, r, c)
  {
    forall k, c ensures RecordSum(records, rewards', k, c) == RecordSum(records, rewards, k, c) {
      assert forall i | i in records ::
        RecordWeight(records[i], rewards', k, c) == RecordWeight(records[i], rewards, k, c);
      assert (map i | i in records :: RecordWeight(records[i], rewards', k, c))
          == (map i | i in records :: RecordWeight(records[i], rewards, k, c));
    }
    forall r, c ensures ChargeSum(records, rewards', r, c) == ChargeSum(records, rewards, r, c) {
      assert forall i | i in records ::
        ChargeWeight(records[i], rewards', r, c) == ChargeWeight(records[i], rewards, r, c);
      assert (map i | i in records :: ChargeWeight(records[i], rewards', r, c))
          == (map i | i in records :: ChargeWeight(records[i], rewards, r, c));
    }
  }

  lemma RecordSumIsNonNegative(records: map<Id, IssueRecord>, rewards: map<Id, RewardRequest>, k: Key, c: Column)
    requires forall r | r in rewards :: rewards[r].amount >= 0
    ensures RecordSum(records, rewards, k, c) >= 0
    ensures forall id | id in records && RecordKey(records[id]) == k && SitsIn(records[id], c) ::
              AmountOf(records[id], rewards) <= RecordSum(records, rewards, k, c)
  {
    var w := map i | i in records :: RecordWeight(records[i], rewards, k, c);
    TotalBounds(w);
    forall id | id in records && RecordKey(records[id]) == k && SitsIn(records[id], c)
      ensures AmountOf(records[id], rewards) <= RecordSum(records, rewards, k, c)
    {
      assert w[id] == AmountOf(records[id], rewards);
    }
  }

  lemma RequestSumBounds(requests: map<Id, IssueRequest>, k: Key, c: Column)
    requires RequestAmounts(requests)
    ensures RequestSum(requests, k, c) >= 0
    ensures forall r | r in requests :: RequestWeight(requests[r], k, c) <= RequestSum(requests, k, c)
  {
    var w := map i | i in requests :: RequestWeight(requests[i], k, c);
    assert forall i | i in w :: w[i] >= 0;
    TotalBounds(w);
    forall r | r in requests ensures RequestWeight(requests[r], k, c) <= RequestSum(requests, k, c) {
      assert w[r] == RequestWeight(requests[r], k, c);
    }
  }

  // ---- A key nobody refers to has empty sums ----

  lemma NoRecordsNoSum(records: map<Id, IssueRecord>, rewards: map<Id, RewardRequest>, k: Key, c: Column)
    requires forall id | id in records :: RecordKey(records[id]) != k
    ensures RecordSum(records, rewards, k, c) == 0
  {
    var w := map i | i in records :: RecordWeight(records[i], rewards, k, c);
    assert forall i | i in w :: w[i] == 0;
    TotalOfZeros(w);
  }

  lemma NoRequestsNoSum(requests: map<Id, IssueRequest>, k: Key, c: Column)
    requires forall r | r in requests && Weighs(requests[r].status, c) :: RequestKey(requests[r]) != k
    ensures RequestSum(requests, k, c) == 0
  {
    var w := map i | i in requests :: RequestWeight(requests[i], k, c);
    assert forall i | i in w :: w[i] == 0;
    TotalOfZeros(w);
  }

  lemma NoPaymentsNoSum(payments: map<string, FinancePayment>, configs: map<string, PayConfig>,
                        docId: string, pair: PayConfig)
    requires forall p | p in payments :: !PaysFor(payments[p], configs, docId, pair)
    ensures PaidSum(payments, configs, docId, pair) == 0
  {
    TotalOfZeros(map i | i in payments :: if PaysFor(payments[i], configs, docId, pair) then payments[i].amount else 0);
  }

  lemma NoChargesNoSum(records: map<Id, IssueRecord>, rewards: map<Id, RewardRequest>, issueRequestId: Id, c: Column)
    requires forall id | id in records :: records[id].issueRequestId != Some(issueRequestId)
    ensures ChargeSum(records, rewards, issueRequestId, c) == 0
  {
    var w := map i | i in records :: ChargeWeight(records[i], rewards, issueRequestId, c);
    assert forall i | i in w :: w[i] == 0;
    TotalOfZeros(w);
  }
}
