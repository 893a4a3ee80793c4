/** Resolving the application detail of a finance doc into one budget item per line. */
module BudgetItems {
  import opened Amounts
  import opened Schema
  import opened Text
  import opened Wrappers

  datatype BudgetItem = BudgetItem(voucherType: string, unit: string, amount: AmountText)

  datatype ItemError = EmptyDetail | FieldsRequired | UnknownAddress | DuplicatePair

  function Address(line: DetailLine): string { TrimSpace(line.payAddress) }

  /** A line with both fields filled in, naming a configured address. */
  predicate LineOk(configs: map<string, PayConfig>, line: DetailLine) {
    Address(line) != "" && line.amount != Blank && Address(line) in configs
  }

  function ConfigOf(configs: map<string, PayConfig>, line: DetailLine): PayConfig
    requires LineOk(configs, line)
  {
    configs[Address(line)]
  }

  /** The text under which the loop remembers a pair it has seen. */
  function PairText(c: PayConfig): string { c.voucherType + ":" + c.unit }

  function TextAt(configs: map<string, PayConfig>, detail: seq<DetailLine>, i: int): string
    requires 0 <= i < |detail| && LineOk(configs, detail[i])
  {
    PairText(ConfigOf(configs, detail[i]))
  }

  predicate AllLinesOk(configs: map<string, PayConfig>, detail: seq<DetailLine>) {
    forall i | 0 <= i < |detail| :: LineOk(configs, detail[i])
  }

  predicate DistinctPairs(configs: map<string, PayConfig>, detail: seq<DetailLine>)
    requires AllLinesOk(configs, detail)
  {
    forall i, j | 0 <= i < j < |detail| :: ConfigOf(configs, detail[i]) != ConfigOf(configs, detail[j])
  }

  /** The first n lines are all right, with pairwise distinct pair texts. */
  predicate CleanUpTo(configs: map<string, PayConfig>, detail: seq<DetailLine>, n: int)
    requires 0 <= n <= |detail|
  {
    && (forall i | 0 <= i < n :: LineOk(configs, detail[i]))
    && (forall i, j | 0 <= i < j < n :: TextAt(configs, detail, i) != TextAt(configs, detail, j))
  }

  /** One of the first n lines has this pair text. */
  predicate SeenUpTo(configs: map<string, PayConfig>, detail: seq<DetailLine>, n: int, text: string)
    requires 0 <= n <= |detail| && CleanUpTo(configs, detail, n)
  {
    exists j | 0 <= j < n :: TextAt(configs, detail, j) == text
  }

  predicate Acceptable(configs: map<string, PayConfig>, detail: seq<DetailLine>) {
    detail != [] && CleanUpTo(configs, detail, |detail|)
  }

  function ItemOf(configs: map<string, PayConfig>, line: DetailLine): BudgetItem
    requires LineOk(configs, line)
  {
    BudgetItem(ConfigOf(configs, line).voucherType, ConfigOf(configs, line).unit, line.amount)
  }

  predicate AreItemsOf(configs: map<string, PayConfig>, detail: seq<DetailLine>, items: seq<BudgetItem>)
    requires AllLinesOk(configs, detail)
  {
    |items| == |detail| && forall i | 0 <= i < |detail| :: items[i] == ItemOf(configs, detail[i])
  }

  function Items(configs: map<string, PayConfig>, detail: seq<DetailLine>): (items: seq<BudgetItem>)
    requires AllLinesOk(configs, detail)
    ensures AreItemsOf(configs, detail, items)
  {
    seq(|detail|, i requires 0 <= i < |detail| => ItemOf(configs, detail[i]))
  }

  /** What is wrong with line i, the lines before it being all right. */
  predicate ErrorAt(configs: map<string, PayConfig>, detail: seq<DetailLine>, i: int, e: ItemError)
    requires 0 <= i < |detail| && CleanUpTo(configs, detail, i)
  {
    if Address(detail[i]) == "" || detail[i].amount == Blank then e == FieldsRequired
    else if Address(detail[i]) !in configs then e == UnknownAddress
    else e == DuplicatePair && SeenUpTo(configs, detail, i, TextAt(configs, detail, i))
  }

  lemma OneMoreLine(configs: map<string, PayConfig>, detail: seq<DetailLine>, i: int)
    requires 0 <= i < |detail| && CleanUpTo(configs, detail, i) && LineOk(configs, detail[i])
    requires !SeenUpTo(configs, detail, i, TextAt(configs, detail, i))
    ensures CleanUpTo(configs, detail, i + 1)
    ensures forall k :: SeenUpTo(configs, detail, i + 1, k) <==>
                        SeenUpTo(configs, detail, i, k) || k == TextAt(configs, detail, i)
  {
    hide LineOk, TextAt;
    forall a | 0 <= a < i ensures TextAt(configs, detail, a) != TextAt(configs, detail, i) {
    }
    assert CleanUpTo(configs, detail, i + 1);
    forall k
      ensures SeenUpTo(configs, detail, i + 1, k) <==>
                SeenUpTo(configs, detail, i, k) || k == TextAt(configs, detail, i)
    {
      if k == TextAt(configs, detail, i) { assert SeenUpTo(configs, detail, i + 1, k); }
    }
  }

  /** The items of all lines in order, or the error of the first offending line, at index `at`. */
  method ResolveBudgetItems(configs: map<string, PayConfig>, detail: seq<DetailLine>)
    returns (r: Result<seq<BudgetItem>, ItemError>, ghost at: nat)
    ensures r.Success? <==> Acceptable(configs, detail)
    ensures r.Success? ==> AreItemsOf(configs, detail, r.value)
    ensures r.Failure? && detail == [] ==> r.error == EmptyDetail
    ensures r.Failure? && detail != [] ==>
              at < |detail| && CleanUpTo(configs, detail, at) && ErrorAt(configs, detail, at, r.error)
  {
    if |detail| == 0 {
      return Failure(EmptyDetail), 0;
    }
    var items: seq<BudgetItem> := [];
    var seen: set<string> := {};
    for i := 0 to |detail|
      invariant CleanUpTo(configs, detail, i)
      invariant |items| == i && forall j | 0 <= j < i :: items[j] == ItemOf(configs, detail[j])
      invariant forall k :: k in seen <==> SeenUpTo(configs, detail, i, k)
    {
      var line := detail[i];
      if TrimSpace(line.payAddress) == "" || line.amount == Blank {
        return Failure(FieldsRequired), i;
      }
      var address := TrimSpace(line.payAddress);
      if address !in configs {
        return Failure(UnknownAddress), i;
      }
      var cfg := configs[address];
      var key := cfg.voucherType + ":" + cfg.unit;
      assert key == TextAt(configs, detail, i);
      if key in seen {
        return Failure(DuplicatePair), i;
      }
      OneMoreLine(configs, detail, i);
      seen := seen + {key};
      items := items + [BudgetItem(cfg.voucherType, cfg.unit, line.amount)];
    }
    return Success(items), |detail|;
  }

  // ---- The pair text identifies the pair, unless names contain the separator ----

  predicate NoSeparator(configs: map<string, PayConfig>) {
    forall a | a in configs :: ':' !in configs[a].voucherType
  }

  lemma PairTextIsInjective(c: PayConfig, d: PayConfig)
    requires ':' !in c.voucherType && ':' !in d.voucherType
    requires PairText(c) == PairText(d)
    ensures c == d
  {
    var n, m := |c.voucherType|, |d.voucherType|;
    assert PairText(c)[n] == ':' && PairText(d)[m] == ':';
    assert n == m;
    assert c.voucherType == PairText(c)[..n] && d.voucherType == PairText(d)[..n];
    assert c.unit == PairText(c)[n + 1..] && d.unit == PairText(d)[n + 1..];
  }

  /** The pairs of an accepted detail are always pairwise distinct. */
  lemma AcceptedPairsAreDistinct(configs: map<string, PayConfig>, detail: seq<DetailLine>)
    requires Acceptable(configs, detail)
    ensures DistinctPairs(configs, detail)
    ensures forall i, j | 0 <= i < j < |detail| :: Address(detail[i]) != Address(detail[j])
  {
    forall i, j | 0 <= i < j < |detail|
      ensures ConfigOf(configs, detail[i]) != ConfigOf(configs, detail[j])
      ensures Address(detail[i]) != Address(detail[j])
    {
      assert TextAt(configs, detail, i) != TextAt(configs, detail, j);
    }
  }

  /** An address that a line can name. */
  predicate Usable(configs: map<string, PayConfig>, a: string) {
    a in configs && a != "" && TrimSpace(a) == a
  }

  /** Among the addresses that lines can name, the pair text tells different pairs apart. */
  ghost predicate TextsIdentifyPairs(configs: map<string, PayConfig>) {
    forall a, b | Usable(configs, a) && Usable(configs, b) && PairText(configs[a]) == PairText(configs[b]) ::
      configs[a] == configs[b]
  }

  lemma LinesNameUsableAddresses(configs: map<string, PayConfig>, line: DetailLine)
    requires LineOk(configs, line)
    ensures Usable(configs, Address(line))
  {
    TrimIsIdempotent(line.payAddress);
  }

  lemma AcceptsDistinctPairs(configs: map<string, PayConfig>, detail: seq<DetailLine>)
    requires TextsIdentifyPairs(configs)
    ensures Acceptable(configs, detail) <==>
            detail != [] && AllLinesOk(configs, detail) && DistinctPairs(configs, detail)
  {
    if AllLinesOk(configs, detail) && DistinctPairs(configs, detail) {
      forall i, j | 0 <= i < j < |detail|
        ensures TextAt(configs, detail, i) != TextAt(configs, detail, j)
      {
        LinesNameUsableAddresses(configs, detail[i]);
        LinesNameUsableAddresses(configs, detail[j]);
      }
    }
    if Acceptable(configs, detail) {
      AcceptedPairsAreDistinct(configs, detail);
    }
  }

  /** Acceptance is what the error code says (filled-in lines, known addresses, no pair twice) for every
      detail exactly when the pair texts tell the configured pairs apart. */
  lemma AcceptsExactlyDistinctPairs(configs: map<string, PayConfig>)
    ensures (forall detail :: Acceptable(configs, detail) <==>
                              detail != [] && AllLinesOk(configs, detail) && DistinctPairs(configs, detail))
            <==> TextsIdentifyPairs(configs)
  {
    if TextsIdentifyPairs(configs) {
      forall detail
        ensures Acceptable(configs, detail) <==>
                detail != [] && AllLinesOk(configs, detail) && DistinctPairs(configs, detail)
      {
        AcceptsDistinctPairs(configs, detail);
      }
    } else {
      var a, b :| Usable(configs, a) && Usable(configs, b) && PairText(configs[a]) == PairText(configs[b])
                  && configs[a] != configs[b];
      RefusesTheTwo(configs, a, b);
    }
  }

  lemma RefusesTheTwo(configs: map<string, PayConfig>, a: string, b: string)
    requires Usable(configs, a) && Usable(configs, b)
    requires PairText(configs[a]) == PairText(configs[b]) && configs[a] != configs[b]
    ensures var detail := [DetailLine(a, Number(1.0)), DetailLine(b, Number(1.0))];
            AllLinesOk(configs, detail) && DistinctPairs(configs, detail) && !Acceptable(configs, detail)
  {
    var detail := [DetailLine(a, Number(1.0)), DetailLine(b, Number(1.0))];
    assert Address(detail[0]) == a && Address(detail[1]) == b;
    assert TextAt(configs, detail, 0) == TextAt(configs, detail, 1);
  }

  /** For instance when no voucher type contains the separator. */
  lemma NoSeparatorSuffices(configs: map<string, PayConfig>)
    requires NoSeparator(configs)
    ensures TextsIdentifyPairs(configs)
  {
    forall a, b | Usable(configs, a) && Usable(configs, b) && PairText(configs[a]) == PairText(configs[b])
      ensures configs[a] == configs[b]
    {
      PairTextIsInjective(configs[a], configs[b]);
    }
  }

  /** With the separator in a voucher type, two different pairs can be refused as a duplicate. */
  lemma SeparatorInNamesRefusesDistinctPairs()
    ensures exists configs, detail ::
              && detail != [] && AllLinesOk(configs, detail) && DistinctPairs(configs, detail)
              && !Acceptable(configs, detail)
  {
    var configs := map["a" := PayConfig("x:y", "z"), "b" := PayConfig("x", "y:z")];
    var detail := [DetailLine("a", Number(1.0)), DetailLine("b", Number(1.0))];
    assert Address(detail[0]) == "a" && Address(detail[1]) == "b";
    assert PairText(configs["a"]) == "x:y:z" == PairText(configs["b"]);
    assert configs["a"].voucherType != configs["b"].voucherType by {
      assert |configs["a"].voucherType| == 3 && |configs["b"].voucherType| == 1;
    }
    assert ConfigOf(configs, detail[0]) == configs["a"] && ConfigOf(configs, detail[1]) == configs["b"];
    assert AllLinesOk(configs, detail) && DistinctPairs(configs, detail);
    assert TextAt(configs, detail, 0) == TextAt(configs, detail, 1);
  }
}
