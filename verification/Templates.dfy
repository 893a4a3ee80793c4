/** Reward templates: how a configuration is normalised and stored, and what it pays.

    A raw configuration is a decoded JSON object: the names of its fields, and their values, with an
    absent field read as blank. */
module Templates {
  import opened Amounts
  import opened Schema
  import opened Text
  import opened Vouchers
  import opened Wrappers

  datatype Kind = Fixed | Dynamic

  datatype RawConfig = RawConfig(keys: seq<string>, amount: AmountText, baseMetric: string, rate: real, cap: AmountText)

  datatype Config =
    | FixedConfig(amount: int)
    | DynamicConfig(baseMetric: string, rate: real, cap: Option<int>)

  datatype TemplateError =
    | UnexpectedField
    | InvalidConfig
    | InvalidAmount
    | MetricRequired
    | InvalidMetric
    | TemplateNotFound
    | WrongStatus

  const FIXED_KEYS := ["amount"]
  const DYNAMIC_KEYS := ["base_metric", "rate", "cap"]

  function KindOf(c: Config): Kind { if c.FixedConfig? then Fixed else Dynamic }

  // ---- Normalising ----

  predicate KeysAllowed(keys: seq<string>, allowed: seq<string>) {
    forall i | 0 <= i < |keys| :: keys[i] in allowed
  }

  method ValidateConfigKeys(keys: seq<string>, allowed: seq<string>) returns (ok: bool)
    ensures ok <==> KeysAllowed(keys, allowed)
  {
    var allowedSet: set<string> := {};
    for i := 0 to |allowed|
      invariant forall k :: k in allowedSet <==> k in allowed[..i]
    {
      allowedSet := allowedSet + {allowed[i]};
    }
    assert allowed[..|allowed|] == allowed;
    for i := 0 to |keys|
      invariant forall j | 0 <= j < i :: keys[j] in allowed
    {
      if keys[i] !in allowedSet { return false; }
    }
    return true;
  }

  /** What is stored for a raw configuration, or why it is refused. */
  function Normalize(kind: Kind, raw: RawConfig): Result<Config, TemplateError> {
    match kind
    case Fixed =>
      if !KeysAllowed(raw.keys, FIXED_KEYS) then Failure(UnexpectedField)
      else if ParseAmount(raw.amount).None? || ParseAmount(raw.amount).value <= 0.0 then Failure(InvalidAmount)
      else Success(FixedConfig(FormatAmount(ParseAmount(raw.amount).value)))
    case Dynamic =>
      if !KeysAllowed(raw.keys, DYNAMIC_KEYS) then Failure(UnexpectedField)
      else if TrimSpace(raw.baseMetric) == "" || raw.rate <= 0.0 then Failure(InvalidConfig)
      else if raw.cap == Blank then Success(DynamicConfig(TrimSpace(raw.baseMetric), raw.rate, None))
      else if ParseAmount(raw.cap).None? then Failure(InvalidAmount)
      else Success(DynamicConfig(TrimSpace(raw.baseMetric), raw.rate, Some(FormatAmount(ParseAmount(raw.cap).value))))
  }

  method ParseTemplateConfig(kind: Kind, raw: RawConfig) returns (r: Result<Config, TemplateError>)
    ensures r == Normalize(kind, raw)
  {
    var ok := ValidateConfigKeys(raw.keys, if kind == Fixed then FIXED_KEYS else DYNAMIC_KEYS);
    if !ok { return Failure(UnexpectedField); }
    match kind {
      case Fixed =>
        var parsed := ParseAmount(raw.amount);
        if parsed.None? || parsed.value <= 0.0 { return Failure(InvalidAmount); }
        return Success(FixedConfig(FormatAmount(parsed.value)));
      case Dynamic =>
        if TrimSpace(raw.baseMetric) == "" { return Failure(InvalidConfig); }
        if raw.rate <= 0.0 { return Failure(InvalidConfig); }
        var normalized := DynamicConfig(TrimSpace(raw.baseMetric), raw.rate, None);
        if raw.cap != Blank {
          var parsed := ParseAmount(raw.cap);
          if parsed.None? { return Failure(InvalidAmount); }
          normalized := normalized.(cap := Some(FormatAmount(parsed.value)));
        }
        return Success(normalized);
    }
  }

  /** What every stored configuration looks like. */
  predicate IsNormal(c: Config) {
    match c
    case FixedConfig(amount) => amount >= 0
    case DynamicConfig(baseMetric, rate, cap) =>
      && baseMetric != "" && TrimSpace(baseMetric) == baseMetric && rate > 0.0
      && (cap.Some? ==> cap.value >= 0)
  }

  /** A stored configuration as it is shown, and as it comes back unchanged from an editor. */
  function AsRaw(c: Config): RawConfig {
    match c
    case FixedConfig(amount) => RawConfig(["amount"], Number(Value(amount)), "", 0.0, Blank)
    case DynamicConfig(baseMetric, rate, cap) =>
      if cap.None? then RawConfig(["base_metric", "rate"], Blank, baseMetric, rate, Blank)
      else RawConfig(["base_metric", "rate", "cap"], Blank, baseMetric, rate, Number(Value(cap.value)))
  }

  lemma NormalizedIsNormal(kind: Kind, raw: RawConfig)
    requires Normalize(kind, raw).Success?
    ensures IsNormal(Normalize(kind, raw).value) && KindOf(Normalize(kind, raw).value) == kind
  {
    TrimIsIdempotent(raw.baseMetric);
  }

  /** Normalising what was stored changes nothing, with one exception: a fixed amount that rounded to
      zero when stored is refused when it comes back. */
  lemma RenormalizingIsIdentity(c: Config)
    requires IsNormal(c)
    ensures Normalize(KindOf(c), AsRaw(c)) == Success(c) <==> c.DynamicConfig? || c.amount > 0
    ensures Normalize(KindOf(c), AsRaw(c)).Failure? <==> c == FixedConfig(0)
  {
    match c {
      case FixedConfig(amount) =>
        FormatIsExactOnGrid(amount);
        assert Value(amount) > 0.0 <==> amount > 0;
      case DynamicConfig(baseMetric, rate, cap) =>
        if cap.Some? { FormatIsExactOnGrid(cap.value); }
    }
  }

  // ---- Paying ----

  function MetricOf(c: Config, metrics: map<string, AmountText>): Option<real>
    requires c.DynamicConfig?
  {
    if c.baseMetric in metrics then ParseAmount(metrics[c.baseMetric]) else None
  }

  /** Metric times rate. */
  function Exact(c: Config, metrics: map<string, AmountText>): real
    requires c.DynamicConfig? && MetricOf(c, metrics).Some?
  {
    MetricOf(c, metrics).value * c.rate
  }

  /** The amount before rounding. */
  function CalculateRewardAmount(c: Config, metrics: map<string, AmountText>): Result<real, TemplateError> {
    match c
    case FixedConfig(amount) =>
      if ParseAmount(Number(Value(amount))).None? then Failure(InvalidAmount) else Success(Value(amount))
    case DynamicConfig(baseMetric, rate, cap) =>
      if TrimSpace(baseMetric) == "" || rate <= 0.0 then Failure(InvalidConfig)
      else if baseMetric !in metrics || metrics[baseMetric] == Blank then Failure(MetricRequired)
      else if ParseAmount(metrics[baseMetric]).None? then Failure(InvalidMetric)
      else
        var amount := Exact(c, metrics);
        if cap.None? then Success(amount)
        else if ParseAmount(Number(Value(cap.value))).None? then Failure(InvalidAmount)
        else if CmpAmount(Number(amount), Number(Value(cap.value))) == Some(1) then Success(Value(cap.value))
        else Success(amount)
  }

  /** What a reward request resolved from the template asks for. */
  function RewardAmount(c: Config, metrics: map<string, AmountText>): Result<int, TemplateError> {
    var amount := CalculateRewardAmount(c, metrics);
    if amount.Failure? then Failure(amount.error)
    else if amount.value <= 0.0 then Failure(InvalidAmount)
    else Success(FormatAmount(amount.value))
  }

  function Capped(x: real, cap: Option<int>): real {
    if cap.Some? && x > Value(cap.value) then Value(cap.value) else x
  }

  /** The amount before rounding is metric times rate, or the cap where that is less. */
  lemma CalculatesCappedProduct(c: Config, metrics: map<string, AmountText>)
    requires IsNormal(c) && c.DynamicConfig? && MetricOf(c, metrics).Some?
    ensures CalculateRewardAmount(c, metrics) == Success(Capped(Exact(c, metrics), c.cap))
  {
    ExactSign(c, metrics);
    if c.cap.Some? { FormatIsExactOnGrid(c.cap.value); }
  }

  /** Rounding a capped amount, with the cap on the grid. */
  lemma RoundsWithinCap(x: real, cap: Option<int>)
    requires x >= 0.0 && (cap.Some? ==> cap.value >= 0)
    ensures var u := FormatAmount(Capped(x, cap)); var exact := x * SCALE;
            && u >= 0 && u as real <= exact + 0.5
            && (Capped(x, cap) > 0.0 <==> x > 0.0 && cap != Some(0))
            && (cap.Some? ==> u <= cap.value)
            && (cap.Some? && exact >= cap.value as real ==> u == cap.value)
            && (cap.None? || exact < cap.value as real ==> exact < u as real + 0.5)
  {
    if cap.Some? {
      FormatIsExactOnGrid(cap.value);
      FormatIsMonotone(Capped(x, cap), Value(cap.value));
    }
  }

  lemma ExactSign(c: Config, metrics: map<string, AmountText>)
    requires IsNormal(c) && c.DynamicConfig? && MetricOf(c, metrics).Some?
    ensures Exact(c, metrics) >= 0.0 && (Exact(c, metrics) > 0.0 <==> MetricOf(c, metrics).value > 0.0)
  {
    var m := MetricOf(c, metrics).value;
    if m > 0.0 { assert m * c.rate > 0.0; }
  }

  lemma NothingWithoutMetric(c: Config, metrics: map<string, AmountText>)
    requires IsNormal(c) && c.DynamicConfig? && MetricOf(c, metrics).None?
    ensures CalculateRewardAmount(c, metrics).Failure?
  {
  }

  /** A dynamic template pays exactly when it is given a positive metric and does not have a zero cap. */
  lemma PaysExactly(c: Config, metrics: map<string, AmountText>)
    requires IsNormal(c) && c.DynamicConfig?
    ensures var m := MetricOf(c, metrics);
            && (RewardAmount(c, metrics).Success? <==> m.Some? && m.value > 0.0 && c.cap != Some(0))
            && (RewardAmount(c, metrics).Success? ==>
                  RewardAmount(c, metrics).value == FormatAmount(Capped(Exact(c, metrics), c.cap)))
  {
    var m := MetricOf(c, metrics);
    if m.Some? {
      ExactSign(c, metrics);
      CalculatesCappedProduct(c, metrics);
      RoundsWithinCap(Exact(c, metrics), c.cap);
    } else {
      NothingWithoutMetric(c, metrics);
    }
  }

  /** It pays the nearest unit to metric times rate, but never more than the stored cap, and the cap
      itself from there on. */
  lemma PayoutIsBounded(c: Config, metrics: map<string, AmountText>)
    requires IsNormal(c) && c.DynamicConfig? && RewardAmount(c, metrics).Success?
    ensures MetricOf(c, metrics).Some?
    ensures var u := RewardAmount(c, metrics).value; var exact := Exact(c, metrics) * SCALE;
            && u >= 0 && u as real <= exact + 0.5
            && (c.cap.Some? ==> u <= c.cap.value)
            && (c.cap.Some? && exact >= c.cap.value as real ==> u == c.cap.value)
            && (c.cap.None? || exact < c.cap.value as real ==> exact < u as real + 0.5)
  {
    PaysExactly(c, metrics);
    ExactSign(c, metrics);
    RoundsWithinCap(Exact(c, metrics), c.cap);
  }

  lemma ExactIsMonotone(c: Config, less: map<string, AmountText>, more: map<string, AmountText>)
    requires IsNormal(c) && c.DynamicConfig?
    requires MetricOf(c, less).Some? && MetricOf(c, more).Some? && MetricOf(c, less).value <= MetricOf(c, more).value
    ensures Exact(c, less) <= Exact(c, more)
  {
    assert (MetricOf(c, more).value - MetricOf(c, less).value) * c.rate >= 0.0;
  }

  lemma CappedIsMonotone(x: real, y: real, cap: Option<int>)
    requires x <= y
    ensures Capped(x, cap) <= Capped(y, cap)
  {
  }

  /** A larger metric never pays less. */
  lemma PayoutIsMonotone(c: Config, less: map<string, AmountText>, more: map<string, AmountText>)
    requires IsNormal(c) && c.DynamicConfig? && RewardAmount(c, less).Success?
    requires MetricOf(c, less).Some? && MetricOf(c, more).Some? && MetricOf(c, less).value <= MetricOf(c, more).value
    ensures RewardAmount(c, more).Success? && RewardAmount(c, less).value <= RewardAmount(c, more).value
  {
    PaysExactly(c, less);
    PaysExactly(c, more);
    ExactIsMonotone(c, less, more);
    CappedIsMonotone(Exact(c, less), Exact(c, more), c.cap);
    FormatIsMonotone(Capped(Exact(c, less), c.cap), Capped(Exact(c, more), c.cap));
  }

  /** An accepted fixed template pays exactly when its amount is at least half a unit. */
  lemma FixedPaysFromHalfAUnit(raw: RawConfig, metrics: map<string, AmountText>)
    requires Normalize(Fixed, raw).Success?
    ensures var c := Normalize(Fixed, raw).value;
            && (RewardAmount(c, metrics).Success? <==> raw.amount.value * SCALE >= 0.5)
            && (RewardAmount(c, metrics).Success? ==> RewardAmount(c, metrics) == Success(c.amount))
  {
    var c := Normalize(Fixed, raw).value;
    assert Value(c.amount) > 0.0 <==> c.amount > 0;
    FormatIsExactOnGrid(c.amount);
  }

  /** So one that is accepted may never pay. */
  lemma AcceptedFixedTemplateMayNeverPay()
    ensures exists raw :: Normalize(Fixed, raw).Success?
                          && forall metrics :: RewardAmount(Normalize(Fixed, raw).value, metrics).Failure?
  {
    var raw := RawConfig(["amount"], Number(0.000000001), "", 0.0, Blank);
    assert Normalize(Fixed, raw).Success?;
    forall metrics ensures RewardAmount(Normalize(Fixed, raw).value, metrics).Failure? {
      FixedPaysFromHalfAUnit(raw, metrics);
    }
  }

  // ---- The table ----

  datatype TemplateStatus = DraftTemplate | PublishedTemplate

  datatype Template = Template(title: string, voucherType: string, unit: string, kind: Kind, config: Config,
                               status: TemplateStatus)

  /** What every call stores: a title, known names, and a configuration in normal form for its kind. */
  predicate NormalRow(row: Template) {
    && row.title != "" && row.voucherType in VOUCHER_TYPES && row.unit in UNITS
    && IsNormal(row.config) && KindOf(row.config) == row.kind
  }

  predicate NormalRows(rows: map<Id, Template>) {
    forall id | id in rows :: NormalRow(rows[id])
  }

  /** A write as the table sees it: the overwriting one does not look at the status. */
  datatype Write =
    | Insert(id: Id, row: Template)
    | Overwrite(id: Id, title: string, config: Config)
    | SetPublished(id: Id)

  function Overwritten(row: Template, title: string, config: Config): Template {
    row.(config := config, title := if title == "" then row.title else title)
  }

  function Written(rows: map<Id, Template>, write: Write): map<Id, Template> {
    match write
    case Insert(id, row) => if id in rows then rows else rows[id := row]
    case Overwrite(id, title, config) => if id in rows then rows[id := Overwritten(rows[id], title, config)] else rows
    case SetPublished(id) =>
      if id in rows && rows[id].status == DraftTemplate then rows[id := rows[id].(status := PublishedTemplate)]
      else rows
  }

  function AllWritten(rows: map<Id, Template>, writes: seq<Write>): map<Id, Template>
    decreases |writes|
  {
    if writes == [] then rows else AllWritten(Written(rows, writes[0]), writes[1..])
  }

  /** What calls write: a draft they have checked, or a configuration normalised for the row's kind. */
  predicate Proper(rows: map<Id, Template>, write: Write) {
    match write
    case Insert(_, row) => NormalRow(row) && row.status == DraftTemplate
    case Overwrite(id, _, config) => id in rows ==> NormalRow(rows[id].(config := config))
    case SetPublished(_) => true
  }

  predicate AllProper(rows: map<Id, Template>, writes: seq<Write>)
    decreases |writes|
  {
    writes != [] ==> Proper(rows, writes[0]) && AllProper(Written(rows, writes[0]), writes[1..])
  }

  lemma {:induction false} WritesKeepNormal(rows: map<Id, Template>, writes: seq<Write>)
    requires NormalRows(rows) && AllProper(rows, writes)
    ensures NormalRows(AllWritten(rows, writes))
    ensures forall id | id in rows ::
              id in AllWritten(rows, writes) && AllWritten(rows, writes)[id].kind == rows[id].kind
    decreases |writes|
  {
    hide IsNormal;
    if writes != [] {
      WritesKeepNormal(Written(rows, writes[0]), writes[1..]);
    }
  }

  // ---- What publishing promises ----

  /** Every published template is still there, unchanged. */
  predicate Frozen(rows: map<Id, Template>, later: map<Id, Template>) {
    forall id | id in rows && rows[id].status == PublishedTemplate :: id in later && later[id] == rows[id]
  }

  /** The write overwrites no published template, or only with what it says already. */
  predicate Spares(rows: map<Id, Template>, write: Write) {
    write.Overwrite? && write.id in rows && rows[write.id].status == PublishedTemplate ==>
      write.config == rows[write.id].config && (write.title == "" || write.title == rows[write.id].title)
  }

  predicate AllSpare(rows: map<Id, Template>, writes: seq<Write>)
    decreases |writes|
  {
    writes != [] ==> Spares(rows, writes[0]) && AllSpare(Written(rows, writes[0]), writes[1..])
  }

  /** No write of the sequence changes a template that is published when it lands. */
  predicate FrozenThroughout(rows: map<Id, Template>, writes: seq<Write>)
    decreases |writes|
  {
    writes != [] ==>
      Frozen(rows, Written(rows, writes[0])) && FrozenThroughout(Written(rows, writes[0]), writes[1..])
  }

  lemma FrozenExactlyWhenSpared(rows: map<Id, Template>, write: Write)
    ensures Frozen(rows, Written(rows, write)) <==> Spares(rows, write)
  {
    if Frozen(rows, Written(rows, write)) && write.Overwrite? && write.id in rows
       && rows[write.id].status == PublishedTemplate
    {
      assert Written(rows, write)[write.id] == rows[write.id];
    }
  }

  lemma {:induction false} PublishedStaysExactlyWhenSpared(rows: map<Id, Template>, writes: seq<Write>)
    ensures FrozenThroughout(rows, writes) <==> AllSpare(rows, writes)
    ensures AllSpare(rows, writes) ==> Frozen(rows, AllWritten(rows, writes))
    decreases |writes|
  {
    hide Spares, Written;
    if writes != [] {
      FrozenExactlyWhenSpared(rows, writes[0]);
      PublishedStaysExactlyWhenSpared(Written(rows, writes[0]), writes[1..]);
    }
  }

  /** The input that fails: the check of an edit, the publication by another call, the write of the edit.
      The published template, which paid one amount, now pays another. */
  lemma LateOverwriteCanChangeAPayout()
    ensures exists id, row, title, config, metrics ::
              var draft := map[id := row];
              var published := Written(draft, SetPublished(id));
              var write := Overwrite(id, title, config);
              && row.status == DraftTemplate && NormalRow(row) && Proper(draft, write) && Proper(published, write)
              && Written(published, write)[id].status == PublishedTemplate
              && RewardAmount(published[id].config, metrics) == Success(100000000)
              && RewardAmount(Written(published, write)[id].config, metrics) == Success(200000000)
  {
    var row := Template("t", "CRYPTO", "CRYPTO_USDT", Fixed, FixedConfig(100000000), DraftTemplate);
    var config := FixedConfig(200000000);
    FormatIsExactOnGrid(100000000);
    FormatIsExactOnGrid(200000000);
    var draft := map[1 := row];
    var published := Written(draft, SetPublished(1));
    assert RewardAmount(published[1].config, map[]) == Success(100000000);
    assert RewardAmount(Written(published, Overwrite(1, "", config))[1].config, map[]) == Success(200000000);
  }

  // ---- The calls ----

  class TemplateTable {
    var rows: map<Id, Template>

    ghost predicate Valid()
      reads this
    {
      NormalRows(rows)
    }

    constructor ()
      ensures Valid() && rows == map[]
    {
      rows := map[];
    }

    method Create(id: Id, title: string, voucherType: string, unit: string, kind: Kind, raw: RawConfig)
      returns (err: Option<TemplateError>)
      requires Valid() && id !in rows
      modifies this
      ensures Valid()
      ensures err.None? <==> TrimSpace(title) != "" && TrimSpace(voucherType) in VOUCHER_TYPES
                             && TrimSpace(unit) in UNITS && Normalize(kind, raw).Success?
      ensures rows == if err.Some? then old(rows) else
                old(rows)[id := Template(TrimSpace(title), TrimSpace(voucherType), TrimSpace(unit), kind,
                                         Normalize(kind, raw).value, DraftTemplate)]
    {
      if TrimSpace(title) == "" { return Some(InvalidConfig); }
      var knownType, knownUnit := ValidateVoucherType(voucherType), ValidateUnit(unit);
      if knownType.None? || knownUnit.None? { return Some(InvalidConfig); }
      var config := ParseTemplateConfig(kind, raw);
      if config.Failure? { return Some(config.error); }
      NormalizedIsNormal(kind, raw);
      rows := rows[id := Template(TrimSpace(title), knownType.value, knownUnit.value, kind, config.value,
                                  DraftTemplate)];
      return None;
    }

    /** Only a draft can be edited; its kind stays, and so does its title when the new one is blank. The
        write comes after what others write meanwhile, and does not look at the status again. */
    method Update(id: Id, title: string, raw: RawConfig, meanwhile: seq<Write>) returns (err: Option<TemplateError>)
      requires Valid() && AllProper(rows, meanwhile)
      modifies this
      ensures Valid()
      ensures err.None? <==> id in old(rows) && old(rows)[id].status == DraftTemplate
                             && Normalize(old(rows)[id].kind, raw).Success?
      ensures err.Some? ==> rows == old(rows)
      ensures err.None? ==>
                var now := AllWritten(old(rows), meanwhile);
                && id in now
                && rows == now[id := now[id].(
                     config := Normalize(old(rows)[id].kind, raw).value,
                     title := if TrimSpace(title) == "" then now[id].title else TrimSpace(title))]
    {
      hide IsNormal, Normalize, AllWritten, AllProper, TrimSpace;
      if id !in rows { return Some(TemplateNotFound); }
      if rows[id].status != DraftTemplate { return Some(WrongStatus); }
      var config := ParseTemplateConfig(rows[id].kind, raw);
      if config.Failure? { return Some(config.error); }
      NormalizedIsNormal(rows[id].kind, raw);
      WritesKeepNormal(rows, meanwhile);
      rows := AllWritten(rows, meanwhile);
      rows := rows[id := rows[id].(config := config.value)];
      if TrimSpace(title) != "" {
        rows := rows[id := rows[id].(title := TrimSpace(title))];
      }
      return None;
    }

    /** From draft to published, once: what decides is the status the write finds. */
    method Publish(id: Id, meanwhile: seq<Write>) returns (err: Option<TemplateError>)
      requires Valid() && AllProper(rows, meanwhile)
      modifies this
      ensures Valid()
      ensures err.None? <==> id in old(rows) && old(rows)[id].status == DraftTemplate
                             && var now := AllWritten(old(rows), meanwhile);
                                id in now && now[id].status == DraftTemplate
      ensures err.Some? ==> rows == old(rows) || rows == AllWritten(old(rows), meanwhile)
      ensures err.None? ==> var now := AllWritten(old(rows), meanwhile);
                            rows == now[id := now[id].(status := PublishedTemplate)]
    {
      hide IsNormal, AllWritten, AllProper;
      if id !in rows { return Some(TemplateNotFound); }
      if rows[id].status != DraftTemplate { return Some(WrongStatus); }
      WritesKeepNormal(rows, meanwhile);
      rows := AllWritten(rows, meanwhile);
      if rows[id].status != DraftTemplate { return Some(WrongStatus); }
      rows := rows[id := rows[id].(status := PublishedTemplate)];
      return None;
    }

    /** Only a published template resolves; what it resolves to is within its cap. */
    method Resolve(id: Id, metrics: map<string, AmountText>) returns (r: Result<int, TemplateError>)
      requires Valid()
      ensures r == if id !in rows then Failure(TemplateNotFound)
                   else if rows[id].status != PublishedTemplate then Failure(WrongStatus)
                   else RewardAmount(rows[id].config, metrics)
      ensures r.Success? ==>
                r.value >= 0
                && (rows[id].config.DynamicConfig? && rows[id].config.cap.Some? ==>
                    r.value <= rows[id].config.cap.value)
    {
      if id !in rows { return Failure(TemplateNotFound); }
      if rows[id].status != PublishedTemplate { return Failure(WrongStatus); }
      r := RewardAmount(rows[id].config, metrics);
      if r.Success? && rows[id].config.DynamicConfig? {
        PayoutIsBounded(rows[id].config, metrics);
      }
    }
  }
}
