/** Decimal amounts: parsing, formatting to eight places, addition and comparison.

    An amount travels through the service as text. The text of a number is modelled by the rational
    it denotes; the result of formatting, and every DECIMAL(20,8) column, by an integer count of
    10^-8 units. */
module Amounts {
  import opened Wrappers

  const SCALE: real := 100000000.0

  datatype AmountText = Blank | Malformed | Number(value: real)

  /** The rational denoted by a column or by a formatted amount. */
  function Value(units: int): real {
    units as real / SCALE
  }

  function ParseAmount(raw: AmountText): (r: Option<real>)
    ensures r.Some? <==> raw.Number? && raw.value >= 0.0
    ensures r.Some? ==> raw == Number(r.value)
  {
    if raw.Number? && raw.value >= 0.0 then Some(raw.value) else None
  }

  /** Text with exactly eight decimals: the nearest unit, halves away from zero. */
  function FormatAmount(amount: real): (units: int)
    ensures amount >= 0.0 ==> units >= 0 && -0.5 < units as real - amount * SCALE <= 0.5
    ensures amount < 0.0 ==> units <= 0 && -0.5 <= units as real - amount * SCALE < 0.5
  {
    if amount >= 0.0 then (amount * SCALE + 0.5).Floor else -(0.5 - amount * SCALE).Floor
  }

  function AddAmount(left: AmountText, right: AmountText): (r: Option<int>)
    ensures r.Some? <==> ParseAmount(left).Some? && ParseAmount(right).Some?
  {
    var a, b := ParseAmount(left), ParseAmount(right);
    if a.Some? && b.Some? then Some(FormatAmount(a.value + b.value)) else None
  }

  function CmpAmount(left: AmountText, right: AmountText): (r: Option<int>)
    ensures r.Some? <==> ParseAmount(left).Some? && ParseAmount(right).Some?
    ensures r.Some? ==> (r.value < 0 <==> left.value < right.value)
    ensures r.Some? ==> (r.value > 0 <==> left.value > right.value)
  {
    var a, b := ParseAmount(left), ParseAmount(right);
    if a.Some? && b.Some? then
      Some(if a.value < b.value then -1 else if a.value > b.value then 1 else 0)
    else None
  }

  /** Being the nearest unit with halves up characterises the formatted amount. */
  lemma FormatIsNearest(amount: real, units: int)
    requires amount >= 0.0
    ensures FormatAmount(amount) == units <==> -0.5 < units as real - amount * SCALE <= 0.5
  {
    var f := FormatAmount(amount);
    assert -0.5 < f as real - amount * SCALE <= 0.5;
    if -0.5 < units as real - amount * SCALE <= 0.5 {
      assert -1.0 < (units - f) as real < 1.0;
    }
  }

  lemma FormatIsMonotone(a: real, b: real)
    requires a <= b
    ensures FormatAmount(a) <= FormatAmount(b)
  {
  }

  /** Formatting and parsing back is the identity on the grid, so formatting twice is formatting once. */
  lemma FormatIsExactOnGrid(units: int)
    requires units >= 0
    ensures ParseAmount(Number(Value(units))) == Some(Value(units))
    ensures FormatAmount(Value(units)) == units
  {
    FormatIsNearest(Value(units), units);
  }

  lemma FormatIsIdempotent(amount: real)
    requires amount >= 0.0
    ensures FormatAmount(Value(FormatAmount(amount))) == FormatAmount(amount)
  {
    FormatIsExactOnGrid(FormatAmount(amount));
  }

  /** Adding to a stored column rounds only the addend. */
  lemma FormatShiftsByUnits(units: int, amount: real)
    requires units >= 0 && amount >= 0.0
    ensures FormatAmount(Value(units) + amount) == units + FormatAmount(amount)
  {
    FormatIsNearest(Value(units) + amount, units + FormatAmount(amount));
  }
}
