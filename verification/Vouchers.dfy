/** The names of voucher types and units that the protocol knows. */
module Vouchers {
  import opened Text
  import opened Wrappers

  /** The enumerations of the protocol, without their unspecified members. */
  const VOUCHER_TYPES: set<string> := {"CRYPTO", "COUPON", "POINT"}
  const UNITS: set<string> := {
    "CRYPTO_BTC", "CRYPTO_ETH", "CRYPTO_USDT", "CRYPTO_USDC", "COUPON_CASHBACK", "COUPON_DISCOUNT",
    "COUPON_TRADING_FEE_REBATE", "POINT_USER_POINTS"
  }

  /** Validated names are trimmed, and validating them again changes nothing. */
  function ValidateVoucherType(name: string): (r: Option<string>)
    ensures r.Some? <==> TrimSpace(name) in VOUCHER_TYPES
    ensures r.Some? ==> r.value == TrimSpace(name) == TrimSpace(r.value)
  {
    TrimIsIdempotent(name);
    if TrimSpace(name) in VOUCHER_TYPES then Some(TrimSpace(name)) else None
  }

  function ValidateUnit(name: string): (r: Option<string>)
    ensures r.Some? <==> TrimSpace(name) in UNITS
    ensures r.Some? ==> r.value == TrimSpace(name) == TrimSpace(r.value)
  {
    TrimIsIdempotent(name);
    if TrimSpace(name) in UNITS then Some(TrimSpace(name)) else None
  }
}
