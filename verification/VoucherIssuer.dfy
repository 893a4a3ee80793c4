/** The downstream call: what is asked of the asset service, and how its answer is classified. */
module VoucherIssuer {
  import opened Schema
  import opened Text
  import opened Wrappers

  const CRYPTO := "CRYPTO"
  const CRYPTO_PREFIX := "CRYPTO_"

  datatype Snapshot = Snapshot(voucherId: string, userId: Id, projectId: Id, voucherType: string, unit: string)

  datatype ReplyCode = Ok | InvalidArgument | NotFound | OtherCode

  /** What comes back from the asset service. */
  datatype Reply = TransportError | EmptyReply | Coded(code: ReplyCode, message: string)

  datatype Outcome = Succeeded | Refused(reason: string) | Transient

  datatype AssetRequest = AssetRequest(bizId: string, userId: Id, assetCode: string, amount: int)

  function AssetCodeFromUnit(unit: string): (code: Option<string>)
    ensures code.Some? ==> code.value != "" && TrimSpace(unit) == CRYPTO_PREFIX + code.value
    ensures code.None? ==> forall c: string | c != "" :: TrimSpace(unit) != CRYPTO_PREFIX + c
  {
    var u := TrimSpace(unit);
    if |u| >= |CRYPTO_PREFIX| && u[..|CRYPTO_PREFIX|] == CRYPTO_PREFIX then
      var code := u[|CRYPTO_PREFIX|..];
      assert u == CRYPTO_PREFIX + code;
      if code == "" then None else Some(code)
    else
      assert forall c: string :: (CRYPTO_PREFIX + c)[..|CRYPTO_PREFIX|] == CRYPTO_PREFIX;
      None
  }

  function CodeName(code: ReplyCode): string {
    match code
    case Ok => "ERROR_CODE_OK"
    case InvalidArgument => "ERROR_CODE_INVALID_ARGUMENT"
    case NotFound => "ERROR_CODE_NOT_FOUND"
    case OtherCode => "OTHER"
  }

  /** The asset service is asked only for crypto vouchers of a supported unit. */
  predicate CallsAssetService(ready: bool, snap: Snapshot) {
    snap.voucherType == CRYPTO && ready && AssetCodeFromUnit(snap.unit).Some?
  }

  function RequestFor(snap: Snapshot, amount: int): AssetRequest
    requires AssetCodeFromUnit(snap.unit).Some?
  {
    AssetRequest(snap.voucherId, snap.userId, AssetCodeFromUnit(snap.unit).value, amount)
  }

  function Classify(reply: Reply): Outcome {
    match reply
    case TransportError => Transient
    case EmptyReply => Transient
    case Coded(code, message) =>
      match code
      case Ok => Succeeded
      case InvalidArgument => Refused(if message == "" then "asset reward failed: " + CodeName(code) else message)
      case NotFound => Refused(if message == "" then "asset reward failed: " + CodeName(code) else message)
      case OtherCode => Transient
  }

  /** `ready` tells whether the asset client is configured; `reply` is looked at only when it is called. */
  function Issue(ready: bool, snap: Snapshot, reply: Reply): Outcome {
    if snap.voucherType != CRYPTO then Succeeded
    else if !ready then Transient
    else if AssetCodeFromUnit(snap.unit).None? then Refused("unsupported crypto unit: " + TrimSpace(snap.unit))
    else Classify(reply)
  }

  /** A voucher counts as issued without asking anybody unless it is crypto; a crypto voucher counts as
      issued only on an OK, and as refused only on a permanent code or an unsupported unit. */
  lemma IssueClassifies(ready: bool, snap: Snapshot, reply: Reply)
    ensures Issue(ready, snap, reply).Succeeded? <==>
            snap.voucherType != CRYPTO || (CallsAssetService(ready, snap) && reply.Coded? && reply.code == Ok)
    ensures Issue(ready, snap, reply).Refused? <==>
            snap.voucherType == CRYPTO && ready
            && (AssetCodeFromUnit(snap.unit).None?
                || (reply.Coded? && (reply.code == InvalidArgument || reply.code == NotFound)))
    ensures Issue(ready, snap, reply).Refused? ==> Issue(ready, snap, reply).reason != ""
  {
    assert "unsupported crypto unit: " + TrimSpace(snap.unit) != "";
  }
}
