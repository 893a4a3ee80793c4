/** Accepting a reward distribution request: what amount it asks for, and the one row it becomes. */
module RewardIntake {
  import opened Amounts
  import opened Database
  import opened Schema
  import opened Text
  import opened Templates
  import opened Transactions
  import opened Vouchers
  import opened Wrappers

  datatype RewardMessage = RewardMessage(
    clientRef: string, userId: Id, projectId: Id, templateId: Id, metrics: map<string, AmountText>,
    voucherType: string, unit: string, amount: AmountText)

  datatype RewardInput = RewardInput(
    clientRef: string, userId: Id, projectId: Id, voucherType: string, unit: string, amount: int)

  /** The message names everything it must, and resolves to a positive amount. */
  predicate Resolvable(rows: map<Id, Template>, msg: RewardMessage) {
    && TrimSpace(msg.clientRef) != "" && msg.userId != 0 && msg.projectId != 0
    && if msg.templateId > 0 then
         && msg.templateId in rows && rows[msg.templateId].status == PublishedTemplate
         && RewardAmount(rows[msg.templateId].config, msg.metrics).Success?
       else
         && TrimSpace(msg.voucherType) in VOUCHER_TYPES && TrimSpace(msg.unit) in UNITS
         && ParseAmount(msg.amount).Some? && ParseAmount(msg.amount).value > 0.0
  }

  /** `value` is the amount before rounding. */
  method ResolveRewardAmount(templates: TemplateTable, msg: RewardMessage)
    returns (r: Result<RewardInput, Error>, ghost value: real)
    requires templates.Valid()
    ensures r.Success? <==> Resolvable(templates.rows, msg)
    ensures r.Success? ==>
              && value > 0.0 && r.value.amount == FormatAmount(value)
              && r.value.clientRef == TrimSpace(msg.clientRef) != ""
              && r.value.userId == msg.userId != 0 && r.value.projectId == msg.projectId != 0
    ensures r.Success? && msg.templateId > 0 ==>
              && msg.templateId in templates.rows && templates.rows[msg.templateId].status == PublishedTemplate
              && RewardAmount(templates.rows[msg.templateId].config, msg.metrics) == Result.Success(r.value.amount)
              && r.value.voucherType == templates.rows[msg.templateId].voucherType
              && r.value.unit == templates.rows[msg.templateId].unit
    ensures r.Success? && msg.templateId <= 0 ==>
              && ParseAmount(msg.amount) == Some(value)
              && r.value.voucherType == TrimSpace(msg.voucherType) && r.value.voucherType in VOUCHER_TYPES
              && r.value.unit == TrimSpace(msg.unit) && r.value.unit in UNITS
  {
    value := 0.0;
    var input := RewardInput(TrimSpace(msg.clientRef), msg.userId, msg.projectId, "", "", 0);
    if input.clientRef == "" || input.userId == 0 || input.projectId == 0 { return Failure(Error.Rejected), value; }
    if msg.templateId > 0 {
      var amount := templates.Resolve(msg.templateId, msg.metrics);
      if amount.Failure? { return Failure(Error.Rejected), value; }
      var template := templates.rows[msg.templateId];
      value := CalculateRewardAmount(template.config, msg.metrics).value;
      input := input.(voucherType := template.voucherType, unit := template.unit, amount := amount.value);
    } else {
      var voucherType, unit := ValidateVoucherType(msg.voucherType), ValidateUnit(msg.unit);
      if voucherType.None? || unit.None? { return Failure(Error.Rejected), value; }
      var amount := ParseAmount(msg.amount);
      if amount.None? || amount.value <= 0.0 { return Failure(Error.Rejected), value; }
      value := amount.value;
      input := input.(voucherType := voucherType.value, unit := unit.value, amount := FormatAmount(amount.value));
    }
    return Result.Success(input), value;
  }

  /** At most one row per client reference, however often the message arrives; `announceFails` says that
      the row was stored but its execution could not be announced. */
  method ProcessVoucherIssueRequest(db: Db, templates: TemplateTable, msg: RewardMessage, newId: Id,
                                    fails: bool, announceFails: bool)
    returns (err: Option<Error>, ghost input: Option<RewardInput>, ghost value: real)
    requires templates.Valid()
    modifies db
    ensures input.Some? <==> Resolvable(templates.rows, msg)
    ensures input.None? ==> err.Some? && db.View() == old(db.View())
    ensures input.Some? ==>
              && value > 0.0 && input.value.amount == FormatAmount(value)
              && var k := Key(input.value.projectId, input.value.voucherType, input.value.unit);
                 db.View() == if fails then old(db.View())
                              else AcceptReward(old(db.View()), newId, input.value.clientRef, input.value.userId, k,
                                                FormatAmount(value))
    ensures input.Some? ==>
              var x := input.value;
              err.None? <==>
                && !fails && !announceFails
                && ProjectBudgetFor(old(db.View()), Key(x.projectId, x.voucherType, x.unit)).Some?
                && RewardRequestInsertable(old(db.View()), newId, RewardRequest(
                     x.clientRef, x.userId, x.projectId, x.voucherType, x.unit, x.amount, PendingReward))
    ensures err.None? ==>
              && input.Some? && newId in db.rewardRequests && newId !in old(db.rewardRequests)
              && forall id | id in old(db.rewardRequests) ::
                   old(db.rewardRequests)[id].clientRef != db.rewardRequests[newId].clientRef
  {
    var r, v := ResolveRewardAmount(templates, msg);
    input, value := None, v;
    if r.Failure? { return Some(r.error), input, value; }
    var x := r.value;
    input := Some(x);
    if ProjectBudgetFor(db.View(), Key(x.projectId, x.voucherType, x.unit)).None? {
      return Some(Error.Rejected), input, value;
    }
    if exists id | id in db.rewardRequests :: db.rewardRequests[id].clientRef == x.clientRef {
      return Some(DuplicateKey), input, value;
    }
    err := db.CreateRewardRequest(
      newId, RewardRequest(x.clientRef, x.userId, x.projectId, x.voucherType, x.unit, x.amount, PendingReward), fails);
    if err.None? && announceFails {
      err := Some(DriverError);
    }
  }

  /** An accepted positive amount is stored as a positive one exactly from half a unit on. */
  lemma StoredAmountIsPositive(value: real)
    requires value > 0.0
    ensures FormatAmount(value) > 0 <==> value * SCALE >= 0.5
  {
  }
}
