/** The whole system as a state machine: the tables, any number of workers each somewhere inside a
    service call with local snapshots, the asset service, and a history of what was done.

    A step is one transaction, one read, one remote call or one publication. Any worker may be given
    any event at any time, any number of times, and may crash between any two steps; an error return
    is a worker going idle. */
module Workers {
  import opened Amounts
  import opened BudgetItems
  import opened Schema
  import opened Transactions
  import opened VoucherIssuer
  import opened Wrappers

  /** Where a worker is, and what it remembers of the rows it has read. */
  datatype Worker =
    | Idle
      // ExecuteRewardDistribution
    | HasRequest(rewardId: Id, rr: RewardRequest)
    | NoRecordYet(rewardId: Id, rr: RewardRequest)
    | RiskRefused(rewardId: Id, rr: RewardRequest, reason: string)
    | RiskPassed(rewardId: Id, rr: RewardRequest)
    | HasProjectBudget(rewardId: Id, rr: RewardRequest, budgetId: Id)
    | HasBudgets(rewardId: Id, rr: RewardRequest, budgetId: Id, issueBudgetId: Id)
    | HasTerminalRecord(rewardId: Id, rr: RewardRequest, recordId: Id, rec: IssueRecord)
    | HasPendingRecord(rewardId: Id, rr: RewardRequest, recordId: Id)
    | Reread(rewardId: Id, rr: RewardRequest, recordId: Id, rec: IssueRecord)
    | RereadBudget(rewardId: Id, rr: RewardRequest, recordId: Id, rec: IssueRecord, budgetId: Id)
    | ReadyToIssue(rewardId: Id, rr: RewardRequest, recordId: Id, rec: IssueRecord, budgetId: Id, issueBudgetId: Id)
    | Answered(rewardId: Id, rr: RewardRequest, recordId: Id, rec: IssueRecord, budgetId: Id, issueBudgetId: Id,
               success: bool, reason: string)
    | Settled(rewardId: Id, rr: RewardRequest, recordId: Id, rec: IssueRecord)
    | BudgetGone(rewardId: Id)
      // calls whose check and whose write are separate statements
    | Initialising(docId: string, projectId: Id, items: seq<BudgetItem>)
    | Priced(docId: string, address: string, amount: AmountText, cap: AmountText)
    | Paying(docId: string, address: string, budgetId: Id, amount: AmountText, cap: AmountText)
    | EditingRequest(requestId: Id, voucherType: string, unit: string, units: int)
    | EditingDoc(docId: string, detail: seq<DetailLine>)
    | MovingDoc(docId: string, target: ReviewStatus)

  /** A call of Issue, with the row that was committed before it. */
  datatype Call = Call(rewardId: Id, recordId: Id, snap: Snapshot, amount: int)

  datatype Credit = Credit(rewardId: Id, recordId: Id, request: AssetRequest)

  /** The asset service: it decides once per BizId, and credits when it decides so. */
  datatype Remote = Remote(verdicts: map<string, bool>, credits: seq<Credit>)

  datatype MoveKind = Debit | Settle(success: bool)

  /** A committed movement of a reward amount between budget columns. */
  datatype Move = Move(kind: MoveKind, rewardId: Id, recordId: Id, budgetId: Id, issueBudgetId: Id, amount: int)

  datatype ResultStatus = Distributed | DistributionFailed

  datatype ResultEvent = ResultEvent(clientRef: string, voucherId: string, status: ResultStatus, amount: int,
                                     reason: string)

  datatype Publication = Publication(rewardId: Id, recordId: Id, event: ResultEvent)

  datatype Sys = Sys(t: Tables, workers: map<Id, Worker>, remote: Remote,
                     calls: seq<Call>, moves: seq<Move>, published: seq<Publication>)

  function WorkerAt(s: Sys, w: Id): Worker { if w in s.workers then s.workers[w] else Idle }

  function Goto(s: Sys, w: Id, next: Worker): Sys { s.(workers := s.workers[w := next]) }

  /** What a step takes from outside: the risk check, fresh ids, and the asset service's behaviour. */
  datatype Env = Env(riskPassed: bool, riskReason: string, newId: Id, voucherId: string,
                     clientReady: bool, decision: Option<bool>, lost: bool, noise: Reply,
                     refusal: ReplyCode, message: string, paymentId: string, budgetIds: seq<Id>)

  datatype Step =
    | CreateDocStep(docId: string, projectId: Id, detail: seq<DetailLine>)
    | BeginEditDoc(w: Id, docId: string, detail: seq<DetailLine>)
    | BeginMoveDoc(w: Id, docId: string, target: ReviewStatus)
    | BeginInit(w: Id, docId: string)
    | BeginPayment(w: Id, docId: string, address: string, amount: AmountText)
    | CreateRequestStep(id: Id, key: Key, amount: AmountText)
    | BeginEditRequest(w: Id, id: Id, voucherType: string, unit: string, amount: AmountText)
    | SubmitStep(id: Id)
    | ApproveStep(id: Id)
    | RejectStep(id: Id)
    | StartIssueBudgetStep(id: Id, newId: Id, translated: bool)
    | AcceptRewardStep(id: Id, clientRef: string, userId: Id, key: Key, value: real)
    | Deliver(w: Id, rewardId: Id)
    | Advance(w: Id, e: Env)
    | Crash(w: Id)

  // ---- The asset service ----

  function Contact(r: Remote, rewardId: Id, recordId: Id, request: AssetRequest, decision: Option<bool>): Remote {
    if request.bizId in r.verdicts || decision.None? then r
    else Remote(r.verdicts[request.bizId := decision.value],
                if decision.value then r.credits + [Credit(rewardId, recordId, request)] else r.credits)
  }

  /** The reply after contact; a reply may be lost, and anything may come back while undecided,
      except an answer that counts as final. */
  function ReplyOf(r: Remote, bizId: string, e: Env): Reply {
    if e.lost || bizId !in r.verdicts then
      if e.noise.Coded? && e.noise.code != OtherCode then TransportError else e.noise
    else if r.verdicts[bizId] then Coded(Ok, e.message)
    else Coded(if e.refusal == NotFound then NotFound else InvalidArgument, e.message)
  }

  // ---- ExecuteRewardDistribution, one step at a time ----

  function ReadRecord(s: Sys, w: Id, c: Worker): Sys
    requires c.HasRequest?
  {
    match RecordByRef(s.t, c.rr.clientRef)
    case None => Goto(s, w, NoRecordYet(c.rewardId, c.rr))
    case Some(recordId) =>
      if recordId !in s.t.issueRecords then Goto(s, w, Idle)
      else if s.t.issueRecords[recordId].status != PendingRecord
      then Goto(s, w, HasTerminalRecord(c.rewardId, c.rr, recordId, s.t.issueRecords[recordId]))
      else Goto(s, w, HasPendingRecord(c.rewardId, c.rr, recordId))
  }

  /** The repair path: complete the request after the fact, and publish only if that took effect. */
  function EnsureCompleted(s: Sys, w: Id, c: Worker): Sys
    requires c.HasTerminalRecord?
  {
    if c.rr.status == CompletedReward then Goto(s, w, Idle)
    else if IsPending(s.t, c.rewardId)
    then Goto(s.(t := Complete(s.t, c.rewardId)), w, Settled(c.rewardId, c.rr, c.recordId, c.rec))
    else Goto(s, w, Idle)
  }

  function CheckRisk(s: Sys, w: Id, c: Worker, e: Env): Sys
    requires c.NoRecordYet?
  {
    if e.riskPassed then Goto(s, w, RiskPassed(c.rewardId, c.rr))
    else Goto(s, w, RiskRefused(c.rewardId, c.rr, e.riskReason))
  }

  function CommitRiskFailure(s: Sys, w: Id, c: Worker, e: Env): Sys
    requires c.RiskRefused?
  {
    var rec := RiskFailureRecord(c.rewardId, c.rr, e.voucherId, c.reason);
    if RecordInsertable(s.t, e.newId, rec) && IsPending(s.t, c.rewardId)
    then Goto(s.(t := FailAtRisk(s.t, e.newId, rec)), w, Settled(c.rewardId, c.rr, e.newId, rec))
    else Goto(s, w, Idle)
  }

  function FindProjectBudget(s: Sys, w: Id, c: Worker): Sys
    requires c.RiskPassed?
  {
    match ProjectBudgetFor(s.t, RewardKey(c.rr))
    case None => Goto(s, w, BudgetGone(c.rewardId))
    case Some(budgetId) => Goto(s, w, HasProjectBudget(c.rewardId, c.rr, budgetId))
  }

  function FindIssueBudget(s: Sys, w: Id, c: Worker): Sys
    requires c.HasProjectBudget?
  {
    match FirstAvailableForDistribution(s.t, RewardKey(c.rr), c.rr.amount)
    case None => Goto(s, w, Idle)
    case Some(issueBudgetId) => Goto(s, w, HasBudgets(c.rewardId, c.rr, c.budgetId, issueBudgetId))
  }

  function CommitPreOccupy(s: Sys, w: Id, c: Worker, e: Env): Sys
    requires c.HasBudgets?
  {
    if c.issueBudgetId !in s.t.issueBudgets then Goto(s, w, Idle)
    else
      var rec := PendingRecordFor(c.rewardId, c.rr, s.t.issueBudgets[c.issueBudgetId].issueRequestId, e.voucherId);
      if CanPreOccupy(s.t, c.budgetId, c.issueBudgetId, c.rr.amount, e.newId, rec) then
        Goto(s.(t := PreOccupy(s.t, c.budgetId, c.issueBudgetId, c.rr.amount, e.newId, rec),
                moves := s.moves + [Move(Debit, c.rewardId, e.newId, c.budgetId, c.issueBudgetId, c.rr.amount)]),
             w, ReadyToIssue(c.rewardId, c.rr, e.newId, rec, c.budgetId, c.issueBudgetId))
      else Goto(s, w, Idle)
  }

  function RereadRecord(s: Sys, w: Id, c: Worker): Sys
    requires c.HasPendingRecord?
  {
    if c.recordId !in s.t.issueRecords || s.t.issueRecords[c.recordId].issueRequestId.None? then Goto(s, w, Idle)
    else Goto(s, w, Reread(c.rewardId, c.rr, c.recordId, s.t.issueRecords[c.recordId]))
  }

  function RefindProjectBudget(s: Sys, w: Id, c: Worker): Sys
    requires c.Reread?
  {
    match ProjectBudgetFor(s.t, RecordKey(c.rec))
    case None => Goto(s, w, BudgetGone(c.rewardId))
    case Some(budgetId) => Goto(s, w, RereadBudget(c.rewardId, c.rr, c.recordId, c.rec, budgetId))
  }

  function RefindIssueBudget(s: Sys, w: Id, c: Worker): Sys
    requires c.RereadBudget?
  {
    if c.rec.issueRequestId.None? then Goto(s, w, Idle)
    else match IssueBudgetFor(s.t, c.rec.issueRequestId.value)
         case None => Goto(s, w, BudgetGone(c.rewardId))
         case Some(issueBudgetId) =>
           Goto(s, w, ReadyToIssue(c.rewardId, c.rr, c.recordId, c.rec, c.budgetId, issueBudgetId))
  }

  function SnapshotOf(rec: IssueRecord): Snapshot {
    Snapshot(rec.voucherId, rec.userId, rec.projectId, rec.voucherType, rec.unit)
  }

  function RemoteAfter(s: Sys, c: Worker, e: Env): Remote
    requires c.ReadyToIssue?
  {
    if CallsAssetService(e.clientReady, SnapshotOf(c.rec))
    then Contact(s.remote, c.rewardId, c.recordId, RequestFor(SnapshotOf(c.rec), c.rr.amount), e.decision)
    else s.remote
  }

  function CallDownstream(s: Sys, w: Id, c: Worker, e: Env): Sys
    requires c.ReadyToIssue?
  {
    var snap := SnapshotOf(c.rec);
    var remote := RemoteAfter(s, c, e);
    var called := s.(remote := remote, calls := s.calls + [Call(c.rewardId, c.recordId, snap, c.rr.amount)]);
    match Issue(e.clientReady, snap, ReplyOf(remote, snap.voucherId, e))
    case Transient => Goto(called, w, Idle)
    case Succeeded =>
      Goto(called, w, Answered(c.rewardId, c.rr, c.recordId, c.rec, c.budgetId, c.issueBudgetId, true, ""))
    case Refused(reason) =>
      Goto(called, w, Answered(c.rewardId, c.rr, c.recordId, c.rec, c.budgetId, c.issueBudgetId, false, reason))
  }

  function CommitFinalize(s: Sys, w: Id, c: Worker): Sys
    requires c.Answered?
  {
    var rec := WithOutcome(c.rec, c.rr.amount, c.success, c.reason);
    if IsPending(s.t, c.rewardId) then
      Goto(s.(t := Finalize(s.t, c.budgetId, c.issueBudgetId, c.rr.amount, c.success, c.recordId, rec, c.rewardId),
              moves := s.moves
                  + [Move(Settle(c.success), c.rewardId, c.recordId, c.budgetId, c.issueBudgetId, c.rr.amount)]),
           w, Settled(c.rewardId, c.rr, c.recordId, rec))
    else Goto(s, w, Idle)
  }

  function TerminalEvent(rr: RewardRequest, rec: IssueRecord): ResultEvent {
    if rec.status == IssuedRecord
    then ResultEvent(rr.clientRef, rec.voucherId, Distributed, rec.rewardAmount, "")
    else ResultEvent(rr.clientRef, rec.voucherId, DistributionFailed, 0, rec.reason)
  }

  function Publish(s: Sys, w: Id, c: Worker): Sys
    requires c.Settled?
  {
    Goto(s.(published := s.published + [Publication(c.rewardId, c.recordId, TerminalEvent(c.rr, c.rec))]), w, Idle)
  }

  // ---- Calls that check first and write later ----

  function ReadDocItems(s: Sys, w: Id, docId: string): Sys {
    if docId in s.t.docs && s.t.docs[docId].status == Approved && Acceptable(s.t.configs, s.t.docs[docId].detail)
    then Goto(s, w, Initialising(docId, s.t.docs[docId].projectId, Items(s.t.configs, s.t.docs[docId].detail)))
    else s
  }

  function ReadDocAmount(s: Sys, w: Id, docId: string, address: string, amount: AmountText): Sys {
    if docId in s.t.docs && s.t.docs[docId].status == Approved && address in s.t.configs
       && ParseAmount(amount).Some? && DetailAmount(s.t.docs[docId].detail, address).Some?
    then Goto(s, w, Priced(docId, address, amount, DetailAmount(s.t.docs[docId].detail, address).value))
    else s
  }

  function FindPaidBudget(s: Sys, w: Id, c: Worker): Sys
    requires c.Priced?
  {
    if c.address !in s.t.configs then Goto(s, w, Idle)
    else
      var pair := s.t.configs[c.address];
      match ProjectBudgetOfDoc(s.t, c.docId, pair.voucherType, pair.unit)
      case None => Goto(s, w, Idle)
      case Some(budgetId) =>
        if WithinDocAmount(s.t.projectBudgets[budgetId].total, c.amount, c.cap)
        then Goto(s, w, Paying(c.docId, c.address, budgetId, c.amount, c.cap))
        else Goto(s, w, Idle)
  }

  function AdvanceWorker(s: Sys, w: Id, c: Worker, e: Env): Sys {
    match c
    case Idle => s
    case HasRequest(_, _) => ReadRecord(s, w, c)
    case NoRecordYet(_, _) => CheckRisk(s, w, c, e)
    case RiskRefused(_, _, _) => CommitRiskFailure(s, w, c, e)
    case RiskPassed(_, _) => FindProjectBudget(s, w, c)
    case HasProjectBudget(_, _, _) => FindIssueBudget(s, w, c)
    case HasBudgets(_, _, _, _) => CommitPreOccupy(s, w, c, e)
    case HasTerminalRecord(_, _, _, _) => EnsureCompleted(s, w, c)
    case HasPendingRecord(_, _, _) => RereadRecord(s, w, c)
    case Reread(_, _, _, _) => RefindProjectBudget(s, w, c)
    case RereadBudget(_, _, _, _, _) => RefindIssueBudget(s, w, c)
    case ReadyToIssue(_, _, _, _, _, _) => CallDownstream(s, w, c, e)
    case Answered(_, _, _, _, _, _, _, _) => CommitFinalize(s, w, c)
    case Settled(_, _, _, _) => Publish(s, w, c)
    case BudgetGone(rewardId) => Goto(s.(t := Complete(s.t, rewardId)), w, Idle)
    case Initialising(docId, projectId, items) =>
      Goto(s.(t := InsertBudgets(s.t, docId, projectId, items, e.budgetIds)), w, Idle)
    case Priced(_, _, _, _) => FindPaidBudget(s, w, c)
    case Paying(docId, address, budgetId, amount, cap) =>
      Goto(s.(t := Pay(s.t, e.paymentId, docId, address, budgetId, amount, cap)), w, Idle)
    case EditingRequest(id, voucherType, unit, amount) =>
      Goto(s.(t := WriteRequestFields(s.t, id, voucherType, unit, amount)), w, Idle)
    case EditingDoc(docId, detail) => Goto(s.(t := WriteDocContent(s.t, docId, detail)), w, Idle)
    case MovingDoc(docId, target) => Goto(s.(t := WriteDocStatus(s.t, docId, target)), w, Idle)
  }

  /** The next state. A step that does not apply leaves the state as it is. */
  function Next(s: Sys, step: Step): Sys {
    match step
    case CreateDocStep(docId, projectId, detail) => s.(t := CreateDoc(s.t, docId, projectId, detail))
    case CreateRequestStep(id, key, amount) => s.(t := CreateRequest(s.t, id, key, amount))
    case SubmitStep(id) => s.(t := Submit(s.t, id))
    case ApproveStep(id) => s.(t := Approve(s.t, id))
    case RejectStep(id) => s.(t := Reject(s.t, id))
    case StartIssueBudgetStep(id, newId, translated) => s.(t := StartIssueBudget(s.t, id, newId, translated))
    case AcceptRewardStep(id, clientRef, userId, key, amount) =>
      if amount > 0.0 then s.(t := AcceptReward(s.t, id, clientRef, userId, key, FormatAmount(amount))) else s
    case BeginEditDoc(w, docId, detail) =>
      if WorkerAt(s, w) == Idle && docId in s.t.docs && Editable(s.t.docs[docId].status)
          && Acceptable(s.t.configs, detail)
      then Goto(s, w, EditingDoc(docId, detail)) else s
    case BeginMoveDoc(w, docId, target) =>
      if WorkerAt(s, w) == Idle && docId in s.t.docs && TransitionAllowed(s.t.docs[docId].status, target)
      then Goto(s, w, MovingDoc(docId, target)) else s
    case BeginPayment(w, docId, address, amount) =>
      if WorkerAt(s, w) == Idle then ReadDocAmount(s, w, docId, address, amount) else s
    case BeginInit(w, docId) => if WorkerAt(s, w) == Idle then ReadDocItems(s, w, docId) else s
    case BeginEditRequest(w, id, voucherType, unit, amount) =>
      if WorkerAt(s, w) == Idle && id in s.t.issueRequests && Editable(s.t.issueRequests[id].status)
         && ParseAmount(amount).Some?
      then Goto(s, w, EditingRequest(id, voucherType, unit, Stored(amount))) else s
    case Deliver(w, rewardId) =>
      if WorkerAt(s, w) == Idle && IsPending(s.t, rewardId)
      then Goto(s, w, HasRequest(rewardId, s.t.rewardRequests[rewardId])) else s
    case Advance(w, e) => AdvanceWorker(s, w, WorkerAt(s, w), e)
    case Crash(w) => Goto(s, w, Idle)
  }

  /** A run: the state after a sequence of steps. */
  function Run(s: Sys, steps: seq<Step>): Sys
    decreases |steps|
  {
    if steps == [] then s else Run(Next(s, steps[0]), steps[1..])
  }

  /** An empty database with some payment configuration, and nobody at work. */
  function Init(configs: map<string, PayConfig>): Sys {
    Sys(Tables(configs, map[], map[], map[], map[], map[], map[], map[]), map[], Remote(map[], []), [], [], [])
  }
}
