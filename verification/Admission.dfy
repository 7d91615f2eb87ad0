/** Single-use admission of a send: the checks, the two transactions around the
    inventory write, metering and the not-sent confirmation
    (internal/domain/dispatch.go, internal/application/dispatch.go). */
module Admission {
  import opened Values
  import opened Budget
  import opened Records
  import opened Database

  datatype Request = Request(
    kind: DispatchKind, call: Name, owner: Name, digest: Name, operation: Id, attempt: Id, instance: Option<Id>,
    epoch: nat, route: Name, provider: Option<Name>, model: Option<Name>, grant: Option<GrantKey>,
    server: Option<Name>, tool: Name, exposure: Money, deadline: Time, supersedes: Option<Name>,
    evidence: Option<Name>, argument: Option<Name>, sideEffecting: bool)

  /** Current commercial authority; a hit never refreshes its own freshness. */
  datatype Authority = Authority(allow: bool, freshUntil: Time) {
    predicate Current(now: Time) { allow && now < freshUntil }
  }

  datatype Context = Context(
    now: Time, operation: Operation, attempt: Attempt, instance: Option<Instance>, price: Option<Price>,
    authority: Authority, grant: Option<GrantPolicy>, allocations: seq<AllocationRow>, caps: map<CapKey, CostCapRow>,
    overspent: bool, original: Option<Dispatch>, closed: bool, leaseRequired: bool, capsRequired: bool)

  // ---------- the rules ----------

  /** internal/domain/budget.go:468-497. */
  predicate GrantPermits(g: GrantPolicy, tenant: Name, req: Request, now: Time) {
    && g.tenant == tenant
    && g.registered
    && g.revocation == RevocationNone
    && g.server == req.server
    && (g.expiresAt.Some? ==> now < g.expiresAt.value)
    && req.tool in g.methods
    && (g.costCap.Some? ==>
        g.costCap.value.currency == req.exposure.currency && req.exposure.amount <= g.costCap.value.amount)
  }

  function CheckExposure(req: Request, c: Context): Check {
    Refuse(req.exposure.amount < 0
           || (req.exposure.amount == 0 && !(req.kind == DispatchTool && c.price.Some? && c.price.value.Free())),
           DenyInvalidArgument)
  }

  function CheckExecution(req: Request, c: Context): Check {
    var op, at := c.operation, c.attempt;
    Refuse(c.closed, DenyRecoveryRestricted)
    .Then(Refuse(
            || req.epoch != op.executionEpoch
            || op.FencedForNewDispatch()
            || at.bind.epoch != op.executionEpoch
            || at.state == AttemptClosed || at.state == AttemptResultAccepted
            || (req.instance.Some? && (c.instance.None? || c.instance.value.attempt != req.attempt
                                       || !c.instance.value.current))
            || c.now >= at.bind.deadline
            || (c.leaseRequired && !op.lease.Valid(c.now))
            || req.deadline <= c.now
            || req.deadline > at.bind.deadline,
            DenyStaleExecution))
  }

  function CheckPrice(req: Request, c: Context): Check {
    if c.price.None? then Fail(Denied(DenyProfileUnqualified))
    else
      var p := c.price.value;
      Refuse(p.kind != req.kind || !p.EffectiveAt(c.now) || p.currency != req.exposure.currency
             || req.exposure.amount > p.maxExposure,
             DenyProfileUnqualified)
  }

  function CheckRoute(req: Request, c: Context): Check {
    match req.kind
    case DispatchModel =>
      Refuse(req.provider.None? || req.model.None?, DenyInvalidArgument)
      .Then(Refuse(c.price.Some? && (c.price.value.provider != req.provider || c.price.value.model != req.model),
                   DenyProfileUnqualified))
      .Then(Refuse(!c.authority.Current(c.now), DenyForbidden))
    case DispatchTool =>
      Refuse(c.grant.None? || !GrantPermits(c.grant.value, c.operation.bind.tenant, req, c.now), DenyForbidden)
  }

  function CheckReplacement(req: Request, c: Context): Check {
    Refuse(req.supersedes.Some? &&
           (|| c.original.None?
            || c.original.value.bind.owner != req.owner
            || c.original.value.bind.tenant != c.operation.bind.tenant
            || c.original.value.state != DispatchConfirmedNotSent
            || req.evidence.None?
            || c.original.value.evidence != req.evidence),
           DenyStaleExecution)
  }

  /** An exhausted allocation is a recorded refusal; any other refusal an error. */
  function CheckHeadroom(req: Request, c: Context): Check {
    match MoveAll(c.allocations, ToReserve, req.exposure)
    case Ok(_) => Pass
    case Err(BudgetExhausted) => Fail(Denied(DenyBudgetExhausted))
    case Err(e) => Fail(e)
  }

  function CheckMoney(req: Request, c: Context, budget: bool): Check {
    Refuse(c.overspent || c.allocations == [], DenyBudgetExhausted)
    .Then(if budget then CheckHeadroom(req, c) else Pass)
    .Then(if c.price.Some? && c.price.value.Free() then Pass
          else CheckCaps(c.caps, c.allocations, c.operation.bind.tenant, c.operation.bind.project,
                         req.exposure.currency, if budget then req.exposure.amount else 0, c.capsRequired))
  }

  /** internal/domain/dispatch.go:182-309, in its order; budget selects whether the
      headroom is checked (first transaction) or only the overspend fence. */
  function CheckAdmission(req: Request, c: Context, budget: bool): Check {
    CheckExposure(req, c)
    .Then(CheckExecution(req, c))
    .Then(CheckPrice(req, c))
    .Then(CheckRoute(req, c))
    .Then(CheckReplacement(req, c))
    .Then(CheckMoney(req, c, budget))
  }

  /** The binding a request would record (internal/domain/dispatch.go:313-321). */
  function BindingOf(req: Request, op: Operation, epoch: nat, reserved: Money, meter: Option<Name>,
                     now: Time): DispatchBinding {
    DispatchBinding(req.kind, op.bind.tenant, req.operation, req.attempt, req.instance, req.call, req.owner,
                    req.digest, req.route, req.grant, reserved, meter, epoch, req.deadline, now, req.argument,
                        req.sideEffecting)
  }

  function NewDispatch(req: Request, c: Context, meter: Option<Name>): Dispatch {
    Dispatch(BindingOf(req, c.operation, c.operation.executionEpoch, req.exposure, meter, c.now),
             req.supersedes, DispatchPrepared, None, None, req.evidence, InventoryPending)
  }

  /** A refusal keeps the epoch the request named and reserves nothing
      (internal/domain/dispatch.go:328-340). */
  function DeniedDispatch(req: Request, c: Context, meter: Option<Name>, code: DenialCode): Dispatch {
    Dispatch(BindingOf(req, c.operation, req.epoch, Money(req.exposure.currency, 0), meter, c.now),
             req.supersedes, DispatchDenied, None, Some(code), req.evidence, InventoryPending)
  }

  /** internal/domain/dispatch.go:351-399. */
  function Binds(d: Dispatch, tenant: Name, req: Request, frozen: Option<Price>): Check {
    var b := d.bind;
    Require(b.tenant == tenant && b.owner == req.owner && b.call == req.call, NotFound)
    .Then(Require(
            && b.digest == req.digest && b.kind == req.kind && b.operation == req.operation && b.attempt == req.attempt
            && b.instance == req.instance && b.epoch == req.epoch && b.route == req.route && b.argument == req.argument
            && b.sideEffecting == req.sideEffecting && b.grant == req.grant
            && b.reserved.currency == req.exposure.currency
            && (d.state != DispatchDenied ==> b.reserved.amount == req.exposure.amount)
            && b.deadline == req.deadline && d.supersedes == req.supersedes
            && (d.state != DispatchConfirmedNotSent ==> d.evidence == req.evidence)
            && (d.state != DispatchDenied && frozen.Some? && b.kind == DispatchModel
                ==> frozen.value.provider == req.provider && frozen.value.model == req.model),
            IdempotencyConflict))
  }

  // ---------- the record's own moves ----------

  /** internal/domain/dispatch.go:403-409. */
  function Consume(d: Dispatch): Result<Dispatch> {
    if d.state != DispatchPrepared then Err(StaleExecution)
    else Ok(d.(state := DispatchAuthorized, inventory := InventoryConfirmed))
  }

  /** internal/domain/dispatch.go:413-419. */
  function Deny(d: Dispatch, code: DenialCode): Result<Dispatch> {
    if d.state != DispatchPrepared then Err(StaleExecution)
    else Ok(d.(state := DispatchDenied, denial := Some(code)))
  }

  /** internal/domain/dispatch.go:429-448: the new record and whether it settled. */
  function ObserveOutcome(d: Dispatch, outcome: DispatchOutcome, usageReported: bool): Result<(Dispatch, bool)> {
    match d.state
    case DispatchObserved => Ok((d, false))
    case DispatchAuthorized | DispatchUnknown =>
      if outcome == DispatchOutcomeUnknown then Ok((d.(state := DispatchUnknown, outcome := Some(outcome)), false))
      else if !usageReported then Err(EvidenceInsufficient)
      else Ok((d.(state := DispatchObserved, outcome := Some(outcome)), true))
    case _ => Err(StaleExecution)
  }

  /** internal/domain/dispatch.go:454-473. */
  function ConfirmRecordNotSent(d: Dispatch, evidence: Name, charged: int, usageReported: bool): Result<Dispatch> {
    match d.state
    case DispatchConfirmedNotSent => if d.evidence == Some(evidence) then Ok(d) else Err(IdempotencyConflict)
    case DispatchPrepared | DispatchAuthorized | DispatchUnknown =>
      if charged > 0 || usageReported then Err(StaleExecution)
      else Ok(d.(state := DispatchConfirmedNotSent, evidence := Some(evidence)))
    case _ => Err(StaleExecution)
  }

  // ---------- the transactions ----------

  /** The state the checks run against, loaded for a binding
      (internal/application/dispatch.go:380-434). */
  function LoadContext(c: Config, db: DB, tenant: Name, kind: DispatchKind, owner: Name, operation: Id, attempt: Id,
                       instance: Option<Id>, grant: Option<GrantKey>, supersedes: Option<Name>,
                       authority: Authority, now: Time): Result<Context>
  {
    if operation !in db.work.operations || db.work.operations[operation].bind.tenant != tenant then Err(NotFound)
    else if attempt !in db.work.attempts || db.work.attempts[attempt].bind.operation != operation then Err(NotFound)
    else
      var op := db.work.operations[operation];
      Ok(Context(
           now, op, db.work.attempts[attempt],
           if instance.Some? && instance.value in db.work.instances then Some(db.work.instances[instance.value])
               else None,
           None, authority,
           if kind == DispatchTool && grant.Some? && grant.value in db.policy.grants
               then Some(db.policy.grants[grant.value]) else None,
           AllocationsOf(db, operation), db.money.caps, HasOverspend(db, operation),
           if supersedes.Some? then DispatchByCall(db, CallKey(tenant, owner, supersedes.value)) else None,
           AdmissionClosed(db, tenant), c.LeaseRequired(op), c.capsRequired))
  }

  function InsertDispatch(db: DB, id: Id, d: Dispatch): (r: Result<DB>)
    ensures r.Ok? ==> r.value == db.(ledger := r.value.ledger)
  {
    if id in db.ledger.dispatches || d.Call() in db.ledger.calls then Err(DuplicateKey)
    else Ok(db.(ledger := db.ledger.(dispatches := db.ledger.dispatches[id := d],
                                     calls := db.ledger.calls[d.Call() := id])))
  }

  function UpdateDispatch(db: DB, id: Id, d: Dispatch): (r: DB)
    ensures r == db.(ledger := r.ledger)
  {
    db.(ledger := db.ledger.(dispatches := db.ledger.dispatches[id := d]))
  }

  /** The answer of the first transaction: the record it found or wrote and whether
      the request goes on to the inventory write. */
  datatype Prepared = Prepared(db: DB, id: Id, dispatch: Dispatch, proceed: bool)

  /** internal/application/dispatch.go:184-251. The revision is the price the book
      holds for the route now. */
  function AdmitPrepare(c: Config, db: DB, id: Id, tenant: Name, req: Request, authority: Authority,
                        revision: Option<Name>, now: Time): (r: Result<Prepared>)
    ensures r.Ok? ==>
        r.value.db == db.(ledger := r.value.db.ledger,
            money := db.money.(allocations := r.value.db.money.allocations, caps := r.value.db.money.caps))
  {
    match DispatchByCall(db, CallKey(tenant, req.owner, req.call))
    case Some(found) =>
      (match Binds(found, tenant, req, c.PriceOf(found.bind.meter))
       case Fail(e) => Err(e)
       case Pass => Ok(Prepared(db, db.ledger.calls[found.Call()], found, found.state == DispatchPrepared)))
    case None =>
      var loaded :- LoadContext(c, db, tenant, req.kind, req.owner, req.operation, req.attempt, req.instance,
                                req.grant, req.supersedes, authority, now);
      var ctx := loaded.(price := c.PriceOf(revision));
      var meter := if ctx.price.Some? then revision else None;
      match CheckAdmission(req, ctx, true)
      case Fail(Denied(code)) =>
        var denied := DeniedDispatch(req, ctx, meter, code);
        if ctx.closed then Ok(Prepared(db, id, denied, false))
        else
          var recorded :- InsertDispatch(db, id, denied);
          Ok(Prepared(recorded, id, denied, false))
      case Fail(e) => Err(e)
      case Pass =>
        var prepared := NewDispatch(req, ctx, meter);
        var held :- MoveBudget(db, req.operation, ToReserve, req.exposure);
        var recorded :- InsertDispatch(held, id, prepared);
        Ok(Prepared(recorded, id, prepared, true))
  }

  /** The answer of the second transaction. */
  datatype Consumed = Consumed(db: DB, allowed: bool)

  /** internal/application/dispatch.go:274-323: copy is the record as the first
      transaction answered it. */
  function AdmitConsume(c: Config, db: DB, id: Id, copy: Dispatch, tenant: Name, req: Request,
                        authority: Authority, now: Time): (r: Result<Consumed>)
    ensures r.Ok? ==>
        r.value.db == db.(ledger := r.value.db.ledger,
            money := db.money.(allocations := r.value.db.money.allocations, caps := r.value.db.money.caps))
  {
    var b := copy.bind;
    var loaded :- LoadContext(c, db, tenant, b.kind, b.owner, b.operation, b.attempt, b.instance, b.grant,
                              copy.supersedes, authority, now);
    if id !in db.ledger.dispatches then Err(NotFound)
    else
      var locked := db.ledger.dispatches[id];
      match Binds(locked, tenant, req, None)
      case Fail(e) => Err(e)
      case Pass =>
        if locked.state != DispatchPrepared then Ok(Consumed(db, false))
        else if c.PriceOf(locked.bind.meter).None? then Err(ProfileUnqualified)
        else
          match CheckAdmission(req, loaded.(price := c.PriceOf(locked.bind.meter)), false)
          case Fail(Denied(code)) =>
            var denied := Deny(locked, code).value;
            var freed :- MoveBudget(db, b.operation, ToRelease, locked.bind.reserved);
            Ok(Consumed(UpdateDispatch(freed, id, denied), false))
          case Fail(e) => Err(e)
          case Pass =>
            var authorized := Consume(locked).value;
            Ok(Consumed(UpdateDispatch(db, id, authorized), true))
  }

  /** internal/application/dispatch.go:436-448. */
  function MarkDispatchUncertain(db: DB, id: Id): (r: Result<DB>)
    ensures r.Ok? ==> r.value == db.(ledger := r.value.ledger)
  {
    if id !in db.ledger.dispatches then Err(NotFound)
    else
      var d := db.ledger.dispatches[id];
      if d.state != DispatchPrepared || d.inventory != InventoryPending then Ok(db)
      else Ok(UpdateDispatch(db, id, d.(inventory := InventoryUncertain)))
  }

  // ---------- metering ----------

  /** The running maximum of the reports that carried counters
      (internal/adapters/postgres/queries/dispatch.sql:80-85). */
  function Cumulative(reports: seq<Report>): Usage {
    if reports == [] then NoUsage
    else
      var rest := Cumulative(reports[..|reports| - 1]);
      match reports[|reports| - 1].usage
      case None => rest
      case Some(u) => MaxUsage(rest, u)
  }

  predicate Reported(reports: seq<Report>) {
    exists i | 0 <= i < |reports| :: reports[i].usage.Some?
  }

  predicate HasReport(reports: seq<Report>, source: Name, sequence: nat) {
    exists i | 0 <= i < |reports| :: reports[i].source == source && reports[i].sequence == sequence
  }

  /** internal/application/dispatch.go:606-626. */
  function SettleExposure(db: DB, o: Id, d: Dispatch, settled: bool): (r: DB)
    requires o in db.work.operations
    ensures o in r.work.operations
    ensures var a, b := db.work.operations[o], r.work.operations[o];
            && r == db.(work := db.work.(operations := db.work.operations[o := b]))
            && b == a.(finance := b.finance, revision := b.revision)
            && (b.finance == FinanceSettled ==> a.finance == FinanceSettled)
  {
    var op := db.work.operations[o];
    if d.state == DispatchUnknown && op.finance != FinanceExposureUnknown then
      PutOperation(db, o, op.(finance := FinanceExposureUnknown).Transition())
    else if settled && op.finance == FinanceExposureUnknown && !HasUnknownDispatch(db, o) then
      PutOperation(db, o, op.(finance := FinanceFunded).Transition())
    else db
  }

  /** Who reports on a dispatch (internal/application/dispatch.go:455-462). */
  datatype Reader = Reader(tenant: Option<Name>, owner: Option<Name>) {
    predicate Sees(d: Dispatch) {
      && (tenant.Some? ==> d.bind.tenant == tenant.value)
      && (owner.Some? ==> d.bind.owner == owner.value)
    }
  }

  /** The meter after a report and the increase it charges
      (internal/application/dispatch.go:556-586). */
  function MeterReport(price: Price, meter: Meter, report: Report): Result<(Meter, Money)> {
    var reports := meter.reports + [report];
    match price.Cost(Cumulative(reports))
    case Err(e) => Err(e)
    case Ok(cost) =>
      var delta := Max(0, cost.amount - meter.charged);
      Ok((Meter(reports, meter.charged + delta), Money(cost.currency, delta)))
  }

  /** Charges the increase and, once the outcome is definite, releases the
      reservation (internal/application/dispatch.go:572-594). */
  function SettleMoney(db: DB, o: Id, delta: Money, settled: bool, reserved: Money): (r: Result<DB>)
    requires o in db.work.operations
    ensures r.Ok? ==>
        r.value == db.(money := db.money.(allocations := r.value.money.allocations, caps := r.value.money.caps))
  {
    match if delta.amount > 0 then MoveBudget(db, o, ToCharge, delta) else Ok(db)
    case Err(e) => Err(e)
    case Ok(charged) => if settled then MoveBudget(charged, o, ToRelease, reserved) else Ok(charged)
  }

  /** internal/application/dispatch.go:509-601. */
  function Observe(c: Config, db: DB, reader: Reader, id: Id, report: Report, outcome: DispatchOutcome): (r: Result<DB>)
    ensures r.Ok? ==>
        r.value == db.(ledger := r.value.ledger,
            money := db.money.(allocations := r.value.money.allocations, caps := r.value.money.caps),
            work := db.work.(operations := r.value.work.operations))
  {
    if id !in db.ledger.dispatches || !reader.Sees(db.ledger.dispatches[id]) then Err(NotFound)
    else
      var d := db.ledger.dispatches[id];
      var o := d.bind.operation;
      if c.PriceOf(d.bind.meter).None? then Err(ProfileUnqualified)
      else if o !in db.work.operations then Err(NotFound)
      else if HasReport(MeterOf(db, id).reports, report.source, report.sequence) then Ok(db)
      else
        var (observed, settled) :- ObserveOutcome(d, outcome, report.usage.Some?);
        var (meter, delta) :- MeterReport(c.PriceOf(d.bind.meter).value, MeterOf(db, id), report);
        var moved :- SettleMoney(db, o, delta, settled, d.bind.reserved);
        Ok(SettleExposure(UpdateDispatch(moved.(ledger := moved.ledger.(meters := moved.ledger.meters[id := meter])),
                                         id, observed), o, observed, settled))
  }

  /** internal/application/dispatch.go:670-716; the guard binds a disposition to the
      operation's recovery epoch. The evidence was verified outside. */
  function ConfirmNotSent(db: DB, id: Id, evidence: Name, guard: Option<nat>): (r: Result<DB>)
    ensures r.Ok? ==>
        r.value == db.(ledger := r.value.ledger,
            money := db.money.(allocations := r.value.money.allocations, caps := r.value.money.caps),
            work := db.work.(operations := r.value.work.operations))
  {
    if id !in db.ledger.dispatches || db.ledger.dispatches[id].bind.operation !in db.work.operations then Err(NotFound)
    else
      var d := db.ledger.dispatches[id];
      var o := d.bind.operation;
      var meter := MeterOf(db, id);
      if guard.Some? && db.work.operations[o].recoveryEpoch != guard.value then Err(StaleExecution)
      else
        var confirmed :- ConfirmRecordNotSent(d, evidence, meter.charged, Reported(meter.reports));
        if d.state == DispatchConfirmedNotSent then Ok(db)
        else
          var freed :- MoveBudget(db, o, ToRelease, d.bind.reserved);
          Ok(SettleExposure(UpdateDispatch(freed, id, confirmed), o, confirmed, true))
  }
}
