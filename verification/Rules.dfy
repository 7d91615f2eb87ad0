/** What must hold of the rows when a call is prepared and when it is authorized: the
    rules of internal/domain/dispatch.go:182-309 and internal/domain/finance.go:97-137
    as a condition on the database, met exactly by the calls that pass. */
module Rules {
  import opened Values
  import opened Budget
  import opened Records
  import opened Database
  import opened Transactions
  import Admission
  import DispatchSteps
  import Effects
  import Execution
  import Finance
  import Recovery
  import Releases

  // ---------- execution ----------

  /** The operation accepts new work: nothing controls it, it is neither ended nor
      reconciling, and its lease was not lost. */
  predicate Working(op: Operation) {
    && op.control == ControlNone
    && op.lifecycle !in {LifecycleSucceeded, LifecycleFailed, LifecycleCanceled, LifecycleReconciling}
    && op.lease.state != LeaseLost
  }

  /** A pooled operation holds a lease that has not expired. */
  predicate Leased(c: Config, op: Operation, now: Time) {
    var profile := c.ProfileOf(op);
    profile.queuePool.Some? ==>
      op.lease.state == LeaseHeld && op.lease.expiresAt.Some? && now < op.lease.expiresAt.value
  }

  /** No recovery run keeps the tenant's admission closed. */
  predicate Open(db: DB, tenant: Name) {
    forall s | s in db.recovery.closures && db.recovery.closures[s].open :: s != ScopeAll && s != ScopeTenant(tenant)
  }

  /** The call belongs to an attempt that runs under the current epoch and in time. */
  predicate Executes(c: Config, db: DB, tenant: Name, req: Admission.Request, now: Time) {
    && req.operation in db.work.operations && req.attempt in db.work.attempts
    && var op, at := db.work.operations[req.operation], db.work.attempts[req.attempt];
       && op.bind.tenant == tenant && at.bind.operation == req.operation
       && Working(op) && Leased(c, op, now) && Open(db, tenant)
       && req.epoch == op.executionEpoch == at.bind.epoch
       && at.state in {AttemptOpen, AttemptLaunchPrepared, AttemptRunning}
       && now < req.deadline <= at.bind.deadline
       && (req.instance.Some? ==>
             && req.instance.value in db.work.instances
             && db.work.instances[req.instance.value] == Instance(req.attempt, true))
  }

  // ---------- price and authority ----------

  predicate Costless(p: Price) { p.perInput == p.perOutput == p.perReasoning == p.perCached == 0 }

  /** The call is priced now, for what it is and up to the price's limit; only a free
      tool call reserves nothing. */
  predicate Priced(c: Config, req: Admission.Request, meter: Option<Name>, now: Time) {
    && meter.Some? && meter.value in c.prices
    && var p := c.prices[meter.value];
       && p.kind == req.kind && p.effectiveFrom <= now < p.effectiveUntil
       && p.currency == req.exposure.currency && 0 <= req.exposure.amount <= p.maxExposure
       && (req.exposure.amount == 0 ==> req.kind == DispatchTool && Costless(p))
       && (req.kind == DispatchModel ==>
             req.provider.Some? && req.model.Some? && p.provider == req.provider && p.model == req.model)
  }

  /** A model call has current commercial authority; a tool call a grant in force. */
  predicate Entitled(db: DB, tenant: Name, req: Admission.Request, authority: Admission.Authority, now: Time) {
    match req.kind
    case DispatchModel => authority.allow && now < authority.freshUntil
    case DispatchTool =>
      && req.grant.Some? && req.grant.value in db.policy.grants
      && InForce(db.policy.grants[req.grant.value], tenant, req, now)
  }

  predicate InForce(g: GrantPolicy, tenant: Name, req: Admission.Request, now: Time) {
    && g.tenant == tenant && g.registered && g.revocation == RevocationNone
    && g.server == req.server && req.tool in g.methods
    && (g.expiresAt.Some? ==> now < g.expiresAt.value)
    && (g.costCap.Some? ==>
          req.exposure.currency == g.costCap.value.currency && req.exposure.amount <= g.costCap.value.amount)
  }

  /** What a replacement names is the owner's call, confirmed not sent on the evidence it
      names. */
  predicate Replaces(db: DB, tenant: Name, req: Admission.Request) {
    req.supersedes.Some? ==>
      && DispatchByCall(db, CallKey(tenant, req.owner, req.supersedes.value)).Some?
      && var original := DispatchByCall(db, CallKey(tenant, req.owner, req.supersedes.value)).value;
         && original.bind.tenant == tenant && original.bind.owner == req.owner
         && original.state == DispatchConfirmedNotSent
         && req.evidence.Some? && original.evidence == req.evidence
  }

  // ---------- money ----------

  /** No call of the operation cost more than it reserved. */
  predicate WithinReservations(db: DB, o: Id) {
    forall d | d in db.ledger.dispatches && db.ledger.dispatches[d].bind.operation == o ::
      db.ledger.dispatches[d].state in {DispatchAuthorized, DispatchUnknown, DispatchObserved} ==>
        MeterOf(db, d).charged <= db.ledger.dispatches[d].bind.reserved.amount
  }

  /** What an allocation holds and has spent; the ledger's integers may not carry it. */
  function Spent(a: AllocationRow): int { a.reserved + a.consumed }

  /** Every allocation has room for the exposure. */
  predicate Headroom(s: seq<AllocationRow>, m: Money) {
    forall i | 0 <= i < |s| ::
      s[i].currency == m.currency && InInt64(Spent(s[i])) && Spent(s[i]) + m.amount <= s[i].amount
  }

  predicate Room(row: CostCapRow, exposure: int) {
    InInt64(row.reserved + row.consumed) && row.reserved + row.consumed + exposure <= row.cap
  }

  /** A ceiling over the spend of each allocation. */
  predicate Covers(cap: int, s: seq<AllocationRow>, exposure: int) {
    exposure <= cap && forall i | 0 <= i < |s| && InInt64(Spent(s[i])) :: Spent(s[i]) + exposure <= cap
  }

  /** The caps of the tenant and of the project have room, and the ceiling of the
      operation, its own project's before the tenant's, covers each allocation. Where
      caps are required each level has one. */
  predicate Capped(caps: map<CapKey, CostCapRow>, s: seq<AllocationRow>, tenant: Name, project: Option<Name>,
                   currency: Name, exposure: int, required: bool) {
    var ofTenant := CapKey(CapTenant, tenant, None, currency);
    var ofProject := CapKey(CapProject, tenant, project, currency);
    var own := CapKey(CapOperation, tenant, project, currency);
    var wide := CapKey(CapOperation, tenant, None, currency);
    && (if ofTenant in caps then Room(caps[ofTenant], exposure) else !required)
    && (if ofProject in caps then Room(caps[ofProject], exposure) else !required)
    && (if own in caps then Covers(caps[own].cap, s, exposure)
        else if wide in caps then Covers(caps[wide].cap, s, exposure)
        else !required)
  }

  /** The operation can pay: it is funded, no call overspent, its allocations have room
      for what is still to be reserved and, unless the price is free, so have its caps. */
  predicate Payable(c: Config, db: DB, req: Admission.Request, meter: Option<Name>, reserving: bool) {
    && req.operation in db.work.operations && meter.Some? && meter.value in c.prices
    && var bind := db.work.operations[req.operation].bind;
       var rows := AllocationsOf(db, req.operation);
       && rows != [] && WithinReservations(db, req.operation)
       && (reserving ==> Headroom(rows, req.exposure))
       && (Costless(c.prices[meter.value])
           || Capped(db.money.caps, rows, bind.tenant, bind.project, req.exposure.currency,
                     if reserving then req.exposure.amount else 0, c.capsRequired))
  }

  /** The rules of a call, as conditions on the rows: reserving when it is prepared, and
      again with the reservation made when it is authorized. */
  predicate Allowed(c: Config, db: DB, tenant: Name, req: Admission.Request, meter: Option<Name>,
                    authority: Admission.Authority, reserving: bool, now: Time) {
    && Executes(c, db, tenant, req, now) && Priced(c, req, meter, now) && Entitled(db, tenant, req, authority, now)
    && Replaces(db, tenant, req) && Payable(c, db, req, meter, reserving)
  }

  // ---------- each check is its rule ----------

  lemma {:induction false} SpendBound(s: seq<AllocationRow>, x: int)
    ensures 0 <= OperationSpend(s)
    ensures OperationSpend(s) <= x <==> 0 <= x && forall i | 0 <= i < |s| && InInt64(Spent(s[i])) :: Spent(s[i]) <= x
    decreases |s|
  {
    if s != [] {
      var front, last := s[..|s| - 1], s[|s| - 1];
      SpendBound(front, x);
      AddInt64Exact(last.reserved, last.consumed);
      assert forall i | 0 <= i < |front| :: front[i] == s[i];
      assert s[|s| - 1] == last;
    }
  }

  lemma CoversSpend(s: seq<AllocationRow>, cap: Int64, exposure: Int64)
    requires exposure >= 0
    ensures Covers(cap, s, exposure) <==> OperationSpend(s) + exposure <= cap
  {
    SpendBound(s, cap - exposure);
  }

  lemma CountedLevel(caps: map<CapKey, CostCapRow>, k: CapKey, spend: Int64, exposure: Int64, required: bool)
    requires k in caps && k.level != CapOperation && exposure >= 0
    ensures LevelCheck(caps, Some(k), spend, exposure, required).Pass? <==> Room(caps[k], exposure)
  {
    AddInt64Exact(caps[k].reserved, caps[k].consumed);
    if InInt64(caps[k].reserved + caps[k].consumed) {
      AddInt64Exact(caps[k].reserved + caps[k].consumed, exposure);
    }
  }

  lemma SharedLevel(caps: map<CapKey, CostCapRow>, k: CapKey, s: seq<AllocationRow>, exposure: Int64, required: bool)
    requires k in caps && k.level == CapOperation && exposure >= 0
    ensures LevelCheck(caps, Some(k), OperationSpend(s), exposure, required).Pass? <==> Covers(caps[k].cap, s, exposure)
  {
    AddInt64Exact(OperationSpend(s), exposure);
    CoversSpend(s, caps[k].cap, exposure);
    SpendBound(s, 0);
  }

  lemma CapsExactly(caps: map<CapKey, CostCapRow>, s: seq<AllocationRow>, tenant: Name, project: Option<Name>,
                    currency: Name, exposure: Int64, required: bool)
    requires exposure >= 0
    ensures CheckCaps(caps, s, tenant, project, currency, exposure, required).Pass?
            <==> Capped(caps, s, tenant, project, currency, exposure, required)
  {
    hide Room, Covers, OperationSpend;
    var ofTenant := CapKey(CapTenant, tenant, None, currency);
    var ofProject := CapKey(CapProject, tenant, project, currency);
    var own := CapKey(CapOperation, tenant, project, currency);
    var wide := CapKey(CapOperation, tenant, None, currency);
    if ofTenant in caps { CountedLevel(caps, ofTenant, OperationSpend(s), exposure, required); }
    if ofProject in caps { CountedLevel(caps, ofProject, OperationSpend(s), exposure, required); }
    if own in caps { SharedLevel(caps, own, s, exposure, required); }
    if wide in caps { SharedLevel(caps, wide, s, exposure, required); }
  }

  lemma HeadroomRow(a: AllocationRow, m: Money)
    requires m.amount >= 0
    ensures a.Reserve(m).Ok? <==>
            a.currency == m.currency && InInt64(Spent(a)) && Spent(a) + m.amount <= a.amount
    ensures a.Reserve(m).Ok? && InInt64(a.reserved + m.amount) ==>
            a.Reserve(m).value == a.(reserved := a.reserved + m.amount)
  {
    AddInt64Exact(a.reserved, a.consumed);
    if InInt64(Spent(a)) { AddInt64Exact(Spent(a), m.amount); }
  }

  lemma HeadroomExactly(s: seq<AllocationRow>, m: Money)
    requires m.amount >= 0
    ensures MoveAll(s, ToReserve, m).Ok? <==> Headroom(s, m)
  {
    forall i | 0 <= i < |s|
      ensures Move(s[i], ToReserve, m).Ok? <==>
              s[i].currency == m.currency && InInt64(Spent(s[i])) && Spent(s[i]) + m.amount <= s[i].amount
    {
      HeadroomRow(s[i], m);
    }
  }

  // ---------- the rules are the checks ----------

  /** What either transaction loads for the request, with the price it is judged under. */
  function Loads(c: Config, db: DB, tenant: Name, req: Admission.Request, meter: Option<Name>,
                 authority: Admission.Authority, now: Time): Result<Admission.Context>
  {
    var loaded :- Admission.LoadContext(c, db, tenant, req.kind, req.owner, req.operation, req.attempt, req.instance,
                                        req.grant, req.supersedes, authority, now);
    Ok(loaded.(price := c.PriceOf(meter)))
  }

  lemma ExecutesExactly(c: Config, db: DB, tenant: Name, req: Admission.Request, meter: Option<Name>,
                        authority: Admission.Authority, now: Time)
    ensures var ctx := Loads(c, db, tenant, req, meter, authority, now);
            Executes(c, db, tenant, req, now) <==> ctx.Ok? && Admission.CheckExecution(req, ctx.value).Pass?
  {
    hide HasOverspend, AllocationsOf, DispatchByCall;
    assert Open(db, tenant) <==> !AdmissionClosed(db, tenant);
  }

  lemma PricedExactly(c: Config, db: DB, tenant: Name, req: Admission.Request, meter: Option<Name>,
                      authority: Admission.Authority, now: Time)
    requires Loads(c, db, tenant, req, meter, authority, now).Ok?
    ensures var ctx := Loads(c, db, tenant, req, meter, authority, now).value;
            Priced(c, req, meter, now) && Entitled(db, tenant, req, authority, now)
            <==> Admission.CheckExposure(req, ctx).Pass? && Admission.CheckPrice(req, ctx).Pass?
                 && Admission.CheckRoute(req, ctx).Pass?
  {
    hide HasOverspend, AllocationsOf, DispatchByCall, AdmissionClosed;
  }

  lemma ReplacesExactly(c: Config, db: DB, tenant: Name, req: Admission.Request, meter: Option<Name>,
                        authority: Admission.Authority, now: Time)
    requires Loads(c, db, tenant, req, meter, authority, now).Ok?
    ensures Replaces(db, tenant, req) <==>
            Admission.CheckReplacement(req, Loads(c, db, tenant, req, meter, authority, now).value).Pass?
  {
    hide HasOverspend, AllocationsOf, AdmissionClosed;
  }

  lemma PayableExactly(c: Config, db: DB, tenant: Name, req: Admission.Request, meter: Option<Name>,
                       authority: Admission.Authority, reserving: bool, now: Time)
    requires Loads(c, db, tenant, req, meter, authority, now).Ok? && Priced(c, req, meter, now)
    ensures Payable(c, db, req, meter, reserving) <==>
            Admission.CheckMoney(req, Loads(c, db, tenant, req, meter, authority, now).value, reserving).Pass?
  {
    hide CheckCaps, Capped, MoveAll, Headroom, AllocationsOf, DispatchByCall, AdmissionClosed;
    var bind := db.work.operations[req.operation].bind;
    var rows := AllocationsOf(db, req.operation);
    HeadroomExactly(rows, req.exposure);
    CapsExactly(db.money.caps, rows, bind.tenant, bind.project, req.exposure.currency,
                if reserving then req.exposure.amount else 0, c.capsRequired);
    assert WithinReservations(db, req.operation) <==> !HasOverspend(db, req.operation);
  }

  /** The checks let through exactly what the rules allow. */
  lemma AllowedExactly(c: Config, db: DB, tenant: Name, req: Admission.Request, meter: Option<Name>,
                       authority: Admission.Authority, reserving: bool, now: Time)
    ensures var ctx := Loads(c, db, tenant, req, meter, authority, now);
            Allowed(c, db, tenant, req, meter, authority, reserving, now)
            <==> ctx.Ok? && Admission.CheckAdmission(req, ctx.value, reserving).Pass?
  {
    hide Executes, Priced, Entitled, Replaces, Payable, Admission.CheckExecution, Admission.CheckExposure,
      Admission.CheckPrice, Admission.CheckRoute, Admission.CheckReplacement, Admission.CheckMoney, Loads;
    ExecutesExactly(c, db, tenant, req, meter, authority, now);
    if Loads(c, db, tenant, req, meter, authority, now).Ok? {
      PricedExactly(c, db, tenant, req, meter, authority, now);
      ReplacesExactly(c, db, tenant, req, meter, authority, now);
      if Priced(c, req, meter, now) { PayableExactly(c, db, tenant, req, meter, authority, reserving, now); }
    }
  }

  // ---------- the first transaction ----------

  /** The record a request is prepared as. */
  function Recorded(tenant: Name, req: Admission.Request, meter: Option<Name>, now: Time): Dispatch {
    Dispatch(DispatchBinding(req.kind, tenant, req.operation, req.attempt, req.instance, req.call, req.owner,
                             req.digest, req.route, req.grant, req.exposure, meter, req.epoch, req.deadline, now,
                             req.argument, req.sideEffecting),
             req.supersedes, DispatchPrepared, None, None, req.evidence, InventoryPending)
  }

  /** The row carries the request: everything but the price and the moment of admission. */
  predicate Carries(d: Dispatch, tenant: Name, req: Admission.Request) {
    && d.bind == Recorded(tenant, req, d.bind.meter, d.bind.admittedAt).bind
    && d.supersedes == req.supersedes && d.evidence == req.evidence
  }

  /** The cap counts what the operations of the tenant, or of its project, hold. */
  predicate CountsFor(k: CapKey, tenant: Name, project: Option<Name>, currency: Name) {
    && k.tenant == tenant && k.currency == currency
    && (k.level == CapTenant || (k.level == CapProject && k.project == project))
  }

  /** No counter of a cap overflows. */
  predicate Countable(db: DB, req: Admission.Request) {
    req.operation in db.work.operations ==>
      var bind := db.work.operations[req.operation].bind;
      forall k | k in db.money.caps && CountsFor(k, bind.tenant, bind.project, req.exposure.currency) ::
          InInt64(db.money.caps[k].reserved + req.exposure.amount)
  }

  predicate NewCall(db: DB, id: Id, tenant: Name, req: Admission.Request) {
    id !in db.ledger.dispatches && CallKey(tenant, req.owner, req.call) !in db.ledger.calls
  }

  predicate Leaves(r: Result<DB>, id: Id, state: DispatchState) {
    r.Ok? && id in r.value.ledger.dispatches && r.value.ledger.dispatches[id].state == state
  }

  /** The record as the request was prepared, with its call indexed and every counter that
      holds the exposure moved by it. */
  predicate Reserves(db: DB, next: DB, id: Id, row: Dispatch) {
    && id in next.ledger.dispatches && next.ledger.dispatches[id] == row
    && next.ledger.calls == db.ledger.calls[row.Call() := id]
    && row.bind.operation in db.work.operations && next.work == db.work
    && var bind := db.work.operations[row.bind.operation].bind;
       CapsHold(db.money.caps, next.money.caps, bind.tenant, bind.project, row.bind.reserved)
  }

  /** The counters of the scope hold the amount more, and nothing else of a cap changes. */
  predicate CapsHold(a: map<CapKey, CostCapRow>, b: map<CapKey, CostCapRow>, tenant: Name, project: Option<Name>,
                     m: Money) {
    && a.Keys == b.Keys
    && forall k | k in a && k in b ::
         && b[k].cap == a[k].cap && b[k].consumed == a[k].consumed
         && b[k].reserved == a[k].reserved + if CountsFor(k, tenant, project, m.currency) then m.amount else 0
  }

  lemma CapsMove(db: DB, req: Admission.Request)
    requires req.operation in db.work.operations && req.exposure.amount >= 0
    ensures var bind := db.work.operations[req.operation].bind;
            var moved := MoveCaps(db.money.caps, bind.tenant, bind.project, ToReserve, req.exposure);
            && (moved.Ok? <==> Countable(db, req))
            && (moved.Ok? ==> CapsHold(db.money.caps, moved.value, bind.tenant, bind.project, req.exposure))
  {
    var bind := db.work.operations[req.operation].bind;
    forall k | k in db.money.caps
      ensures Counts(k, bind.tenant, bind.project, req.exposure.currency)
              <==> CountsFor(k, bind.tenant, bind.project, req.exposure.currency)
      ensures db.money.caps[k].Move(ToReserve, req.exposure.amount) ==
              if InInt64(db.money.caps[k].reserved + req.exposure.amount)
              then Ok(db.money.caps[k].(reserved := db.money.caps[k].reserved + req.exposure.amount)) else Err(Invalid)
    {
      AddInt64Exact(db.money.caps[k].reserved, req.exposure.amount);
    }
  }

  /** A new call is prepared if and only if the rules allow it; the record is what was
      requested, and the counters of its caps hold the exposure. */
  lemma PreparesExactly(c: Config, db: DB, t: AdmissionTx)
    requires t.AdmitPrepare? && NewCall(db, t.id, t.tenant, t.req)
    ensures Leaves(AdmissionStep(c, db, t), t.id, DispatchPrepared) <==>
            Allowed(c, db, t.tenant, t.req, t.revision, t.authority, true, t.now) && Countable(db, t.req)
    ensures Leaves(AdmissionStep(c, db, t), t.id, DispatchPrepared) ==>
            Reserves(db, AdmissionStep(c, db, t).value, t.id, Recorded(t.tenant, t.req, t.revision, t.now))
  {
    hide Admission.CheckAdmission, Admission.LoadContext, Allowed, MoveCaps, MoveAll, CountsFor, Countable;
    AllowedExactly(c, db, t.tenant, t.req, t.revision, t.authority, true, t.now);
    if Allowed(c, db, t.tenant, t.req, t.revision, t.authority, true, t.now) {
      AllowedFits(c, db, t);
      CapsMove(db, t.req);
    }
  }

  /** What an allowed request finds. */
  lemma AllowedFits(c: Config, db: DB, t: AdmissionTx)
    requires t.AdmitPrepare? && Allowed(c, db, t.tenant, t.req, t.revision, t.authority, true, t.now)
    ensures t.req.operation in db.work.operations && t.req.exposure.amount >= 0 && c.PriceOf(t.revision).Some?
    ensures var ctx := Loads(c, db, t.tenant, t.req, t.revision, t.authority, t.now);
            && ctx.Ok? && ctx.value.operation == db.work.operations[t.req.operation] && ctx.value.now == t.now
            && ctx.value.operation.bind.tenant == t.tenant && ctx.value.operation.executionEpoch == t.req.epoch
            && MoveAll(AllocationsOf(db, t.req.operation), ToReserve, t.req.exposure).Ok?
  {
    hide MoveAll, Headroom, Capped, Open, HasOverspend, AdmissionClosed, DispatchByCall, WithinReservations;
    HeadroomExactly(AllocationsOf(db, t.req.operation), t.req.exposure);
  }

  // ---------- the second transaction ----------

  /** A prepared call is authorized if and only if the request is the one recorded and the
      rules still allow it under the price the record froze. */
  lemma AuthorizesExactly(c: Config, db: DB, t: AdmissionTx)
    requires t.AdmitConsume? && t.call.Bound() && DispatchSteps.InState(db, t.call.id, DispatchPrepared)
    ensures var row := db.ledger.dispatches[t.call.id];
            Leaves(AdmissionStep(c, db, t), t.call.id, DispatchAuthorized) <==>
            Carries(row, t.call.tenant, t.call.req)
            && Allowed(c, db, t.call.tenant, t.call.req, row.bind.meter, t.authority, false, t.now)
    ensures Leaves(AdmissionStep(c, db, t), t.call.id, DispatchAuthorized) ==>
            AdmissionStep(c, db, t).value.money == db.money
  {
    hide Admission.CheckAdmission, Admission.LoadContext, Allowed, MoveBudget;
    var row := db.ledger.dispatches[t.call.id];
    AllowedExactly(c, db, t.call.tenant, t.call.req, row.bind.meter, t.authority, false, t.now);
    AllowedIsPriced(c, db, t.call.tenant, t.call.req, row.bind.meter, t.authority, t.now);
  }

  lemma AllowedIsPriced(c: Config, db: DB, tenant: Name, req: Admission.Request, meter: Option<Name>,
                        authority: Admission.Authority, now: Time)
    ensures Allowed(c, db, tenant, req, meter, authority, false, now) ==> c.PriceOf(meter).Some?
  {
    hide Executes, Entitled, Replaces, Payable;
  }

  // ---------- refusals ----------

  /** The refusal of a request: its record, which reserves nothing and names why. */
  predicate Refuses(db: DB, next: DB, id: Id, row: Dispatch) {
    && id in next.ledger.dispatches && next.money == db.money && next.ledger.calls == db.ledger.calls[row.Call() := id]
    && var denied := next.ledger.dispatches[id];
       && denied.denial.Some?
       && denied == row.(bind := row.bind.(reserved := denied.bind.reserved, meter := denied.bind.meter),
                         state := DispatchDenied, denial := denied.denial)
       && denied.bind.reserved == Money(row.bind.reserved.currency, 0)
  }

  /** A new call that is answered but not allowed is recorded denied; while admission is
      closed nothing is. */
  lemma RefusalIsRecorded(c: Config, db: DB, t: AdmissionTx)
    requires t.AdmitPrepare? && NewCall(db, t.id, t.tenant, t.req) && AdmissionStep(c, db, t).Ok?
    requires !Allowed(c, db, t.tenant, t.req, t.revision, t.authority, true, t.now)
    ensures if Open(db, t.tenant)
            then Refuses(db, AdmissionStep(c, db, t).value, t.id, Recorded(t.tenant, t.req, t.revision, t.now))
            else AdmissionStep(c, db, t).value == db
  {
    hide Admission.CheckAdmission, Admission.LoadContext, Allowed, MoveBudget;
    AllowedExactly(c, db, t.tenant, t.req, t.revision, t.authority, true, t.now);
    LoadsOpen(c, db, t.tenant, t.req, t.authority, t.now);
  }

  lemma LoadsOpen(c: Config, db: DB, tenant: Name, req: Admission.Request, authority: Admission.Authority, now: Time)
    ensures var loaded := Admission.LoadContext(c, db, tenant, req.kind, req.owner, req.operation, req.attempt,
                                                req.instance, req.grant, req.supersedes, authority, now);
            loaded.Ok? ==>
              && req.operation in db.work.operations
              && loaded.value.operation.bind.tenant == tenant && loaded.value.now == now
              && (loaded.value.closed <==> !Open(db, tenant))
  {
    hide HasOverspend, AllocationsOf, DispatchByCall;
    assert Open(db, tenant) <==> !AdmissionClosed(db, tenant);
  }

  /** The prepared row is denied and what it reserved is given back. */
  predicate TakesBack(db: DB, next: DB, id: Id) {
    && id in db.ledger.dispatches && id in next.ledger.dispatches
    && var a, b := db.ledger.dispatches[id], next.ledger.dispatches[id];
       && b.denial.Some? && b == a.(state := DispatchDenied, denial := b.denial)
       && a.bind.operation in db.work.operations
       && MoveBudget(db, a.bind.operation, ToRelease, a.bind.reserved).Ok?
       && next.money == MoveBudget(db, a.bind.operation, ToRelease, a.bind.reserved).value.money
  }

  /** A prepared call that is answered but no longer allowed is denied, its reservation
      given back. */
  lemma RefusalTakesBack(c: Config, db: DB, t: AdmissionTx)
    requires t.AdmitConsume? && t.call.Bound() && DispatchSteps.InState(db, t.call.id, DispatchPrepared)
    requires AdmissionStep(c, db, t).Ok?
    requires !Leaves(AdmissionStep(c, db, t), t.call.id, DispatchAuthorized)
    ensures TakesBack(db, AdmissionStep(c, db, t).value, t.call.id)
  {
    hide Admission.CheckAdmission, Admission.LoadContext, MoveBudget;
    LoadsOpen(c, db, t.call.tenant, t.call.req, t.authority, t.now);
  }

  // ---------- a call asked for again ----------

  /** A model call names the provider and the model of its price. */
  predicate NamesModel(frozen: Option<Price>, req: Admission.Request) {
    frozen.Some? && req.kind == DispatchModel ==>
      frozen.value.provider == req.provider && frozen.value.model == req.model
  }

  /** A call recorded as prepared goes on to its inventory write if and only if it is asked
      for again as it was recorded, a model call for the model its price froze; and
      asking changes nothing. */
  lemma AskedAgainExactly(c: Config, db: DB, id: Id, tenant: Name, req: Admission.Request,
                          authority: Admission.Authority, revision: Option<Name>, now: Time)
    requires DispatchByCall(db, CallKey(tenant, req.owner, req.call)).Some?
    ensures var answer := Admission.AdmitPrepare(c, db, id, tenant, req, authority, revision, now);
            var row := DispatchByCall(db, CallKey(tenant, req.owner, req.call)).value;
            && (answer.Ok? ==> answer.value.db == db && answer.value.dispatch == row)
            && (answer.Ok? && answer.value.proceed <==>
                  && row.state == DispatchPrepared && Carries(row, tenant, req)
                  && NamesModel(c.PriceOf(row.bind.meter), req))
  {
    hide Admission.CheckAdmission, Admission.LoadContext, MoveBudget;
  }

  // ---------- the caps there are ----------

  /** A cap over a tenant names no project. */
  predicate Scoped(k: CapKey) { k.level == CapTenant ==> k.project.None? }

  ghost predicate CapsScoped(db: DB) { forall k | k in db.money.caps :: Scoped(k) }

  /** No cap is added but in its scope. */
  ghost predicate CapsStep(db: DB, next: DB) {
    forall k | k in next.money.caps :: k in db.money.caps || Scoped(k)
  }

  lemma MovedCaps(db: DB, o: Id, what: Movement, m: Money)
    requires o in db.work.operations && MoveBudget(db, o, what, m).Ok?
    ensures CapsStep(db, MoveBudget(db, o, what, m).value)
  {
  }

  lemma NotSentCaps(db: DB, id: Id, evidence: Name, guard: Option<nat>)
    requires Admission.ConfirmNotSent(db, id, evidence, guard).Ok?
    ensures CapsStep(db, Admission.ConfirmNotSent(db, id, evidence, guard).value)
  {
    hide MoveAll, MoveCaps, Admission.SettleExposure, Admission.Reported;
    var d := db.ledger.dispatches[id];
    if MoveBudget(db, d.bind.operation, ToRelease, d.bind.reserved).Ok? {
      MovedCaps(db, d.bind.operation, ToRelease, d.bind.reserved);
    }
  }

  lemma PreparingCaps(c: Config, db: DB, t: AdmissionTx)
    requires (t.AdmitPrepare? || t.AdmitConsume?) && AdmissionStep(c, db, t).Ok?
    ensures CapsStep(db, AdmissionStep(c, db, t).value)
  {
    hide Admission.CheckAdmission, MoveAll, Admission.Binds;
  }

  lemma SettledCaps(db: DB, o: Id, delta: Money, settled: bool, reserved: Money)
    requires o in db.work.operations && Admission.SettleMoney(db, o, delta, settled, reserved).Ok?
    ensures CapsStep(db, Admission.SettleMoney(db, o, delta, settled, reserved).value)
  {
    hide MoveBudget;
    if delta.amount > 0 { MovedCaps(db, o, ToCharge, delta); }
    var charged := if delta.amount > 0 then MoveBudget(db, o, ToCharge, delta).value else db;
    if settled { MovedCaps(charged, o, ToRelease, reserved); }
  }

  lemma ObservingCaps(c: Config, db: DB, t: AdmissionTx)
    requires t.ObserveDispatch? && AdmissionStep(c, db, t).Ok?
    ensures CapsStep(db, AdmissionStep(c, db, t).value)
  {
    hide Admission.SettleMoney, Admission.SettleExposure, Admission.MeterReport, Admission.ObserveOutcome;
    if t.id in db.ledger.dispatches && c.PriceOf(db.ledger.dispatches[t.id].bind.meter).Some? {
      var d := db.ledger.dispatches[t.id];
      var observed := Admission.ObserveOutcome(d, t.outcome, t.report.usage.Some?);
      var metered := Admission.MeterReport(c.PriceOf(d.bind.meter).value, MeterOf(db, t.id), t.report);
      if d.bind.operation in db.work.operations && observed.Ok? && metered.Ok? {
        var delta, settled := metered.value.1, observed.value.1;
        if Admission.SettleMoney(db, d.bind.operation, delta, settled, d.bind.reserved).Ok? {
          SettledCaps(db, d.bind.operation, delta, settled, d.bind.reserved);
        }
      }
    }
  }

  lemma AdmittingCaps(c: Config, db: DB, t: AdmissionTx)
    requires AdmissionStep(c, db, t).Ok?
    ensures CapsStep(db, AdmissionStep(c, db, t).value)
  {
    hide Admission.AdmitPrepare, Admission.AdmitConsume, Admission.Observe, Admission.ConfirmNotSent;
    match t
    case ObserveDispatch(_, _, _, _) => ObservingCaps(c, db, t);
    case ConfirmDispatchNotSent(id, evidence) => NotSentCaps(db, id, evidence, None);
    case MarkDispatchUncertain(_) =>
    case _ => PreparingCaps(c, db, t);
  }

  lemma {:induction false} DeniedCaps(db: DB, o: Id, listed: seq<Id>)
    requires o in db.work.operations && Execution.DenyEach(db, o, listed).Ok?
    ensures CapsStep(db, Execution.DenyEach(db, o, listed).value)
    decreases |listed|
  {
    hide MoveBudget;
    if listed != [] {
      var denied := Admission.Deny(db.ledger.dispatches[listed[0]], DenyAttemptClosed).value;
      var reserved := db.ledger.dispatches[listed[0]].bind.reserved;
      MovedCaps(db, o, ToRelease, reserved);
      DeniedCaps(Admission.UpdateDispatch(MoveBudget(db, o, ToRelease, reserved).value, listed[0], denied), o,
                 listed[1..]);
    }
  }

  lemma ClosingCaps(c: Config, db: DB, a: Id, tenant: Name, outcome: AttemptOutcome, cleanup: CleanupState,
                    listed: seq<Id>)
    requires Execution.CloseAttempt(c, db, a, tenant, outcome, cleanup, listed).Ok?
    ensures CapsStep(db, Execution.CloseAttempt(c, db, a, tenant, outcome, cleanup, listed).value)
  {
    hide Execution.DenyEach, Execution.SettleTerminal, Execution.LeftByClose, SendersActing, HasUnknownAttempt,
      Execution.ListsPrepared;
    var o := db.work.attempts[a].bind.operation;
    if Execution.DenyEach(db, o, listed).Ok? { DeniedCaps(db, o, listed); }
  }

  lemma RestoringCaps(c: Config, db: DB, f: FindingKey, body: Body)
    requires Recovery.Restore(c, db, f, body).Ok?
    ensures CapsStep(db, Recovery.Restore(c, db, f, body).value)
  {
    hide Recovery.RestoreOperation, Recovery.RestoreAttempt, Recovery.RestoreLaunch, Recovery.RestoreEffect, MoveAll,
      Recovery.ExposeOperation;
  }

  lemma DisposingCaps(db: DB, req: Recovery.DispositionRequest, bound: bool)
    requires Recovery.Dispose(db, req, bound).Ok?
    ensures CapsStep(db, Recovery.Dispose(db, req, bound).value)
  {
    hide Admission.ConfirmNotSent, Effects.ObserveOutcome, Effects.ConfirmRecordNotSent;
    if Admission.ConfirmNotSent(db, req.key.id, req.evidence, Some(req.epoch)).Ok? {
      NotSentCaps(db, req.key.id, req.evidence, Some(req.epoch));
    }
  }

  lemma StepOfCaps(c: Config, db: DB, tx: Tx)
    ensures CapsStep(db, Apply(c, db, tx))
  {
    hide AdmissionStep, EffectStep, Releases.Record, GrantStep, ExecutionStep, Execution.CloseAttempt, ControlStep,
      RunStep, Recovery.Restore, Recovery.Dispose, Finance.Allocate, Finance.SettleFinance, Finance.CreatePool,
      Finance.AdjustPool;
    if Step(c, db, tx).Ok? {
      match tx
      case Admitting(t) => AdmittingCaps(c, db, t);
      case Closing(a, tenant, outcome, cleanup, listed) => ClosingCaps(c, db, a, tenant, outcome, cleanup, listed);
      case Restoring(f, body) => RestoringCaps(c, db, f, body);
      case Disposing(req, bound) => DisposingCaps(db, req, bound);
      case Financing(t) => FinancingCaps(db, t);
      case _ =>
    }
  }

  lemma FinancingCaps(db: DB, t: FinanceTx)
    requires FinanceStep(db, t).Ok?
    ensures CapsStep(db, FinanceStep(db, t).value)
  {
    hide Finance.Draw, Finance.ReturnEach, Finance.ListsPools, HasUnsettledDispatch;
  }

  lemma {:induction false} ScopedAlways(c: Config, run: Run)
    ensures CapsScoped(After(c, run))
  {
    hide Apply;
    if run.Then? {
      ScopedAlways(c, run.prior);
      StepOfCaps(c, After(c, run.prior), run.tx);
    }
  }

  // ---------- over a run ----------

  /** The transaction prepared or authorized the dispatch as the rules allow. */
  predicate AllowedBy(c: Config, db: DB, tx: Tx, d: Id) {
    match tx
    case Admitting(AdmitPrepare(id, tenant, req, authority, revision, now)) =>
      id == d && Allowed(c, db, tenant, req, revision, authority, true, now)
    case Admitting(AdmitConsume(call, authority, now)) =>
      && call.id == d && DispatchSteps.InState(db, d, DispatchPrepared)
      && Carries(db.ledger.dispatches[d], call.tenant, call.req)
      && Allowed(c, db, call.tenant, call.req, db.ledger.dispatches[d].bind.meter, authority, false, now)
    case _ => false
  }

  /** Every counted cap of the dispatch counts at most its ceiling. */
  ghost predicate WithinCaps(db: DB, d: Id) {
    && d in db.ledger.dispatches && db.ledger.dispatches[d].bind.operation in db.work.operations
    && var b := db.ledger.dispatches[d].bind;
       var scope := db.work.operations[b.operation].bind;
       forall k | k in db.money.caps && CountsFor(k, scope.tenant, scope.project, b.reserved.currency) ::
         db.money.caps[k].reserved + db.money.caps[k].consumed <= db.money.caps[k].cap
  }

  predicate Paid(c: Config, db: DB, d: Id) {
    && d in db.ledger.dispatches
    && var p := c.PriceOf(db.ledger.dispatches[d].bind.meter); p.Some? && !Costless(p.value)
  }

  /** The row was not there, or was prepared, and is now in the state. */
  predicate Enters(db: DB, next: DB, d: Id, s: DispatchState) {
    DispatchSteps.InState(next, d, s) && !DispatchSteps.InState(db, d, s)
  }

  /** What was allowed and then reserved leaves every cap within its ceiling. */
  lemma ReservedWithinCaps(c: Config, db: DB, next: DB, id: Id, tenant: Name, req: Admission.Request,
                           meter: Option<Name>, now: Time)
    requires CapsScoped(db) && Payable(c, db, req, meter, true) && !Costless(c.prices[meter.value])
    requires Reserves(db, next, id, Recorded(tenant, req, meter, now))
    ensures WithinCaps(next, id)
  {
    hide WithinReservations, Headroom, Covers;
    var scope := db.work.operations[req.operation].bind;
    forall k | k in next.money.caps && CountsFor(k, scope.tenant, scope.project, req.exposure.currency)
      ensures next.money.caps[k].reserved + next.money.caps[k].consumed <= next.money.caps[k].cap
    {
      assert k in db.money.caps && Scoped(k);
      assert k == CapKey(CapTenant, scope.tenant, None, req.exposure.currency)
             || k == CapKey(CapProject, scope.tenant, scope.project, req.exposure.currency);
    }
  }

  lemma PreparesWithinCaps(c: Config, db: DB, t: AdmissionTx)
    requires t.AdmitPrepare? && AdmissionStep(c, db, t).Ok? && CapsScoped(db)
    requires Enters(db, AdmissionStep(c, db, t).value, t.id, DispatchPrepared) && NewCall(db, t.id, t.tenant, t.req)
    ensures AllowedBy(c, db, Admitting(t), t.id)
    ensures var next := AdmissionStep(c, db, t).value; Paid(c, next, t.id) ==> WithinCaps(next, t.id)
  {
    hide AdmissionStep, Reserves, WithinCaps, Executes, Priced, Entitled, Replaces;
    var next := AdmissionStep(c, db, t).value;
    PreparesExactly(c, db, t);
    if !Costless(c.prices[t.revision.value]) {
      ReservedWithinCaps(c, db, next, t.id, t.tenant, t.req, t.revision, t.now);
    }
    ReservedRow(db, next, t.id, Recorded(t.tenant, t.req, t.revision, t.now));
  }

  lemma ReservedRow(db: DB, next: DB, id: Id, row: Dispatch)
    requires Reserves(db, next, id, row)
    ensures id in next.ledger.dispatches && next.ledger.dispatches[id] == row
  {
  }

  /** What was allowed with the reservation made has every cap within its ceiling. */
  lemma AllowedWithinCaps(c: Config, db: DB, id: Id, tenant: Name, req: Admission.Request, meter: Option<Name>)
    requires CapsScoped(db) && Payable(c, db, req, meter, false) && !Costless(c.prices[meter.value])
    requires id in db.ledger.dispatches && Carries(db.ledger.dispatches[id], tenant, req)
    ensures WithinCaps(db, id)
  {
    hide WithinReservations, Covers;
    var scope := db.work.operations[req.operation].bind;
    forall k | k in db.money.caps && CountsFor(k, scope.tenant, scope.project, req.exposure.currency)
      ensures db.money.caps[k].reserved + db.money.caps[k].consumed <= db.money.caps[k].cap
    {
      assert Scoped(k);
      assert k == CapKey(CapTenant, scope.tenant, None, req.exposure.currency)
             || k == CapKey(CapProject, scope.tenant, scope.project, req.exposure.currency);
    }
  }

  /** The row of an authorized call and the tables beside it. */
  lemma ConsumedRow(c: Config, db: DB, t: AdmissionTx, d: Id)
    requires t.AdmitConsume? && AdmissionStep(c, db, t).Ok?
    requires DispatchSteps.InState(db, d, DispatchPrepared)
    requires DispatchSteps.InState(AdmissionStep(c, db, t).value, d, DispatchAuthorized)
    ensures d == t.call.id
    ensures var next := AdmissionStep(c, db, t).value;
            && next.work == db.work && next.money == db.money && d in db.ledger.dispatches
            && d in next.ledger.dispatches && next.ledger.dispatches[d].bind == db.ledger.dispatches[d].bind
  {
    hide Admission.CheckAdmission, Admission.LoadContext, MoveBudget;
  }

  lemma AuthorizesWithinCaps(c: Config, db: DB, t: AdmissionTx, d: Id)
    requires t.AdmitConsume? && t.call.Bound() && AdmissionStep(c, db, t).Ok? && CapsScoped(db)
    requires DispatchSteps.InState(db, d, DispatchPrepared)
    requires DispatchSteps.InState(AdmissionStep(c, db, t).value, d, DispatchAuthorized)
    ensures AllowedBy(c, db, Admitting(t), d)
    ensures var next := AdmissionStep(c, db, t).value; Paid(c, next, d) ==> WithinCaps(next, d)
  {
    hide AdmissionStep, Executes, Priced, Entitled, Replaces, Carries;
    ConsumedRow(c, db, t, d);
    AuthorizesExactly(c, db, t);
    var meter := db.ledger.dispatches[d].bind.meter;
    if !Costless(c.prices[meter.value]) { AllowedWithinCaps(c, db, d, t.call.tenant, t.call.req, meter); }
  }

  predicate PreparesNew(c: Config, db: DB, tx: Tx, d: Id) {
    hide AdmissionStep;
    && tx.Admitting? && tx.admission.AdmitPrepare? && tx.admission.id == d && AdmissionStep(c, db, tx.admission).Ok?
    && NewCall(db, d, tx.admission.tenant, tx.admission.req)
  }

  predicate ConsumesPrepared(c: Config, db: DB, tx: Tx, d: Id) {
    hide AdmissionStep;
    && tx.Admitting? && tx.admission.AdmitConsume? && AdmissionStep(c, db, tx.admission).Ok?
    && DispatchSteps.InState(db, d, DispatchPrepared)
  }

  /** A prepared record appears by the first transaction of its own call. */
  lemma AppearsPrepared(c: Config, db: DB, tx: Tx, d: Id)
    requires InFlight(tx) && Enters(db, Apply(c, db, tx), d, DispatchPrepared)
    ensures PreparesNew(c, db, tx, d)
  {
    hide AdmissionStep, EffectStep, Releases.Record, GrantStep, ExecutionStep, Execution.CloseAttempt, ControlStep,
      FinanceStep, RunStep, Recovery.Restore, Recovery.Dispose, DispatchSteps.Admissible;
    DispatchSteps.StepOfRow(c, db, tx, d);
    if tx.Admitting? && tx.admission.AdmitPrepare? && Step(c, db, tx).Ok? { PreparedIsNew(c, db, tx.admission, d); }
  }

  lemma PreparedIsNew(c: Config, db: DB, t: AdmissionTx, d: Id)
    requires t.AdmitPrepare? && AdmissionStep(c, db, t).Ok? && d !in db.ledger.dispatches
    requires d in AdmissionStep(c, db, t).value.ledger.dispatches
    ensures t.id == d && NewCall(db, d, t.tenant, t.req)
  {
    hide Admission.CheckAdmission, Admission.LoadContext, MoveBudget;
    LoadsOpen(c, db, t.tenant, t.req, t.authority, t.now);
  }

  lemma BecomesAuthorized(c: Config, db: DB, tx: Tx, d: Id)
    requires InFlight(tx) && Enters(db, Apply(c, db, tx), d, DispatchAuthorized)
    ensures ConsumesPrepared(c, db, tx, d)
  {
    hide AdmissionStep, EffectStep, Releases.Record, GrantStep, ExecutionStep, Execution.CloseAttempt, ControlStep,
      FinanceStep, RunStep, Recovery.Restore, Recovery.Dispose, DispatchSteps.Admissible;
    DispatchSteps.StepOfRow(c, db, tx, d);
  }

  /** The last transaction of the run prepared or authorized the dispatch. */
  predicate AdmitsLast(c: Config, run: Run, d: Id) {
    hide Apply;
    run.Then? && (Enters(After(c, run.prior), After(c, run), d, DispatchPrepared)
                  || Enters(After(c, run.prior), After(c, run), d, DispatchAuthorized))
  }

  predicate AllowedLast(c: Config, run: Run, d: Id) {
    hide Apply;
    run.Then? && AllowedBy(c, After(c, run.prior), run.tx, d)
  }

  /** In every run, what is prepared or authorized was allowed at that moment: its attempt
      runs in time under the current epoch and lease, its price and its authority or grant
      are in force, its operation is funded and has not overspent; and unless the price is
      free every cap that counts it stays within its ceiling, the operation's own covers
      each allocation, and where caps are required each level has one. */
  lemma SendsAreAllowed(c: Config, run: Run, d: Id)
    requires InFlightRun(run) && AdmitsLast(c, run, d)
    ensures AllowedLast(c, run, d)
    ensures Paid(c, After(c, run), d) ==> WithinCaps(After(c, run), d)
  {
    hide AdmissionStep, Apply, AllowedBy, Paid, WithinCaps;
    var db := After(c, run.prior);
    ScopedAlways(c, run.prior);
    if Enters(db, After(c, run), d, DispatchPrepared) {
      AppearsPrepared(c, db, run.tx, d);
      AdmissionCommits(c, db, run.tx.admission);
      PreparesWithinCaps(c, db, run.tx.admission);
    } else {
      BecomesAuthorized(c, db, run.tx, d);
      AdmissionCommits(c, db, run.tx.admission);
      AuthorizesWithinCaps(c, db, run.tx.admission, d);
    }
  }

  // ---------- guarded mutations ----------

  /** The mutation names who makes it, what it is about and which occurrence it is, and its
      operation accepts it in time under the current epoch. */
  predicate Mutates(db: DB, tenant: Name, req: Effects.EffectRequest, now: Time) {
    && req.owner.Some? && req.subject.Some? && req.occurrence > 0
    && req.operation in db.work.operations
    && var op := db.work.operations[req.operation];
       && op.bind.tenant == tenant && Working(op) && Open(db, tenant) && req.epoch == op.executionEpoch
       && now < req.deadline && req.deadline <= Ends(op) && now < Ends(op)
  }

  /** The deadline of an operation: its active one once it is set. */
  function Ends(op: Operation): Time {
    match op.activeDeadline
    case Some(t) => t
    case None => op.bind.deadline
  }

  /** The attempt it names runs under the current epoch and outlasts it. */
  predicate MutatedBy(db: DB, req: Effects.EffectRequest) {
    req.attempt.Some? ==>
      && req.attempt.value in db.work.attempts && req.operation in db.work.operations
      && var at := db.work.attempts[req.attempt.value];
         && at.bind.operation == req.operation && at.bind.epoch == db.work.operations[req.operation].executionEpoch
         && at.state in {AttemptOpen, AttemptLaunchPrepared, AttemptRunning} && req.deadline <= at.bind.deadline
  }

  /** The lease it names outlasts it; a pooled business write names the one that is held. */
  predicate MutatedUnder(c: Config, db: DB, req: Effects.EffectRequest, now: Time) {
    && (req.leaseExpiresAt.Some? && req.leaseId.Some? ==>
          now < req.leaseExpiresAt.value && req.deadline <= req.leaseExpiresAt.value)
    && (req.kind == EffectBusinessWrite && req.operation in db.work.operations ==>
          var op := db.work.operations[req.operation];
          c.ProfileOf(op).queuePool.Some? ==>
            && op.lease.state == LeaseHeld && op.lease.expiresAt.Some? && now < op.lease.expiresAt.value
            && req.leaseId == op.lease.id && req.leaseFence == op.lease.fence)
  }

  /** A mutation of the release that succeeded as the reference says. */
  predicate SucceededAs(db: DB, e: Option<Id>, o: Id, kind: EffectKind, reference: OutcomeRef) {
    && e.Some? && e.value in db.guarded.effects
    && var row := db.guarded.effects[e.value];
       row.bind.operation == o && row.bind.kind == kind && row.state == EffectSucceeded
       && row.outcomeRef == Some(reference)
  }

  /** The subject the release recorded was approved. */
  predicate ApprovedSubject(facts: ReleaseFacts) {
    && facts.subject.Some? && facts.approval.Some? && facts.approval.value.state == ApprovalApproved
    && facts.approval.value.subject == facts.subject.value.digest
  }

  /** The target was published under the approved subject with the receipt the release
      names. */
  predicate PublishedTarget(db: DB, o: Id, facts: ReleaseFacts, target: TargetName) {
    && ApprovedSubject(facts) && facts.Target(target).state == TargetSucceeded
    && facts.Target(target).receiptDigest.Some?
    && SucceededAs(db, facts.Target(target).effect, o, EffectPublication,
                   ReceiptRef(facts.Target(target).receiptDigest.value))
    && db.guarded.effects[facts.Target(target).effect.value].bind.subject
       == Some(ReleaseMutation(facts.subject.value.digest, target))
  }

  /** Outside a release only business writes are made. A publication is of an approved and
      reviewed subject to a registry or an origin, an activation of a subject published to
      both. */
  predicate MutatesRelease(db: DB, req: Effects.EffectRequest) {
    req.operation in db.work.operations ==>
      if db.work.operations[req.operation].bind.kind != KindRelease then req.kind == EffectBusinessWrite
      else
        match req.kind
        case EffectPublication =>
          && req.operation in db.policy.releases
          && var facts := db.policy.releases[req.operation].facts;
             && ApprovedSubject(facts)
             && SucceededAs(db, facts.reviewEffect, req.operation, EffectReview,
                            ReviewedSubject(facts.subject.value.digest))
             && req.subject in {Some(ReleaseMutation(facts.subject.value.digest, TargetNpm)),
                                Some(ReleaseMutation(facts.subject.value.digest, TargetBrowser))}
        case EffectActivation =>
          && req.operation in db.policy.releases
          && var facts := db.policy.releases[req.operation].facts;
             && PublishedTarget(db, req.operation, facts, TargetNpm)
             && PublishedTarget(db, req.operation, facts, TargetBrowser)
             && req.subject == Some(ReleaseMutation(facts.subject.value.digest, TargetActivation))
        case _ => true
  }

  /** The rules of a mutation, as conditions on the rows; the same when it is prepared and
      when it is permitted. */
  predicate Permissible(c: Config, db: DB, tenant: Name, req: Effects.EffectRequest, now: Time) {
    && Mutates(db, tenant, req, now) && MutatedBy(db, req) && MutatedUnder(c, db, req, now)
    && MutatesRelease(db, req)
  }

  lemma MutatesReleaseExactly(c: Config, db: DB, tenant: Name, req: Effects.EffectRequest, now: Time)
    requires Effects.LoadContext(c, db, req.operation, req.attempt, tenant, now).Ok?
    ensures MutatesRelease(db, req) <==>
            Effects.CheckReleaseEffect(req, Effects.LoadContext(c, db, req.operation, req.attempt, tenant, now).value)
                .Pass?
  {
    hide AdmissionClosed;
  }

  lemma MutatedExactly(c: Config, db: DB, tenant: Name, req: Effects.EffectRequest, now: Time)
    requires Effects.LoadContext(c, db, req.operation, req.attempt, tenant, now).Ok?
    requires Mutates(db, tenant, req, now)
    ensures var ctx := Effects.LoadContext(c, db, req.operation, req.attempt, tenant, now).value;
            MutatedBy(db, req) && MutatedUnder(c, db, req, now) <==>
            && Effects.CheckEffectAttempt(req, ctx).Pass? && Effects.CheckEffectLease(req, ctx).Pass?
            && req.deadline <= Effects.DeadlineBound(req, ctx)
  {
    hide AdmissionClosed, Effects.NamedEffects, Open, Working;
  }

  /** The checks let through exactly what the rules allow. */
  lemma PermissibleExactly(c: Config, db: DB, tenant: Name, req: Effects.EffectRequest, now: Time)
    ensures var ctx := Effects.LoadContext(c, db, req.operation, req.attempt, tenant, now);
            Permissible(c, db, tenant, req, now) <==> ctx.Ok? && Effects.CheckEffect(req, ctx.value).Pass?
  {
    hide MutatedBy, MutatedUnder, MutatesRelease, Effects.CheckReleaseEffect, Effects.CheckEffectAttempt,
      Effects.CheckEffectLease, Effects.NamedEffects;
    if Effects.LoadContext(c, db, req.operation, req.attempt, tenant, now).Ok? {
      MutatesReleaseExactly(c, db, tenant, req, now);
      if Mutates(db, tenant, req, now) { MutatedExactly(c, db, tenant, req, now); }
    }
    assert Open(db, tenant) <==> !AdmissionClosed(db, tenant);
  }

  /** The record a mutation is prepared as. */
  function Proposed(tenant: Name, command: Name, req: Effects.EffectRequest, now: Time): Effect {
    Effect(EffectBinding(tenant, req.operation, req.attempt, req.kind, req.occurrence, command, req.owner, req.subject,
                         req.expectedRevision, req.digest, req.epoch, req.leaseId, req.leaseFence, req.deadline, now),
           req.leaseExpiresAt, EffectPrepared, None, None, InventoryPending)
  }

  /** The row carries the request under its command and from its moment. */
  predicate Proposes(e: Effect, tenant: Name, req: Effects.EffectRequest) {
    && e.bind == Proposed(tenant, e.bind.command, req, e.bind.createdAt).bind
    && e.leaseExpiresAt == req.leaseExpiresAt
  }

  predicate NewMutation(db: DB, t: EffectTx) {
    && t.PermitPrepare? && t.id !in db.guarded.effects && CommandKey(t.tenant, t.command) !in db.guarded.effectCommands
    && OccurrenceKey(t.req.operation, t.req.kind, t.req.occurrence) !in db.guarded.effectOccurrences
  }

  predicate Stands(r: Result<DB>, e: Id, state: EffectState) {
    r.Ok? && e in r.value.guarded.effects && r.value.guarded.effects[e].state == state
  }

  /** A new mutation is prepared if and only if the rules allow it, and its record is what
      was requested, found by its command and its occurrence. */
  lemma ProposesExactly(c: Config, db: DB, t: EffectTx)
    requires NewMutation(db, t)
    ensures Stands(EffectStep(c, db, t), t.id, EffectPrepared) <==> Permissible(c, db, t.tenant, t.req, t.now)
    ensures Stands(EffectStep(c, db, t), t.id, EffectPrepared) ==>
              EffectStep(c, db, t).value.guarded == db.guarded.(
                  effects := db.guarded.effects[t.id := Proposed(t.tenant, t.command, t.req, t.now)],
                  effectCommands := db.guarded.effectCommands[CommandKey(t.tenant, t.command) := t.id],
                  effectOccurrences := db.guarded.effectOccurrences[
                      OccurrenceKey(t.req.operation, t.req.kind, t.req.occurrence) := t.id])
  {
    hide Effects.CheckEffect, Effects.LoadContext, Permissible;
    PermissibleExactly(c, db, t.tenant, t.req, t.now);
  }

  predicate Awaits(db: DB, e: Id) { e in db.guarded.effects && db.guarded.effects[e].state == EffectPrepared }

  /** A prepared mutation is permitted if and only if the request is the one recorded and
      the rules still allow it; nothing but its row changes then. */
  lemma PermitsExactly(c: Config, db: DB, t: EffectTx)
    requires t.PermitConsume? && t.mutation.Bound() && Awaits(db, t.mutation.id)
    ensures var row := db.guarded.effects[t.mutation.id];
            Stands(EffectStep(c, db, t), t.mutation.id, EffectPermitted) <==>
            Proposes(row, t.mutation.tenant, t.mutation.req)
            && Permissible(c, db, t.mutation.tenant, t.mutation.req, t.now)
    ensures var row := db.guarded.effects[t.mutation.id];
            Stands(EffectStep(c, db, t), t.mutation.id, EffectPermitted) ==>
              EffectStep(c, db, t).value.guarded == db.guarded.(effects := db.guarded.effects[
                  t.mutation.id := row.(state := EffectPermitted, inventory := InventoryConfirmed)])
  {
    hide Effects.CheckEffect, Effects.LoadContext, Permissible;
    PermissibleExactly(c, db, t.mutation.tenant, t.mutation.req, t.now);
  }

  /** A mutation that is answered but not allowed is recorded denied, the first time as it
      was requested, the second time on its record. */
  lemma RefusedMutation(c: Config, db: DB, t: EffectTx)
    requires EffectStep(c, db, t).Ok?
    ensures NewMutation(db, t) && !Permissible(c, db, t.tenant, t.req, t.now) ==>
              Denies(EffectStep(c, db, t).value, t.id, Proposed(t.tenant, t.command, t.req, t.now), InventoryPending)
    ensures t.PermitConsume? && t.mutation.Bound() && Awaits(db, t.mutation.id)
            && !Permissible(c, db, t.mutation.tenant, t.mutation.req, t.now) ==>
              Denies(EffectStep(c, db, t).value, t.mutation.id, db.guarded.effects[t.mutation.id], InventoryConfirmed)
  {
    hide Effects.CheckEffect, Effects.LoadContext, Permissible;
    if NewMutation(db, t) {
      PermissibleExactly(c, db, t.tenant, t.req, t.now);
    } else if t.PermitConsume? && t.mutation.Bound() {
      PermissibleExactly(c, db, t.mutation.tenant, t.mutation.req, t.now);
    }
  }

  predicate Denies(next: DB, e: Id, row: Effect, inventory: InventoryState) {
    && e in next.guarded.effects && next.guarded.effects[e].denial.Some?
    && next.guarded.effects[e] ==
       row.(state := EffectDenied, denial := next.guarded.effects[e].denial, inventory := inventory)
  }

  /** An occurrence recorded for one command never goes on for another. */
  lemma OccurrenceIsTaken(c: Config, db: DB, t: EffectTx)
    requires t.PermitPrepare? && CommandKey(t.tenant, t.command) !in db.guarded.effectCommands
    requires var k := OccurrenceKey(t.req.operation, t.req.kind, t.req.occurrence);
             && k in db.guarded.effectOccurrences && db.guarded.effectOccurrences[k] in db.guarded.effects
             && db.guarded.effects[db.guarded.effectOccurrences[k]].bind.command != t.command
    ensures EffectStep(c, db, t).Err?
  {
    hide Effects.CheckEffect, Effects.LoadContext;
  }

  /** A mutation asked for again goes on to its inventory write if and only if it is
      recorded as prepared and asked for as it was recorded; and asking changes nothing. */
  lemma ProposedAgainExactly(c: Config, db: DB, id: Id, tenant: Name, command: Name, req: Effects.EffectRequest,
                             now: Time)
    requires CommandKey(tenant, command) in db.guarded.effectCommands
    requires db.guarded.effectCommands[CommandKey(tenant, command)] in db.guarded.effects
    ensures var answer := Effects.PermitPrepare(c, db, id, tenant, command, req, now);
            var e := db.guarded.effectCommands[CommandKey(tenant, command)];
            && (answer.Ok? ==> answer.value.db == db && answer.value.id == e)
            && (answer.Ok? && answer.value.proceed <==> Awaits(db, e) && Proposes(db.guarded.effects[e], tenant, req))
  {
    hide Effects.CheckEffect, Effects.LoadContext;
  }
}
