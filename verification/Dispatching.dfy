/** The dispatch service: each transaction locks its rows, changes them in place and
    writes them back (internal/application/dispatch.go). */
module Dispatching {
  import opened Values
  import opened Budget
  import opened Records
  import opened Database
  import opened Accounts
  import opened Entities
  import opened LockedBudgets
  import opened Tables
  import Admission

  /** What the first transaction answers. */
  datatype Answer = Answer(id: Id, dispatch: Dispatch, proceed: bool)

  predicate Answered(spec: Result<Admission.Prepared>, r: Result<Answer>, before: DB, after: DB) {
    match spec
    case Ok(p) => r == Ok(Answer(p.id, p.dispatch, p.proceed)) && after == p.db
    case Err(e) => r == Err(e) && after == before
  }

  predicate Decided(spec: Result<Admission.Consumed>, r: Result<bool>, before: DB, after: DB) {
    match spec
    case Ok(p) => r == Ok(p.allowed) && after == p.db
    case Err(e) => r == Err(e) && after == before
  }

  class Dispatches {
    const store: Store
    const config: Config

    constructor (s: Store, c: Config)
      ensures store == s && config == c
    {
      store, config := s, c;
    }

    // ---------- admission ----------

    /** The first transaction of Admit: the same call answers its record, a refusal is
        recorded unless admission is closed, the first eligible request reserves the
        exposure (internal/application/dispatch.go:184-251). */
    method Prepare(id: Id, tenant: Name, req: Admission.Request, authority: Admission.Authority,
                   revision: Option<Name>, now: Time)
      returns (r: Result<Answer>)
      modifies store
      ensures Answered(Admission.AdmitPrepare(config, old(store.Snapshot()), id, tenant, req, authority, revision,
                                              now), r,
                       old(store.Snapshot()), store.Snapshot())
    {
      hide Admission.Binds, Admission.LoadContext, Admission.CheckAdmission, MoveBudget;
      var began := store.Snapshot();
      var found := DispatchByCall(began, CallKey(tenant, req.owner, req.call));
      if found.Some? {
        var bound := Admission.Binds(found.value, tenant, req, config.PriceOf(found.value.bind.meter));
        if bound.Fail? { return Err(bound.error); }
        BoundCall(found.value, tenant, req, config.PriceOf(found.value.bind.meter));
        return Ok(Answer(store.ledger.calls[found.value.Call()], found.value, found.value.state == DispatchPrepared));
      }
      var loaded := Admission.LoadContext(config, began, tenant, req.kind, req.owner, req.operation, req.attempt,
                                          req.instance,
                                          req.grant, req.supersedes, authority, now);
      if loaded.Err? { return Err(loaded.error); }
      var ctx := loaded.value.(price := config.PriceOf(revision));
      var meter := if ctx.price.Some? then revision else None;
      var checked := Admission.CheckAdmission(req, ctx, true);
      if checked.Fail? && !checked.error.Denied? { return Err(checked.error); }
      if checked.Fail? {
        var denied := Admission.DeniedDispatch(req, ctx, meter, checked.error.code);
        if !ctx.closed {
          var inserted := store.InsertDispatch(id, denied);
          if inserted.Fail? { return Err(inserted.error); }
        }
        return Ok(Answer(id, denied, false));
      }
      LoadedOperation(config, began, tenant, req, authority, now);
      var admitted := Admission.NewDispatch(req, ctx, meter);
      var budget := Lock(store, req.operation);
      var reserved := budget.Move(ToReserve, req.exposure, began, req.operation);
      if reserved.Fail? { return Err(reserved.error); }
      budget.Save(store, req.operation, MoveBudget(began, req.operation, ToReserve, req.exposure).value);
      var inserted := store.InsertDispatch(id, admitted);
      if inserted.Fail? {
        store.Rollback(began);
        return Err(inserted.error);
      }
      return Ok(Answer(id, admitted, true));
    }

    /** The second transaction of Admit, after the obligation was written: the rules run
        again under the locks of the record's own binding, and the permission is
        consumed once (internal/application/dispatch.go:274-323). */
    method Consume(id: Id, copy: Dispatch, tenant: Name, req: Admission.Request, authority: Admission.Authority,
                   now: Time)
      returns (r: Result<bool>)
      modifies store
      ensures Decided(Admission.AdmitConsume(config, old(store.Snapshot()), id, copy, tenant, req, authority, now), r,
                      old(store.Snapshot()), store.Snapshot())
    {
      hide Admission.Binds, Admission.LoadContext, Admission.CheckAdmission, MoveBudget;
      var b := copy.bind;
      ghost var began := store.Snapshot();
      var loaded := Admission.LoadContext(config, store.Snapshot(), tenant, b.kind, b.owner, b.operation, b.attempt,
                                          b.instance,
                                          b.grant, copy.supersedes, authority, now);
      if loaded.Err? { return Err(loaded.error); }
      if id !in store.ledger.dispatches { return Err(NotFound); }
      var locked := new DispatchEntity(store.ledger.dispatches[id]);
      var bound := Admission.Binds(locked.Row(), tenant, req, None);
      if bound.Fail? { return Err(bound.error); }
      if locked.state != DispatchPrepared { return Ok(false); }
      var frozen := config.PriceOf(locked.bind.meter);
      if frozen.None? { return Err(ProfileUnqualified); }
      var checked := Admission.CheckAdmission(req, loaded.value.(price := frozen), false);
      if checked.Fail? && !checked.error.Denied? { return Err(checked.error); }
      if checked.Fail? {
        var _ := locked.Deny(checked.error.code);
        LoadedBinding(config, began, tenant, copy, authority, now);
        var budget := Lock(store, b.operation);
        var released := budget.Move(ToRelease, locked.bind.reserved, began, b.operation);
        if released.Fail? { return Err(released.error); }
        budget.Save(store, b.operation, MoveBudget(began, b.operation, ToRelease, locked.bind.reserved).value);
        store.UpdateDispatch(id, locked.Row());
        return Ok(false);
      }
      var _ := locked.Consume();
      store.UpdateDispatch(id, locked.Row());
      return Ok(true);
    }

    /** internal/application/dispatch.go:436-448. */
    method MarkInventoryUncertain(id: Id) returns (r: Check)
      modifies store
      ensures Committed(Admission.MarkDispatchUncertain(old(store.Snapshot()), id), r, old(store.Snapshot()),
                        store.Snapshot())
    {
      if id !in store.ledger.dispatches { return Fail(NotFound); }
      var locked := new DispatchEntity(store.ledger.dispatches[id]);
      if locked.state != DispatchPrepared || locked.inventory != InventoryPending { return Pass; }
      locked.inventory := InventoryUncertain;
      store.UpdateDispatch(id, locked.Row());
      return Pass;
    }

    // ---------- settlement of one call ----------

    /** internal/application/dispatch.go:606-626: the finance state stays truthful. */
    method SettleFinance(o: Id, d: Dispatch, settled: bool)
      requires o in store.work.operations
      modifies store`work
      ensures store.Snapshot() == Admission.SettleExposure(old(store.Snapshot()), o, d, settled)
    {
      var op := new OperationEntity(store.work.operations[o]);
      if d.state == DispatchUnknown && op.finance != FinanceExposureUnknown {
        op.finance := FinanceExposureUnknown;
      } else if settled && op.finance == FinanceExposureUnknown && !HasUnknownDispatch(store.Snapshot(), o) {
        op.finance := FinanceFunded;
      } else {
        return;
      }
      op.Transition();
      store.UpdateOperation(o, op.Row());
    }

    /** Charges the increase and releases the reservation of a settled call
        (internal/application/dispatch.go:572-597). */
    method SettleMoney(budget: LockedBudget, o: Id, delta: Money, settled: bool, reserved: Money) returns (r: Check)
      requires budget.Valid() && budget.Locks(store.Snapshot(), o)
      modifies store`money, budget.allocs, budget.caps
      ensures Committed(Admission.SettleMoney(old(store.Snapshot()), o, delta, settled, reserved), r,
                        old(store.Snapshot()), store.Snapshot())
    {
      hide MoveBudget;
      ghost var moved := store.Snapshot();
      if delta.amount > 0 {
        r := budget.Move(ToCharge, delta, moved, o);
        if r.Fail? { return; }
        moved := MoveBudget(moved, o, ToCharge, delta).value;
      }
      if settled {
        r := budget.Move(ToRelease, reserved, moved, o);
        if r.Fail? { return; }
        moved := MoveBudget(moved, o, ToRelease, reserved).value;
      }
      if delta.amount > 0 || settled { budget.Save(store, o, moved); }
      r := Pass;
    }

    /** One outcome or usage report (internal/application/dispatch.go:509-601): it is
        applied once, charges the increase of the cumulative cost and releases the
        reservation with a definite outcome. */
    method Observe(reader: Admission.Reader, id: Id, report: Report, outcome: DispatchOutcome) returns (r: Check)
      modifies store
      ensures Committed(Admission.Observe(config, old(store.Snapshot()), reader, id, report, outcome), r,
                        old(store.Snapshot()), store.Snapshot())
    {
      hide Admission.SettleMoney, Admission.MeterReport, Admission.SettleExposure, Admission.ObserveOutcome,
        Admission.HasReport, AllocationsOf, Admission.Reader.Sees, Config.PriceOf, MeterOf;
      if id !in store.ledger.dispatches || !reader.Sees(store.ledger.dispatches[id]) { return Fail(NotFound); }
      var locked := new DispatchEntity(store.ledger.dispatches[id]);
      var o := locked.bind.operation;
      var price := config.PriceOf(locked.bind.meter);
      if price.None? { return Fail(ProfileUnqualified); }
      if o !in store.work.operations { return Fail(NotFound); }
      var budget := Lock(store, o);
      var meter := MeterOf(store.Snapshot(), id);
      if Admission.HasReport(meter.reports, report.source, report.sequence) { return Pass; }
      var observed, settled := locked.Observe(outcome, report.usage.Some?);
      if observed.Fail? { return observed; }
      var metered := MeterReport(price.value, meter, report);
      if metered.Err? { return Fail(metered.error); }
      var moved := SettleMoney(budget, o, metered.value.1, settled, locked.bind.reserved);
      if moved.Fail? { return moved; }
      store.ledger := store.ledger.(meters := store.ledger.meters[id := metered.value.0]);
      store.UpdateDispatch(id, locked.Row());
      SettleFinance(o, locked.Row(), settled);
      return Pass;
    }

    /** A call whose send never happened gives its reservation back; the guard binds a
        disposition to the operation's recovery epoch
        (internal/application/dispatch.go:670-716). */
    method ConfirmNotSentLocked(id: Id, evidence: Name, guard: Option<nat>) returns (r: Check)
      modifies store
      ensures Committed(Admission.ConfirmNotSent(old(store.Snapshot()), id, evidence, guard), r, old(store.Snapshot()),
                        store.Snapshot())
    {
      hide MoveBudget, Admission.SettleExposure, Admission.Reported;
      ghost var began := store.Snapshot();
      if id !in store.ledger.dispatches { return Fail(NotFound); }
      var locked := new DispatchEntity(store.ledger.dispatches[id]);
      var o := locked.bind.operation;
      if o !in store.work.operations { return Fail(NotFound); }
      var budget := Lock(store, o);
      if guard.Some? && store.work.operations[o].recoveryEpoch != guard.value { return Fail(StaleExecution); }
      var held := locked.state.Held();
      var meter := MeterOf(store.Snapshot(), id);
      var confirmed := locked.ConfirmNotSent(evidence, meter.charged, Admission.Reported(meter.reports));
      if confirmed.Fail? || !held { return confirmed; }
      var released := budget.Move(ToRelease, locked.bind.reserved, began, o);
      if released.Fail? { return released; }
      budget.Save(store, o, MoveBudget(began, o, ToRelease, locked.bind.reserved).value);
      store.UpdateDispatch(id, locked.Row());
      SettleFinance(o, locked.Row(), true);
      return Pass;
    }
  }

  lemma BoundCall(d: Dispatch, tenant: Name, req: Admission.Request, frozen: Option<Price>)
    requires Admission.Binds(d, tenant, req, frozen).Pass?
    ensures d.Call() == CallKey(tenant, req.owner, req.call)
  {
  }

  lemma LoadedOperation(c: Config, db: DB, tenant: Name, req: Admission.Request, authority: Admission.Authority,
                        now: Time)
    requires Admission.LoadContext(c, db, tenant, req.kind, req.owner, req.operation, req.attempt, req.instance,
                                   req.grant, req.supersedes,
                                   authority, now).Ok?
    ensures req.operation in db.work.operations
  {
  }

  lemma LoadedBinding(c: Config, db: DB, tenant: Name, d: Dispatch, authority: Admission.Authority, now: Time)
    requires Admission.LoadContext(c, db, tenant, d.bind.kind, d.bind.owner, d.bind.operation, d.bind.attempt,
                                   d.bind.instance, d.bind.grant,
                                   d.supersedes, authority, now).Ok?
    ensures d.bind.operation in db.work.operations
  {
  }

  /** The running maximum across the reports that carried counters
      (internal/adapters/postgres/queries/dispatch.sql:80-85). */
  method MaxReported(reports: seq<Report>) returns (u: Usage)
    ensures u == Admission.Cumulative(reports)
  {
    u := NoUsage;
    for i := 0 to |reports|
      invariant u == Admission.Cumulative(reports[..i])
    {
      assert reports[..i + 1][..i] == reports[..i];
      if reports[i].usage.Some? { u := MaxUsage(u, reports[i].usage.value); }
    }
    assert reports[..|reports|] == reports;
  }

  /** The meter after a report and the increase it charges
      (internal/application/dispatch.go:552-586). */
  method MeterReport(price: Price, meter: Meter, report: Report) returns (r: Result<(Meter, Money)>)
    ensures r == Admission.MeterReport(price, meter, report)
  {
    var reports := meter.reports + [report];
    var cumulative := MaxReported(reports);
    var cost := Priced(price, cumulative);
    if cost.Err? { return Err(cost.error); }
    var delta := cost.value.amount - meter.charged;
    if delta <= 0 { return Ok((Meter(reports, meter.charged), Money(cost.value.currency, 0))); }
    return Ok((Meter(reports, cost.value.amount), Money(cost.value.currency, delta)));
  }
}
