/** What a transaction, whichever it is, can do to the dispatch table: rows keep
    their binding, states move along the machine of internal/domain/dispatch.go, and
    a row is prepared or authorized only where the admission rules hold. */
module DispatchSteps {
  import opened Values
  import opened Budget
  import opened Records
  import opened Database
  import opened Transactions
  import Admission
  import Effects
  import Execution
  import Recovery
  import Releases

  predicate Moves(a: DispatchState, b: DispatchState) {
    || a == b
    || (a.DispatchPrepared? && (b.DispatchAuthorized? || b.DispatchDenied? || b.DispatchConfirmedNotSent?))
    || (a.Sending() && (b.DispatchUnknown? || b.DispatchObserved? || b.DispatchConfirmedNotSent?))
  }

  /** What the admission rules establish of the database for a binding. */
  predicate Admissible(db: DB, b: DispatchBinding, supersedes: Option<Name>) {
    && b.operation in db.work.operations && b.attempt in db.work.attempts
    && var op := db.work.operations[b.operation];
       var at := db.work.attempts[b.attempt];
       && op.bind.tenant == b.tenant && !op.FencedForNewDispatch() && b.epoch == op.executionEpoch
       && at.bind.operation == b.operation && !at.Closed()
       && !AdmissionClosed(db, b.tenant)
       && b.reserved.amount >= 0
       && (b.kind == DispatchTool ==> b.grant.Some? && Executable(db, b.grant.value))
       && (supersedes.Some? ==> Superseded(db, CallKey(b.tenant, b.owner, supersedes.value)))
  }

  predicate Executable(db: DB, g: GrantKey) {
    g in db.policy.grants && db.policy.grants[g].registered && db.policy.grants[g].revocation == RevocationNone
  }

  /** The call a replacement names is confirmed not sent. */
  predicate Superseded(db: DB, k: CallKey) {
    DispatchByCall(db, k).Some? && DispatchByCall(db, k).value.state == DispatchConfirmedNotSent
  }

  predicate RowMoves(db: DB, d: Id, a: Dispatch, b: Dispatch, how: How) {
    && b.bind == a.bind && b.supersedes == a.supersedes && Moves(a.state, b.state)
    && (a.state == DispatchConfirmedNotSent || b.state != DispatchConfirmedNotSent ==> b.evidence == a.evidence)
    && (a.state == DispatchPrepared && b.state == DispatchAuthorized ==>
        how == Consumes(d) && Admissible(db, a.bind, a.supersedes))
    && b.inventory == (if a.state == DispatchPrepared && b.state == DispatchAuthorized then InventoryConfirmed
                       else if a.state == DispatchPrepared && b.state == DispatchPrepared && b != a
                       then InventoryUncertain else a.inventory)
  }

  predicate RowAppears(db: DB, d: Id, b: Dispatch, how: How) {
    || (how == Prepares(d) && !AdmissionClosed(db, b.bind.tenant)
        && b.inventory == InventoryPending
        && (b.state == DispatchDenied || (b.state == DispatchPrepared && Admissible(db, b.bind, b.supersedes))))
    || (how.Restores? && how.id == d && how.body.DispatchBody? && b == Recovery.RestoredDispatch(how.body.dispatch)
        && b.bind.reserved.amount >= 0)
  }

  /** One row across one transaction. */
  predicate RowStep(db: DB, next: DB, d: Id, how: How) {
    && (d in db.ledger.dispatches ==>
          && d in next.ledger.dispatches
          && var a, b := db.ledger.dispatches[d], next.ledger.dispatches[d]; (b == a || RowMoves(db, d, a, b, how)))
    && (d !in db.ledger.dispatches && d in next.ledger.dispatches ==>
          RowAppears(db, d, next.ledger.dispatches[d], how)
              && next.ledger.dispatches[d].bind.operation in next.work.operations)
  }

  // ---------- the rules establish it ----------

  lemma CheckedIsAdmissible(c: Config, db: DB, b: DispatchBinding, tenant: Name, req: Admission.Request,
                            authority: Admission.Authority,
                            price: Option<Price>, budget: bool, now: Time)
    requires b.tenant == tenant && b.kind == req.kind && b.owner == req.owner && b.operation == req.operation
        && b.attempt == req.attempt
    requires b.epoch == req.epoch && b.grant == req.grant && b.reserved == req.exposure
    requires var loaded := Admission.LoadContext(c, db, tenant, req.kind, req.owner, req.operation, req.attempt,
                                                 req.instance, req.grant,
                                                 req.supersedes, authority, now);
             loaded.Ok? && Admission.CheckAdmission(req, loaded.value.(price := price), budget).Pass?
    ensures Admissible(db, b, req.supersedes)
  {
    hide Admission.CheckMoney;
  }

  lemma PreparedIsLinked(c: Config, db: DB, t: AdmissionTx, d: Id)
    requires t.AdmitPrepare? && AdmissionStep(c, db, t).Ok?
    ensures var next := AdmissionStep(c, db, t).value;
            d !in db.ledger.dispatches && d in next.ledger.dispatches ==>
              next.ledger.dispatches[d].bind.operation in next.work.operations
                  && !AdmissionClosed(db, next.ledger.dispatches[d].bind.tenant)
  {
    hide Admission.CheckAdmission, MoveBudget;
    var loaded := Admission.LoadContext(c, db, t.tenant, t.req.kind, t.req.owner, t.req.operation, t.req.attempt,
                                        t.req.instance,
                                        t.req.grant, t.req.supersedes, t.authority, t.now);
    if loaded.Ok? && Admission.CheckAdmission(t.req, loaded.value.(price := c.PriceOf(t.revision)), true).Pass? {
      AdmittedEpoch(t.req, loaded.value.(price := c.PriceOf(t.revision)));
    }
  }

  lemma PrepareStep(c: Config, db: DB, t: AdmissionTx, d: Id)
    requires t.AdmitPrepare? && AdmissionStep(c, db, t).Ok?
    ensures RowStep(db, AdmissionStep(c, db, t).value, d, Prepares(t.id))
  {
    hide Admission.CheckAdmission, MoveBudget, Admissible, RowMoves;
    PreparedIsLinked(c, db, t, d);
    if DispatchByCall(db, CallKey(t.tenant, t.req.owner, t.req.call)).None? {
      var loaded := Admission.LoadContext(c, db, t.tenant, t.req.kind, t.req.owner, t.req.operation, t.req.attempt,
                                          t.req.instance,
                                          t.req.grant, t.req.supersedes, t.authority, t.now).value;
      var price := c.PriceOf(t.revision);
      if Admission.CheckAdmission(t.req, loaded.(price := price), true).Pass? {
        var row := Admission.NewDispatch(t.req, loaded.(price := price), if price.Some? then t.revision else None);
        AdmittedEpoch(t.req, loaded.(price := price));
        CheckedIsAdmissible(c, db, row.bind, t.tenant, t.req, t.authority, price, true, t.now);
      }
    }
  }

  lemma AdmittedEpoch(req: Admission.Request, ctx: Admission.Context)
    requires Admission.CheckAdmission(req, ctx, true).Pass?
    ensures req.epoch == ctx.operation.executionEpoch && !ctx.closed
  {
    hide Admission.CheckMoney, Admission.CheckRoute, Admission.CheckReplacement, Admission.CheckPrice;
  }

  lemma ConsumeStep(c: Config, db: DB, t: AdmissionTx, d: Id)
    requires t.AdmitConsume? && t.call.Bound() && AdmissionStep(c, db, t).Ok?
    ensures RowStep(db, AdmissionStep(c, db, t).value, d, Consumes(t.call.id))
  {
    hide Admission.CheckAdmission, MoveBudget, Admissible;
    var next := AdmissionStep(c, db, t).value;
    var id := t.call.id;
    if id in db.ledger.dispatches && db.ledger.dispatches[id].state == DispatchPrepared
        && next.ledger.dispatches[id].state == DispatchAuthorized {
      CheckedIsAdmissible(c, db, db.ledger.dispatches[id].bind, t.call.tenant, t.call.req, t.authority,
                          c.PriceOf(db.ledger.dispatches[id].bind.meter), false, t.now);
    }
  }

  lemma ObserveStep(c: Config, db: DB, t: AdmissionTx, d: Id)
    requires t.ObserveDispatch? && AdmissionStep(c, db, t).Ok?
    ensures RowStep(db, AdmissionStep(c, db, t).value, d, Otherwise)
  {
    hide Admission.SettleMoney, Admission.MeterReport, Admission.SettleExposure, Admissible;
  }

  lemma NotSentStep(db: DB, id: Id, evidence: Name, guard: Option<nat>, d: Id)
    requires Admission.ConfirmNotSent(db, id, evidence, guard).Ok?
    ensures RowStep(db, Admission.ConfirmNotSent(db, id, evidence, guard).value, d, Otherwise)
  {
    hide MoveBudget, Admission.SettleExposure, Admissible;
  }

  lemma AdmittingStep(c: Config, db: DB, t: AdmissionTx, d: Id)
    requires InFlight(Admitting(t)) && AdmissionStep(c, db, t).Ok?
    ensures RowStep(db, AdmissionStep(c, db, t).value, d, HowOf(Admitting(t)))
  {
    hide Admission.AdmitPrepare, Admission.AdmitConsume, Admission.Observe, Admission.ConfirmNotSent, Admissible;
    match t
    case AdmitPrepare(_, _, _, _, _, _) => PrepareStep(c, db, t, d);
    case AdmitConsume(_, _, _) => ConsumeStep(c, db, t, d);
    case ObserveDispatch(_, _, _, _) => ObserveStep(c, db, t, d);
    case ConfirmDispatchNotSent(id, evidence) => NotSentStep(db, id, evidence, None, d);
    case MarkDispatchUncertain(_) =>
  }

  /** A close touches only prepared rows, and only to deny them. */
  lemma {:induction false} DenyEachRow(db: DB, o: Id, listed: seq<Id>, d: Id)
    requires o in db.work.operations && Execution.DenyEach(db, o, listed).Ok?
    ensures var next := Execution.DenyEach(db, o, listed).value;
            && (d in next.ledger.dispatches <==> d in db.ledger.dispatches)
            && (d in db.ledger.dispatches ==>
                  next.ledger.dispatches[d] ==
                  if d in listed then db.ledger.dispatches[d].(state := DispatchDenied,
                      denial := Some(DenyAttemptClosed))
                  else db.ledger.dispatches[d])
            && (d in db.ledger.dispatches && d in listed ==> db.ledger.dispatches[d].state == DispatchPrepared)
            && next.ledger.calls == db.ledger.calls && next.ledger.meters == db.ledger.meters
    decreases |listed|
  {
    hide MoveBudget;
    if listed != [] {
      var denied := Admission.Deny(db.ledger.dispatches[listed[0]], DenyAttemptClosed).value;
      var freed := MoveBudget(db, o, ToRelease, db.ledger.dispatches[listed[0]].bind.reserved).value;
      DenyEachRow(Admission.UpdateDispatch(freed, listed[0], denied), o, listed[1..], d);
    }
  }

  lemma ClosingStep(c: Config, db: DB, a: Id, tenant: Name, outcome: AttemptOutcome, cleanup: CleanupState,
                    listed: seq<Id>, d: Id)
    requires Execution.CloseAttempt(c, db, a, tenant, outcome, cleanup, listed).Ok?
    ensures RowStep(db, Execution.CloseAttempt(c, db, a, tenant, outcome, cleanup, listed).value, d, Otherwise)
  {
    hide Execution.DenyEach, Execution.SettleTerminal, Execution.LeftByClose, SendersActing, HasUnknownAttempt,
      Execution.ListsPrepared, Admissible;
    var o := db.work.attempts[a].bind.operation;
    if Execution.DenyEach(db, o, listed).Ok? {
      DenyEachRow(db, o, listed, d);
    }
  }

  lemma RestoringStep(c: Config, db: DB, f: FindingKey, body: Body, d: Id)
    requires Recovery.Restore(c, db, f, body).Ok? && InFlight(Restoring(f, body))
    ensures RowStep(db, Recovery.Restore(c, db, f, body).value, d, Restores(f.key.id, body))
  {
    hide Recovery.RestoreOperation, Recovery.RestoreAttempt, Recovery.RestoreLaunch, Recovery.RestoreEffect,
      MoveBudget, Recovery.ExposeOperation, Admissible;
  }

  lemma DisposingStep(db: DB, req: Recovery.DispositionRequest, bound: bool, d: Id)
    requires Recovery.Dispose(db, req, bound).Ok?
    ensures RowStep(db, Recovery.Dispose(db, req, bound).value, d, Otherwise)
  {
    hide Admission.ConfirmNotSent, Effects.ObserveOutcome, Effects.ConfirmRecordNotSent, Admissible;
    if Admission.ConfirmNotSent(db, req.key.id, req.evidence, Some(req.epoch)).Ok? {
      NotSentStep(db, req.key.id, req.evidence, Some(req.epoch), d);
    }
  }

  /** Every transaction keeps every row's binding and admits only where it may. */
  lemma StepOfRow(c: Config, db: DB, tx: Tx, d: Id)
    requires InFlight(tx)
    ensures RowStep(db, Apply(c, db, tx), d, HowOf(tx))
  {
    hide AdmissionStep, EffectStep, Releases.Record, GrantStep, ExecutionStep, Execution.CloseAttempt, ControlStep,
      FinanceStep, RunStep, Recovery.Restore, Recovery.Dispose, Admissible;
    if Step(c, db, tx).Ok? {
      match tx
      case Admitting(t) => AdmittingStep(c, db, t, d);
      case Closing(a, tenant, outcome, cleanup, listed) => ClosingStep(c, db, a, tenant, outcome, cleanup, listed, d);
      case Restoring(f, body) => RestoringStep(c, db, f, body, d);
      case Disposing(req, bound) => DisposingStep(db, req, bound, d);
      case _ =>
    }
  }

  // ---------- the answers of the two transactions ----------

  /** A call that proceeds carries the prepared record, bound to its request. */
  lemma AskedIsBound(c: Config, db: DB, id: Id, tenant: Name, req: Admission.Request, authority: Admission.Authority,
                     revision: Option<Name>, now: Time)
    requires Admission.AdmitPrepare(c, db, id, tenant, req, authority, revision, now).Ok?
    ensures var p := Admission.AdmitPrepare(c, db, id, tenant, req, authority, revision, now).value;
            p.proceed ==>
              && p.id in p.db.ledger.dispatches && p.db.ledger.dispatches[p.id] == p.dispatch
                  && p.dispatch.state == DispatchPrepared
              && Call(p.id, p.dispatch, tenant, req).Bound()
  {
    hide Admission.CheckAdmission, MoveBudget;
  }

  predicate InState(db: DB, d: Id, s: DispatchState) { d in db.ledger.dispatches && db.ledger.dispatches[d].state == s }

  /** Only the transaction that consumed the record allows the call. */
  lemma AllowedConsumes(c: Config, db: DB, call: Call, authority: Admission.Authority, now: Time)
    requires Admission.AdmitConsume(c, db, call.id, call.copy, call.tenant, call.req, authority, now).Ok?
    ensures var p := Admission.AdmitConsume(c, db, call.id, call.copy, call.tenant, call.req, authority, now).value;
            p.allowed ==>
              InState(db, call.id, DispatchPrepared) && InState(p.db, call.id, DispatchAuthorized)
  {
    hide Admission.CheckAdmission, Admission.LoadContext, MoveBudget;
  }
}
