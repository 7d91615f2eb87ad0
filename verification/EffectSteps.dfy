/** What a transaction, whichever it is, can do to the effect table and to the
    release projection the permits are checked against. */
module EffectSteps {
  import opened Values
  import opened Records
  import opened Database
  import opened Transactions
  import Admission
  import Effects
  import Execution
  import Recovery
  import Releases

  predicate Moves(a: EffectState, b: EffectState) {
    || a == b
    || (a.EffectPrepared? && (b.EffectPermitted? || b.EffectDenied? || b.EffectConfirmedNotSent?))
    || ((a.EffectPermitted? || a.EffectUnknown?)
        && (b.EffectUnknown? || b.EffectSucceeded? || b.EffectFailed? || b.EffectConfirmedNotSent?))
  }

  predicate Final(s: EffectState) {
    s.EffectSucceeded? || s.EffectFailed? || s.EffectConfirmedNotSent? || s.EffectDenied?
  }

  /** The recorded subject is approved under a succeeded review of it. */
  predicate ApprovedUnderReview(db: DB, o: Id, digest: SubjectDigest) {
    && o in db.policy.releases
    && var facts := db.policy.releases[o].facts;
       && facts.Approved() && facts.subject.value.digest == digest
       && Effects.ReviewBacked(o, digest, facts.reviewEffect, db.guarded.effects)
  }

  /** Both publications of the recorded subject succeeded. */
  predicate PublishedWithReceipts(db: DB, o: Id, digest: SubjectDigest) {
    && o in db.policy.releases
    && var facts := db.policy.releases[o].facts;
       && facts.BothPublished() && facts.subject.value.digest == digest
       && Effects.TargetBacked(o, TargetNpm, facts.npm, digest, db.guarded.effects)
       && Effects.TargetBacked(o, TargetBrowser, facts.browser, digest, db.guarded.effects)
  }

  /** What the permit rules establish of the database for a mutation. */
  predicate Permissible(db: DB, b: EffectBinding) {
    && b.operation in db.work.operations
    && var op := db.work.operations[b.operation];
       && op.bind.tenant == b.tenant && !op.FencedForNewDispatch() && b.epoch == op.executionEpoch
       && !AdmissionClosed(db, b.tenant)
       && b.subject.Some?
       && (b.kind != EffectBusinessWrite ==> op.bind.kind == KindRelease)
       && (b.kind == EffectPublication ==>
             && b.subject.value.ReleaseMutation? && b.subject.value.target != TargetActivation
             && ApprovedUnderReview(db, b.operation, b.subject.value.digest))
       && (b.kind == EffectActivation ==>
             && b.subject.value.ReleaseMutation? && b.subject.value.target == TargetActivation
             && PublishedWithReceipts(db, b.operation, b.subject.value.digest))
  }

  predicate RowMoves(db: DB, e: Id, a: Effect, b: Effect, how: How) {
    && b.bind == a.bind && b.leaseExpiresAt == a.leaseExpiresAt && Moves(a.state, b.state)
    && (Final(a.state) ==> b.outcomeRef == a.outcomeRef)
    && (a.state == EffectPrepared && b.state == EffectPermitted ==> how == Consumes(e) && Permissible(db, a.bind))
    && b.inventory == (if a.state == EffectPrepared && b.state in {EffectPermitted, EffectDenied}
                       then InventoryConfirmed
                       else if a.state == EffectPrepared && b.state == EffectPrepared && b != a
                       then InventoryUncertain else a.inventory)
  }

  predicate RowAppears(db: DB, e: Id, b: Effect, how: How) {
    || (how == Prepares(e) && b.inventory == InventoryPending
        && (b.state == EffectDenied || (b.state == EffectPrepared && Permissible(db, b.bind))))
    || (how == Restores(e, EffectBody(b.bind)) && b == Recovery.RestoredEffect(b.bind))
  }

  predicate RowStep(db: DB, next: DB, e: Id, how: How) {
    && (e in db.guarded.effects ==>
          && e in next.guarded.effects
          && var a, b := db.guarded.effects[e], next.guarded.effects[e]; (b == a || RowMoves(db, e, a, b, how)))
    && (e !in db.guarded.effects && e in next.guarded.effects ==> RowAppears(db, e, next.guarded.effects[e], how))
  }

  // ---------- the rules establish it ----------

  lemma ReleaseChecked(c: Config, db: DB, req: Effects.EffectRequest, tenant: Name, now: Time)
    requires var loaded := Effects.LoadContext(c, db, req.operation, req.attempt, tenant, now);
             loaded.Ok? && Effects.CheckReleaseEffect(req, loaded.value).Pass?
    requires req.subject.Some?
    ensures req.kind != EffectBusinessWrite ==> db.work.operations[req.operation].bind.kind == KindRelease
    ensures req.kind == EffectPublication ==>
              && req.subject.value.ReleaseMutation? && req.subject.value.target != TargetActivation
              && ApprovedUnderReview(db, req.operation, req.subject.value.digest)
    ensures req.kind == EffectActivation ==>
              && req.subject.value.ReleaseMutation? && req.subject.value.target == TargetActivation
              && PublishedWithReceipts(db, req.operation, req.subject.value.digest)
  {
  }

  lemma CheckedIsPermissible(c: Config, db: DB, b: EffectBinding, tenant: Name, req: Effects.EffectRequest, now: Time)
    requires b.tenant == tenant && b.kind == req.kind && b.operation == req.operation && b.epoch == req.epoch
        && b.subject == req.subject
    requires var loaded := Effects.LoadContext(c, db, req.operation, req.attempt, tenant, now);
             loaded.Ok? && Effects.CheckEffect(req, loaded.value).Pass?
    ensures Permissible(db, b)
  {
    hide Effects.CheckReleaseEffect, Effects.CheckEffectLease, Effects.CheckEffectAttempt, Effects.DeadlineBound,
      ApprovedUnderReview, PublishedWithReceipts;
    ReleaseChecked(c, db, req, tenant, now);
  }

  lemma PrepareStep(c: Config, db: DB, t: EffectTx, e: Id)
    requires t.PermitPrepare? && EffectStep(c, db, t).Ok?
    ensures RowStep(db, EffectStep(c, db, t).value, e, Prepares(t.id))
  {
    hide Effects.CheckEffect, Effects.LoadContext, Permissible;
    var loaded := Effects.LoadContext(c, db, t.req.operation, t.req.attempt, t.tenant, t.now);
    if loaded.Ok? && Effects.CheckEffect(t.req, loaded.value).Pass? {
      CheckedIsPermissible(c, db, Effects.NewEffect(t.req, t.tenant, t.command, t.now).bind, t.tenant, t.req, t.now);
    }
  }

  lemma ConsumeStep(c: Config, db: DB, t: EffectTx, e: Id)
    requires t.PermitConsume? && t.mutation.Bound() && EffectStep(c, db, t).Ok?
    ensures RowStep(db, EffectStep(c, db, t).value, e, Consumes(t.mutation.id))
  {
    hide Effects.CheckEffect, Effects.LoadContext, Permissible;
    var m := t.mutation;
    var loaded := Effects.LoadContext(c, db, m.copy.bind.operation, m.copy.bind.attempt, m.tenant, t.now);
    if m.id in db.guarded.effects && Effects.Binds(db.guarded.effects[m.id], m.tenant, m.req).Pass?
       && loaded.Ok? && Effects.CheckEffect(m.req, loaded.value).Pass? {
      CheckedIsPermissible(c, db, db.guarded.effects[m.id].bind, m.tenant, m.req, t.now);
    }
  }

  lemma PermittingStep(c: Config, db: DB, t: EffectTx, e: Id)
    requires InFlight(Permitting(t)) && EffectStep(c, db, t).Ok?
    ensures RowStep(db, EffectStep(c, db, t).value, e, HowOf(Permitting(t)))
  {
    hide Effects.PermitPrepare, Effects.PermitConsume, Permissible;
    match t
    case PermitPrepare(_, _, _, _, _) => PrepareStep(c, db, t, e);
    case PermitConsume(_, _) => ConsumeStep(c, db, t, e);
    case _ =>
  }

  lemma RestoringStep(c: Config, db: DB, f: FindingKey, body: Body, e: Id)
    requires Recovery.Restore(c, db, f, body).Ok?
    ensures RowStep(db, Recovery.Restore(c, db, f, body).value, e, Restores(f.key.id, body))
  {
    hide Recovery.RestoreOperation, Recovery.RestoreAttempt, Recovery.RestoreLaunch, Recovery.RestoreDispatch,
      Permissible;
  }

  lemma DisposingStep(db: DB, req: Recovery.DispositionRequest, bound: bool, e: Id)
    requires Recovery.Dispose(db, req, bound).Ok?
    ensures RowStep(db, Recovery.Dispose(db, req, bound).value, e, Otherwise)
  {
    hide Recovery.ApplyDecision, Recovery.OperationFor, Recovery.Applies, Recovery.Unrestorable, Permissible;
    if Recovery.ApplyDecision(db, req).Ok? { DecidingStep(db, req, e); }
  }

  lemma DecidingStep(db: DB, req: Recovery.DispositionRequest, e: Id)
    requires Recovery.ApplyDecision(db, req).Ok?
    ensures RowStep(db, Recovery.ApplyDecision(db, req).value, e, Otherwise)
  {
    hide Admission.ConfirmNotSent, Permissible;
  }

  lemma StepOfRow(c: Config, db: DB, tx: Tx, e: Id)
    requires InFlight(tx)
    ensures RowStep(db, Apply(c, db, tx), e, HowOf(tx))
  {
    hide AdmissionStep, EffectStep, Releases.Record, GrantStep, ExecutionStep, Execution.CloseAttempt, ControlStep,
      FinanceStep, RunStep, Recovery.Restore, Recovery.Dispose, Permissible;
    if Step(c, db, tx).Ok? {
      match tx
      case Permitting(t) => PermittingStep(c, db, t, e);
      case Restoring(f, body) => RestoringStep(c, db, f, body, e);
      case Disposing(req, bound) => DisposingStep(db, req, bound, e);
      case _ =>
    }
  }
}
