/** The epoch fence: what was prepared under an earlier execution epoch is never
    consumed (internal/application/recovery.go:80-185, internal/domain/dispatch.go:192-206,
    internal/domain/effect.go:160-168). */
module Fences {
  import opened Values
  import opened Records
  import opened Database
  import opened Transactions
  import DispatchSteps
  import EffectSteps
  import Recovery
  import WorkSteps

  /** A dispatch that was not consumed and whose epoch its operation has left. */
  predicate StaleDispatch(db: DB, d: Id) {
    && d in db.ledger.dispatches
    && var row := db.ledger.dispatches[d];
       && (row.state == DispatchPrepared || row.state == DispatchDenied || row.state == DispatchConfirmedNotSent)
       && row.bind.operation in db.work.operations
       && (row.state == DispatchPrepared ==> row.bind.epoch < db.work.operations[row.bind.operation].executionEpoch)
  }

  predicate StaleEffect(db: DB, e: Id) {
    && e in db.guarded.effects
    && var row := db.guarded.effects[e];
       && (row.state == EffectPrepared || row.state == EffectDenied || row.state == EffectConfirmedNotSent)
       && row.bind.operation in db.work.operations
       && (row.state == EffectPrepared ==> row.bind.epoch < db.work.operations[row.bind.operation].executionEpoch)
  }

  lemma StaleStep(c: Config, db: DB, tx: Tx, d: Id, e: Id)
    requires InFlight(tx)
    ensures StaleDispatch(db, d) ==> StaleDispatch(Apply(c, db, tx), d)
    ensures StaleEffect(db, e) ==> StaleEffect(Apply(c, db, tx), e)
  {
    hide StaleDispatch, StaleEffect, Apply;
    if StaleDispatch(db, d) { StaleDispatchStep(c, db, tx, d); }
    if StaleEffect(db, e) { StaleEffectStep(c, db, tx, e); }
  }

  lemma StaleDispatchStep(c: Config, db: DB, tx: Tx, d: Id)
    requires InFlight(tx) && StaleDispatch(db, d)
    ensures StaleDispatch(Apply(c, db, tx), d)
  {
    hide Apply, DispatchSteps.RowAppears, WorkSteps.AttemptStep;
    DispatchSteps.StepOfRow(c, db, tx, d);
    WorkSteps.StepOfWork(c, db, tx, db.ledger.dispatches[d].bind.operation, 0);
  }

  lemma StaleEffectStep(c: Config, db: DB, tx: Tx, e: Id)
    requires InFlight(tx) && StaleEffect(db, e)
    ensures StaleEffect(Apply(c, db, tx), e)
  {
    hide Apply, EffectSteps.RowAppears, WorkSteps.AttemptStep;
    EffectSteps.StepOfRow(c, db, tx, e);
    WorkSteps.StepOfWork(c, db, tx, db.guarded.effects[e].bind.operation, 0);
  }

  predicate ReachedEpoch(db: DB, o: Id, tenant: Name, epoch: nat) {
    o in db.work.operations && db.work.operations[o].bind.tenant == tenant
        && epoch <= db.work.operations[o].executionEpoch
  }

  /** What is prepared names its operation's tenant and an epoch the operation reached. */
  ghost predicate EpochsReached(db: DB) {
    && (forall d | d in db.ledger.dispatches && db.ledger.dispatches[d].state == DispatchPrepared ::
          ReachedEpoch(db, db.ledger.dispatches[d].bind.operation, db.ledger.dispatches[d].bind.tenant,
                       db.ledger.dispatches[d].bind.epoch))
    && (forall e | e in db.guarded.effects && db.guarded.effects[e].state == EffectPrepared ::
          ReachedEpoch(db, db.guarded.effects[e].bind.operation, db.guarded.effects[e].bind.tenant,
                       db.guarded.effects[e].bind.epoch))
  }

  lemma EpochsStep(c: Config, db: DB, tx: Tx)
    requires EpochsReached(db) && InFlight(tx)
    ensures EpochsReached(Apply(c, db, tx))
  {
    hide Apply;
    var next := Apply(c, db, tx);
    forall d | d in next.ledger.dispatches && next.ledger.dispatches[d].state == DispatchPrepared
      ensures var b := next.ledger.dispatches[d].bind; ReachedEpoch(next, b.operation, b.tenant, b.epoch)
    {
      DispatchSteps.StepOfRow(c, db, tx, d);
      WorkSteps.StepOfWork(c, db, tx, next.ledger.dispatches[d].bind.operation, 0);
    }
    forall e | e in next.guarded.effects && next.guarded.effects[e].state == EffectPrepared
      ensures var b := next.guarded.effects[e].bind; ReachedEpoch(next, b.operation, b.tenant, b.epoch)
    {
      EffectSteps.StepOfRow(c, db, tx, e);
      WorkSteps.StepOfWork(c, db, tx, next.guarded.effects[e].bind.operation, 0);
    }
  }

  lemma {:induction false} EpochsAlways(c: Config, run: Run)
    requires InFlightRun(run)
    ensures EpochsReached(After(c, run))
  {
    hide Apply;
    if run.Then? {
      EpochsAlways(c, run.prior);
      EpochsStep(c, After(c, run.prior), run.tx);
    }
  }

  /** The transaction opened a recovery run that fences the operation. */
  predicate Fences(db: DB, tx: Tx, o: Id) {
    && tx.Recovering? && tx.run.BeginRecovery?
    && tx.run.r !in db.recovery.runs
    && o in db.work.operations && Recovery.Fenced(db.work.operations[o], tx.run.scope)
  }

  predicate RaisesEpoch(db: DB, next: DB, o: Id) {
    && o in db.work.operations && o in next.work.operations
    && next.work.operations[o].executionEpoch == db.work.operations[o].executionEpoch + 1
  }

  /** A begun run raises the epoch of every operation it fences. */
  lemma BeginRaisesEpoch(c: Config, db: DB, tx: Tx, o: Id)
    requires Fences(db, tx, o)
    ensures Apply(c, db, tx) == db || RaisesEpoch(db, Apply(c, db, tx), o)
  {
    hide AdmissionStep, EffectStep, GrantStep, ExecutionStep, ControlStep, FinanceStep, Recovery.CommitPage,
      Recovery.RecoveryInProgress;
  }

  /** The run was begun by the last transaction and fences the operation. */
  predicate BeginsFencing(c: Config, prior: Run, begin: Tx, o: Id) {
    hide Apply;
    Fences(After(c, prior), begin, o) && begin.run.r in After(c, Then(prior, begin)).recovery.runs
  }

  predicate PreparedFor(db: DB, d: Id, o: Id) {
    d in db.ledger.dispatches && db.ledger.dispatches[d].state == DispatchPrepared
        && db.ledger.dispatches[d].bind.operation == o
  }

  predicate PreparedEffectFor(db: DB, e: Id, o: Id) {
    e in db.guarded.effects && db.guarded.effects[e].state == EffectPrepared
        && db.guarded.effects[e].bind.operation == o
  }

  lemma {:induction false} StaleForever(c: Config, earlier: Run, later: Run, d: Id, e: Id)
    requires Within(earlier, later) && InFlightRun(later)
    ensures StaleDispatch(After(c, earlier), d) ==> StaleDispatch(After(c, later), d)
    ensures StaleEffect(After(c, earlier), e) ==> StaleEffect(After(c, later), e)
  {
    hide Apply;
    if earlier != later {
      StaleForever(c, earlier, later.prior, d, e);
      StaleStep(c, After(c, later.prior), later.tx, d, e);
    }
  }

  /** After a recovery run fenced an operation, no dispatch or effect prepared before
      it is ever consumed, by whatever transactions follow: those of calls already in
      flight and those after admission reopened included. */
  lemma FencedIsNeverConsumed(c: Config, prior: Run, begin: Tx, later: Run, o: Id, d: Id, e: Id)
    requires Within(Then(prior, begin), later) && InFlightRun(later) && BeginsFencing(c, prior, begin, o)
    ensures PreparedFor(After(c, prior), d, o) ==> StaleDispatch(After(c, later), d)
    ensures PreparedEffectFor(After(c, prior), e, o) ==> StaleEffect(After(c, later), e)
  {
    hide Apply;
    var begun := Then(prior, begin);
    PriorInFlight(begun, later);
    var db := After(c, prior);
    EpochsAlways(c, prior);
    BeginRaisesEpoch(c, db, begin, o);
    DispatchSteps.StepOfRow(c, db, begin, d);
    EffectSteps.StepOfRow(c, db, begin, e);
    BeginKeepsRows(c, db, begin);
    StaleForever(c, begun, later, d, e);
  }

  lemma BeginKeepsRows(c: Config, db: DB, tx: Tx)
    requires tx.Recovering?
    ensures Apply(c, db, tx).ledger == db.ledger && Apply(c, db, tx).guarded == db.guarded
  {
    hide AdmissionStep, EffectStep, GrantStep, ExecutionStep, ControlStep, FinanceStep, RunStep;
  }

  lemma {:induction false} PriorInFlight(earlier: Run, later: Run)
    requires Within(earlier, later) && InFlightRun(later)
    ensures InFlightRun(earlier)
  {
    if earlier != later { PriorInFlight(earlier, later.prior); }
  }
}
