/** Cancel fences and stored settlement intents (internal/domain/operation.go:493-525,
    internal/domain/generation.go:166-290, internal/domain/attempt.go:285-317,
    internal/application/execution_settlement.go:69-259). */
module Settlement {
  import opened Values
  import opened Records
  import opened Database
  import opened Transactions
  import Admission
  import Effects
  import Execution
  import Recovery
  import Releases
  import WorkSteps

  // ---------- cancel ----------

  predicate CancelInstalled(db: DB, o: Id) { o in db.work.operations && db.work.operations[o].control.Cancel() }

  predicate EndsCanceled(db: DB, o: Id) {
    o in db.work.operations && (db.work.operations[o].lifecycle.Terminal() ==>
        db.work.operations[o].lifecycle == LifecycleCanceled)
  }

  /** In every run an operation with a cancel installed ends canceled, if it ends. */
  lemma {:induction false} CanceledAlways(c: Config, run: Run, o: Id)
    ensures CancelInstalled(After(c, run), o) ==> EndsCanceled(After(c, run), o)
  {
    hide Apply;
    if run.Then? {
      CanceledAlways(c, run.prior, o);
      WorkSteps.StepOfWork(c, After(c, run.prior), run.tx, o, 0);
    }
  }

  /** Once a cancel is installed no later transaction of any kind removes it, and the
      operation can only end canceled. */
  lemma {:induction false} CancelDominates(c: Config, earlier: Run, later: Run, o: Id)
    requires Within(earlier, later)
    requires CancelInstalled(After(c, earlier), o)
    ensures CancelInstalled(After(c, later), o) && EndsCanceled(After(c, later), o)
  {
    hide Apply;
    CanceledAlways(c, later, o);
    if earlier != later {
      CancelDominates(c, earlier, later.prior, o);
      WorkSteps.StepOfWork(c, After(c, later.prior), later.tx, o, 0);
    }
  }

  // ---------- intents ----------

  predicate Intends(db: DB, o: Id, intent: SettlementIntent) {
    o in db.control.settlements && db.control.settlements[o] == intent
  }

  /** The end an outcome asks for. */
  function Lifecycled(outcome: OperationOutcome): Lifecycle {
    match outcome
    case OperationSucceeded => LifecycleSucceeded
    case OperationFailed => LifecycleFailed
    case OperationCanceled => LifecycleCanceled
  }

  /** Ended as intended, or canceled under a cancel. */
  predicate EndsIntended(db: DB, o: Id, intent: SettlementIntent) {
    o in db.work.operations &&
    var op := db.work.operations[o];
    (op.lifecycle.Terminal() ==>
       op.lifecycle == Lifecycled(intent.outcome)
           || (op.lifecycle == LifecycleCanceled && op.control.Cancel()))
  }

  predicate MultiStep(c: Config, db: DB, o: Id) { o in db.work.operations && c.MultiStep(db.work.operations[o]) }

  lemma SettleEnds(c: Config, db: DB, o: Id, tenant: Name, sent: SettlementIntent, intent: SettlementIntent)
    requires Intends(db, o, intent) && EndsIntended(db, o, intent)
    requires Execution.Settle(c, db, o, tenant, sent).Ok?
    ensures EndsIntended(Execution.Settle(c, db, o, tenant, sent).value, o, intent)
  {
    hide Execution.SettleTerminal, SendersActing, HasOpenAttempt, HasUnknownAttempt;
  }

  lemma SweepEnds(c: Config, db: DB, o: Id, intent: SettlementIntent)
    requires Intends(db, o, intent) && EndsIntended(db, o, intent)
    requires Execution.SettleFromIntent(c, db, o).Ok?
    ensures EndsIntended(Execution.SettleFromIntent(c, db, o).value, o, intent)
  {
    hide Execution.SettleTerminal, SendersActing, HasOpenAttempt, HasUnknownAttempt;
  }

  lemma CancelEnds(db: DB, o: Id, tenant: Name, expected: nat, intent: SettlementIntent)
    requires EndsIntended(db, o, intent)
    requires Execution.SubmitCancel(db, o, tenant, expected).Ok?
    ensures EndsIntended(Execution.SubmitCancel(db, o, tenant, expected).value, o, intent)
  {
    hide Execution.SettleTerminal, SendersActing, HasOpenAttempt, HasUnknownAttempt;
  }

  /** A multi-step operation is ended by a close only as canceled. */
  lemma CloseEnds(c: Config, db: DB, tx: Tx, o: Id, intent: SettlementIntent)
    requires MultiStep(c, db, o) && EndsIntended(db, o, intent) && tx.Closing?
    requires Execution.CloseAttempt(c, db, tx.a, tx.tenant, tx.outcome, tx.cleanup, tx.listed).Ok?
    ensures EndsIntended(Execution.CloseAttempt(c, db, tx.a, tx.tenant, tx.outcome, tx.cleanup, tx.listed).value, o,
                         intent)
  {
    hide Execution.CloseAttempt, SendersActing, HasOpenAttempt, NothingOpen;
    WorkSteps.ClosingOperation(c, db, tx, o);
    if tx.a in db.work.attempts && db.work.attempts[tx.a].bind.operation == o { CloseEndsExactly(c, db, tx, o); }
  }

  predicate Settles(tx: Tx) { tx.Controlling? && tx.control.Settle? }

  /** Only the settle command stores intents. */
  lemma SettlementsKept(c: Config, db: DB, tx: Tx)
    ensures !Settles(tx) ==> Apply(c, db, tx).control.settlements == db.control.settlements
  {
    hide AdmissionStep, EffectStep, Releases.Record, GrantStep, ExecutionStep, FinanceStep, RunStep, Recovery.Restore,
      Recovery.Dispose, Execution.SettleTerminal, SendersActing, HasOpenAttempt, HasUnknownAttempt, Execution.Settle,
      Execution.DenyEach, Execution.ListsPrepared, Execution.LeftByClose, Execution.SettleOutcome,
      Execution.ApplyCancelFence, Execution.DecideControl, Execution.ApplyControl;
  }

  /** It stores one for its operation, once, and then ends it as the intent says. */
  lemma SettleStores(c: Config, db: DB, x: Id, tenant: Name, sent: SettlementIntent, o: Id, intent: SettlementIntent)
    requires Execution.Settle(c, db, x, tenant, sent).Ok?
    ensures var next := Execution.Settle(c, db, x, tenant, sent).value;
            && (Intends(db, o, intent) ==> Intends(next, o, intent))
            && (!Intends(db, o, intent) && Intends(next, o, intent) ==> EndsIntended(next, o, intent))
  {
    hide Execution.SettleTerminal, SendersActing, HasOpenAttempt, HasUnknownAttempt;
  }

  /** An intent is stored once, by its own command, which leaves nothing ended otherwise. */
  lemma IntentStored(c: Config, db: DB, tx: Tx, o: Id, intent: SettlementIntent)
    ensures Intends(db, o, intent) ==> Intends(Apply(c, db, tx), o, intent)
    ensures !Intends(db, o, intent) && Intends(Apply(c, db, tx), o, intent)
            ==> EndsIntended(Apply(c, db, tx), o, intent)
  {
    hide AdmissionStep, EffectStep, Releases.Record, GrantStep, ExecutionStep, FinanceStep, RunStep, Recovery.Restore,
      Recovery.Dispose, Execution.CloseAttempt, Execution.Settle, Execution.SettleFromIntent, Execution.SubmitCancel,
      Execution.SubmitControl, Execution.RecordCommandRelay, EndsIntended;
    SettlementsKept(c, db, tx);
    if Settles(tx) && Step(c, db, tx).Ok? {
      SettleStores(c, db, tx.control.o, tx.control.tenant, tx.control.intent, o, intent);
    }
  }

  lemma IntendedStep(c: Config, db: DB, tx: Tx, o: Id, intent: SettlementIntent)
    requires MultiStep(c, db, o) && Intends(db, o, intent) && EndsIntended(db, o, intent)
    ensures EndsIntended(Apply(c, db, tx), o, intent)
  {
    hide AdmissionStep, EffectStep, Releases.Record, GrantStep, ExecutionStep, Execution.CloseAttempt, FinanceStep,
      RunStep, Recovery.Restore, Recovery.Dispose, Execution.Settle, Execution.SettleFromIntent,
      Execution.SubmitCancel, Execution.SubmitControl, Execution.RecordCommandRelay, Execution.RecordLease,
      Execution.RequestPermit, SendersActing, HasOpenAttempt;
    WorkSteps.StepOfWork(c, db, tx, o, 0);
    if Step(c, db, tx).Ok? && WorkSteps.Ender(db, tx, o) {
      match tx
      case Closing(_, _, _, _, _) => CloseEnds(c, db, tx, o, intent);
      case Controlling(t) =>
        match t {
          case Settle(_, tenant, sent) => SettleEnds(c, db, o, tenant, sent, intent);
          case SettleFromIntent(_) => SweepEnds(c, db, o, intent);
          case SubmitCancel(_, tenant, expected) => CancelEnds(db, o, tenant, expected, intent);
          case _ =>
        }
      case _ =>
    }
  }

  /** In every run the multi-step operation an intent is stored for ends as intended, if
      it ends. */
  lemma {:induction false} IntendedAlways(c: Config, run: Run, o: Id, intent: SettlementIntent)
    requires MultiStep(c, After(c, run), o) && Intends(After(c, run), o, intent)
    ensures EndsIntended(After(c, run), o, intent)
  {
    hide Apply;
    if run.Then? {
      var db := After(c, run.prior);
      WorkSteps.StepOfWork(c, db, run.tx, o, 0);
      IntentStored(c, db, run.tx, o, intent);
      if Intends(db, o, intent) && o in db.work.operations {
        IntendedAlways(c, run.prior, o, intent);
        IntendedStep(c, db, run.tx, o, intent);
      }
    }
  }

  /** The only end there is: canceled under a cancel, and as intended otherwise. */
  predicate EndsOnlyAs(db: DB, o: Id, intent: SettlementIntent) {
    o in db.work.operations &&
    var op := db.work.operations[o];
    op.lifecycle.Terminal() ==>
      op.lifecycle == if op.control.Cancel() then LifecycleCanceled else Lifecycled(intent.outcome)
  }

  /** Once an intent is stored for a multi-step operation, whatever settle commands,
      sweeps and other transactions follow and in whatever order, it ends in the intended
      lifecycle and no other, unless a cancel was installed, and then it ends canceled. */
  lemma {:induction false} SettlementIsConfluent(c: Config, earlier: Run, later: Run, o: Id, intent: SettlementIntent)
    requires Within(earlier, later)
    requires MultiStep(c, After(c, earlier), o) && Intends(After(c, earlier), o, intent)
    ensures MultiStep(c, After(c, later), o) && Intends(After(c, later), o, intent)
        && EndsOnlyAs(After(c, later), o, intent)
  {
    hide Apply;
    if earlier != later {
      SettlementIsConfluent(c, earlier, later.prior, o, intent);
      var db := After(c, later.prior);
      IntentStored(c, db, later.tx, o, intent);
      WorkSteps.StepOfWork(c, db, later.tx, o, 0);
    }
    IntendedAlways(c, later, o, intent);
    CanceledAlways(c, later, o);
  }

  predicate Reconciling(db: DB, o: Id) {
    o in db.work.operations && db.work.operations[o].lifecycle == LifecycleReconciling
  }

  predicate OwnedBy(db: DB, o: Id, tenant: Name) {
    o in db.work.operations && db.work.operations[o].bind.tenant == tenant
  }

  /** The stored command sent again by any replica and the sweep are one transition. */
  lemma SettleAgreesWithSweep(c: Config, db: DB, o: Id, tenant: Name, intent: SettlementIntent)
    requires MultiStep(c, db, o) && Intends(db, o, intent) && Reconciling(db, o) && OwnedBy(db, o, tenant)
    ensures Apply(c, db, Controlling(Settle(o, tenant, intent))) == Apply(c, db, Controlling(SettleFromIntent(o)))
  {
    hide AdmissionStep, EffectStep, Releases.Record, GrantStep, ExecutionStep, Execution.CloseAttempt, FinanceStep,
      RunStep, Recovery.Restore, Recovery.Dispose, Execution.SettleTerminal, SendersActing, HasOpenAttempt,
      HasUnknownAttempt;
    var stored := db.(control := db.control.(settlements := db.control.settlements[o := intent]));
    assert stored.control.settlements == db.control.settlements;
    assert stored == db;
  }

  /** What the sweep looks for. */
  predicate Sweepable(c: Config, db: DB, o: Id, intent: SettlementIntent) {
    && MultiStep(c, db, o) && Intends(db, o, intent) && Reconciling(db, o)
    && !HasOpenAttempt(db, o) && o in db.work.operations && !Execution.ObligationsOpen(db, o)
  }

  /** The refusal of an unknown cleanup cannot be met inside the sweep, and with the
      obligations closed the sweep ends the operation. */
  lemma SweepEndsTheOperation(c: Config, db: DB, o: Id, intent: SettlementIntent)
    requires o in db.work.operations
    ensures Execution.SettleFromIntent(c, db, o).Ok?
    ensures Sweepable(c, db, o, intent) ==>
              var next := Execution.SettleFromIntent(c, db, o).value;
              o in next.work.operations
              && next.work.operations[o].lifecycle ==
                 if db.work.operations[o].control.Cancel() then LifecycleCanceled
                     else Lifecycled(intent.outcome)
  {
    hide Execution.SettleTerminal, SendersActing, HasOpenAttempt, HasUnknownAttempt;
  }

  // ---------- what a close ends ----------

  predicate SingleStep(c: Config, db: DB, o: Id) { o in db.work.operations && !c.MultiStep(db.work.operations[o]) }

  predicate LifecycleIs(db: DB, o: Id, l: Lifecycle) { o in db.work.operations && db.work.operations[o].lifecycle == l }

  /** The attempt closed completed and cleaned up, its result certified. */
  predicate Certified(db: DB, o: Id, a: Id) {
    && a in db.work.attempts && db.work.attempts[a].bind.operation == o && db.work.attempts[a].state == AttemptClosed
    && db.work.attempts[a].outcome == Some(OutcomeCompleted) && db.work.attempts[a].cleanup == Some(CleanupComplete)
    && a in db.work.stages && db.work.stages[a] == VerdictCertified
  }

  /** Nothing of the operation is open beside the attempt: no call is held, no mutation may
      have been sent, no exposure is unknown, and every other attempt is certain. */
  predicate NothingOpen(db: DB, o: Id, a: Id) {
    && o in db.work.operations && db.work.operations[o].finance != FinanceExposureUnknown
    && (forall d | d in db.ledger.dispatches && db.ledger.dispatches[d].bind.operation == o ::
          db.ledger.dispatches[d].state in {DispatchObserved, DispatchConfirmedNotSent, DispatchDenied})
    && (forall e | e in db.guarded.effects && db.guarded.effects[e].bind.operation == o ::
          db.guarded.effects[e].state !in {EffectPermitted, EffectUnknown})
    && (forall x | x in db.work.attempts && db.work.attempts[x].bind.operation == o && x != a ::
          db.work.attempts[x].cleanup != Some(CleanupUnknown) && db.work.attempts[x].outcome != Some(OutcomeUnknown))
  }

  /** The close leaves nothing open. */
  predicate Definite(db: DB, tx: Tx, o: Id) {
    tx.Closing? && tx.outcome != OutcomeUnknown && tx.cleanup != CleanupUnknown && NothingOpen(db, o, tx.a)
  }

  /** The operation was asked to end, or the attempt was. */
  predicate Canceling(db: DB, tx: Tx, o: Id) {
    && tx.Closing? && o in db.work.operations
    && (db.work.operations[o].control in {ControlCancelPending, ControlCancelApplied} || tx.outcome == OutcomeCanceled)
  }

  predicate ClosesCertified(db: DB, tx: Tx) {
    && tx.Closing? && tx.outcome == OutcomeCompleted && tx.cleanup == CleanupComplete
    && tx.a in db.work.stages && db.work.stages[tx.a] == VerdictCertified
  }

  /** The attempt is open, or closed with this outcome and only now cleaned up, or closed
      with it and only now without open obligations. */
  predicate Effective(db: DB, tx: Tx) {
    && tx.Closing? && tx.a in db.work.attempts
    && var at := db.work.attempts[tx.a];
       || at.state != AttemptClosed
       || (at.outcome == Some(tx.outcome) && at.cleanup == Some(CleanupUnknown) && tx.cleanup != CleanupUnknown)
       || (at.outcome == Some(tx.outcome) && LifecycleIs(db, at.bind.operation, LifecycleReconciling)
           && Definite(db, tx, at.bind.operation))
  }

  /** The state of the operation after an effective close, by what the rows say. */
  function Verdicts(c: Config, db: DB, tx: Tx, o: Id): Lifecycle {
    if !Definite(db, tx, o) then LifecycleReconciling
    else if Canceling(db, tx, o) then LifecycleCanceled
    else if !SingleStep(c, db, o) then LifecycleRunning
    else if ClosesCertified(db, tx) then LifecycleSucceeded
    else LifecycleFailed
  }

  /** A close keeps the control of an operation, or cancels it when that was asked for; a
      cancel is not applied while something is open. */
  predicate ControlAfter(db: DB, next: DB, tx: Tx, o: Id) {
    && tx.Closing? && o in db.work.operations && o in next.work.operations
    && (if Canceling(db, tx, o)
        then next.work.operations[o].control in {ControlCancelPending, ControlCancelApplied}
        else next.work.operations[o].control == db.work.operations[o].control)
    && (!NothingOpen(db, o, tx.a) ==> !CancelApplied(next, o))
  }

  lemma NothingOpenExactly(db: DB, o: Id, a: Id)
    requires o in db.work.operations
    ensures NothingOpen(db, o, a) <==>
            !SendersActing(db, o) && !HasUnknownAttempt(db, o, Some(a))
            && db.work.operations[o].finance != FinanceExposureUnknown
  {
    if !SendersActing(db, o) && !HasUnknownAttempt(db, o, Some(a)) {
      forall d | d in db.ledger.dispatches && db.ledger.dispatches[d].bind.operation == o
        ensures db.ledger.dispatches[d].state in {DispatchObserved, DispatchConfirmedNotSent, DispatchDenied}
      {
        assert !HeldRow(db, o, d);
      }
      forall e | e in db.guarded.effects && db.guarded.effects[e].bind.operation == o
        ensures db.guarded.effects[e].state !in {EffectPermitted, EffectUnknown}
      {
        assert !UnresolvedEffectRow(db, o, e);
      }
      forall x | x in db.work.attempts && db.work.attempts[x].bind.operation == o && x != a
        ensures db.work.attempts[x].cleanup != Some(CleanupUnknown)
            && db.work.attempts[x].outcome != Some(OutcomeUnknown)
      {
        assert !UncertainAttemptRow(db, o, x);
      }
    }
  }

  /** How a close ends the operation: it is reconciled while anything is open, canceled
      under a cancel, kept running when it has more steps, and otherwise succeeded if and
      only if the attempt completed, was cleaned up and its result was certified. */
  lemma CloseEndsExactly(c: Config, db: DB, tx: Tx, o: Id)
    requires tx.Closing? && tx.a in db.work.attempts && db.work.attempts[tx.a].bind.operation == o
    requires Execution.CloseAttempt(c, db, tx.a, tx.tenant, tx.outcome, tx.cleanup, tx.listed).Ok?
    ensures var next := Execution.CloseAttempt(c, db, tx.a, tx.tenant, tx.outcome, tx.cleanup, tx.listed).value;
            && (Effective(db, tx) ==>
                  LifecycleIs(next, o, Verdicts(c, db, tx, o)) && ClosedAs(next, o, tx.a, tx.outcome, tx.cleanup)
                  && ControlAfter(db, next, tx, o)
                  && (Verdicts(c, db, tx, o) == LifecycleCanceled ==> CancelApplied(next, o))
                  && next.work.stages == db.work.stages)
            && (!Effective(db, tx) ==> next.work == db.work)
  {
    hide Execution.SettleTerminal, SendersActing, HasUnknownAttempt, Execution.DenyEach, Execution.ListsPrepared,
      NothingOpen;
    NothingOpenExactly(db, o, tx.a);
  }

  predicate CancelApplied(db: DB, o: Id) {
    o in db.work.operations && db.work.operations[o].control == ControlCancelApplied
  }

  predicate ClosedAs(db: DB, o: Id, a: Id, outcome: AttemptOutcome, cleanup: CleanupState) {
    && a in db.work.attempts && db.work.attempts[a].bind.operation == o && db.work.attempts[a].state == AttemptClosed
    && db.work.attempts[a].outcome == Some(outcome) && db.work.attempts[a].cleanup == Some(cleanup)
  }

  // ---------- the verdicts stay ----------

  predicate VerdictKept(db: DB, next: DB, a: Id) {
    a in db.work.stages ==> a in next.work.stages && next.work.stages[a] == db.work.stages[a]
  }

  lemma ExecutingVerdict(c: Config, db: DB, t: ExecutionTx, a: Id)
    requires ExecutionStep(c, db, t).Ok?
    ensures VerdictKept(db, ExecutionStep(c, db, t).value, a)
  {
    hide Execution.BootstrapGate, SendersActing, AdmissionClosed;
  }

  lemma RestoringVerdict(c: Config, db: DB, f: FindingKey, body: Body, a: Id)
    requires Recovery.Restore(c, db, f, body).Ok?
    ensures VerdictKept(db, Recovery.Restore(c, db, f, body).value, a)
  {
    hide Recovery.RestoreOperation, Recovery.RestoreAttempt, Admission.InsertDispatch, MoveBudget,
      Recovery.ExposeOperation, Effects.InsertEffect;
  }

  lemma ClosingVerdict(c: Config, db: DB, tx: Tx, a: Id)
    requires tx.Closing? && Execution.CloseAttempt(c, db, tx.a, tx.tenant, tx.outcome, tx.cleanup, tx.listed).Ok?
    ensures VerdictKept(db, Execution.CloseAttempt(c, db, tx.a, tx.tenant, tx.outcome, tx.cleanup, tx.listed).value, a)
  {
    hide Execution.SettleTerminal, SendersActing, HasUnknownAttempt, Execution.DenyEach, Execution.ListsPrepared,
      Execution.LeftByClose;
  }

  /** A recorded verdict never changes. */
  lemma StepOfVerdict(c: Config, db: DB, tx: Tx, a: Id)
    ensures VerdictKept(db, Apply(c, db, tx), a)
  {
    hide AdmissionStep, EffectStep, Releases.Record, GrantStep, ExecutionStep, FinanceStep, Execution.CloseAttempt,
      ControlStep, Recovery.RecordEach, Recovery.AllComplete, Recovery.RecoveryInProgress, Recovery.Restore,
      Recovery.Dispose;
    if tx.Executing? && ExecutionStep(c, db, tx.execution).Ok? { ExecutingVerdict(c, db, tx.execution, a); }
    if tx.Closing? && Step(c, db, tx).Ok? { ClosingVerdict(c, db, tx, a); }
    if tx.Restoring? && Recovery.Restore(c, db, tx.f, tx.body).Ok? { RestoringVerdict(c, db, tx.f, tx.body, a); }
  }

  // ---------- success over a run ----------

  /** A single-step operation that succeeded has an attempt that closed completed and
      cleaned up with a certified result. */
  ghost predicate SuccessIsCertified(c: Config, db: DB, o: Id) {
    SingleStep(c, db, o) && LifecycleIs(db, o, LifecycleSucceeded) ==> exists a :: Certified(db, o, a)
  }

  /** The transactions that end a single-step operation succeeded are closes. */
  lemma OnlyClosesSucceed(c: Config, db: DB, tx: Tx, o: Id)
    requires SingleStep(c, Apply(c, db, tx), o) && LifecycleIs(Apply(c, db, tx), o, LifecycleSucceeded)
    requires !tx.Closing?
    ensures SingleStep(c, db, o) && LifecycleIs(db, o, LifecycleSucceeded)
  {
    hide AdmissionStep, EffectStep, Releases.Record, GrantStep, ExecutionStep, FinanceStep, RunStep, Recovery.Restore,
      Recovery.Dispose, Execution.Settle, Execution.SettleFromIntent, Execution.SubmitCancel, Execution.SubmitControl,
      Execution.RecordCommandRelay, Execution.RecordLease, Execution.RequestPermit, SendersActing, HasOpenAttempt;
    WorkSteps.StepOfWork(c, db, tx, o, 0);
    if tx.Controlling? && ControlStep(c, db, tx.control).Ok? && WorkSteps.Ender(db, tx, o) && o in db.work.operations {
      match tx.control
      case Settle(_, _, _) => SingleStepSettles(c, db, tx.control, o);
      case SettleFromIntent(_) => SingleStepSettles(c, db, tx.control, o);
      case SubmitCancel(_, tenant, expected) => CancelNeverSucceeds(db, o, tenant, expected);
      case _ =>
    }
  }

  /** No command settles a single-step operation. */
  lemma SingleStepSettles(c: Config, db: DB, t: ControlTx, o: Id)
    requires (t.Settle? || t.SettleFromIntent?) && ControlStep(c, db, t).Ok? && SingleStep(c, db, o)
    requires t.o == o
    ensures ControlStep(c, db, t).value.work == db.work
  {
    hide Execution.SettleTerminal, SendersActing, HasOpenAttempt, HasUnknownAttempt;
  }

  lemma CancelNeverSucceeds(db: DB, o: Id, tenant: Name, expected: nat)
    requires Execution.SubmitCancel(db, o, tenant, expected).Ok?
    ensures LifecycleIs(Execution.SubmitCancel(db, o, tenant, expected).value, o, LifecycleSucceeded) ==>
              LifecycleIs(db, o, LifecycleSucceeded)
  {
    hide Execution.SettleTerminal, SendersActing, HasOpenAttempt, HasUnknownAttempt;
  }

  lemma SuccessStep(c: Config, db: DB, tx: Tx, o: Id)
    requires SuccessIsCertified(c, db, o)
    ensures SuccessIsCertified(c, Apply(c, db, tx), o)
  {
    hide Apply, Certified;
    var next := Apply(c, db, tx);
    if SingleStep(c, next, o) && LifecycleIs(next, o, LifecycleSucceeded) {
      if tx.Closing? {
        CloseSucceeds(c, db, tx, o);
      } else {
        OnlyClosesSucceed(c, db, tx, o);
        var a :| Certified(db, o, a);
        CertifiedStays(c, db, tx, o, a);
      }
    }
  }

  predicate ClosesIt(tx: Tx, a: Id) { tx.Closing? && tx.a == a }

  /** Apart from its own close, a certified attempt stays as it is. */
  lemma CertifiedStays(c: Config, db: DB, tx: Tx, o: Id, a: Id)
    requires Certified(db, o, a) && !ClosesIt(tx, a)
    ensures Certified(Apply(c, db, tx), o, a)
  {
    hide Apply, WorkSteps.OperationStep;
    WorkSteps.StepOfWork(c, db, tx, o, a);
    StepOfVerdict(c, db, tx, a);
  }

  lemma CloseSucceeds(c: Config, db: DB, tx: Tx, o: Id)
    requires SuccessIsCertified(c, db, o) && tx.Closing?
    requires SingleStep(c, Apply(c, db, tx), o) && LifecycleIs(Apply(c, db, tx), o, LifecycleSucceeded)
    ensures exists a :: Certified(Apply(c, db, tx), o, a)
  {
    hide Apply, Certified, Execution.CloseAttempt, Effective, Verdicts;
    var next := Apply(c, db, tx);
    ClosingCommits(c, db, tx);
    if tx.a in db.work.attempts && db.work.attempts[tx.a].bind.operation == o && next != db {
      CloseEndsExactly(c, db, tx, o);
      if Effective(db, tx) { CertifiedByClose(c, db, next, tx, o); } else { SameCertified(db, next, o); }
    } else if next != db {
      WorkSteps.StepOfWork(c, db, tx, o, 0);
      assert LifecycleIs(db, o, LifecycleSucceeded);
      var a :| Certified(db, o, a);
      OtherAttempt(db, tx, o, a);
      CertifiedStays(c, db, tx, o, a);
    }
  }

  function Closed(c: Config, db: DB, tx: Tx): DB
    requires tx.Closing?
  {
    match Execution.CloseAttempt(c, db, tx.a, tx.tenant, tx.outcome, tx.cleanup, tx.listed)
    case Ok(next) => next
    case Err(_) => db
  }

  predicate CommitsClose(c: Config, db: DB, next: DB, tx: Tx) {
    hide Execution.CloseAttempt;
    tx.Closing? && next == Closed(c, db, tx)
  }

  lemma ClosingCommits(c: Config, db: DB, tx: Tx)
    requires tx.Closing?
    ensures CommitsClose(c, db, Apply(c, db, tx), tx)
  {
    hide AdmissionStep, EffectStep, Releases.Record, GrantStep, ExecutionStep, Execution.CloseAttempt, ControlStep,
      FinanceStep, RunStep, Recovery.Restore, Recovery.Dispose;
  }

  lemma CertifiedByClose(c: Config, db: DB, next: DB, tx: Tx, o: Id)
    requires tx.Closing? && Verdicts(c, db, tx, o) == LifecycleSucceeded
    requires ClosedAs(next, o, tx.a, tx.outcome, tx.cleanup) && next.work.stages == db.work.stages
    ensures Certified(next, o, tx.a)
  {
    hide Definite, Canceling, SingleStep;
  }

  lemma SameCertified(db: DB, next: DB, o: Id)
    requires next.work == db.work
    ensures forall a :: Certified(db, o, a) == Certified(next, o, a)
  {
  }

  lemma OtherAttempt(db: DB, tx: Tx, o: Id, a: Id)
    requires Certified(db, o, a) && tx.Closing?
    requires tx.a in db.work.attempts ==> db.work.attempts[tx.a].bind.operation != o
    ensures tx.a != a
  {
  }

  /** In every run, a single-step operation that succeeded was certified. */
  lemma {:induction false} SuccessAlwaysCertified(c: Config, run: Run, o: Id)
    ensures SuccessIsCertified(c, After(c, run), o)
  {
    hide Apply, SuccessIsCertified;
    if run.Then? {
      SuccessAlwaysCertified(c, run.prior, o);
      SuccessStep(c, After(c, run.prior), run.tx, o);
    } else {
      NothingSucceeded(c, o);
    }
  }

  lemma NothingSucceeded(c: Config, o: Id)
    ensures SuccessIsCertified(c, Empty, o)
  {
  }

  // ---------- what a settle command does ----------

  /** Nothing of the operation is open at all. */
  predicate Concluded(db: DB, o: Id) {
    && o in db.work.operations && db.work.operations[o].finance != FinanceExposureUnknown
    && db.work.operations[o].cleanup != CleanupUnknown
    && (forall d | d in db.ledger.dispatches && db.ledger.dispatches[d].bind.operation == o ::
          db.ledger.dispatches[d].state in {DispatchObserved, DispatchConfirmedNotSent, DispatchDenied})
    && (forall e | e in db.guarded.effects && db.guarded.effects[e].bind.operation == o ::
          db.guarded.effects[e].state !in {EffectPermitted, EffectUnknown})
    && (forall x | x in db.work.attempts && db.work.attempts[x].bind.operation == o ::
          db.work.attempts[x].cleanup != Some(CleanupUnknown) && db.work.attempts[x].outcome != Some(OutcomeUnknown))
  }

  lemma ConcludedExactly(db: DB, o: Id)
    requires o in db.work.operations
    ensures Concluded(db, o) <==> !Execution.ObligationsOpen(db, o)
  {
    if !Execution.ObligationsOpen(db, o) {
      NothingOpenExactly(db, o, 0);
      forall x | x in db.work.attempts && db.work.attempts[x].bind.operation == o
        ensures db.work.attempts[x].cleanup != Some(CleanupUnknown)
            && db.work.attempts[x].outcome != Some(OutcomeUnknown)
      {
        assert !UncertainAttemptRow(db, o, x);
      }
      assert !HasUnknownAttempt(db, o, Some(0));
    } else if Concluded(db, o) {
      assert NothingOpen(db, o, 0);
      NothingOpenExactly(db, o, 0);
    }
  }

  predicate AllClosed(db: DB, o: Id) {
    forall a | a in db.work.attempts && db.work.attempts[a].bind.operation == o ::
        db.work.attempts[a].state == AttemptClosed
  }

  /** The operation has more steps and none of them is running. */
  predicate Settleable(c: Config, db: DB, o: Id, tenant: Name) {
    && MultiStep(c, db, o) && db.work.operations[o].bind.tenant == tenant && AllClosed(db, o)
    && db.work.operations[o].lifecycle !in {LifecycleSucceeded, LifecycleFailed, LifecycleCanceled}
  }

  /** The first settle command is accepted if and only if no attempt runs and no other
      intent is stored: it stores its intent, and ends the operation if nothing is open. */
  lemma SettlesExactly(c: Config, db: DB, o: Id, tenant: Name, intent: SettlementIntent)
    requires MultiStep(c, db, o) && db.work.operations[o].bind.tenant == tenant
    requires db.work.operations[o].lifecycle !in {LifecycleSucceeded, LifecycleFailed, LifecycleCanceled}
    requires o !in db.control.settlements || db.control.settlements[o] != intent
    ensures var r := Execution.Settle(c, db, o, tenant, intent);
            && (r.Ok? <==> Settleable(c, db, o, tenant) && o !in db.control.settlements)
            && (r.Ok? ==>
                  && Intends(r.value, o, intent)
                  && LifecycleIs(r.value, o,
                                 if !Concluded(db, o) then LifecycleReconciling
                                 else if db.work.operations[o].control in {ControlCancelPending, ControlCancelApplied}
                                 then LifecycleCanceled else Lifecycled(intent.outcome)))
  {
    hide Execution.SettleTerminal, SendersActing, HasUnknownAttempt, HasOpenAttempt, Concluded,
      Execution.ObligationsOpen;
    ConcludedExactly(db, o);
    AllClosedExactly(db, o);
    UnknownIsOpen(db, o);
  }

  lemma AllClosedExactly(db: DB, o: Id)
    ensures AllClosed(db, o) <==> !HasOpenAttempt(db, o)
  {
    if !HasOpenAttempt(db, o) {
      forall a | a in db.work.attempts && db.work.attempts[a].bind.operation == o
        ensures db.work.attempts[a].state == AttemptClosed
      {
        assert !OpenAttemptRow(db, o, a);
      }
    }
  }

  lemma UnknownIsOpen(db: DB, o: Id)
    requires o in db.work.operations
    ensures db.work.operations[o].cleanup == CleanupUnknown ==> Execution.ObligationsOpen(db, o)
  {
  }

  // ---------- the permits of an ended operation ----------

  /** The operation ended and nothing of it is open or may still act. */
  predicate Over(db: DB, o: Id) {
    && o in db.work.operations && AllClosed(db, o) && Concluded(db, o)
    && db.work.operations[o].lifecycle in {LifecycleSucceeded, LifecycleFailed, LifecycleCanceled}
  }

  /** The permits of an operation that is over are freed, and no other. */
  predicate Frees(db: DB, next: DB, o: Id) {
    && next.control.permits.Keys == db.control.permits.Keys
    && forall k | k in db.control.permits && k in next.control.permits ::
         next.control.permits[k] ==
         db.control.permits[k].(active := db.control.permits[k].active && !(k.operation == o && Over(db, o)))
  }

  lemma FreesExactly(db: DB, o: Id)
    requires o in db.work.operations
    ensures Frees(db, Execution.SettleTerminal(db, o), o)
    ensures Execution.SettleTerminal(db, o) == db.(control := db.control.(
              permits := Execution.SettleTerminal(db, o).control.permits))
  {
    hide SendersActing, HasUnknownAttempt, HasOpenAttempt, Concluded;
    ConcludedExactly(db, o);
    AllClosedExactly(db, o);
  }
}
