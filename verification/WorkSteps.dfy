/** What a transaction, whichever it is, can do to operations, attempts and
    execution permits. */
module WorkSteps {
  import opened Values
  import opened Budget
  import opened Records
  import opened Database
  import opened Transactions
  import Admission
  import DispatchSteps
  import Effects
  import Execution
  import Finance
  import Recovery
  import Releases

  // ---------- operations ----------

  /** A terminal lifecycle is rewritten only by closing an attempt of the operation
      that was not closed, or that left its cleanup unknown. */
  predicate Reopens(db: DB, tx: Tx, o: Id) {
    && tx.Closing? && tx.a in db.work.attempts && db.work.attempts[tx.a].bind.operation == o
    && (!db.work.attempts[tx.a].Closed() || db.work.attempts[tx.a].cleanup == Some(CleanupUnknown))
  }

  /** The transactions that end an operation. */
  predicate Ender(db: DB, tx: Tx, o: Id) {
    || (tx.Closing? && tx.a in db.work.attempts && db.work.attempts[tx.a].bind.operation == o)
    || (tx.Controlling?
        && (tx.control.Settle? || tx.control.SettleFromIntent? || tx.control.SubmitCancel?)
        && tx.control.o == o)
  }

  /** Nothing may be sending, no cleanup may be unknown, and only a close leaves
      another attempt open, when an operation ends. */
  predicate EndsQuiet(next: DB, tx: Tx, o: Id) {
    && !SendersActing(next, o) && (HasOpenAttempt(next, o) ==> tx.Closing?)
    && (o in next.work.operations ==> next.work.operations[o].cleanup != CleanupUnknown)
  }

  predicate SettlesFinance(tx: Tx, o: Id) {
    tx.Financing? && tx.finance.SettleFinance? && tx.finance.o == o
  }

  /** A cancel stays and lets the operation end only canceled, the epoch never falls
      back, the active deadline stays. */
  predicate Advances(a: Operation, b: Operation) {
    && b.bind == a.bind
    && b.executionEpoch >= a.executionEpoch
    && (a.activeDeadline.Some? ==> b.activeDeadline == a.activeDeadline)
    && (a.control.Cancel() ==> b.control.Cancel())
    && (b.control.Cancel() && b.lifecycle.Terminal() ==>
          b.lifecycle == LifecycleCanceled || (a.control.Cancel() && b.lifecycle == a.lifecycle))
  }

  predicate OperationStep(db: DB, next: DB, tx: Tx, o: Id) {
    && (o in db.work.operations ==>
          && o in next.work.operations
          && var a, b := db.work.operations[o], next.work.operations[o];
             b == a
             || (&& Advances(a, b)
                 && (b.lifecycle.Terminal() && b.lifecycle != a.lifecycle ==>
                     EndsQuiet(next, tx, o) && Ender(db, tx, o))
                 && (a.lifecycle.Terminal() && b.lifecycle != a.lifecycle ==> Reopens(db, tx, o))
                 && (a.cleanup == CleanupUnknown && b.cleanup != CleanupUnknown ==>
                     HasOpenAttempt(next, o) || tx.Closing?)
                 && (a.lifecycle.Terminal() && b.lifecycle == a.lifecycle && !tx.Closing? ==> b.cleanup == a.cleanup)
                 && (b.finance == FinanceSettled && a.finance != FinanceSettled ==> SettlesFinance(tx, o))))
    && (o !in db.work.operations && o in next.work.operations ==>
          var b := next.work.operations[o];
          !b.lifecycle.Terminal() && b.activeDeadline.None? && b.finance != FinanceSettled)
  }

  // ---------- attempts ----------

  /** What opening an attempt finds: a multi-step operation is quiet and, in a pool,
      holds its permit and its funding. */
  predicate Gated(c: Config, db: DB, o: Id) {
    && o in db.work.operations && !db.work.operations[o].FencedForNewDispatch()
    && (c.MultiStep(db.work.operations[o]) ==>
          && !SendersActing(db, o)
          && var pool := c.ProfileOf(db.work.operations[o]).queuePool;
             (pool.Some? ==> HoldsPermit(db, pool.value, o) && o in db.control.funded))
  }

  predicate AttemptStep(c: Config, db: DB, next: DB, tx: Tx, a: Id) {
    && (a in db.work.attempts ==>
          && a in next.work.attempts
          && var x, y := db.work.attempts[a], next.work.attempts[a];
             y == x
             || (&& y.bind == x.bind
                 && (x.Closed() ==> y.Closed() && y.outcome == x.outcome)
                 && ((tx.Closing? && tx.a == a) || (y.Closed() == x.Closed() && y.cleanup == x.cleanup))))
    && (a !in db.work.attempts && a in next.work.attempts ==>
          var y := next.work.attempts[a];
          && !y.Closed() && y.cleanup.None?
          && (tx.Restoring?
              || (tx.Executing? && tx.execution.OpenAttempt? && tx.execution.o == y.bind.operation
                  && Gated(c, db, y.bind.operation))))
  }

  // ---------- groups ----------

  /** The ledger's transactions change an operation's finance state at most. */
  predicate FinanceOnly(db: DB, next: DB, o: Id, settles: bool) {
    && (o in next.work.operations <==> o in db.work.operations)
    && (o in db.work.operations ==>
          var a, b := db.work.operations[o], next.work.operations[o];
          b == a.(finance := b.finance, revision := b.revision) && (b.finance == FinanceSettled ==>
              a.finance == FinanceSettled || settles))
    && next.work.attempts == db.work.attempts
  }

  lemma NotSentFinance(db: DB, id: Id, evidence: Name, guard: Option<nat>, o: Id)
    requires Admission.ConfirmNotSent(db, id, evidence, guard).Ok?
    ensures FinanceOnly(db, Admission.ConfirmNotSent(db, id, evidence, guard).value, o, false)
  {
    hide MoveBudget, Admission.UpdateDispatch, Admission.SettleExposure;
  }

  lemma ObserveFinance(c: Config, db: DB, t: AdmissionTx, o: Id)
    requires t.ObserveDispatch? && AdmissionStep(c, db, t).Ok?
    ensures FinanceOnly(db, AdmissionStep(c, db, t).value, o, false)
  {
    hide Admission.SettleMoney, Admission.MeterReport, Admission.ObserveOutcome, Admission.UpdateDispatch,
      Admission.SettleExposure;
  }

  lemma AdmittingFinance(c: Config, db: DB, t: AdmissionTx, o: Id)
    requires AdmissionStep(c, db, t).Ok?
    ensures FinanceOnly(db, AdmissionStep(c, db, t).value, o, false)
  {
    hide Admission.AdmitPrepare, Admission.AdmitConsume, Admission.Observe, Admission.ConfirmNotSent;
    match t
    case ObserveDispatch(_, _, _, _) => ObserveFinance(c, db, t, o);
    case ConfirmDispatchNotSent(id, evidence) => NotSentFinance(db, id, evidence, None, o);
    case _ =>
  }

  lemma ExecutingWork(c: Config, db: DB, t: ExecutionTx, o: Id, a: Id)
    requires ExecutionStep(c, db, t).Ok?
    ensures OperationStep(db, ExecutionStep(c, db, t).value, Executing(t), o)
    ensures AttemptStep(c, db, ExecutionStep(c, db, t).value, Executing(t), a)
  {
    hide SendersActing, AdmissionClosed, Execution.OpenAttempt, Execution.PrepareLaunch;
    if t.OpenAttempt? || t.PrepareLaunch? { OpeningWork(c, db, t, o, a); }
  }

  lemma OpeningWork(c: Config, db: DB, t: ExecutionTx, o: Id, a: Id)
    requires (t.OpenAttempt? || t.PrepareLaunch?) && ExecutionStep(c, db, t).Ok?
    ensures OperationStep(db, ExecutionStep(c, db, t).value, Executing(t), o)
    ensures AttemptStep(c, db, ExecutionStep(c, db, t).value, Executing(t), a)
  {
    hide SendersActing, AdmissionClosed;
    if t.PrepareLaunch? && t.a in db.work.attempts {
      assert !db.work.attempts[t.a].Closed() ==>
          OpenAttemptRow(ExecutionStep(c, db, t).value, db.work.attempts[t.a].bind.operation, t.a);
    }
  }

  /** The queries a transaction settles by read the same rows before and after it. */
  lemma SameQuiet(db: DB, next: DB, o: Id)
    requires next.ledger == db.ledger && next.guarded == db.guarded && next.work.attempts == db.work.attempts
    ensures SendersActing(next, o) == SendersActing(db, o) && HasOpenAttempt(next, o) == HasOpenAttempt(db, o)
  {
    SameSenders(db, next, o);
    assert forall a :: OpenAttemptRow(next, o, a) == OpenAttemptRow(db, o, a);
  }

  lemma SettleWork(c: Config, db: DB, o: Id, tenant: Name, intent: SettlementIntent, x: Id)
    requires Execution.Settle(c, db, o, tenant, intent).Ok?
    ensures var next := Execution.Settle(c, db, o, tenant, intent).value;
            OperationStep(db, next, Controlling(Settle(o, tenant, intent)), x) && next.work.attempts == db.work.attempts
  {
    hide Execution.SettleTerminal, SendersActing, HasOpenAttempt, HasUnknownAttempt, Execution.ObligationsOpen,
      Execution.SettleOutcome, Advances;
    var next := Execution.Settle(c, db, o, tenant, intent).value;
    assert next.work.attempts == db.work.attempts;
    SameQuiet(db, next, o);
    SettledAdvances(db, o, intent.outcome);
    NotedAdvances(db.work.operations[o]);
  }

  /** What a settlement with nothing open leaves. */
  lemma SettledAdvances(db: DB, o: Id, outcome: OperationOutcome)
    requires o in db.work.operations
    ensures var op := db.work.operations[o];
            !Execution.ObligationsOpen(db, o) ==>
              && !SendersActing(db, o) && op.cleanup != CleanupUnknown && op.finance != FinanceExposureUnknown
              && var settled := Execution.SettleOutcome(op, outcome);
                 settled.Ok? ==>
                     Advances(op, settled.value.Transition()) && settled.value.finance == op.finance
                     && settled.value.cleanup == op.cleanup
  {
    hide SendersActing, HasUnknownAttempt;
  }

  /** And with something open. */
  lemma NotedAdvances(op: Operation)
    ensures Advances(op, op.(lifecycle := LifecycleReconciling).Transition())
    ensures Advances(op, op.(cleanup := CleanupUnknown).(lifecycle := LifecycleReconciling).Transition())
  {
  }

  lemma SweepWork(c: Config, db: DB, o: Id, x: Id)
    requires Execution.SettleFromIntent(c, db, o).Ok?
    ensures var next := Execution.SettleFromIntent(c, db, o).value;
            OperationStep(db, next, Controlling(SettleFromIntent(o)), x) && next.work.attempts == db.work.attempts
  {
    hide HasUnknownAttempt, Execution.SettleTerminal;
  }

  lemma CancelWork(db: DB, o: Id, tenant: Name, expected: nat, x: Id)
    requires Execution.SubmitCancel(db, o, tenant, expected).Ok?
    ensures var next := Execution.SubmitCancel(db, o, tenant, expected).value;
            OperationStep(db, next, Controlling(SubmitCancel(o, tenant, expected)), x)
                && next.work.attempts == db.work.attempts
  {
    hide HasUnknownAttempt, Execution.SettleTerminal;
  }

  lemma CommandWork(c: Config, db: DB, t: ControlTx, o: Id)
    requires (t.SubmitControl? || t.RecordCommandRelay?) && ControlStep(c, db, t).Ok?
    ensures OperationStep(db, ControlStep(c, db, t).value, Controlling(t), o)
    ensures ControlStep(c, db, t).value.work.attempts == db.work.attempts
  {
    hide SendersActing, HasOpenAttempt, Execution.ApplyControl, Execution.DecideControl, Advances;
    match t
    case SubmitControl(k, x, kind, target, _, now) =>
      if x in db.work.operations {
        RelayedFences(c.ProfileOf(db.work.operations[x]), db.work.operations[x], kind, target, now);
      }
    case RecordCommandRelay(k, outcome) =>
      if k in db.control.commands && db.control.commands[k].operation in db.work.operations {
        var command := db.control.commands[k];
        var op := db.work.operations[command.operation];
        RelayAdvances(op, command.kind, if op.lifecycle.Terminal() || op.control.Cancel() then OutcomeRejected
                      else outcome, command.target);
      }
  }

  /** A receipt never ends an operation nor undoes a cancel. */
  lemma RelayAdvances(op: Operation, kind: CommandKind, outcome: CommandOutcome, target: Option<Name>)
    ensures var next := Execution.ApplyControl(op, kind, outcome, target).Transition();
            && Advances(op, next) && next.finance == op.finance && next.cleanup == op.cleanup
            && (next.lifecycle == op.lifecycle || (!op.lifecycle.Terminal() && !next.lifecycle.Terminal()))
  {
  }

  /** A relayed command fences an operation that is open and not canceled. */
  lemma RelayedFences(profile: Profile, op: Operation, kind: CommandKind, target: Option<Name>, now: Time)
    ensures Execution.DecideControl(profile, op, kind, target, now).relay ==>
              Advances(op, op.Transition()) && Advances(op, op.(control := ControlHoldPending).Transition())
  {
  }

  lemma ControllingWork(c: Config, db: DB, t: ControlTx, o: Id)
    requires ControlStep(c, db, t).Ok?
    ensures OperationStep(db, ControlStep(c, db, t).value, Controlling(t), o)
    ensures ControlStep(c, db, t).value.work.attempts == db.work.attempts
  {
    hide Execution.Settle, Execution.SettleFromIntent, Execution.SubmitCancel, SendersActing, HasOpenAttempt,
      ActivePermits, HoldsPermit, AdmissionClosed, Execution.ReportLease, Execution.Available,
      Execution.SubmitControl, Execution.RecordCommandRelay;
    match t
    case SubmitControl(_, _, _, _, _, _) => CommandWork(c, db, t, o);
    case RecordCommandRelay(_, _) => CommandWork(c, db, t, o);
    case Settle(x, tenant, intent) => SettleWork(c, db, x, tenant, intent, o);
    case SettleFromIntent(x) => SweepWork(c, db, x, o);
    case SubmitCancel(x, tenant, expected) => CancelWork(db, x, tenant, expected, o);
    case _ =>
  }

  /** The operation a close leaves: ended only where nothing was unresolved. */
  lemma CloseVerdict(c: Config, db: DB, a: Id, outcome: AttemptOutcome, cleanup: CleanupState)
    requires a in db.work.attempts && db.work.attempts[a].bind.operation in db.work.operations
    ensures var op := db.work.attempts[a].bind.operation;
            var kept := Execution.LeftByClose(c, db, a, outcome, cleanup);
            && Advances(db.work.operations[op], kept) && kept.finance == db.work.operations[op].finance
            && (kept.lifecycle.Terminal() ==> !SendersActing(db, op) && kept.cleanup != CleanupUnknown)
  {
    hide SendersActing, HasUnknownAttempt;
  }

  /** A close ends the operation only where nothing was sending before it. */
  lemma ClosingOperation(c: Config, db: DB, tx: Tx, o: Id)
    requires tx.Closing? && Execution.CloseAttempt(c, db, tx.a, tx.tenant, tx.outcome, tx.cleanup, tx.listed).Ok?
    ensures OperationStep(db, Execution.CloseAttempt(c, db, tx.a, tx.tenant, tx.outcome, tx.cleanup, tx.listed).value,
                          tx, o)
  {
    hide Execution.DenyEach, Execution.SettleTerminal, HasUnknownAttempt, Execution.ListsPrepared, SendersActing,
      HasOpenAttempt, Execution.LeftByClose, Advances;
    var next := Execution.CloseAttempt(c, db, tx.a, tx.tenant, tx.outcome, tx.cleanup, tx.listed).value;
    var op := db.work.attempts[tx.a].bind.operation;
    var denied := Execution.DenyEach(db, op, tx.listed);
    CloseVerdict(c, db, tx.a, tx.outcome, tx.cleanup);
    if denied.Ok? && !SendersActing(db, op) && next.ledger == denied.value.ledger {
      DeniedStayQuiet(db, op, tx.listed, op);
      SameSenders(denied.value, next, op);
    }
  }

  lemma ClosingAttempt(c: Config, db: DB, tx: Tx, a: Id)
    requires tx.Closing? && Execution.CloseAttempt(c, db, tx.a, tx.tenant, tx.outcome, tx.cleanup, tx.listed).Ok?
    ensures AttemptStep(c, db, Execution.CloseAttempt(c, db, tx.a, tx.tenant, tx.outcome, tx.cleanup, tx.listed).value,
                        tx, a)
  {
    hide Execution.DenyEach, Execution.SettleTerminal, HasUnknownAttempt, Execution.ListsPrepared, SendersActing,
      Execution.LeftByClose;
  }

  lemma SameSenders(db: DB, next: DB, o: Id)
    requires next.ledger == db.ledger && next.guarded == db.guarded
    ensures SendersActing(next, o) == SendersActing(db, o)
  {
    assert forall d :: HeldRow(next, o, d) == HeldRow(db, o, d);
    assert forall e :: UnresolvedEffectRow(next, o, e) == UnresolvedEffectRow(db, o, e);
  }

  lemma DeniedStayQuiet(db: DB, op: Id, listed: seq<Id>, o: Id)
    requires op in db.work.operations && Execution.DenyEach(db, op, listed).Ok?
    requires !SendersActing(db, o)
    ensures !SendersActing(Execution.DenyEach(db, op, listed).value, o)
  {
    hide Execution.DenyEach;
    var next := Execution.DenyEach(db, op, listed).value;
    forall d | d in next.ledger.dispatches
      ensures !HeldRow(next, o, d)
    {
      DispatchSteps.DenyEachRow(db, op, listed, d);
      assert !HeldRow(db, o, d);
    }
    forall e | e in next.guarded.effects
      ensures !UnresolvedEffectRow(next, o, e)
    {
      assert !UnresolvedEffectRow(db, o, e);
    }
  }

  lemma FinancingWork(db: DB, t: FinanceTx, o: Id)
    requires FinanceStep(db, t).Ok?
    ensures FinanceOnly(db, FinanceStep(db, t).value, o, SettlesFinance(Financing(t), o))
  {
    hide Finance.Draw, Finance.ReturnEach, Finance.ListsPools, HasUnsettledDispatch;
  }

  lemma RunningWork(db: DB, t: RunTx, o: Id)
    requires RunStep(db, t).Ok?
    ensures OperationStep(db, RunStep(db, t).value, Recovering(t), o)
    ensures RunStep(db, t).value.work.attempts == db.work.attempts
  {
    hide Recovery.RecordEach, Recovery.AllComplete, Recovery.HasUnsettled, Recovery.Reopened,
      Recovery.RecoveryInProgress;
  }

  /** A restoration adds a reconciling operation and an open attempt at most. */
  predicate RestoredWork(db: DB, next: DB, o: Id, a: Id) {
    && (o in db.work.operations ==>
          && o in next.work.operations
          && var x, y := db.work.operations[o], next.work.operations[o];
              y == x.(finance := y.finance, revision := y.revision) && (y.finance == FinanceSettled ==>
                x.finance == FinanceSettled))
    && (o !in db.work.operations && o in next.work.operations ==>
          var y := next.work.operations[o];
          y.lifecycle == LifecycleReconciling && y.activeDeadline.None? && y.finance != FinanceSettled)
    && (a in db.work.attempts ==> a in next.work.attempts && next.work.attempts[a] == db.work.attempts[a])
    && (a !in db.work.attempts && a in next.work.attempts ==>
        !next.work.attempts[a].Closed() && next.work.attempts[a].cleanup.None?)
  }

  /** The operation and the attempt a lost identity belonged to. */
  lemma RestoringOwner(c: Config, db: DB, id: Id, intake: IntakeBinding, at: Id, bind: AttemptBinding, epoch: nat,
                       o: Id, a: Id)
    requires Recovery.RestoreOperation(c, db, id, intake, epoch).Ok?
    ensures RestoredWork(db, Recovery.RestoreAttempt(Recovery.RestoreOperation(c, db, id, intake, epoch).value, at,
                                                     bind), o, a)
  {
  }

  lemma RestoringDispatchWork(c: Config, db: DB, d: Id, b: DispatchBinding, epoch: nat, o: Id, a: Id)
    requires Recovery.RestoreDispatch(c, db, d, b, epoch).Ok?
    ensures RestoredWork(db, Recovery.RestoreDispatch(c, db, d, b, epoch).value, o, a)
  {
    hide MoveBudget, Admission.InsertDispatch, Recovery.ExposeOperation, Recovery.RestoreOperation,
      Recovery.RestoreAttempt, Recovery.Anonymous;
    RestoringOwner(c, db, b.operation, Recovery.Anonymous(b.tenant, None, b.admittedAt, b.epoch), b.attempt,
                   AttemptBinding(b.operation, b.tenant, None, b.epoch, b.deadline), epoch, o, a);
  }

  lemma RestoringLaunchWork(c: Config, db: DB, l: Id, b: LaunchBinding, epoch: nat, o: Id, a: Id)
    requires Recovery.RestoreLaunch(c, db, l, b, epoch).Ok?
    ensures RestoredWork(db, Recovery.RestoreLaunch(c, db, l, b, epoch).value, o, a)
  {
    hide Recovery.RestoreOperation, Recovery.RestoreAttempt, Recovery.Anonymous;
    RestoringOwner(c, db, b.operation, Recovery.Anonymous(b.tenant, b.profile, b.createdAt, b.epoch), b.attempt,
                   AttemptBinding(b.operation, b.tenant, b.profile, b.epoch, b.deadline), epoch, o, a);
  }

  lemma RestoringBodyWork(c: Config, db: DB, id: Id, body: Body, epoch: nat, o: Id, a: Id)
    requires Recovery.RestoreBody(c, db, id, body, epoch).Ok?
    ensures RestoredWork(db, Recovery.RestoreBody(c, db, id, body, epoch).value, o, a)
  {
    hide Recovery.RestoreDispatch, Recovery.RestoreLaunch, Effects.InsertEffect;
    match body
    case DispatchBody(b) => RestoringDispatchWork(c, db, id, b, epoch, o, a);
    case LaunchBody(b) => RestoringLaunchWork(c, db, id, b, epoch, o, a);
    case _ =>
  }

  lemma RestoringWork(c: Config, db: DB, f: FindingKey, body: Body, o: Id, a: Id)
    requires Recovery.Restore(c, db, f, body).Ok?
    ensures RestoredWork(db, Recovery.Restore(c, db, f, body).value, o, a)
  {
    hide Recovery.RestoreBody;
    if f.run in db.recovery.runs {
      var epoch := db.recovery.runs[f.run].epoch;
      if Recovery.RestoreBody(c, db, f.key.id, body, epoch).Ok? {
        RestoringBodyWork(c, db, f.key.id, body, epoch, o, a);
      }
    }
  }

  lemma DisposingFinance(db: DB, req: Recovery.DispositionRequest, bound: bool, o: Id)
    requires Recovery.Dispose(db, req, bound).Ok?
    ensures FinanceOnly(db, Recovery.Dispose(db, req, bound).value, o, false)
  {
    hide Admission.ConfirmNotSent, Effects.ObserveOutcome, Effects.ConfirmRecordNotSent;
    if Admission.ConfirmNotSent(db, req.key.id, req.evidence, Some(req.epoch)).Ok? {
      NotSentFinance(db, req.key.id, req.evidence, Some(req.epoch), o);
    }
  }

  // ---------- every transaction ----------

  lemma StepOfWork(c: Config, db: DB, tx: Tx, o: Id, a: Id)
    ensures OperationStep(db, Apply(c, db, tx), tx, o)
    ensures AttemptStep(c, db, Apply(c, db, tx), tx, a)
  {
    hide AdmissionStep, EffectStep, Releases.Record, GrantStep, ExecutionStep, Execution.CloseAttempt, ControlStep,
      FinanceStep, RunStep, Recovery.Restore, Recovery.Dispose, SendersActing, HasOpenAttempt;
    if Step(c, db, tx).Ok? {
      match tx
      case Admitting(t) => AdmittingFinance(c, db, t, o);
      case Executing(t) => ExecutingWork(c, db, t, o, a);
      case Closing(_, _, _, _, _) => ClosingOperation(c, db, tx, o); ClosingAttempt(c, db, tx, a);
      case Controlling(t) => ControllingWork(c, db, t, o);
      case Financing(t) => FinancingWork(db, t, o);
      case Recovering(t) => RunningWork(db, t, o);
      case Restoring(f, body) => RestoringWork(c, db, f, body, o, a);
      case Disposing(req, bound) => DisposingFinance(db, req, bound, o);
      case _ =>
    }
  }
}
