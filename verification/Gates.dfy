/** The gates of execution as conditions on the rows: what opens an attempt, prepares and
    confirms its launch, records its verdict, grants an execution permit and moves the
    control of an operation; and the pools they keep, over every run
    (internal/application/execution.go:68-501,
    internal/application/generation.go:138-222, internal/application/operations.go:433-540,
    internal/domain/generation.go:166-250). */
module Gates {
  import opened Values
  import opened Budget
  import opened Records
  import opened Database
  import opened Transactions
  import opened Rules
  import Admission
  import DispatchSteps
  import Effects
  import Execution
  import Recovery
  import Releases
  import WorkSteps

  // ---------- intake, rounds and leases ----------

  /** A new operation as it was asked for. */
  predicate Accepted(op: Operation, bind: OperationBinding, definition: Option<Name>) {
    && op.bind == bind && op.definition == definition && op.lifecycle == LifecycleAccepted
    && op.control == ControlNone && op.cleanup == CleanupNotRequired && op.finance == FinanceNotFunded
    && !op.intakeConfirmed && op.activeDeadline.None? && op.lease.state == LeaseNone
    && op.executionEpoch == op.recoveryEpoch == op.revision == 1
  }

  /** An operation is accepted if and only if no recovery closes its tenant. */
  lemma SubmitsExactly(db: DB, o: Id, bind: OperationBinding, definition: Option<Name>)
    requires o !in db.work.operations
    ensures var r := Execution.Submit(db, o, bind, definition);
            && (r.Ok? <==> Open(db, bind.tenant))
            && (r.Ok? ==> o in r.value.work.operations && Accepted(r.value.work.operations[o], bind, definition))
  {
    assert Open(db, bind.tenant) <==> !AdmissionClosed(db, bind.tenant);
  }

  /** A preparation that may work asks and waits; its answer lets it run on, unless it
      ended or is controlled. */
  lemma RoundsExactly(db: DB, o: Id, tenant: Name)
    requires o in db.work.operations && db.work.operations[o].bind.tenant == tenant
    ensures var op := db.work.operations[o];
            var asked, answered := Execution.AskQuestions(db, o, tenant), Execution.SubmitAnswer(db, o, tenant);
            && (asked.Ok? <==> op.bind.kind == KindPreparation && Open(db, tenant) && Working(op) && op.intakeConfirmed)
            && (asked.Ok? ==> Moves(db, asked.value, o, LifecycleWaiting))
            && (answered.Ok? <==>
                  op.control == ControlNone
                  && op.lifecycle !in {LifecycleSucceeded, LifecycleFailed, LifecycleCanceled})
            && (answered.Ok? ==> Moves(db, answered.value, o, LifecycleRunning))
  {
    assert Open(db, tenant) <==> !AdmissionClosed(db, tenant);
  }

  /** Only the lifecycle and the revision change. */
  predicate Moves(db: DB, next: DB, o: Id, l: Lifecycle) {
    && o in db.work.operations && o in next.work.operations
    && next.work.operations[o] ==
       db.work.operations[o].(lifecycle := l, revision := next.work.operations[o].revision)
  }

  /** A new report about a lease that was not lost is taken as it says; one about a lost
      lease never brings it back. */
  lemma LeaseReported(c: Config, db: DB, o: Id, tenant: Name, report: Execution.LeaseReport)
    requires o in db.work.operations && db.work.operations[o].lease.occurrence < report.occurrence
    requires Execution.RecordLease(c, db, o, tenant, report).Ok?
    ensures var next := Execution.RecordLease(c, db, o, tenant, report).value;
            && o in next.work.operations
            && var a, b := db.work.operations[o].lease, next.work.operations[o].lease;
               && b.occurrence == report.occurrence
               && b.state == (if a.state == LeaseLost then LeaseLost else report.state)
               && (b.state == LeaseHeld ==> b.id == report.id && b.id.Some? && b.fence == report.fence)
  {
  }

  // ---------- attempts ----------

  /** No call of the operation is held and no mutation of it may have been sent. */
  predicate Idle(db: DB, o: Id) {
    && (forall d | d in db.ledger.dispatches && db.ledger.dispatches[d].bind.operation == o ::
          db.ledger.dispatches[d].state in {DispatchObserved, DispatchConfirmedNotSent, DispatchDenied})
    && (forall e | e in db.guarded.effects && db.guarded.effects[e].bind.operation == o ::
          db.guarded.effects[e].state !in {EffectPermitted, EffectUnknown})
  }

  /** An operation of several steps is idle between them; in a pool it holds its permit, its
      funding and its lease. */
  predicate BetweenSteps(c: Config, db: DB, o: Id, now: Time)
    requires o in db.work.operations
  {
    var op := db.work.operations[o];
    var profile := c.ProfileOf(op);
    profile.multiStep ==>
      && op.finance != FinanceExposureUnknown && Idle(db, o)
      && (profile.queuePool.Some? ==>
            && PermitKey(profile.queuePool.value, o) in db.control.permits
            && db.control.permits[PermitKey(profile.queuePool.value, o)].active
            && o in db.control.funded && Leased(c, op, now))
  }

  predicate MayOpen(c: Config, db: DB, o: Id, tenant: Name, now: Time) {
    && o in db.work.operations
    && var op := db.work.operations[o];
       && op.bind.tenant == tenant && Open(db, tenant) && Working(op) && op.intakeConfirmed && now < Ends(op)
       && BetweenSteps(c, db, o, now)
  }

  /** Its deadline is the operation's, or earlier by the window of its profile. */
  predicate Timed(c: Config, op: Operation, deadline: Time, now: Time) {
    && deadline <= Ends(op)
    && match c.ProfileOf(op).attemptWindow
       case Some(window) =>
         (window > 0 ==> deadline <= now + window)
         && (deadline == Ends(op) || (window > 0 && deadline == now + window))
       case None => deadline == Ends(op)
  }

  lemma IdleExactly(db: DB, o: Id)
    ensures Idle(db, o) <==> !SendersActing(db, o)
  {
    if !SendersActing(db, o) {
      forall d | d in db.ledger.dispatches && db.ledger.dispatches[d].bind.operation == o
        ensures db.ledger.dispatches[d].state in {DispatchObserved, DispatchConfirmedNotSent, DispatchDenied}
      {
        assert !HeldRow(db, o, d);
      }
      forall e | e in db.guarded.effects && db.guarded.effects[e].bind.operation == o
        ensures db.guarded.effects[e].state !in {EffectPermitted, EffectUnknown}
      {
        assert !UnresolvedEffectRow(db, o, e);
      }
    }
  }

  /** An attempt is opened if and only if its gate is passed, under the current epoch and
      within its window, and its operation runs. */
  lemma OpensExactly(c: Config, db: DB, a: Id, o: Id, tenant: Name, profile: Option<Name>, now: Time)
    requires a !in db.work.attempts
    ensures Execution.OpenAttempt(c, db, a, o, tenant, profile, now).Ok? <==> MayOpen(c, db, o, tenant, now)
    ensures MayOpen(c, db, o, tenant, now) ==>
              Opened(c, db, Execution.OpenAttempt(c, db, a, o, tenant, profile, now).value, a, o, tenant, profile, now)
  {
    hide SendersActing, Idle;
    IdleExactly(db, o);
    assert Open(db, tenant) <==> !AdmissionClosed(db, tenant);
  }

  predicate Opened(c: Config, db: DB, next: DB, a: Id, o: Id, tenant: Name, profile: Option<Name>, now: Time) {
    && o in db.work.operations && o in next.work.operations && a in next.work.attempts
    && next.work.operations[o].lifecycle == LifecycleRunning
    && var at, op := next.work.attempts[a], db.work.operations[o];
       && at.bind.operation == o && at.bind.tenant == tenant && at.bind.profile == profile
       && at.bind.epoch == op.executionEpoch && Timed(c, op, at.bind.deadline, now)
       && at.state == AttemptOpen && at.outcome.None? && at.cleanup.None?
  }

  // ---------- launches ----------

  predicate MayLaunch(db: DB, a: Id, tenant: Name, deadline: Time, now: Time) {
    && a in db.work.attempts && db.work.attempts[a].bind.tenant == tenant
    && db.work.attempts[a].bind.operation in db.work.operations
    && var at := db.work.attempts[a];
       var op := db.work.operations[at.bind.operation];
       && Open(db, op.bind.tenant) && Working(op) && at.bind.epoch == op.executionEpoch
       && at.state in {AttemptOpen, AttemptLaunchPrepared} && now < at.bind.deadline && now < deadline
  }

  /** The obligation of the launch, bounded by the attempt's deadline; until its cleanup is
      proved the operation waits for it. */
  predicate LaunchRecorded(db: DB, next: DB, l: Id, a: Id, tenant: Name, deadline: Time, now: Time) {
    && l in next.work.launches && a in db.work.attempts && a in next.work.attempts
    && next.work.launches[l].inventory == InventoryPending
    && var at, b := db.work.attempts[a], next.work.launches[l].bind;
       && b.attempt == a && b.operation == at.bind.operation && b.tenant == tenant && b.profile == at.bind.profile
       && b.epoch == at.bind.epoch && b.createdAt == now
       && b.deadline <= deadline && b.deadline <= at.bind.deadline
       && (b.deadline == deadline || b.deadline == at.bind.deadline)
       && next.work.attempts[a] == at.(state := AttemptLaunchPrepared)
       && at.bind.operation in next.work.operations
       && next.work.operations[at.bind.operation].cleanup == CleanupPending
  }

  lemma LaunchesExactly(db: DB, l: Id, a: Id, tenant: Name, deadline: Time, now: Time)
    requires l !in db.work.launches
    ensures Execution.PrepareLaunch(db, l, a, tenant, deadline, now).Ok? <==> MayLaunch(db, a, tenant, deadline, now)
    ensures MayLaunch(db, a, tenant, deadline, now) ==>
              LaunchRecorded(db, Execution.PrepareLaunch(db, l, a, tenant, deadline, now).value, l, a, tenant, deadline,
                             now)
  {
    if a in db.work.attempts && db.work.attempts[a].bind.operation in db.work.operations {
      var t := db.work.operations[db.work.attempts[a].bind.operation].bind.tenant;
      assert Open(db, t) <==> !AdmissionClosed(db, t);
    }
  }

  predicate MayConfirm(db: DB, l: Id, tenant: Name, now: Time) {
    && l in db.work.launches && db.work.launches[l].bind.attempt in db.work.attempts
    && var b := db.work.launches[l].bind;
       var at := db.work.attempts[b.attempt];
       && at.bind.tenant == tenant && at.bind.operation in db.work.operations
       && var op := db.work.operations[at.bind.operation];
          && Working(op) && b.epoch == op.executionEpoch == at.bind.epoch
          && at.state in {AttemptOpen, AttemptLaunchPrepared} && now < b.deadline && now < at.bind.deadline
  }

  /** A published launch is confirmed if and only if its rules still hold. */
  lemma ConfirmsExactly(db: DB, l: Id, tenant: Name, now: Time)
    requires l in db.work.launches && db.work.launches[l].inventory != InventoryConfirmed
    ensures Execution.ConfirmLaunch(db, l, tenant, now).Ok? <==> MayConfirm(db, l, tenant, now)
    ensures MayConfirm(db, l, tenant, now) ==>
              Execution.ConfirmLaunch(db, l, tenant, now).value.work == db.work.(
                  launches := db.work.launches[l := db.work.launches[l].(inventory := InventoryConfirmed)])
  {
  }

  // ---------- instances ----------

  predicate CurrentOf(db: DB, a: Id, i: Id) {
    i in db.work.instances && db.work.instances[i] == Instance(a, true)
  }

  /** At most one instance of an attempt is current. */
  ghost predicate OneCurrent(db: DB, a: Id) { forall i, j :: CurrentOf(db, a, i) && CurrentOf(db, a, j) ==> i == j }

  lemma RegisteringKeepsOne(db: DB, i: Id, l: Id, tenant: Name, a: Id)
    requires Execution.RegisterInstance(db, i, l, tenant).Ok? && OneCurrent(db, a)
    ensures OneCurrent(Execution.RegisterInstance(db, i, l, tenant).value, a)
  {
    var next := Execution.RegisterInstance(db, i, l, tenant).value;
    forall x, y | CurrentOf(next, a, x) && CurrentOf(next, a, y)
      ensures x == y
    {
      assert x != i ==> CurrentOf(db, a, x);
      assert y != i ==> CurrentOf(db, a, y);
    }
  }

  lemma ExecutingKeepsOne(c: Config, db: DB, t: ExecutionTx, a: Id)
    requires ExecutionStep(c, db, t).Ok? && OneCurrent(db, a)
    ensures OneCurrent(ExecutionStep(c, db, t).value, a)
  {
    hide Execution.RegisterInstance, OneCurrent, Execution.BootstrapGate, SendersActing, AdmissionClosed;
    var next := ExecutionStep(c, db, t).value;
    if t.RegisterInstance? {
      RegisteringKeepsOne(db, t.i, t.l, t.tenant, a);
    } else {
      SameInstances(db, next, a);
    }
  }

  lemma SameInstances(db: DB, next: DB, a: Id)
    requires OneCurrent(db, a) && next.work.instances == db.work.instances
    ensures OneCurrent(next, a)
  {
    assert forall i :: CurrentOf(next, a, i) == CurrentOf(db, a, i);
  }

  lemma RestoringKeepsInstances(c: Config, db: DB, f: FindingKey, body: Body)
    requires Recovery.Restore(c, db, f, body).Ok?
    ensures Recovery.Restore(c, db, f, body).value.work.instances == db.work.instances
  {
    hide Recovery.RestoredOperation, MoveBudget, Admission.InsertDispatch, Effects.InsertEffect;
  }

  lemma OneCurrentStep(c: Config, db: DB, tx: Tx, a: Id)
    requires OneCurrent(db, a)
    ensures OneCurrent(Apply(c, db, tx), a)
  {
    hide AdmissionStep, EffectStep, Releases.Record, GrantStep, ExecutionStep, Execution.CloseAttempt, ControlStep,
      FinanceStep, Recovery.RecordEach, Recovery.AllComplete, Recovery.RecoveryInProgress, Recovery.Restore,
      Recovery.Dispose, OneCurrent;
    if tx.Executing? && ExecutionStep(c, db, tx.execution).Ok? {
      ExecutingKeepsOne(c, db, tx.execution, a);
    } else {
      if tx.Restoring? && Recovery.Restore(c, db, tx.f, tx.body).Ok? { RestoringKeepsInstances(c, db, tx.f, tx.body); }
      SameInstances(db, Apply(c, db, tx), a);
    }
  }

  /** In every run, an attempt has one current instance at most. */
  lemma {:induction false} OneCurrentAlways(c: Config, run: Run, a: Id)
    ensures OneCurrent(After(c, run), a)
  {
    hide Apply, OneCurrent;
    if run.Then? {
      OneCurrentAlways(c, run.prior, a);
      OneCurrentStep(c, After(c, run.prior), run.tx, a);
    } else {
      NoInstances(a);
    }
  }

  lemma NoInstances(a: Id)
    ensures OneCurrent(Empty, a)
  {
  }

  predicate LaunchOf(db: DB, l: Id, tenant: Name) {
    && l in db.work.launches && db.work.launches[l].bind.attempt in db.work.attempts
    && var at := db.work.attempts[db.work.launches[l].bind.attempt];
       at.bind.tenant == tenant && at.bind.operation in db.work.operations
  }

  /** An instance registers once its launch is confirmed; the first of its attempt is
      current and starts it, unless the attempt is closed. */
  lemma RegistersExactly(db: DB, i: Id, l: Id, tenant: Name)
    requires LaunchOf(db, l, tenant) && i !in db.work.instances
    ensures var r := Execution.RegisterInstance(db, i, l, tenant);
            && (r.Ok? <==> db.work.launches[l].inventory == InventoryConfirmed)
            && (r.Ok? ==> Registered(db, r.value, i, db.work.launches[l].bind.attempt))
  {
  }

  predicate Registered(db: DB, next: DB, i: Id, a: Id) {
    && i in next.work.instances && next.work.instances[i].attempt == a
    && (next.work.instances[i].current <==> forall j | j in db.work.instances :: !CurrentOf(db, a, j))
    && a in db.work.attempts && a in next.work.attempts
    && next.work.attempts[a].state ==
       (if next.work.instances[i].current && db.work.attempts[a].state != AttemptClosed then AttemptRunning
        else db.work.attempts[a].state)
  }

  // ---------- verdicts ----------

  /** A result is due from the current instance of a running attempt, in time, under the
      operation's epoch and its observer's; an operation held or canceled meanwhile still
      takes it, one that ended, reconciles or lost its lease does not. */
  predicate MayAccept(db: DB, a: Id, i: Id, tenant: Name, observer: Option<nat>, now: Time) {
    && a in db.work.attempts && db.work.attempts[a].bind.tenant == tenant
    && db.work.attempts[a].bind.operation in db.work.operations && CurrentOf(db, a, i)
    && var at := db.work.attempts[a];
       var op := db.work.operations[at.bind.operation];
       && at.bind.epoch == op.executionEpoch && (observer.Some? ==> observer.value == op.executionEpoch)
       && (op.control != ControlNone || Working(op))
       && at.state in {AttemptRunning, AttemptLaunchPrepared} && now <= at.bind.deadline
  }

  /** A verdict is recorded if and only if it is due; it is recorded once. */
  lemma AcceptsExactly(db: DB, a: Id, i: Id, tenant: Name, verdict: Verdict, observer: Option<nat>, now: Time)
    requires a !in db.work.stages
    ensures var r := Execution.AcceptResult(db, a, i, tenant, verdict, observer, now);
            && (r.Ok? <==> MayAccept(db, a, i, tenant, observer, now))
            && (r.Ok? ==>
                  && r.value.work.stages == db.work.stages[a := verdict]
                  && a in r.value.work.attempts && r.value.work.attempts[a].state == AttemptResultAccepted)
  {
  }

  lemma AcceptedStands(db: DB, a: Id, i: Id, tenant: Name, verdict: Verdict, observer: Option<nat>, now: Time)
    requires a in db.work.stages
    ensures var r := Execution.AcceptResult(db, a, i, tenant, verdict, observer, now);
            r.Ok? ==> r.value == db && db.work.stages[a] == verdict
  {
  }

  // ---------- execution permits ----------

  predicate Pooled(c: Config, op: Operation, pool: Name) {
    && op.bind.profile.Some? && op.bind.profile.value in c.profiles
    && c.profiles[op.bind.profile.value].queuePool == Some(pool)
  }

  /** A generation or refinement of an open tenant asks in time under its current brief. */
  predicate MayRun(c: Config, db: DB, o: Id, tenant: Name, brief: bool, now: Time) {
    && o in db.work.operations
    && var op := db.work.operations[o];
       && op.bind.tenant == tenant && Open(db, tenant) && brief && op.bind.kind in {KindGeneration, KindRefinement}
       && Working(op) && op.intakeConfirmed && now < op.bind.deadline
  }

  predicate Permitted(db: DB, pool: Name, o: Id) {
    PermitKey(pool, o) in db.control.permits && db.control.permits[PermitKey(pool, o)].active
  }

  /** A permit that was not there is granted if and only if its operation may run and the
      pool, less what is kept for control, has room. */
  lemma GrantsExactly(c: Config, db: DB, o: Id, tenant: Name, brief: bool, now: Time, pool: Name)
    requires o in db.work.operations && Pooled(c, db.work.operations[o], pool) && pool in c.resources
    requires !Permitted(db, pool, o)
    ensures var r := Execution.RequestPermit(c, db, o, tenant, brief, now);
            && (r.Ok? <==> MayRun(c, db, o, tenant, brief, now))
            && (r.Ok? ==>
                  && (Permitted(r.value, pool, o) <==> HasRoom(c, db, pool))
                  && (HasRoom(c, db, pool) ==>
                        && r.value.control.permits == db.control.permits[PermitKey(pool, o) :=
                             Permit(true, db.work.operations[o].executionEpoch, now)]
                        && Started(c, db, r.value, o, now))
                  && (!HasRoom(c, db, pool) ==> r.value == db))
  {
    assert Open(db, tenant) <==> !AdmissionClosed(db, tenant);
  }

  /** The operation runs; its active deadline is set with its first permit. */
  predicate Started(c: Config, db: DB, next: DB, o: Id, now: Time) {
    && o in db.work.operations && o in next.work.operations
    && next.work.operations[o].lifecycle == LifecycleRunning
    && next.work.operations[o].activeDeadline ==
       match db.work.operations[o].activeDeadline
       case Some(t) => Some(t)
       case None => Some(now + c.ProfileOf(db.work.operations[o]).activeWindow)
  }

  predicate HasRoom(c: Config, db: DB, pool: Name)
    requires pool in c.resources
  {
    |set k | k in db.control.permits && k.pool == pool && db.control.permits[k].active|
    < c.resources[pool].capacity - c.resources[pool].reservedControl
  }

  // ---------- control ----------

  /** Nothing of the operation acts or may have acted: no attempt is open, no call or
      mutation is, and nothing of it is unknown. */
  predicate Quiescent(db: DB, o: Id) {
    && o in db.work.operations && Idle(db, o)
    && (forall a | a in db.work.attempts && db.work.attempts[a].bind.operation == o ::
          db.work.attempts[a].state == AttemptClosed)
    && db.work.operations[o].lifecycle != LifecycleReconciling && db.work.operations[o].cleanup != CleanupUnknown
    && db.work.operations[o].finance != FinanceExposureUnknown
  }

  lemma QuiescentExactly(db: DB, o: Id)
    requires o in db.work.operations
    ensures Quiescent(db, o) <==>
            db.work.operations[o].SendersQuiescent(HasOpenAttempt(db, o) || SendersActing(db, o))
  {
    hide SendersActing, Idle;
    IdleExactly(db, o);
    if !HasOpenAttempt(db, o) {
      forall a | a in db.work.attempts && db.work.attempts[a].bind.operation == o
        ensures db.work.attempts[a].state == AttemptClosed
      {
        assert !OpenAttemptRow(db, o, a);
      }
    }
  }

  /** The operation runs on and no cancel was asked for. */
  predicate Cancelable(db: DB, o: Id, tenant: Name) {
    && o in db.work.operations && db.work.operations[o].bind.tenant == tenant
    && db.work.operations[o].lifecycle !in {LifecycleSucceeded, LifecycleFailed, LifecycleCanceled}
    && db.work.operations[o].control !in {ControlCancelPending, ControlCancelApplied}
  }

  /** A cancel ends a quiescent operation at once and fences any other. */
  lemma CancelsExactly(db: DB, o: Id, tenant: Name, expected: nat)
    requires Cancelable(db, o, tenant)
    ensures var r := Execution.SubmitCancel(db, o, tenant, expected);
            && (r.Ok? <==> expected == db.work.operations[o].revision)
            && (r.Ok? ==> CanceledAs(db, r.value, o))
  {
    hide SendersActing, HasOpenAttempt, Execution.SettleTerminal, Quiescent;
    QuiescentExactly(db, o);
  }

  predicate CanceledAs(db: DB, next: DB, o: Id) {
    && o in db.work.operations && o in next.work.operations
    && var a, b := db.work.operations[o], next.work.operations[o];
       if Quiescent(db, o) then b.lifecycle == LifecycleCanceled && b.control == ControlCancelApplied
       else b.lifecycle == a.lifecycle && b.control == ControlCancelPending && b.cleanup == a.cleanup
  }

  /** The command is sent on to the Workflow: the profile takes commands, the operation
      runs, and it is not yet what the command asks for. */
  predicate SentOn(profile: Profile, op: Operation, kind: CommandKind, target: Option<Name>, now: Time) {
    && profile.supportsControl && op.lifecycle !in {LifecycleSucceeded, LifecycleFailed, LifecycleCanceled}
    && op.lifecycle != LifecycleReconciling && op.control !in {ControlCancelPending, ControlCancelApplied}
    && match kind
       case CommandHold => op.control == ControlNone
       case CommandResume => op.control == ControlHoldApplied && op.lease.state != LeaseLost && now < Ends(op)
       case CommandChangeDefinition =>
         op.control != ControlHoldPending && target.Some? && target.value in profile.definitions
         && target != op.definition
  }

  predicate NewCommand(db: DB, k: CommandKey, o: Id, expected: nat) {
    && k !in db.control.commands && o in db.work.operations && db.work.operations[o].bind.tenant == k.tenant
    && db.work.operations[o].revision == expected
  }

  predicate Asked(db: DB, k: CommandKey, o: Id, kind: CommandKind, target: Option<Name>) {
    && k in db.control.commands
    && var command := db.control.commands[k];
       command.operation == o && command.kind == kind && command.target == target
  }

  predicate ControlIs(db: DB, o: Id, control: ControlState) {
    o in db.work.operations && db.work.operations[o].control == control
  }

  /** A new command is recorded; sent on it is pending, and a hold fences the operation
      before it is applied. */
  lemma SendsOnExactly(c: Config, db: DB, k: CommandKey, o: Id, kind: CommandKind, target: Option<Name>,
                       expected: nat, now: Time)
    requires NewCommand(db, k, o, expected)
    ensures var r := Execution.SubmitControl(c, db, k, o, kind, target, expected, now);
            var op := db.work.operations[o];
            var sent := SentOn(c.ProfileOf(op), op, kind, target, now);
            && r.Ok? && Asked(r.value, k, o, kind, target)
            && (sent ==> r.value.control.commands[k].outcome == OutcomePending)
            && (sent ==> ControlIs(r.value, o, if kind == CommandHold then ControlHoldPending else op.control))
            && (!sent ==> r.value.work == db.work)
  {
  }

  /** What a receipt for the command leaves of the operation. */
  predicate Obeys(a: Operation, b: Operation, command: Command, outcome: CommandOutcome) {
    var applied := outcome == OutcomeApplied;
    if a.lifecycle in {LifecycleSucceeded, LifecycleFailed, LifecycleCanceled}
       || a.control in {ControlCancelPending, ControlCancelApplied}
    then b == a.(revision := b.revision)
    else
      match command.kind
      case CommandHold =>
        b == if applied then a.(control := ControlHoldApplied, lifecycle := LifecycleSuspended, revision := b.revision)
             else a.(control := if a.control == ControlHoldPending then ControlNone else a.control,
                     revision := b.revision)
      case CommandResume =>
        b == if applied && a.control == ControlHoldApplied
             then a.(control := ControlNone, lifecycle := LifecycleRunning, revision := b.revision)
             else a.(revision := b.revision)
      case CommandChangeDefinition =>
        b == a.(definition := if applied then command.target else a.definition, revision := b.revision)
  }

  predicate AwaitsReceipt(db: DB, k: CommandKey) {
    && k in db.control.commands && db.control.commands[k].outcome == OutcomePending
    && db.control.commands[k].operation in db.work.operations
  }

  /** The first receipt of a pending command is recorded, as rejected when a fence came
      first, and moves the operation as the command asked. */
  lemma ReceiptObeyed(db: DB, k: CommandKey, outcome: CommandOutcome)
    requires AwaitsReceipt(db, k) && outcome != OutcomePending
    ensures var r := Execution.RecordCommandRelay(db, k, outcome);
            var command := db.control.commands[k];
            && r.Ok? && k in r.value.control.commands && r.value.control.commands[k].outcome != OutcomePending
            && command.operation in r.value.work.operations
            && var a, b := db.work.operations[command.operation], r.value.work.operations[command.operation];
               && Obeys(a, b, command, outcome)
               && (a.lifecycle in {LifecycleSucceeded, LifecycleFailed, LifecycleCanceled}
                   || a.control in {ControlCancelPending, ControlCancelApplied}
                   ==> r.value.control.commands[k].outcome == OutcomeRejected)
  {
  }

  // ---------- the execution pools: who holds a permit, how many may ----------


  /** The pool an operation of a multi-step profile queues in. */
  function PoolOf(c: Config, op: Operation): Option<Name> {
    if c.MultiStep(op) then c.ProfileOf(op).queuePool else None
  }

  predicate Queues(c: Config, db: DB, o: Id, pool: Name) {
    o in db.work.operations && PoolOf(c, db.work.operations[o]) == Some(pool)
  }

  /** An attempt that is not closed, or a dispatch that may still be sent or paid. */
  predicate Busy(db: DB, o: Id) { HasOpenAttempt(db, o) || HasUnsettledDispatch(db, o) }

  function Share(c: Config, pool: Name): nat {
    if pool in c.resources && c.resources[pool].capacity > c.resources[pool].reservedControl
    then c.resources[pool].capacity - c.resources[pool].reservedControl else 0
  }

  predicate ServedAt(c: Config, db: DB, o: Id) {
    && o in db.work.operations
    && var pool := PoolOf(c, db.work.operations[o]); (pool.Some? ==> HoldsPermit(db, pool.value, o))
  }

  /** Every busy operation of a pool holds its permit. */
  ghost predicate Served(c: Config, db: DB) {
    forall o | Busy(db, o) :: ServedAt(c, db, o)
  }

  ghost predicate WithinShares(c: Config, db: DB) {
    forall pool :: |ActivePermits(db, pool)| <= Share(c, pool)
  }

  // ---------- permits ----------

  predicate Quits(db: DB, o: Id) { !HasOpenAttempt(db, o) && !SendersActing(db, o) }

  /** A permit is granted only into the pool's share, and released only by a quiet
      operation. */
  predicate PermitStep(c: Config, db: DB, next: DB, tx: Tx, k: PermitKey) {
    && (HoldsPermit(db, k.pool, k.operation) ==> HoldsPermit(next, k.pool, k.operation) || Quits(next, k.operation))
    && (!HoldsPermit(db, k.pool, k.operation) && HoldsPermit(next, k.pool, k.operation) ==>
          && tx.Controlling? && tx.control.RequestPermit? && tx.control.o == k.operation
          && |ActivePermits(db, k.pool)| < Share(c, k.pool)
          && k.operation in db.work.operations && c.ProfileOf(db.work.operations[k.operation]).queuePool
              == Some(k.pool))
  }

  predicate Kept(db: DB, next: DB, k: PermitKey) {
    && (HoldsPermit(db, k.pool, k.operation) ==> HoldsPermit(next, k.pool, k.operation) || Quits(next, k.operation))
    && (HoldsPermit(next, k.pool, k.operation) ==> HoldsPermit(db, k.pool, k.operation))
  }

  lemma ReleasedQuiet(db: DB, o: Id, k: PermitKey)
    requires o in db.work.operations
    ensures Kept(db, Execution.SettleTerminal(db, o), k)
  {
    hide HasOpenAttempt, SendersActing, Execution.SettleTerminal;
    WorkSteps.SameQuiet(db, Execution.SettleTerminal(db, o), k.operation);
  }

  lemma SettlePermits(c: Config, db: DB, o: Id, tenant: Name, intent: SettlementIntent, k: PermitKey)
    requires Execution.Settle(c, db, o, tenant, intent).Ok?
    ensures Kept(db, Execution.Settle(c, db, o, tenant, intent).value, k)
  {
    hide HasOpenAttempt, SendersActing, HasUnknownAttempt, Execution.SettleTerminal, Execution.SettleOutcome;
    var op := db.work.operations[o];
    var settled := Execution.SettleOutcome(op, intent.outcome);
    ReleasedQuiet(db, o, k);
    if settled.Ok? {
      var stored := db.(control := db.control.(settlements := db.control.settlements[o := intent]));
      ReleasedQuiet(PutOperation(stored, o, settled.value.Transition()), o, k);
    }
  }

  lemma SweepPermits(c: Config, db: DB, o: Id, k: PermitKey)
    requires Execution.SettleFromIntent(c, db, o).Ok?
    ensures Kept(db, Execution.SettleFromIntent(c, db, o).value, k)
  {
    hide HasOpenAttempt, SendersActing, HasUnknownAttempt, Execution.SettleTerminal, Execution.SettleOutcome;
    if o in db.control.settlements {
      var settled := Execution.SettleOutcome(db.work.operations[o], db.control.settlements[o].outcome);
      if settled.Ok? {
        ReleasedQuiet(PutOperation(db, o, settled.value.Transition()), o, k);
      }
    }
  }

  lemma CancelPermits(db: DB, o: Id, tenant: Name, expected: nat, k: PermitKey)
    requires Execution.SubmitCancel(db, o, tenant, expected).Ok?
    ensures Kept(db, Execution.SubmitCancel(db, o, tenant, expected).value, k)
  {
    hide HasOpenAttempt, SendersActing, HasUnknownAttempt, Execution.SettleTerminal, Execution.ApplyCancelFence;
    var op := db.work.operations[o];
    var quiescent := op.SendersQuiescent(HasOpenAttempt(db, o) || SendersActing(db, o));
    ReleasedQuiet(PutOperation(db, o, Execution.ApplyCancelFence(op, quiescent).Transition()), o, k);
  }

  lemma ControllingPermits(c: Config, db: DB, t: ControlTx, k: PermitKey)
    requires ControlStep(c, db, t).Ok?
    ensures PermitStep(c, db, ControlStep(c, db, t).value, Controlling(t), k)
  {
    hide Execution.Settle, Execution.SettleFromIntent, Execution.SubmitCancel, HasOpenAttempt, SendersActing,
      ActivePermits, AdmissionClosed;
    match t
    case Settle(o, tenant, intent) => SettlePermits(c, db, o, tenant, intent, k);
    case SettleFromIntent(o) => SweepPermits(c, db, o, k);
    case SubmitCancel(o, tenant, expected) => CancelPermits(db, o, tenant, expected, k);
    case _ =>
  }

  lemma ClosingPermits(c: Config, db: DB, a: Id, tenant: Name, outcome: AttemptOutcome, cleanup: CleanupState,
                       listed: seq<Id>, k: PermitKey)
    requires Execution.CloseAttempt(c, db, a, tenant, outcome, cleanup, listed).Ok?
    ensures Kept(db, Execution.CloseAttempt(c, db, a, tenant, outcome, cleanup, listed).value, k)
  {
    hide HasOpenAttempt, SendersActing, HasUnknownAttempt, Execution.SettleTerminal, Execution.DenyEach,
      Execution.LeftByClose, Execution.ListsPrepared;
    var at := db.work.attempts[a];
    var o := at.bind.operation;
    var denied := Execution.DenyEach(db, o, listed);
    ReleasedQuiet(db, o, k);
    if denied.Ok? {
      var closed := at.(state := AttemptClosed, outcome := Some(outcome), cleanup := Some(cleanup));
      var written := denied.value.(work := denied.value.work.(attempts := db.work.attempts[a := closed]));
      ReleasedQuiet(PutOperation(written, o, Execution.LeftByClose(c, db, a, outcome, cleanup)), o, k);
    }
  }

  lemma StepOfPermit(c: Config, db: DB, tx: Tx, k: PermitKey)
    ensures PermitStep(c, db, Apply(c, db, tx), tx, k)
  {
    hide AdmissionStep, EffectStep, Releases.Record, GrantStep, ExecutionStep, Execution.CloseAttempt, ControlStep,
      FinanceStep, RunStep, Recovery.Restore, Recovery.Dispose, SendersActing, HasOpenAttempt, ActivePermits;
    if Step(c, db, tx).Ok? {
      match tx
      case Closing(a, tenant, outcome, cleanup, listed) =>
          ClosingPermits(c, db, a, tenant, outcome, cleanup, listed, k);
      case Controlling(t) => ControllingPermits(c, db, t, k);
      case _ =>
    }
  }

  // ---------- a busy operation holds its permit ----------

  lemma ServedStep(c: Config, db: DB, tx: Tx)
    requires Served(c, db) && Steady(db, tx)
    ensures Served(c, Apply(c, db, tx))
  {
    hide Apply, HasOpenAttempt, HasUnsettledDispatch;
    var next := Apply(c, db, tx);
    if tx.Restoring? {
      NothingRestored(c, db, tx.f, tx.body);
    } else {
      forall o | Busy(next, o)
        ensures ServedAt(c, next, o)
      {
        BusyWasServed(c, db, tx, o);
        WorkSteps.StepOfWork(c, db, tx, o, 0);
        if PoolOf(c, db.work.operations[o]).Some? {
          StepOfPermit(c, db, tx, PermitKey(PoolOf(c, db.work.operations[o]).value, o));
          BusyIsNotQuiet(next, o);
        }
      }
    }
  }

  lemma BusyIsNotQuiet(db: DB, o: Id)
    ensures Busy(db, o) ==> !Quits(db, o)
  {
  }

  /** Whatever keeps an operation busy after a step needed its permit before it. */
  lemma BusyWasServed(c: Config, db: DB, tx: Tx, o: Id)
    requires Served(c, db) && Steady(db, tx) && !tx.Restoring?
    ensures Busy(Apply(c, db, tx), o) ==> ServedAt(c, db, o)
  {
    hide Apply;
    var next := Apply(c, db, tx);
    if HasOpenAttempt(next, o) {
      var a :| a in next.work.attempts && OpenAttemptRow(next, o, a);
      WorkSteps.StepOfWork(c, db, tx, o, a);
      assert a in db.work.attempts ==> OpenAttemptRow(db, o, a) && Busy(db, o);
    } else if HasUnsettledDispatch(next, o) {
      var d :| d in next.ledger.dispatches && HeldRow(next, o, d);
      DispatchSteps.StepOfRow(c, db, tx, d);
      var b := next.ledger.dispatches[d].bind;
      if d in db.ledger.dispatches {
        assert HeldRow(db, o, d) && Busy(db, o);
      } else {
        assert OpenAttemptRow(db, o, b.attempt) && Busy(db, o);
      }
    }
  }

  /** In every run of a database that was never rolled back, an operation of a pooled
      multi-step profile with an attempt or a dispatch outstanding holds a permit. */
  lemma {:induction false} BusyHoldsPermit(c: Config, run: Run)
    requires SteadyRun(c, run)
    ensures Served(c, After(c, run))
  {
    hide Apply;
    if run.Then? {
      BusyHoldsPermit(c, run.prior);
      ServedStep(c, After(c, run.prior), run.tx);
    }
  }

  // ---------- and permits are few ----------

  lemma SubsetIsSmaller<T>(a: set<T>, b: set<T>)
    requires a <= b
    ensures |a| <= |b|
  {
    if a == b {
    } else {
      var x :| x in b && x !in a;
      assert b == {x} + (b - {x});
      SubsetIsSmaller(a, b - {x});
    }
  }

  /** A pool never has more active permits than its capacity minus what is reserved
      for control. */
  lemma SharesStep(c: Config, db: DB, tx: Tx)
    requires WithinShares(c, db)
    ensures WithinShares(c, Apply(c, db, tx))
  {
    hide Apply;
    var next := Apply(c, db, tx);
    forall pool
      ensures |ActivePermits(next, pool)| <= Share(c, pool)
    {
      var before, after := ActivePermits(db, pool), ActivePermits(next, pool);
      var granted := if tx.Controlling? && tx.control.RequestPermit? then {PermitKey(pool, tx.control.o)} else {};
      forall k | k in after
        ensures k in before + granted
      {
        StepOfPermit(c, db, tx, k);
      }
      if after <= before {
        SubsetIsSmaller(after, before);
      } else {
        var k :| k in after && k !in before;
        StepOfPermit(c, db, tx, k);
        SubsetIsSmaller(after, before + {k});
      }
    }
  }

  lemma {:induction false} SharesAlways(c: Config, run: Run)
    ensures WithinShares(c, After(c, run))
  {
    hide Apply;
    if run.Then? {
      SharesAlways(c, run.prior);
      SharesStep(c, After(c, run.prior), run.tx);
    } else {
      assert forall pool :: ActivePermits(Empty, pool) == {};
    }
  }

  function BusyIn(c: Config, db: DB, pool: Name): set<Id> {
    set o | o in db.work.operations && Queues(c, db, o, pool) && Busy(db, o)
  }

  lemma {:induction false} KeysOfOperations(s: set<Id>, keys: set<PermitKey>, pool: Name)
    requires forall o | o in s :: PermitKey(pool, o) in keys
    ensures |s| <= |keys|
    decreases s
  {
    if s != {} {
      var o :| o in s;
      KeysOfOperations(s - {o}, keys - {PermitKey(pool, o)}, pool);
    }
  }

  /** So the operations of a pool that have an attempt or a dispatch outstanding are
      never more than its capacity minus its reserve. */
  lemma BusyWithinCapacity(c: Config, run: Run, pool: Name)
    requires SteadyRun(c, run)
    ensures |BusyIn(c, After(c, run), pool)| <= Share(c, pool)
  {
    hide Apply, After;
    var db := After(c, run);
    BusyHoldsPermit(c, run);
    SharesAlways(c, run);
    assert forall o | o in BusyIn(c, db, pool) :: ServedAt(c, db, o);
    KeysOfOperations(BusyIn(c, db, pool), ActivePermits(db, pool), pool);
  }

  // ---------- the active deadline ----------

  predicate DeadlineKept(db: DB, next: DB, o: Id) {
    o in db.work.operations && db.work.operations[o].activeDeadline.Some? ==>
      o in next.work.operations && next.work.operations[o].activeDeadline == db.work.operations[o].activeDeadline
  }

  /** Once set, the active deadline never moves. */
  lemma {:induction false} DeadlineSetOnce(c: Config, earlier: Run, later: Run, o: Id)
    requires Within(earlier, later)
    ensures DeadlineKept(After(c, earlier), After(c, later), o)
  {
    hide Apply;
    if earlier != later {
      DeadlineSetOnce(c, earlier, later.prior, o);
      WorkSteps.StepOfWork(c, After(c, later.prior), later.tx, o, 0);
    }
  }
}
