/** Operations, attempts, control commands, execution permits and settlement
    (internal/application/execution.go, execution_settlement.go, operations.go,
    generation.go, preparation.go and the domain rules they apply). */
module Execution {
  import opened Values
  import opened Budget
  import opened Records
  import opened Database
  import opened Admission

  // ---------- intake ----------

  /** internal/domain/operation.go:356-389. */
  function NewOperation(bind: OperationBinding, definition: Option<Name>): Operation {
    Operation(bind, LifecycleAccepted, ControlNone, CleanupNotRequired, FinanceNotFunded, 1, 1, 1, false, None,
              NoLease, definition)
  }

  /** internal/application/operations.go:66-184. */
  function Submit(db: DB, o: Id, bind: OperationBinding, definition: Option<Name>): (r: Result<DB>)
    ensures r.Ok? ==> r.value == db.(work := db.work.(operations := r.value.work.operations))
  {
    if AdmissionClosed(db, bind.tenant) then Err(StaleExecution)
    else if o in db.work.operations then Err(DuplicateKey)
    else Ok(PutOperation(db, o, NewOperation(bind, definition)))
  }

  /** internal/application/operations.go:300-333, after the intake obligation was
      written. */
  function ConfirmIntake(db: DB, o: Id): (r: Result<DB>)
    ensures r.Ok? ==> r.value == db.(work := db.work.(operations := r.value.work.operations))
  {
    if o !in db.work.operations then Err(NotFound)
    else if db.work.operations[o].intakeConfirmed then Ok(db)
    else Ok(PutOperation(db, o, db.work.operations[o].(intakeConfirmed := true).Transition()))
  }

  // ---------- attempts ----------

  /** internal/application/execution.go:133-169. */
  function BootstrapGate(c: Config, db: DB, o: Id, now: Time): Check
    requires o in db.work.operations
  {
    var op := db.work.operations[o];
    var profile := c.ProfileOf(op);
    if !profile.multiStep then Pass
    else if op.finance == FinanceExposureUnknown || SendersActing(db, o) then Fail(EffectUncertain)
    else if profile.queuePool.None? then Pass
    else if !HoldsPermit(db, profile.queuePool.value, o) then Fail(StaleExecution)
    else if o !in db.control.funded then Fail(BudgetExhausted)
    else if !op.lease.Valid(now) then Fail(StaleExecution)
    else Pass
  }

  /** internal/application/execution.go:68-124, internal/domain/attempt.go:52-72. */
  function OpenAttempt(c: Config, db: DB, a: Id, o: Id, tenant: Name, profile: Option<Name>, now: Time): (r: Result<DB>)
    ensures r.Ok? ==>
        r.value == db.(work := db.work.(operations := r.value.work.operations, attempts := r.value.work.attempts))
  {
    if o !in db.work.operations || db.work.operations[o].bind.tenant != tenant then Err(NotFound)
    else
      var op := db.work.operations[o];
      if AdmissionClosed(db, tenant) then Err(StaleExecution)
      else if BootstrapGate(c, db, o, now).Fail? then Err(BootstrapGate(c, db, o, now).error)
      else if op.FencedForNewDispatch() || !op.intakeConfirmed || now >= op.EffectiveDeadline() then Err(StaleExecution)
      else if a in db.work.attempts then Err(DuplicateKey)
      else
        var window := c.ProfileOf(op).attemptWindow;
        var deadline := if window.Some? && window.value > 0 && now + window.value < op.EffectiveDeadline()
            then now + window.value else op.EffectiveDeadline();
        var at := Attempt(AttemptBinding(o, tenant, profile, op.executionEpoch, deadline), AttemptOpen, None, None);
        Ok(PutOperation(db.(work := db.work.(attempts := db.work.attempts[a := at])), o,
                        op.(lifecycle := LifecycleRunning).Transition()))
  }

  predicate AttemptOfTenant(db: DB, a: Id, tenant: Name) {
    a in db.work.attempts && db.work.attempts[a].bind.tenant == tenant
        && db.work.attempts[a].bind.operation in db.work.operations
  }

  /** internal/application/execution.go:208-269, internal/domain/attempt.go:106-135:
      the obligation is recorded, the cleanup becomes pending. */
  function PrepareLaunch(db: DB, l: Id, a: Id, tenant: Name, deadline: Time, now: Time): (r: Result<DB>)
    ensures r.Ok? ==> r.value == db.(work := r.value.work)
  {
    if !AttemptOfTenant(db, a, tenant) then Err(NotFound)
    else
      var at := db.work.attempts[a];
      var o := at.bind.operation;
      var op := db.work.operations[o];
      var bound := if deadline > at.bind.deadline then at.bind.deadline else deadline;
      if AdmissionClosed(db, op.bind.tenant) then Err(StaleExecution)
      else if op.FencedForNewDispatch() || (at.state != AttemptOpen && at.state != AttemptLaunchPrepared)
           || at.bind.epoch != op.executionEpoch || now >= at.bind.deadline || bound <= now then Err(StaleExecution)
      else if l in db.work.launches then Err(DuplicateKey)
      else
        var launch := Launch(LaunchBinding(a, o, tenant, at.bind.profile, op.executionEpoch, bound, now),
                             InventoryPending);
        Ok(PutOperation(db.(work := db.work.(launches := db.work.launches[l := launch],
                                             attempts := db.work.attempts[a := at.(state := AttemptLaunchPrepared)])),
                        o, op.(cleanup := CleanupPending).Transition()))
  }

  /** internal/application/execution.go:271-310: the launch rules run again before the
      confirmation. */
  function ConfirmLaunch(db: DB, l: Id, tenant: Name, now: Time): (r: Result<DB>)
    ensures r.Ok? ==> r.value == db.(work := r.value.work)
  {
    if l !in db.work.launches || !AttemptOfTenant(db, db.work.launches[l].bind.attempt, tenant) then Err(NotFound)
    else
      var launch := db.work.launches[l];
      var at := db.work.attempts[launch.bind.attempt];
      var op := db.work.operations[at.bind.operation];
      if launch.inventory == InventoryConfirmed then Ok(db)
      else if op.FencedForNewDispatch() || launch.bind.epoch != op.executionEpoch || at.bind.epoch != op.executionEpoch
           || (at.state != AttemptLaunchPrepared && at.state != AttemptOpen)
           || now >= launch.bind.deadline || now >= at.bind.deadline then Err(StaleExecution)
      else Ok(db.(work := db.work.(launches := db.work.launches[l := launch.(inventory := InventoryConfirmed)])))
  }

  /** internal/application/execution.go:319-373: evidence about a closed attempt is
      recorded and never reopens it. */
  function RegisterInstance(db: DB, i: Id, l: Id, tenant: Name): (r: Result<DB>)
    ensures r.Ok? ==> r.value == db.(work := r.value.work)
  {
    if l !in db.work.launches || !AttemptOfTenant(db, db.work.launches[l].bind.attempt, tenant) then Err(NotFound)
    else
      var a := db.work.launches[l].bind.attempt;
      var at := db.work.attempts[a];
      var current := !exists j | j in db.work.instances ::
          db.work.instances[j].attempt == a && db.work.instances[j].current;
      if db.work.launches[l].inventory != InventoryConfirmed then Err(StaleExecution)
      else if i in db.work.instances then Ok(db)
      else
        var registered := db.(work := db.work.(instances := db.work.instances[i := Instance(a, current)]));
        if current && !at.Closed() then
          var running := db.work.attempts[a := at.(state := AttemptRunning)];
          Ok(PutOperation(registered.(work := registered.work.(attempts := running)),
                          at.bind.operation, db.work.operations[at.bind.operation].Transition()))
        else Ok(registered)
  }

  /** internal/application/execution.go:421-501, internal/domain/attempt.go:222-259;
      the manifest was verified outside. */
  function AcceptResult(db: DB, a: Id, i: Id, tenant: Name, verdict: Verdict, observerEpoch: Option<nat>,
                        now: Time): (r: Result<DB>)
    ensures r.Ok? ==> r.value == db.(work := r.value.work)
  {
    if !AttemptOfTenant(db, a, tenant) || i !in db.work.instances then Err(NotFound)
    else
      var at := db.work.attempts[a];
      var op := db.work.operations[at.bind.operation];
      if a in db.work.stages then (if db.work.stages[a] == verdict then Ok(db) else Err(IdempotencyConflict))
      else if !db.work.instances[i].current || db.work.instances[i].attempt != a || at.bind.epoch != op.executionEpoch
           || (observerEpoch.Some? && observerEpoch.value != op.executionEpoch)
           || (op.FencedForNewDispatch() && op.control == ControlNone)
           || (at.state != AttemptRunning && at.state != AttemptLaunchPrepared)
           || now > at.bind.deadline then Err(StaleExecution)
      else
        Ok(PutOperation(db.(work := db.work.(stages := db.work.stages[a := verdict],
                                             attempts := db.work.attempts[a := at.(state := AttemptResultAccepted)])),
                        at.bind.operation, op.Transition()))
  }

  /** internal/domain/attempt.go:285-317: the operation an attempt close leaves. */
  function SettleClose(op: Operation, stage: Option<Verdict>, outcome: AttemptOutcome, cleanup: CleanupState,
                       multiStep: bool): Operation {
    var closed := op.(cleanup := cleanup);
    var cancelRequested := op.control.Cancel() || outcome == OutcomeCanceled;
    if outcome == OutcomeUnknown || cleanup == CleanupUnknown then
      closed.(lifecycle := LifecycleReconciling,
              control := if cancelRequested && op.control != ControlCancelApplied then ControlCancelPending
                  else op.control)
    else if multiStep && !cancelRequested then closed.(lifecycle := LifecycleRunning)
    else if cancelRequested then closed.(control := ControlCancelApplied, lifecycle := LifecycleCanceled)
    else if outcome == OutcomeCompleted && stage == Some(VerdictCertified) && cleanup == CleanupComplete then
      closed.(lifecycle := LifecycleSucceeded)
    else closed.(lifecycle := LifecycleFailed)
  }

  /** The rows a close denies, in the order the query answered them
      (internal/adapters/postgres/queries/dispatch.sql:135-137). */
  predicate PreparedRow(db: DB, a: Id, d: Id) {
    d in db.ledger.dispatches && db.ledger.dispatches[d].bind.attempt == a
        && db.ledger.dispatches[d].state == DispatchPrepared
  }

  predicate ListsPrepared(db: DB, a: Id, listed: seq<Id>) {
    && (forall i | 0 <= i < |listed| :: PreparedRow(db, a, listed[i]))
    && (forall i, j | 0 <= i < j < |listed| :: listed[i] != listed[j])
    && (forall d | d in db.ledger.dispatches :: PreparedRow(db, a, d) ==> d in listed)
  }

  /** internal/application/execution.go:627-647: each is denied, its reservation
      released. */
  function DenyEach(db: DB, o: Id, listed: seq<Id>): (r: Result<DB>)
    requires o in db.work.operations
    ensures r.Ok? ==>
        r.value == db.(ledger := r.value.ledger,
            money := db.money.(allocations := r.value.money.allocations, caps := r.value.money.caps))
    decreases |listed|
  {
    if listed == [] then Ok(db)
    else if listed[0] !in db.ledger.dispatches then Err(NotFound)
    else
      var denied :- Deny(db.ledger.dispatches[listed[0]], DenyAttemptClosed);
      var freed :- MoveBudget(db, o, ToRelease, db.ledger.dispatches[listed[0]].bind.reserved);
      DenyEach(UpdateDispatch(freed, listed[0], denied), o, listed[1..])
  }

  /** internal/application/execution_settlement.go:19-45. */
  function SettleTerminal(db: DB, o: Id): (r: DB)
    requires o in db.work.operations
    ensures r == db.(control := r.control)
    ensures r == db || (r == ReleasePermits(db, o) && !HasOpenAttempt(db, o) && !SendersActing(db, o))
  {
    var op := db.work.operations[o];
    if op.lifecycle.Terminal() && !HasOpenAttempt(db, o) && !SendersActing(db, o) && !HasUnknownAttempt(db, o, None)
       && op.cleanup != CleanupUnknown && op.finance != FinanceExposureUnknown
    then ReleasePermits(db, o)
    else db
  }

  /** The final word of a close: an obligation still open keeps the operation
      reconciling and an applied cancel pending
      (internal/application/execution.go:649-663). */
  function KeepReconciling(op: Operation, unresolved: bool, unknownAttempt: bool): Operation {
    var noted := if unknownAttempt then op.(cleanup := CleanupUnknown) else op;
    if unresolved || unknownAttempt then
      noted.(lifecycle := LifecycleReconciling,
             control := if noted.control == ControlCancelApplied then ControlCancelPending else noted.control)
    else noted
  }

  /** The operation a close leaves behind. */
  function LeftByClose(c: Config, db: DB, a: Id, outcome: AttemptOutcome, cleanup: CleanupState): Operation
    requires a in db.work.attempts && db.work.attempts[a].bind.operation in db.work.operations
  {
    var o := db.work.attempts[a].bind.operation;
    var op := db.work.operations[o];
    var stage := if a in db.work.stages then Some(db.work.stages[a]) else None;
    KeepReconciling(SettleClose(op, stage, outcome, cleanup, c.MultiStep(op)),
                    SendersActing(db, o) || op.finance == FinanceExposureUnknown,
                        HasUnknownAttempt(db, o, Some(a))).Transition()
  }

  /** internal/application/execution.go:583-684. */
  function CloseAttempt(c: Config, db: DB, a: Id, tenant: Name, outcome: AttemptOutcome, cleanup: CleanupState,
                        listed: seq<Id>): (r: Result<DB>)
    ensures r.Ok? ==>
        r.value == db.(ledger := r.value.ledger,
            money := db.money.(allocations := r.value.money.allocations, caps := r.value.money.caps),
            work := db.work.(operations := r.value.work.operations,
                                                      attempts := r.value.work.attempts), control := r.value.control)
  {
    if !AttemptOfTenant(db, a, tenant) then Err(NotFound)
    else
      var at := db.work.attempts[a];
      var o := at.bind.operation;
      var op := db.work.operations[o];
      var unresolved := SendersActing(db, o) || op.finance == FinanceExposureUnknown;
      var unknownAttempt := HasUnknownAttempt(db, o, Some(a));
      if at.Closed() && at.outcome != Some(outcome) then Err(IdempotencyConflict)
      else if at.Closed() && !at.CanSettleCleanup(outcome, cleanup)
           && !(op.lifecycle == LifecycleReconciling && !unresolved && !unknownAttempt && cleanup != CleanupUnknown
                && outcome != OutcomeUnknown)
      then Ok(SettleTerminal(db, o))
      else if !ListsPrepared(db, a, listed) then Err(Invalid)
      else
        var denied :- DenyEach(db, o, listed);
        var kept := LeftByClose(c, db, a, outcome, cleanup);
        var closed := at.(state := AttemptClosed, outcome := Some(outcome), cleanup := Some(cleanup));
        var written := PutOperation(denied.(work := denied.work.(attempts := db.work.attempts[a := closed])), o, kept);
        Ok(SettleTerminal(written, o))
  }

  // ---------- settlement ----------

  /** internal/application/execution_settlement.go:51-59. */
  predicate ObligationsOpen(db: DB, o: Id)
    requires o in db.work.operations
  {
    SendersActing(db, o) || HasUnknownAttempt(db, o, None)
    || db.work.operations[o].finance == FinanceExposureUnknown || db.work.operations[o].cleanup == CleanupUnknown
  }

  /** internal/domain/generation.go:265-290. */
  function SettleOutcome(op: Operation, outcome: OperationOutcome): Result<Operation> {
    if op.lifecycle.Terminal() then Ok(op)
    else if op.cleanup == CleanupUnknown then Err(StaleExecution)
    else if op.control.Cancel() || outcome == OperationCanceled then
      Ok(op.(control := ControlCancelApplied, lifecycle := LifecycleCanceled))
    else if outcome == OperationSucceeded then Ok(op.(lifecycle := LifecycleSucceeded))
    else Ok(op.(lifecycle := LifecycleFailed))
  }

  /** internal/application/execution_settlement.go:164-259. */
  function Settle(c: Config, db: DB, o: Id, tenant: Name, intent: SettlementIntent): (r: Result<DB>)
    ensures r.Ok? ==>
        r.value == db.(control := r.value.control, work := db.work.(operations := r.value.work.operations))
  {
    if o !in db.work.operations || db.work.operations[o].bind.tenant != tenant then Err(NotFound)
    else
      var op := db.work.operations[o];
      if !c.MultiStep(op) then Err(Invalid)
      else if op.lifecycle.Terminal() then Ok(SettleTerminal(db, o))
      else if HasOpenAttempt(db, o) then Err(StaleExecution)
      else if o in db.control.settlements && db.control.settlements[o] != intent then Err(IdempotencyConflict)
      else if o in db.control.settlements && ObligationsOpen(db, o) then Ok(db)
      else
        var stored := db.(control := db.control.(settlements := db.control.settlements[o := intent]));
        if ObligationsOpen(db, o) then
          var noted := if HasUnknownAttempt(db, o, None) then op.(cleanup := CleanupUnknown) else op;
          Ok(PutOperation(stored, o, noted.(lifecycle := LifecycleReconciling).Transition()))
        else
          var settled :- SettleOutcome(op, intent.outcome);
          Ok(SettleTerminal(PutOperation(stored, o, settled.Transition()), o))
  }

  /** internal/application/execution_settlement.go:69-119: the sweep re-applies the
      stored intent. */
  function SettleFromIntent(c: Config, db: DB, o: Id): (r: Result<DB>)
    ensures r.Ok? ==>
        r.value == db.(work := db.work.(operations := r.value.work.operations), control := r.value.control)
  {
    if o !in db.work.operations then Err(NotFound)
    else
      var op := db.work.operations[o];
      if op.lifecycle != LifecycleReconciling || !c.MultiStep(op) || o !in db.control.settlements
          || HasOpenAttempt(db, o)
         || ObligationsOpen(db, o) then Ok(db)
      else
        var settled :- SettleOutcome(op, db.control.settlements[o].outcome);
        Ok(SettleTerminal(PutOperation(db, o, settled.Transition()), o))
  }

  // ---------- control ----------

  /** internal/domain/operation.go:513-525. */
  function ApplyCancelFence(op: Operation, quiescent: bool): Operation {
    if quiescent then
      op.(control := ControlCancelApplied, lifecycle := LifecycleCanceled,
          cleanup := if op.cleanup == CleanupPending then CleanupComplete else op.cleanup)
    else op.(control := ControlCancelPending)
  }

  /** internal/application/operations.go:501-540, internal/domain/operation.go:493-509:
      a terminal or already canceled operation answers its state. */
  function SubmitCancel(db: DB, o: Id, tenant: Name, expected: nat): (r: Result<DB>)
    ensures r.Ok? ==>
        r.value == db.(work := db.work.(operations := r.value.work.operations), control := r.value.control)
  {
    if o !in db.work.operations || db.work.operations[o].bind.tenant != tenant then Err(NotFound)
    else
      var op := db.work.operations[o];
      if expected != op.revision then Err(RevisionConflict)
      else if op.lifecycle.Terminal() || op.control.Cancel() then Ok(db)
      else
        var quiescent := op.SendersQuiescent(HasOpenAttempt(db, o) || SendersActing(db, o));
        Ok(SettleTerminal(PutOperation(db, o, ApplyCancelFence(op, quiescent).Transition()), o))
  }

  datatype ControlDecision = ControlDecision(outcome: CommandOutcome, relay: bool)

  /** internal/domain/generation.go:166-218, after the revision check. */
  function DecideControl(profile: Profile, op: Operation, kind: CommandKind, target: Option<Name>,
                         now: Time): ControlDecision {
    if !profile.supportsControl || op.lifecycle.Terminal() || op.control.Cancel() then ControlDecision(OutcomeRejected,
        false)
    else if op.lifecycle == LifecycleReconciling then ControlDecision(OutcomeBlocked, false)
    else
      match kind
      case CommandHold =>
        if op.control == ControlHoldApplied then ControlDecision(OutcomeApplied, false)
        else if op.control == ControlHoldPending then ControlDecision(OutcomePending, false)
        else ControlDecision(OutcomePending, true)
      case CommandResume =>
        if op.control == ControlNone then ControlDecision(OutcomeRejected, false)
        else if op.control == ControlHoldPending then ControlDecision(OutcomeBlocked, false)
        else if op.lease.state == LeaseLost || now >= op.EffectiveDeadline() then ControlDecision(OutcomeRejected,
            false)
        else ControlDecision(OutcomePending, true)
      case CommandChangeDefinition =>
        if target.None? || target.value !in profile.definitions then ControlDecision(OutcomeRejected, false)
        else if target == op.definition then ControlDecision(OutcomeApplied, false)
        else if op.control == ControlHoldPending then ControlDecision(OutcomeBlocked, false)
        else ControlDecision(OutcomePending, true)
  }

  /** internal/application/operations.go:433-500. */
  function SubmitControl(c: Config, db: DB, k: CommandKey, o: Id, kind: CommandKind, target: Option<Name>,
                         expected: nat, now: Time): (r: Result<DB>)
    ensures r.Ok? ==>
        r.value == db.(control := r.value.control, work := db.work.(operations := r.value.work.operations))
  {
    if k in db.control.commands then (if db.control.commands[k].operation == o then Ok(db)
                                      else Err(IdempotencyConflict))
    else if o !in db.work.operations || db.work.operations[o].bind.tenant != k.tenant then Err(NotFound)
    else
      var op := db.work.operations[o];
      if expected != op.revision then Err(RevisionConflict)
      else
        var decision := DecideControl(c.ProfileOf(op), op, kind, target, now);
        var recorded := db.(control := db.control.(commands := db.control.commands[k := Command(o, kind, target,
            decision.outcome)]));
        if !decision.relay then Ok(recorded)
        else
          var fenced := if kind == CommandHold then op.(control := ControlHoldPending) else op;
          Ok(PutOperation(recorded, o, fenced.Transition()))
  }

  /** internal/domain/generation.go:225-250. */
  function ApplyControl(op: Operation, kind: CommandKind, outcome: CommandOutcome, target: Option<Name>): Operation {
    if op.lifecycle.Terminal() || op.control.Cancel() then op
    else
      match kind
      case CommandHold =>
        if outcome == OutcomeApplied then op.(control := ControlHoldApplied, lifecycle := LifecycleSuspended)
        else if op.control == ControlHoldPending then op.(control := ControlNone)
        else op
      case CommandResume =>
        if outcome == OutcomeApplied && op.control == ControlHoldApplied
        then op.(control := ControlNone, lifecycle := LifecycleRunning) else op
      case CommandChangeDefinition =>
        if outcome == OutcomeApplied then op.(definition := target) else op
  }

  /** internal/application/generation.go:347-391: a fence installed meanwhile rejects
      the receipt. */
  function RecordCommandRelay(db: DB, k: CommandKey, outcome: CommandOutcome): (r: Result<DB>)
    ensures r.Ok? ==>
        r.value == db.(control := r.value.control, work := db.work.(operations := r.value.work.operations))
  {
    if k !in db.control.commands || db.control.commands[k].operation !in db.work.operations then Err(NotFound)
    else
      var command := db.control.commands[k];
      var op := db.work.operations[command.operation];
      if command.outcome != OutcomePending then Ok(db)
      else if outcome == OutcomePending then Err(Invalid)
      else
        var answer := if op.lifecycle.Terminal() || op.control.Cancel() then OutcomeRejected else outcome;
        Ok(PutOperation(db.(control := db.control.(commands := db.control.commands[k := command.(outcome := answer)])),
                        command.operation,
                        ApplyControl(op, command.kind, answer, command.target).Transition()))
  }

  // ---------- admission into execution ----------

  datatype LeaseReport = LeaseReport(occurrence: nat, state: LeaseState, id: Option<Name>, fence: nat,
                                     expiresAt: Option<Time>)

  /** internal/domain/generation.go:113-148: the lease after a report, or the old one
      for a reentry. */
  function ReportLease(lease: Lease, r: LeaseReport): Result<Lease> {
    if r.occurrence == 0 then Err(Invalid)
    else if r.occurrence <= lease.occurrence then Ok(lease)
    else
      match r.state
      case LeaseHeld =>
        if lease.state == LeaseLost then Err(StaleExecution)
        else if r.id.None? || r.expiresAt.None? then Err(Invalid)
        else if lease.state == LeaseHeld && lease.id != r.id then Err(Invalid)
        else
          var expiry := if lease.expiresAt.Some? && r.expiresAt.value < lease.expiresAt.value then lease.expiresAt
              else r.expiresAt;
          Ok(Lease(LeaseHeld, r.id, r.fence, expiry, r.occurrence))
      case LeaseLost => Ok(lease.(state := LeaseLost, occurrence := r.occurrence))
      case LeaseReleased =>
        if lease.state == LeaseLost then Ok(lease.(occurrence := r.occurrence))
        else Ok(lease.(state := LeaseReleased, occurrence := r.occurrence))
      case LeaseNone => Err(Invalid)
  }

  predicate NotBefore(a: Option<Time>, b: Option<Time>) { a.Some? ==> b.Some? && a.value <= b.value }

  /** A lost lease never returns, occurrences only grow and a confirmed expiry never moves
      back, whatever is reported. */
  lemma LeaseNeverReturns(lease: Lease, r: LeaseReport)
    requires ReportLease(lease, r).Ok?
    ensures var next := ReportLease(lease, r).value;
            && (lease.state == LeaseLost ==> next.state == LeaseLost)
            && lease.occurrence <= next.occurrence
            && NotBefore(lease.expiresAt, next.expiresAt)
            && (lease.state == LeaseHeld && next.state == LeaseHeld ==> next.id == lease.id)
  {
  }

  /** internal/application/generation.go:238-278. */
  function RecordLease(c: Config, db: DB, o: Id, tenant: Name, report: LeaseReport): (r: Result<DB>)
    ensures r.Ok? ==> r.value == db.(work := db.work.(operations := r.value.work.operations))
  {
    if o !in db.work.operations || db.work.operations[o].bind.tenant != tenant then Err(NotFound)
    else
      var op := db.work.operations[o];
      if op.bind.profile.None? || op.bind.profile.value !in c.profiles then Err(ProfileUnqualified)
      else
        var lease :- ReportLease(op.lease, report);
        if report.occurrence <= op.lease.occurrence then Ok(db)
        else Ok(PutOperation(db, o, op.(lease := lease).Transition()))
  }

  /** internal/domain/generation.go:32-34. */
  predicate Available(pool: ResourcePool, active: int) {
    active < pool.capacity - pool.reservedControl
  }

  /** internal/application/generation.go:138-222, internal/domain/generation.go:66-95:
      the first grant sets the active deadline once; a full pool grants nothing. */
  function RequestPermit(c: Config, db: DB, o: Id, tenant: Name, briefCurrent: bool, now: Time): (r: Result<DB>)
    ensures r.Ok? ==>
        r.value == db.(control := r.value.control, work := db.work.(operations := r.value.work.operations))
  {
    if o !in db.work.operations || db.work.operations[o].bind.tenant != tenant then Err(NotFound)
    else
      var op := db.work.operations[o];
      var profile := c.ProfileOf(op);
      if op.bind.profile.None? || op.bind.profile.value !in c.profiles then Err(ProfileUnqualified)
      else if AdmissionClosed(db, tenant) || !briefCurrent then Err(StaleExecution)
      else if op.bind.kind != KindGeneration && op.bind.kind != KindRefinement then Err(Invalid)
      else if op.FencedForNewDispatch() || !op.intakeConfirmed then Err(StaleExecution)
      else if profile.queuePool.Some? && HoldsPermit(db, profile.queuePool.value, o) then Ok(db)
      else if now >= op.bind.deadline then Err(StaleExecution)
      else if profile.queuePool.None? || profile.queuePool.value !in c.resources then Err(ProfileUnqualified)
      else if !Available(c.resources[profile.queuePool.value], |ActivePermits(db, profile.queuePool.value)|) then Ok(db)
      else
        var deadline := if op.activeDeadline.Some? then op.activeDeadline else Some(now + profile.activeWindow);
        var permit := Permit(true, op.executionEpoch, now);
        Ok(PutOperation(db.(control := db.control.(permits := db.control.permits[PermitKey(profile.queuePool.value,
            o) := permit])), o,
                        op.(activeDeadline := deadline, lifecycle := LifecycleRunning).Transition()))
  }

  /** internal/application/generation.go:285-341, after the allocation. */
  function RecordFunding(db: DB, o: Id): (r: Result<DB>)
    ensures r.Ok? ==> r.value == db.(control := r.value.control)
  {
    if o !in db.work.operations then Err(NotFound)
        else Ok(db.(control := db.control.(funded := db.control.funded + {o})))
  }

  // ---------- preparation rounds, as far as they move the lifecycle ----------

  /** internal/application/preparation.go:88-143, internal/domain/preparation.go:51-60. */
  function AskQuestions(db: DB, o: Id, tenant: Name): (r: Result<DB>)
    ensures r.Ok? ==> r.value == db.(work := db.work.(operations := r.value.work.operations))
  {
    if o !in db.work.operations || db.work.operations[o].bind.tenant != tenant then Err(NotFound)
    else
      var op := db.work.operations[o];
      if op.bind.kind != KindPreparation then Err(Invalid)
      else if AdmissionClosed(db, tenant) || op.FencedForNewDispatch() || !op.intakeConfirmed then Err(StaleExecution)
      else Ok(PutOperation(db, o, op.(lifecycle := LifecycleWaiting).Transition()))
  }

  /** internal/application/preparation.go:150-220, internal/domain/preparation.go:130-136. */
  function SubmitAnswer(db: DB, o: Id, tenant: Name): (r: Result<DB>)
    ensures r.Ok? ==> r.value == db.(work := db.work.(operations := r.value.work.operations))
  {
    if o !in db.work.operations || db.work.operations[o].bind.tenant != tenant then Err(NotFound)
    else
      var op := db.work.operations[o];
      if op.lifecycle.Terminal() || op.control != ControlNone then Err(StaleExecution)
      else Ok(PutOperation(db, o, op.(lifecycle := LifecycleRunning).Transition()))
  }
}
