/** The entities whose methods change their fields: dispatches, effects and operations
    (internal/domain/dispatch.go, effect.go, operation.go, attempt.go, generation.go).
    A transaction loads one from its row and writes the row back. */
module Entities {
  import opened Values
  import opened Budget
  import opened Records
  import Admission
  import Effects
  import Execution
  import Recovery

  // ---------- dispatches ----------

  class DispatchEntity {
    const bind: DispatchBinding
    const supersedes: Option<Name>
    var state: DispatchState
    var outcome: Option<DispatchOutcome>
    var denial: Option<DenialCode>
    var evidence: Option<Name>
    var inventory: InventoryState

    constructor (row: Dispatch)
      ensures Row() == row
    {
      bind, supersedes, state, outcome := row.bind, row.supersedes, row.state, row.outcome;
      denial, evidence, inventory := row.denial, row.evidence, row.inventory;
    }

    function Row(): Dispatch
      reads this
    {
      Dispatch(bind, supersedes, state, outcome, denial, evidence, inventory)
    }

    /** internal/domain/dispatch.go:403-409: the permission is consumed once. */
    method Consume() returns (r: Check)
      modifies this
      ensures Applied(Admission.Consume(old(Row())), r, old(Row()), Row())
    {
      if state != DispatchPrepared { return Fail(StaleExecution); }
      state, inventory := DispatchAuthorized, InventoryConfirmed;
      return Pass;
    }

    /** internal/domain/dispatch.go:413-419. */
    method Deny(code: DenialCode) returns (r: Check)
      modifies this
      ensures Applied(Admission.Deny(old(Row()), code), r, old(Row()), Row())
    {
      if state != DispatchPrepared { return Fail(StaleExecution); }
      state, denial := DispatchDenied, Some(code);
      return Pass;
    }

    /** internal/domain/dispatch.go:429-448. */
    method Observe(report: DispatchOutcome, usageReported: bool) returns (r: Check, settled: bool)
      modifies this
      ensures match Admission.ObserveOutcome(old(Row()), report, usageReported)
              case Ok(observed) => r == Pass && Row() == observed.0 && settled == observed.1
              case Err(e) => r == Fail(e) && Row() == old(Row())
    {
      if state == DispatchObserved { return Pass, false; }
      if state != DispatchAuthorized && state != DispatchUnknown { return Fail(StaleExecution), false; }
      if report != DispatchOutcomeUnknown && !usageReported { return Fail(EvidenceInsufficient), false; }
      outcome := Some(report);
      if report == DispatchOutcomeUnknown {
        state := DispatchUnknown;
        return Pass, false;
      }
      state := DispatchObserved;
      return Pass, true;
    }

    /** internal/domain/dispatch.go:454-473. */
    method ConfirmNotSent(ref: Name, charged: int, usageReported: bool) returns (r: Check)
      modifies this
      ensures Applied(Admission.ConfirmRecordNotSent(old(Row()), ref, charged, usageReported), r, old(Row()), Row())
    {
      if state == DispatchConfirmedNotSent {
        if evidence != Some(ref) { return Fail(IdempotencyConflict); }
        return Pass;
      }
      if state != DispatchPrepared && state != DispatchAuthorized
          && state != DispatchUnknown { return Fail(StaleExecution); }
      if charged > 0 || usageReported { return Fail(StaleExecution); }
      state, evidence := DispatchConfirmedNotSent, Some(ref);
      return Pass;
    }
  }

  // ---------- effects ----------

  class EffectEntity {
    const bind: EffectBinding
    const leaseExpiresAt: Option<Time>
    var state: EffectState
    var denial: Option<DenialCode>
    var outcomeRef: Option<OutcomeRef>
    var inventory: InventoryState

    constructor (row: Effect)
      ensures Row() == row
    {
      bind, leaseExpiresAt, state, denial, outcomeRef, inventory :=
        row.bind, row.leaseExpiresAt, row.state, row.denial, row.outcomeRef, row.inventory;
    }

    function Row(): Effect
      reads this
    {
      Effect(bind, leaseExpiresAt, state, denial, outcomeRef, inventory)
    }

    /** internal/domain/effect.go:286-292. */
    method Permit() returns (r: Check)
      modifies this
      ensures Applied(Effects.Permit(old(Row())), r, old(Row()), Row())
    {
      if state != EffectPrepared { return Fail(StaleExecution); }
      state, inventory := EffectPermitted, InventoryConfirmed;
      return Pass;
    }

    /** internal/domain/effect.go:295-301, internal/application/effects.go:266-272. */
    method Deny(code: DenialCode) returns (r: Check)
      modifies this
      ensures Applied(Effects.Deny(old(Row()), code), r, old(Row()), Row())
    {
      if state != EffectPrepared { return Fail(StaleExecution); }
      state, denial := EffectDenied, Some(code);
      inventory := InventoryConfirmed;
      return Pass;
    }

    /** internal/domain/effect.go:309-330: a settled effect keeps its outcome. */
    method Observe(report: EffectOutcome, receipt: Option<OutcomeRef>) returns (r: Check)
      modifies this
      ensures Applied(Effects.ObserveOutcome(old(Row()), report, receipt), r, old(Row()), Row())
    {
      if state == EffectSucceeded || state == EffectFailed { return Pass; }
      if state != EffectPermitted && state != EffectUnknown { return Fail(StaleExecution); }
      if report == EffectOutcomeUnknown {
        state := EffectUnknown;
        return Pass;
      }
      if receipt.None? { return Fail(EvidenceInsufficient); }
      state := if report == EffectOutcomeSucceeded then EffectSucceeded else EffectFailed;
      outcomeRef := receipt;
      return Pass;
    }

    /** internal/domain/effect.go:335-348. */
    method ConfirmNotSent(evidence: Name) returns (r: Check)
      modifies this
      ensures Applied(Effects.ConfirmRecordNotSent(old(Row()), evidence), r, old(Row()), Row())
    {
      if state == EffectConfirmedNotSent {
        if outcomeRef != Some(NotSentRef(evidence)) { return Fail(IdempotencyConflict); }
        return Pass;
      }
      if state != EffectPrepared && state != EffectPermitted && state != EffectUnknown { return Fail(StaleExecution); }
      state, outcomeRef := EffectConfirmedNotSent, Some(NotSentRef(evidence));
      return Pass;
    }
  }

  // ---------- operations ----------

  class OperationEntity {
    const bind: OperationBinding
    const intakeConfirmed: bool
    var lifecycle: Lifecycle
    var control: ControlState
    var cleanup: CleanupState
    var finance: FinanceState
    var revision: nat
    var executionEpoch: nat
    var recoveryEpoch: nat
    var activeDeadline: Option<Time>
    var lease: Lease
    var definition: Option<Name>

    constructor (row: Operation)
      ensures Row() == row
    {
      bind, intakeConfirmed, lifecycle, control, cleanup, finance :=
        row.bind, row.intakeConfirmed, row.lifecycle, row.control, row.cleanup, row.finance;
      revision, executionEpoch, recoveryEpoch, activeDeadline, lease, definition :=
        row.revision, row.executionEpoch, row.recoveryEpoch, row.activeDeadline, row.lease, row.definition;
    }

    function Row(): Operation
      reads this
    {
      Operation(bind, lifecycle, control, cleanup, finance, revision, executionEpoch, recoveryEpoch, intakeConfirmed,
                activeDeadline, lease, definition)
    }

    /** internal/domain/operation.go:394-411: the revision of a committed change. */
    method Transition()
      modifies `revision
      ensures Row() == old(Row()).Transition()
    {
      revision := revision + 1;
    }

    /** internal/application/recovery.go:173-185: the execution identity is retired. */
    method Fence(epoch: nat)
      modifies `executionEpoch, `recoveryEpoch, `lifecycle, `revision
      ensures Row() == Recovery.Fence(old(Row()), epoch)
    {
      executionEpoch, recoveryEpoch := executionEpoch + 1, epoch;
      lifecycle := LifecycleReconciling;
      Transition();
    }

    /** internal/domain/operation.go:513-525. */
    method ApplyCancelFence(quiescent: bool)
      modifies `control, `lifecycle, `cleanup
      ensures Row() == Execution.ApplyCancelFence(old(Row()), quiescent)
    {
      if !quiescent {
        control := ControlCancelPending;
        return;
      }
      control, lifecycle := ControlCancelApplied, LifecycleCanceled;
      if cleanup == CleanupPending { cleanup := CleanupComplete; }
    }

    /** internal/domain/attempt.go:285-317: the operation an attempt close leaves. */
    method SettleClose(stage: Option<Verdict>, outcome: AttemptOutcome, left: CleanupState, multiStep: bool)
      modifies `control, `lifecycle, `cleanup
      ensures Row() == Execution.SettleClose(old(Row()), stage, outcome, left, multiStep)
    {
      cleanup := left;
      var cancelRequested := control.Cancel() || outcome == OutcomeCanceled;
      if outcome == OutcomeUnknown || left == CleanupUnknown {
        lifecycle := LifecycleReconciling;
        if cancelRequested && control != ControlCancelApplied { control := ControlCancelPending; }
      } else if multiStep && !cancelRequested {
        lifecycle := LifecycleRunning;
      } else if cancelRequested {
        control, lifecycle := ControlCancelApplied, LifecycleCanceled;
      } else if outcome == OutcomeCompleted && stage == Some(VerdictCertified) && left == CleanupComplete {
        lifecycle := LifecycleSucceeded;
      } else {
        lifecycle := LifecycleFailed;
      }
    }

    /** internal/application/execution.go:649-663: an open obligation keeps the operation
        reconciling and takes an applied cancel back to pending. */
    method KeepReconciling(unresolved: bool, unknownAttempt: bool)
      modifies `control, `lifecycle, `cleanup
      ensures Row() == Execution.KeepReconciling(old(Row()), unresolved, unknownAttempt)
    {
      if unknownAttempt { cleanup := CleanupUnknown; }
      if unresolved || unknownAttempt {
        lifecycle := LifecycleReconciling;
        if control == ControlCancelApplied { control := ControlCancelPending; }
      }
    }

    /** internal/domain/generation.go:265-290. */
    method Settle(outcome: OperationOutcome) returns (r: Check)
      modifies `control, `lifecycle
      ensures Applied(Execution.SettleOutcome(old(Row()), outcome), r, old(Row()), Row())
    {
      if lifecycle.Terminal() { return Pass; }
      if cleanup == CleanupUnknown { return Fail(StaleExecution); }
      if control.Cancel() || outcome == OperationCanceled {
        control, lifecycle := ControlCancelApplied, LifecycleCanceled;
      } else if outcome == OperationSucceeded {
        lifecycle := LifecycleSucceeded;
      } else {
        lifecycle := LifecycleFailed;
      }
      return Pass;
    }

    /** internal/domain/generation.go:225-250. */
    method ApplyControl(kind: CommandKind, outcome: CommandOutcome, target: Option<Name>)
      modifies `control, `lifecycle, `definition
      ensures Row() == Execution.ApplyControl(old(Row()), kind, outcome, target)
    {
      if lifecycle.Terminal() || control.Cancel() { return; }
      match kind {
        case CommandHold =>
          if outcome == OutcomeApplied {
            control, lifecycle := ControlHoldApplied, LifecycleSuspended;
          } else if control == ControlHoldPending {
            control := ControlNone;
          }
        case CommandResume =>
          if outcome == OutcomeApplied && control == ControlHoldApplied {
            control, lifecycle := ControlNone, LifecycleRunning;
          }
        case CommandChangeDefinition =>
          if outcome == OutcomeApplied { definition := target; }
      }
    }

    /** internal/domain/generation.go:113-148: a reentry changes nothing, a lost lease
        never comes back, the expiry never moves backwards. */
    method RecordLease(report: Execution.LeaseReport) returns (r: Check, changed: bool)
      modifies `lease
      ensures match Execution.ReportLease(old(lease), report)
              case Ok(next) =>
                  r == Pass && Row() == old(Row()).(lease := next)
                  && changed == (report.occurrence > old(lease).occurrence)
              case Err(e) => r == Fail(e) && Row() == old(Row())
    {
      if report.occurrence == 0 { return Fail(Invalid), false; }
      if report.occurrence <= lease.occurrence { return Pass, false; }
      match report.state {
        case LeaseHeld =>
          if lease.state == LeaseLost { return Fail(StaleExecution), false; }
          if report.id.None? || report.expiresAt.None? || (lease.state == LeaseHeld && lease.id != report.id) {
            return Fail(Invalid), false;
          }
          var expiry := report.expiresAt;
          if lease.expiresAt.Some? && expiry.value < lease.expiresAt.value { expiry := lease.expiresAt; }
          lease := Lease(LeaseHeld, report.id, report.fence, expiry, report.occurrence);
        case LeaseLost =>
          lease := lease.(state := LeaseLost, occurrence := report.occurrence);
        case LeaseReleased =>
          if lease.state != LeaseLost { lease := lease.(state := LeaseReleased); }
          lease := lease.(occurrence := report.occurrence);
        case LeaseNone =>
          return Fail(Invalid), false;
      }
      return Pass, true;
    }
  }
}
