/** The rows Control keeps and the states they move through
    (internal/domain/operation.go, attempt.go, dispatch.go, effect.go, release.go,
    generation.go, recovery.go and internal/application/obligations.go). */
module Records {
  import opened Values
  import opened Budget

  // ---------- operations ----------

  datatype OperationKind =
    | KindPreparation | KindGeneration | KindRefinement | KindPreviewBuild | KindRelease | KindLocalCheck

  datatype Lifecycle =
    | LifecycleAccepted | LifecycleRunning | LifecycleWaiting | LifecycleReconciling | LifecycleSuspended
    | LifecycleSucceeded | LifecycleFailed | LifecycleCanceled
  {
    predicate Terminal() { LifecycleSucceeded? || LifecycleFailed? || LifecycleCanceled? }
  }

  datatype ControlState =
    | ControlNone | ControlCancelPending | ControlCancelApplied | ControlHoldPending | ControlHoldApplied
  {
    predicate Cancel() { ControlCancelPending? || ControlCancelApplied? }
  }

  datatype CleanupState = CleanupNotRequired | CleanupPending | CleanupComplete | CleanupUnknown

  datatype FinanceState = FinanceNotFunded | FinanceFunded | FinanceSettled | FinanceExposureUnknown

  datatype LeaseState = LeaseNone | LeaseHeld | LeaseLost | LeaseReleased

  datatype Lease = Lease(state: LeaseState, id: Option<Name>, fence: nat, expiresAt: Option<Time>, occurrence: nat)
  {
    predicate Valid(now: Time) { state == LeaseHeld && expiresAt.Some? && now < expiresAt.value }
  }

  const NoLease := Lease(LeaseNone, None, 0, None, 0)

  /** What intake fixes for the life of an operation. */
  datatype OperationBinding = OperationBinding(
    tenant: Name, project: Option<Name>, actor: Name, kind: OperationKind, profile: Option<Name>,
    subject: Option<Name>, sourceRevision: Option<Name>, packageVersion: Option<Name>,
    request: Option<Name>, deadline: Time, createdAt: Time)

  datatype Operation = Operation(
    bind: OperationBinding, lifecycle: Lifecycle, control: ControlState, cleanup: CleanupState,
    finance: FinanceState, revision: nat, executionEpoch: nat, recoveryEpoch: nat, intakeConfirmed: bool,
    activeDeadline: Option<Time>, lease: Lease, definition: Option<Name>)
  {
    /** internal/domain/operation.go:420-422. */
    predicate FencedForNewDispatch() {
      control != ControlNone || lifecycle.Terminal() || lifecycle == LifecycleReconciling || lease.state == LeaseLost
    }

    /** internal/domain/operation.go:428-430. */
    predicate SendersQuiescent(acting: bool) {
      !acting && lifecycle != LifecycleReconciling && cleanup != CleanupUnknown && finance != FinanceExposureUnknown
    }

    /** internal/domain/operation.go:263-268. */
    function EffectiveDeadline(): Time {
      if activeDeadline.Some? then activeDeadline.value else bind.deadline
    }

    /** Every committed change bumps the revision
        (internal/domain/operation.go:394-411). */
    function Transition(): Operation { this.(revision := revision + 1) }
  }

  /** A reviewed profile; an unknown one is single-step and unpooled. */
  datatype Profile = Profile(
    multiStep: bool, queuePool: Option<Name>, activeWindow: int, attemptWindow: Option<nat>,
    supportsControl: bool, definitions: set<Name>, operationDeadline: int)

  const UnknownProfile := Profile(false, None, 0, None, false, {}, 0)

  // ---------- attempts ----------

  datatype AttemptState = AttemptOpen | AttemptLaunchPrepared | AttemptRunning | AttemptResultAccepted | AttemptClosed

  datatype AttemptOutcome =
    | OutcomeCompleted | OutcomeFailed | OutcomeInfrastructureFailed | OutcomeCanceled | OutcomeUnknown

  datatype AttemptBinding = AttemptBinding(operation: Id, tenant: Name, profile: Option<Name>, epoch: nat,
                                           deadline: Time)

  datatype Attempt = Attempt(bind: AttemptBinding, state: AttemptState, outcome: Option<AttemptOutcome>,
                             cleanup: Option<CleanupState>)
  {
    predicate Closed() { state == AttemptClosed }

    /** The row predicate of HasUnknownAttempt
        (internal/adapters/postgres/queries/execution.sql:13-15). */
    predicate Uncertain() { cleanup == Some(CleanupUnknown) || outcome == Some(OutcomeUnknown) }

    /** internal/domain/attempt.go:266-268. */
    predicate CanSettleCleanup(o: AttemptOutcome, c: CleanupState) {
      Closed() && outcome == Some(o) && cleanup == Some(CleanupUnknown) && c != CleanupUnknown
    }
  }

  datatype Verdict =
    | VerdictCertified | VerdictRepairable | VerdictInvalid | VerdictInfrastructureFailed | VerdictCanceled

  datatype Instance = Instance(attempt: Id, current: bool)

  datatype LaunchBinding = LaunchBinding(attempt: Id, operation: Id, tenant: Name, profile: Option<Name>, epoch: nat,
                                         deadline: Time, createdAt: Time)

  datatype Launch = Launch(bind: LaunchBinding, inventory: InventoryState)

  // ---------- dispatches ----------

  datatype InventoryState = InventoryPending | InventoryConfirmed | InventoryUncertain

  datatype GrantKey = GrantKey(grant: Name, revision: nat)

  datatype DispatchState =
    | DispatchPrepared | DispatchAuthorized | DispatchObserved | DispatchUnknown | DispatchConfirmedNotSent
    | DispatchDenied
  {
    /** The reservation is still held (internal/domain/dispatch.go:101-106). */
    predicate Held() { DispatchPrepared? || DispatchAuthorized? || DispatchUnknown? }
    /** The permission was consumed and the outcome is open. */
    predicate Sending() { DispatchAuthorized? || DispatchUnknown? }
  }

  datatype DispatchOutcome = DispatchSucceeded | DispatchFailed | DispatchCanceled | DispatchOutcomeUnknown

  /** The minimum binding of a send, exactly the fields of its published obligation
      (internal/application/obligations.go:121-143). */
  datatype DispatchBinding = DispatchBinding(
    kind: DispatchKind, tenant: Name, operation: Id, attempt: Id, instance: Option<Id>,
    call: Name, owner: Name, digest: Name, route: Name, grant: Option<GrantKey>, reserved: Money,
    meter: Option<Name>, epoch: nat, deadline: Time, admittedAt: Time, argument: Option<Name>, sideEffecting: bool)

  /** The unique index of dispatches (internal/migrate/sql/00001_init.sql:214). */
  datatype CallKey = CallKey(tenant: Name, owner: Name, call: Name)

  datatype Dispatch = Dispatch(
    bind: DispatchBinding, supersedes: Option<Name>, state: DispatchState, outcome: Option<DispatchOutcome>,
    denial: Option<DenialCode>, evidence: Option<Name>, inventory: InventoryState)
  {
    function Call(): CallKey { CallKey(bind.tenant, bind.owner, bind.call) }
  }

  /** One immutable usage report; usage is None when the report carried no counters. */
  datatype Report = Report(source: Name, sequence: nat, usage: Option<Usage>)

  /** The reports of one dispatch in order of arrival and the sum of its actual and
      correction entries. */
  datatype Meter = Meter(reports: seq<Report>, charged: nat)

  const NoMeter := Meter([], 0)

  // ---------- effects ----------

  datatype EffectKind = EffectBusinessWrite | EffectPublication | EffectActivation | EffectReview

  datatype EffectState =
    | EffectPrepared | EffectPermitted | EffectSucceeded | EffectFailed | EffectUnknown
    | EffectConfirmedNotSent | EffectDenied

  datatype EffectOutcome = EffectOutcomeSucceeded | EffectOutcomeFailed | EffectOutcomeUnknown

  /** The subject a mutation names; a release mutation names the subject digest and
      its target (internal/domain/release.go:512-514). */
  datatype CanonicalSubject = ReleaseMutation(digest: SubjectDigest, target: TargetName) | OtherSubject(name: Name)

  /** The minimum binding of a guarded mutation, the fields of its published
      obligation (internal/application/obligations.go:163-181). */
  datatype EffectBinding = EffectBinding(
    tenant: Name, operation: Id, attempt: Option<Id>, kind: EffectKind, occurrence: nat, command: Name,
    owner: Option<Name>, subject: Option<CanonicalSubject>, expectedRevision: Option<Name>, digest: Name,
    epoch: nat, leaseId: Option<Name>, leaseFence: nat, deadline: Time, createdAt: Time)

  /** An observed outcome names its receipt or, for a review, the subject it
      registered. */
  datatype OutcomeRef = ReceiptRef(name: Name) | ReviewedSubject(digest: SubjectDigest) | NotSentRef(name: Name)

  datatype Effect = Effect(
    bind: EffectBinding, leaseExpiresAt: Option<Time>, state: EffectState, denial: Option<DenialCode>,
    outcomeRef: Option<OutcomeRef>, inventory: InventoryState)
  {
    /** internal/domain/effect.go:92-94. */
    predicate Unresolved() { state == EffectPermitted || state == EffectUnknown }
  }

  datatype CommandKey = CommandKey(tenant: Name, command: Name)

  datatype OccurrenceKey = OccurrenceKey(operation: Id, kind: EffectKind, occurrence: nat)

  // ---------- releases ----------

  datatype TargetName = TargetNpm | TargetBrowser | TargetActivation

  datatype Certification = Certification(evidence: Name, npm: Name, browser: Name, css: multiset<Name>)

  /** The subject's own fields, without its digest. */
  datatype SubjectFields = SubjectFields(
    identity: Name, sourceRevision: Option<Name>, version: Option<Name>, certification: Certification,
    npmRegistry: Option<Name>, browserOrigin: Option<Name>, other: Name)

  /** A digest is injective in what it digests; a record may also name any other. */
  datatype SubjectDigest = DigestOf(fields: SubjectFields) | ForeignDigest(name: Name)

  datatype ReleaseSubject = ReleaseSubject(fields: SubjectFields, digest: SubjectDigest)

  datatype ReleaseState =
    | ReleaseCertifying | ReleaseAwaitingApproval | ReleasePublishing | ReleasePublished | ReleaseActivated
    | ReleasePartiallyPublished | ReleaseReconciling | ReleaseRejected | ReleaseFailed

  datatype ApprovalState = ApprovalPending | ApprovalApproved | ApprovalRejected | ApprovalInvalidated

  datatype Approval = Approval(state: ApprovalState, subject: SubjectDigest, approver: Option<Name>,
                               decidedAt: Option<Time>)

  datatype TargetState = TargetPending | TargetSucceeded | TargetFailed | TargetUnknown

  datatype ReleaseTarget = ReleaseTarget(
    state: TargetState, effect: Option<Id>, receipt: Option<Name>, receiptDigest: Option<Name>,
    subject: Option<SubjectDigest>, destination: Option<Name>, version: Option<Name>,
    manifest: Option<Name>, failure: Option<Name>)
  {
    predicate Definite() { state == TargetSucceeded || state == TargetFailed }
  }

  const PendingTarget := ReleaseTarget(TargetPending, None, None, None, None, None, None, None, None)

  /** What a transition records. */
  datatype ReleaseFacts = ReleaseFacts(
    state: ReleaseState, subject: Option<ReleaseSubject>, releaseId: Option<Name>, reviewEffect: Option<Id>,
    approval: Option<Approval>, approvalDeadline: Option<Time>, npm: ReleaseTarget, browser: ReleaseTarget,
    activation: ReleaseTarget, catalogRevision: Option<Name>, failure: Option<Name>)
  {
    function Target(t: TargetName): ReleaseTarget {
      match t case TargetNpm => npm case TargetBrowser => browser case TargetActivation => activation
    }

    /** internal/domain/release.go:175-177. */
    predicate Approved() {
      subject.Some? && approval.Some? && approval.value.state == ApprovalApproved
          && approval.value.subject == subject.value.digest
    }

    /** internal/domain/release.go:181-183. */
    predicate BothPublished() {
      Approved() && npm.state == TargetSucceeded && browser.state == TargetSucceeded
    }
  }

  datatype Release = Release(facts: ReleaseFacts, revision: nat)

  // ---------- grants ----------

  datatype RevocationState = RevocationNone | RevocationFenced | RevocationConverging | RevocationConverged

  datatype GrantPolicy = GrantPolicy(
    tenant: Name, policy: Option<Name>, server: Option<Name>, methods: seq<Name>, costCap: Option<Money>,
    expiresAt: Option<Time>, registered: bool, revocation: RevocationState, inFlight: nat, unknown: nat)

  // ---------- admission into execution ----------

  datatype ResourcePool = ResourcePool(capacity: int, reservedControl: int)

  datatype PermitKey = PermitKey(pool: Name, operation: Id)

  datatype Permit = Permit(active: bool, epoch: nat, grantedAt: Time)

  datatype OperationOutcome = OperationSucceeded | OperationFailed | OperationCanceled

  datatype SettlementIntent = SettlementIntent(command: Name, digest: Name, outcome: OperationOutcome)

  datatype CommandKind = CommandHold | CommandResume | CommandChangeDefinition

  datatype CommandOutcome = OutcomePending | OutcomeApplied | OutcomeBlocked | OutcomeRejected

  datatype Command = Command(operation: Id, kind: CommandKind, target: Option<Name>, outcome: CommandOutcome)

  // ---------- obligations and recovery ----------

  datatype Class = ClassIntake | ClassJobLaunch | ClassModelDispatch | ClassToolDispatch | ClassBusinessWrite

  const CLASSES: set<Class> := {ClassIntake, ClassJobLaunch, ClassModelDispatch, ClassToolDispatch, ClassBusinessWrite}

  datatype Key = Key(category: Class, id: Id)

  /** The intake obligation: less than the operation itself
      (internal/application/obligations.go:64-80). */
  datatype IntakeBinding = IntakeBinding(
    tenant: Name, project: Option<Name>, kind: OperationKind, profile: Option<Name>, subject: Option<Name>,
    request: Option<Name>, createdAt: Time, epoch: nat)

  /** The published body of an obligation. */
  datatype Body =
    | IntakeBody(intake: IntakeBinding)
    | LaunchBody(launch: LaunchBinding)
    | DispatchBody(dispatch: DispatchBinding)
    | EffectBody(effect: EffectBinding)
  {
    function Tenant(): Name {
      match this
      case IntakeBody(o) => o.tenant
      case LaunchBody(l) => l.tenant
      case DispatchBody(d) => d.tenant
      case EffectBody(e) => e.tenant
    }
    function RecordedAt(): Time {
      match this
      case IntakeBody(o) => o.createdAt
      case LaunchBody(l) => l.createdAt
      case DispatchBody(d) => d.admittedAt
      case EffectBody(e) => e.createdAt
    }
  }

  function DispatchClass(k: DispatchKind): Class {
    if k == DispatchTool then ClassToolDispatch else ClassModelDispatch
  }

  /** The keys the obligations of a dispatch and of an effect are published under. */
  function DispatchKey(d: Id, b: DispatchBinding): Key { Key(DispatchClass(b.kind), d) }

  function EffectKey(e: Id): Key { Key(ClassBusinessWrite, e) }

  /** An immutable object and the backend's modification time. */
  datatype Object = Object(body: Body, modifiedAt: Time)

  /** The answer to an inventory write: acknowledged, written but its acknowledgement
      lost, or not written. */
  datatype WriteReply = Stored | AckLost | Unwritten

  datatype ScopeKey = ScopeAll | ScopeTenant(tenant: Name)
  {
    predicate InScope(t: Name) { ScopeAll? || tenant == t }
  }

  datatype RecoveryPhase =
    | RecoveryFenced | RecoveryEnumerating | RecoveryReconciling | RecoveryRestricted | RecoveryReopened

  datatype RecoveryRun = RecoveryRun(
    scope: ScopeKey, command: Name, digest: Name, epoch: nat, phase: RecoveryPhase,
    windowStart: Time, windowEnd: Time, skew: nat)
  {
    /** The widened window (internal/domain/recovery.go:53-55). */
    predicate Covers(t: Time) { windowStart - skew <= t <= windowEnd + skew }
  }

  /** A cursor is the last listed identity of the class, None at the start. */
  datatype Progress = Progress(cursor: Option<Id>, complete: bool)

  datatype ProgressKey = ProgressKey(run: Id, category: Class)

  datatype FindingStatus =
    | FindingPresent | FindingMissing | FindingRestored | FindingResolved | FindingUnresolved | FindingDisposed
    | FindingOutsideScope
  {
    /** internal/domain/recovery.go:118-120. */
    predicate Settled() { FindingPresent? || FindingResolved? || FindingDisposed? || FindingOutsideScope? }
  }

  datatype FindingKey = FindingKey(run: Id, key: Key)

  datatype Finding = Finding(tenant: Name, status: FindingStatus)

  datatype Decision = DisposeConfirmNotSent | DisposeResolveSucceeded | DisposeResolveFailed | DisposeRetainExposure

  datatype Disposition = Disposition(tenant: Name, command: Name, decision: Decision, evidence: Name)

  datatype Closure = Closure(run: Id, open: bool)
}
