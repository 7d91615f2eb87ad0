/** Recovery of a rollback window: fencing under a new epoch, enumeration of the
    inventory, restoration of lost identities, dispositions and the reopening gate
    (internal/application/recovery*.go, internal/domain/recovery.go). */
module Recovery {
  import opened Values
  import opened Budget
  import opened Records
  import opened Database
  import Admission
  import Effects

  // ---------- begin ----------

  /** internal/application/recovery.go:173-185. */
  function Fence(op: Operation, epoch: nat): Operation {
    op.(executionEpoch := op.executionEpoch + 1, recoveryEpoch := epoch, lifecycle := LifecycleReconciling).Transition()
  }

  predicate Fenced(op: Operation, scope: ScopeKey) {
    scope.InScope(op.bind.tenant) && !op.lifecycle.Terminal()
  }

  predicate AnyAdmissionClosed(db: DB) {
    exists s | s in db.recovery.closures :: db.recovery.closures[s].open
  }

  /** An open closure of the scope, of every scope, or, for a run over every scope,
      of any scope refuses another run. */
  predicate RecoveryInProgress(db: DB, scope: ScopeKey) {
    ScopeOpenClosure(db, ScopeAll) || ScopeOpenClosure(db, scope) || (scope == ScopeAll && AnyAdmissionClosed(db))
  }

  predicate CommandedBy(run: RecoveryRun, scope: ScopeKey, command: Name) {
    run.scope == scope && run.command == command
  }

  /** internal/application/recovery.go:80-166, domain/recovery.go:62-82; the epoch is
      the next value of the persisted sequence. */
  function Begin(db: DB, r: Id, scope: ScopeKey, command: Name, digest: Name, epoch: nat,
                 windowStart: Time, windowEnd: Time, skew: int): (out: Result<DB>)
    ensures out.Ok? ==>
        out.value == db.(recovery := out.value.recovery, work := db.work.(operations := out.value.work.operations))
  {
    if exists q | q in db.recovery.runs ::
        CommandedBy(db.recovery.runs[q], scope, command) && db.recovery.runs[q].digest != digest
        then Err(IdempotencyConflict)
    else if exists q | q in db.recovery.runs :: CommandedBy(db.recovery.runs[q], scope, command) then Ok(db)
    else if RecoveryInProgress(db, scope) then Err(StaleExecution)
    else if windowEnd <= windowStart || skew < 0 then Err(Invalid)
    else if r in db.recovery.runs then Err(DuplicateKey)
    else
      var run := RecoveryRun(scope, command, digest, epoch, RecoveryFenced, windowStart, windowEnd, skew);
      var keys := db.recovery.progress.Keys + (set category | category in CLASSES :: ProgressKey(r, category));
      var progress := map k | k in keys ::
        if k.run == r && k.category in CLASSES then Progress(None, false) else db.recovery.progress[k];
      var operations := map o | o in db.work.operations ::
        if Fenced(db.work.operations[o], scope) then Fence(db.work.operations[o], epoch) else db.work.operations[o];
      Ok(db.(recovery := db.recovery.(runs := db.recovery.runs[r := run],
                                      closures := db.recovery.closures[scope := Closure(r, true)],
                                      progress := progress),
             work := db.work.(operations := operations)))
  }

  /** internal/application/recovery.go:188-201. */
  function Started(db: DB, r: Id): (out: Result<DB>)
    ensures out.Ok? ==> out.value == db.(recovery := db.recovery.(runs := out.value.recovery.runs))
  {
    if r !in db.recovery.runs then Err(NotFound)
    else if db.recovery.runs[r].phase != RecoveryFenced then Ok(db)
    else
      var run := db.recovery.runs[r].(phase := RecoveryEnumerating);
      Ok(db.(recovery := db.recovery.(runs := db.recovery.runs[r := run])))
  }

  // ---------- enumeration ----------

  /** A listed obligation and its body. */
  datatype Candidate = Candidate(id: Id, body: Body)

  /** What one listing of a class answered: the candidates of its page that the run
      covers and the position after it. */
  datatype Page = Page(candidates: seq<Candidate>, next: Option<Id>, complete: bool)

  /** The objects of the page that become findings
      (internal/application/recovery_enumeration.go:81-87). */
  predicate Eligible(run: RecoveryRun, x: Object) {
    (run.Covers(x.body.RecordedAt()) || run.Covers(x.modifiedAt)) && run.scope.InScope(x.body.Tenant())
  }

  /** The first body published under a key stays; the same body again is accepted
      (internal/adapters/inventory/filesystem.go:126-204). */
  predicate Accepts(inventory: map<Key, Object>, k: Key, body: Body) {
    k in inventory ==> inventory[k].body == body
  }

  function PutObject(inventory: map<Key, Object>, k: Key, body: Body, now: Time): map<Key, Object> {
    if k in inventory then inventory else inventory[k := Object(body, now)]
  }

  /** The identities of the class after the cursor, in order. */
  predicate Follows(inventory: map<Key, Object>, category: Class, cursor: Option<Id>, following: seq<Id>) {
    && (forall i, j | 0 <= i < j < |following| :: following[i] < following[j])
    && (forall i | 0 <= i < |following| ::
        Key(category, following[i]) in inventory && (cursor.Some? ==> cursor.value < following[i]))
    && (forall k | k in inventory && k.category == category && (cursor.Some? ==> cursor.value < k.id) ::
        k.id in following)
  }

  /** A page is cut at the limit; zero asks for the default
      (internal/adapters/inventory/filesystem.go:265-331). */
  function Limit(limit: nat): nat { if limit == 0 then 1000 else limit }

  function Listed(following: seq<Id>, limit: nat): seq<Id> {
    if |following| <= Limit(limit) then following else following[..Limit(limit)]
  }

  function Candidates(inventory: map<Key, Object>, run: RecoveryRun, category: Class,
                      listed: seq<Id>): seq<Candidate> {
    if listed == [] then []
    else
      var k := Key(category, listed[0]);
      var rest := Candidates(inventory, run, category, listed[1..]);
      if k in inventory && Eligible(run, inventory[k])
          then [Candidate(k.id, inventory[k].body)] + rest else rest
  }

  function PageOf(inventory: map<Key, Object>, run: RecoveryRun, category: Class, following: seq<Id>,
                  limit: nat): Page {
    var listed := Listed(following, limit);
    var complete := |listed| == |following|;
    Page(Candidates(inventory, run, category, listed),
                  if complete || listed == [] then None else Some(listed[|listed| - 1]), complete)
  }

  /** internal/application/recovery_enumeration.go:234-239. */
  predicate LaunchSettled(at: Attempt) {
    at.Closed() && (at.cleanup == Some(CleanupComplete) || at.cleanup == Some(CleanupNotRequired))
  }

  /** internal/application/recovery_enumeration.go:170-239: what the database knows of
      an obligation. */
  function Settlement(db: DB, k: Key, body: Body): Result<FindingStatus> {
    match k.category
    case ClassIntake =>
      Ok(if k.id in db.work.operations && db.work.operations[k.id].bind.tenant == body.Tenant() then FindingPresent
          else FindingMissing)
    case ClassJobLaunch =>
      if k.id !in db.work.launches then Ok(FindingMissing)
      else
        var a := db.work.launches[k.id].bind.attempt;
        if a !in db.work.attempts then Ok(FindingUnresolved)
        else if db.work.attempts[a].bind.tenant != body.Tenant() then Err(Integrity)
        else Ok(if LaunchSettled(db.work.attempts[a]) then FindingPresent else FindingUnresolved)
    case ClassBusinessWrite =>
      if k.id !in db.guarded.effects then Ok(FindingMissing)
      else if db.guarded.effects[k.id].bind.tenant != body.Tenant() then Err(Integrity)
      else Ok(if db.guarded.effects[k.id].Unresolved() then FindingUnresolved else FindingPresent)
    case _ =>
      if k.id !in db.ledger.dispatches then Ok(FindingMissing)
      else if db.ledger.dispatches[k.id].bind.tenant != body.Tenant() then Err(Integrity)
      else Ok(if db.ledger.dispatches[k.id].state.Sending() then FindingUnresolved else FindingPresent)
  }

  /** A standing disposition settles an unresolved finding of a later run. */
  function FindingOf(db: DB, k: Key, body: Body): Result<Finding> {
    var status :- Settlement(db, k, body);
    Ok(Finding(body.Tenant(), if status == FindingUnresolved && k in db.recovery.dispositions then FindingDisposed
               else status))
  }

  /** A finding per candidate that has none yet, in turn
      (internal/application/recovery_enumeration.go:103-139). */
  function RecordEach(db: DB, r: Id, category: Class, candidates: seq<Candidate>): (out: Result<DB>)
    ensures out.Ok? ==> out.value == db.(recovery := db.recovery.(findings := out.value.recovery.findings))
    decreases |candidates|
  {
    if candidates == [] then Ok(db)
    else
      var k := FindingKey(r, Key(category, candidates[0].id));
      if k in db.recovery.findings then RecordEach(db, r, category, candidates[1..])
      else
        var finding :- FindingOf(db, k.key, candidates[0].body);
        RecordEach(db.(recovery := db.recovery.(findings := db.recovery.findings[k := finding])), r, category,
                   candidates[1..])
  }

  predicate AllComplete(db: DB, r: Id) {
    forall category | category in CLASSES ::
      ProgressKey(r, category) in db.recovery.progress && db.recovery.progress[ProgressKey(r, category)].complete
  }

  /** The commit of a page read from the position seen: another replica that moved the
      class keeps its page (internal/application/recovery_enumeration.go:90-159). */
  function CommitPage(db: DB, r: Id, category: Class, seen: Option<Id>, page: Page): (out: Result<DB>)
    ensures out.Ok? ==> out.value == db.(recovery := out.value.recovery)
  {
    var p := ProgressKey(r, category);
    if r !in db.recovery.runs || p !in db.recovery.progress then Err(NotFound)
    else if db.recovery.progress[p].cursor != seen || db.recovery.progress[p].complete then Ok(db)
    else
      var recorded :- RecordEach(db, r, category, page.candidates);
      var moved := recorded.(recovery := recorded.recovery.(progress := db.recovery.progress[p := Progress(page.next,
          page.complete)]));
      if AllComplete(moved, r) && db.recovery.runs[r].phase == RecoveryEnumerating
      then
        var run := db.recovery.runs[r].(phase := RecoveryReconciling);
        Ok(moved.(recovery := moved.recovery.(runs := db.recovery.runs[r := run])))
      else Ok(moved)
  }

  // ---------- restoration ----------

  const RECOVERY_ACTOR: Name := 0

  /** internal/application/recovery_reconciliation.go:283-323: an operation restored
      from another record than its intake is anonymous; nothing can be admitted under
      the recorded epoch. */
  function RestoredOperation(c: Config, intake: IntakeBinding, epoch: nat): Operation {
    var window := if intake.profile.Some? && intake.profile.value in c.profiles
        then c.profiles[intake.profile.value].operationDeadline else 0;
    Operation(OperationBinding(intake.tenant, intake.project, RECOVERY_ACTOR, intake.kind, intake.profile,
                               intake.subject, None, None,
                               intake.request, intake.createdAt + window, intake.createdAt),
              LifecycleReconciling, ControlNone, CleanupUnknown, FinanceExposureUnknown, 1, intake.epoch + 1, epoch,
                  true, None, NoLease, None)
  }

  function Anonymous(tenant: Name, profile: Option<Name>, at: Time, epoch: nat): IntakeBinding {
    IntakeBinding(tenant, None, KindLocalCheck, profile, None, None, at, epoch)
  }

  function RestoreOperation(c: Config, db: DB, o: Id, intake: IntakeBinding, epoch: nat): (out: Result<DB>)
    ensures out.Ok? ==>
        o in out.value.work.operations && out.value == db.(work := db.work.(operations := out.value.work.operations))
  {
    if o in db.work.operations then (if db.work.operations[o].bind.tenant == intake.tenant then Ok(db)
                                     else Err(DuplicateKey))
    else Ok(PutOperation(db, o, RestoredOperation(c, intake, epoch)))
  }

  /** internal/application/recovery_reconciliation.go:327-352. */
  function RestoreAttempt(db: DB, a: Id, bind: AttemptBinding): (out: DB)
    ensures a in out.work.attempts && out == db.(work := db.work.(attempts := out.work.attempts))
  {
    if a in db.work.attempts then db else db.(work := db.work.(attempts := db.work.attempts[a := Attempt(bind,
        AttemptLaunchPrepared, None, None)]))
  }

  /** internal/application/recovery_reconciliation.go:160-181. */
  function RestoreLaunch(c: Config, db: DB, l: Id, b: LaunchBinding, epoch: nat): (r: Result<DB>)
    ensures r.Ok? ==> r.value == db.(work := r.value.work)
  {
    var owned :- RestoreOperation(c, db, b.operation, Anonymous(b.tenant, b.profile, b.createdAt, b.epoch), epoch);
    var attempted := RestoreAttempt(owned, b.attempt, AttemptBinding(b.operation, b.tenant, b.profile, b.epoch,
        b.deadline));
    if l in db.work.launches then Ok(attempted)
    else Ok(attempted.(work := attempted.work.(launches := db.work.launches[l := Launch(b, InventoryConfirmed)])))
  }

  /** What a restored dispatch keeps of its obligation: the argument digest and the
      effect class of a tool call are published, but not read back
      (internal/application/recovery_reconciliation.go:199-206). */
  function Bare(b: DispatchBinding): DispatchBinding { b.(argument := None, sideEffecting := false) }

  /** A lost dispatch comes back unknown; what it superseded and the evidence it named
      are not part of the obligation. */
  function RestoredDispatch(b: DispatchBinding): Dispatch {
    Dispatch(Bare(b), None, DispatchUnknown, Some(DispatchOutcomeUnknown), None, None, InventoryConfirmed)
  }

  /** What stays true of it whatever is reported later. */
  predicate Remnant(d: Dispatch) {
    && d.supersedes.None? && !d.state.DispatchPrepared? && !d.state.DispatchDenied?
    && (d.state != DispatchConfirmedNotSent ==> d.evidence.None?)
  }

  function ExposeOperation(db: DB, o: Id): (out: DB)
    requires o in db.work.operations
    ensures o in out.work.operations
    ensures var a, b := db.work.operations[o], out.work.operations[o];
            && out == db.(work := db.work.(operations := db.work.operations[o := b]))
            && b == a.(finance := b.finance, revision := b.revision)
            && (b.finance == FinanceSettled ==> a.finance == FinanceSettled)
  {
    if db.work.operations[o].finance == FinanceExposureUnknown then db
    else PutOperation(db, o, db.work.operations[o].(finance := FinanceExposureUnknown).Transition())
  }

  /** internal/application/recovery_reconciliation.go:182-243: the exposure is held
      again on every allocation of the operation. */
  function RestoreDispatch(c: Config, db: DB, d: Id, b: DispatchBinding, epoch: nat): (r: Result<DB>)
    ensures r.Ok? ==>
        r.value == db.(work := r.value.work, ledger := r.value.ledger,
                       money := db.money.(allocations := r.value.money.allocations, caps := r.value.money.caps))
  {
    var owned :- RestoreOperation(c, db, b.operation, Anonymous(b.tenant, None, b.admittedAt, b.epoch), epoch);
    var attempted := RestoreAttempt(owned, b.attempt, AttemptBinding(b.operation, b.tenant, None, b.epoch, b.deadline));
    if d in db.ledger.dispatches then Ok(attempted)
    else
      var inserted :- Admission.InsertDispatch(attempted, d, RestoredDispatch(b));
      var held :- MoveBudget(inserted, b.operation, ToRestore, b.reserved);
      Ok(ExposeOperation(held, b.operation))
  }

  /** A lost mutation comes back unknown; the expiry of its lease is not part of the
      obligation (internal/application/recovery_reconciliation.go:250-256). */
  function RestoredEffect(b: EffectBinding): Effect {
    Effect(b, None, EffectUnknown, None, None, InventoryConfirmed)
  }

  predicate RemnantEffect(e: Effect) { e.leaseExpiresAt.None? && !e.state.EffectPrepared? && !e.state.EffectDenied? }

  /** internal/application/recovery_reconciliation.go:244-262. */
  function RestoreEffect(c: Config, db: DB, e: Id, b: EffectBinding, epoch: nat): (r: Result<DB>)
    ensures r.Ok? ==> r.value == db.(work := r.value.work, guarded := r.value.guarded)
  {
    var owned :- RestoreOperation(c, db, b.operation, Anonymous(b.tenant, None, b.createdAt, b.epoch), epoch);
    if e in db.guarded.effects then Ok(owned) else Effects.InsertEffect(owned, e, RestoredEffect(b))
  }

  function RestoreBody(c: Config, db: DB, id: Id, body: Body, epoch: nat): (r: Result<DB>)
    ensures r.Ok? ==>
        r.value == db.(work := r.value.work, ledger := r.value.ledger,
                       money := db.money.(allocations := r.value.money.allocations, caps := r.value.money.caps),
                       guarded := r.value.guarded)
  {
    match body
    case IntakeBody(b) => RestoreOperation(c, db, id, b, epoch)
    case LaunchBody(b) => RestoreLaunch(c, db, id, b, epoch)
    case DispatchBody(b) => RestoreDispatch(c, db, id, b, epoch)
    case EffectBody(b) => RestoreEffect(c, db, id, b, epoch)
  }

  /** The body an obligation of the class decodes to
      (internal/application/obligations.go:213-285). */
  predicate Decodes(k: Key, body: Body) {
    match body
    case IntakeBody(_) => k.category == ClassIntake
    case LaunchBody(_) => k.category == ClassJobLaunch
    case DispatchBody(b) => k.category == DispatchClass(b.kind)
    case EffectBody(_) => k.category == ClassBusinessWrite
  }

  /** internal/application/recovery_reconciliation.go:138-271: one lost identity, with
      its finding; the body is the object the inventory holds. */
  function Restore(c: Config, db: DB, f: FindingKey, body: Body): (r: Result<DB>)
    ensures r.Ok? ==>
        r.value == db.(recovery := r.value.recovery, work := r.value.work, ledger := r.value.ledger,
                       money := db.money.(allocations := r.value.money.allocations, caps := r.value.money.caps),
                       guarded := r.value.guarded)
  {
    if f.run !in db.recovery.runs || f !in db.recovery.findings then Err(NotFound)
    else if !Decodes(f.key, body) || body.Tenant() != db.recovery.findings[f].tenant then Err(Integrity)
    else if db.recovery.findings[f].status != FindingMissing then Ok(db)
    else
      var restored :- RestoreBody(c, db, f.key.id, body, db.recovery.runs[f.run].epoch);
      Ok(restored.(recovery := restored.recovery.(findings := db.recovery.findings[f := db.recovery.findings[f].(
        status := if body.IntakeBody? then FindingResolved else FindingRestored)])))
  }

  // ---------- settling findings ----------

  predicate RowPresent(db: DB, k: Key) {
    match k.category
    case ClassIntake => k.id in db.work.operations
    case ClassJobLaunch => k.id in db.work.launches
    case ClassBusinessWrite => k.id in db.guarded.effects
    case _ => k.id in db.ledger.dispatches
  }

  /** What the records themselves prove: a definite dispatch or effect, a closed
      launch attempt (internal/application/recovery_reconciliation.go:88-116,367-438,490-564). */
  predicate RowSettled(db: DB, k: Key) {
    RowPresent(db, k) &&
    match k.category
    case ClassIntake => true
    case ClassJobLaunch =>
        var a := db.work.launches[k.id].bind.attempt; a in db.work.attempts && db.work.attempts[a].Closed()
    case ClassBusinessWrite => !db.guarded.effects[k.id].Unresolved()
    case _ => var s := db.ledger.dispatches[k.id].state;
        s == DispatchObserved || s == DispatchConfirmedNotSent || s == DispatchDenied
  }

  /** A send or a mutation is settled for its own tenant
      (internal/application/recovery_reconciliation.go:376-378,399-402,
      internal/application/effects.go:320-322). */
  predicate OfTenant(db: DB, k: Key, tenant: Name) {
    match k.category
    case ClassIntake | ClassJobLaunch => true
    case ClassBusinessWrite => k.id in db.guarded.effects ==> db.guarded.effects[k.id].bind.tenant == tenant
    case _ => k.id in db.ledger.dispatches ==> db.ledger.dispatches[k.id].bind.tenant == tenant
  }

  /** internal/application/recovery_reconciliation.go:415-438: only a disposition is
      kept; a lost identity is restored first. */
  function SettleFinding(db: DB, f: FindingKey, status: FindingStatus): (out: Result<DB>)
    ensures out.Ok? ==> out.value == db.(recovery := db.recovery.(findings := out.value.recovery.findings))
  {
    if f !in db.recovery.findings || !RowPresent(db, f.key) then Err(NotFound)
    else if !OfTenant(db, f.key, db.recovery.findings[f].tenant) then
      Err(if f.key.category == ClassBusinessWrite then NotFound else Integrity)
    else if db.recovery.findings[f].status == FindingMissing then Err(StaleExecution)
    else if db.recovery.findings[f].status == FindingDisposed then Ok(db)
    else if status == FindingResolved && !RowSettled(db, f.key) then Err(EffectUncertain)
    else if status == FindingResolved || status == FindingUnresolved || status == FindingRestored then
      var finding := db.recovery.findings[f].(status := status);
      Ok(db.(recovery := db.recovery.(findings := db.recovery.findings[f := finding])))
    else Err(Invalid)
  }

  /** internal/application/recovery_reconciliation.go:121-134. */
  function ConfirmRestoredLaunch(db: DB, l: Id): (out: Result<DB>)
    ensures out.Ok? ==> out.value == db.(work := out.value.work)
  {
    if l !in db.work.launches then Err(NotFound)
    else
      var launch := db.work.launches[l].(inventory := InventoryConfirmed);
      Ok(db.(work := db.work.(launches := db.work.launches[l := launch])))
  }

  // ---------- dispositions ----------

  datatype DispositionRequest = DispositionRequest(
    key: Key, decision: Decision, tenant: Name, command: Name, evidence: Name, epoch: nat, run: Option<Id>)

  predicate Applies(category: Class, decision: Decision) {
    match category
    case ClassIntake | ClassJobLaunch => decision == DisposeRetainExposure
    case ClassModelDispatch | ClassToolDispatch =>
        decision == DisposeConfirmNotSent || decision == DisposeRetainExposure
    case ClassBusinessWrite => true
  }

  /** The operation an obligation binds. */
  function OperationFor(db: DB, k: Key): Option<Id> {
    match k.category
    case ClassIntake => Some(k.id)
    case ClassJobLaunch => if k.id in db.work.launches then Some(db.work.launches[k.id].bind.operation) else None
    case ClassBusinessWrite =>
        if k.id in db.guarded.effects then Some(db.guarded.effects[k.id].bind.operation) else None
    case _ => if k.id in db.ledger.dispatches then Some(db.ledger.dispatches[k.id].bind.operation) else None
  }

  /** internal/application/recovery_disposition.go:243-262. */
  predicate Unrestorable(db: DB, req: DispositionRequest) {
    && req.run.Some? && req.run.value in db.recovery.runs
    && req.decision == DisposeRetainExposure
    && db.recovery.runs[req.run.value].scope == ScopeTenant(req.tenant)
    && FindingKey(req.run.value, req.key) in db.recovery.findings
  }

  const DISPOSITION: Name := 0

  /** The obligation's own change (internal/application/recovery_disposition.go:144-205). */
  function ApplyDecision(db: DB, req: DispositionRequest): (r: Result<DB>)
    ensures r.Ok? ==>
        r.value == db.(ledger := r.value.ledger,
            money := db.money.(allocations := r.value.money.allocations, caps := r.value.money.caps),
            work := db.work.(operations := r.value.work.operations),
        guarded := r.value.guarded)
  {
    match req.key.category
    case ClassModelDispatch | ClassToolDispatch =>
      if req.decision == DisposeConfirmNotSent then Admission.ConfirmNotSent(db, req.key.id, req.evidence,
          Some(req.epoch)) else Ok(db)
    case ClassBusinessWrite =>
      if req.decision == DisposeRetainExposure then Ok(db)
      else if req.key.id !in db.guarded.effects then Err(NotFound)
      else if req.decision == DisposeConfirmNotSent then
        var confirmed :- Effects.ConfirmRecordNotSent(db.guarded.effects[req.key.id], req.evidence);
        Ok(Effects.UpdateEffect(db, req.key.id, confirmed))
      else if (req.key.id, DISPOSITION, req.epoch) in db.guarded.effectReports then Ok(db)
      else
        var outcome := if req.decision == DisposeResolveSucceeded then EffectOutcomeSucceeded else EffectOutcomeFailed;
        var observed :- Effects.ObserveOutcome(db.guarded.effects[req.key.id], outcome, Some(ReceiptRef(req.evidence)));
        Ok(Effects.UpdateEffect(db.(guarded := db.guarded.(effectReports := db.guarded.effectReports + {(req.key.id,
            DISPOSITION, req.epoch)})), req.key.id, observed))
    case _ => Ok(db)
  }

  /** internal/application/recovery_disposition.go:38-236: bound says whether the read
      before the evidence check found the obligation's operation; the epoch is checked
      again under its lock, or under the run's when there was none. */
  function Dispose(db: DB, req: DispositionRequest, bound: bool): (r: Result<DB>)
    ensures r.Ok? ==>
        r.value == db.(recovery := r.value.recovery, ledger := r.value.ledger,
                       money := db.money.(allocations := r.value.money.allocations, caps := r.value.money.caps),
                       work := db.work.(operations := r.value.work.operations), guarded := r.value.guarded)
  {
    var o := OperationFor(db, req.key);
    if !Applies(req.key.category, req.decision) then Err(Invalid)
    else if req.key in db.recovery.dispositions then
      var other := db.recovery.dispositions[req.key];
      if other == Disposition(req.tenant, req.command, req.decision, req.evidence) then Ok(db)
          else Err(IdempotencyConflict)
    else if bound && (o.None? || o.value !in db.work.operations
                      || db.work.operations[o.value].bind.tenant != req.tenant) then Err(NotFound)
    else if bound && db.work.operations[o.value].recoveryEpoch != req.epoch then Err(StaleExecution)
    else if !bound && !Unrestorable(db, req) then Err(NotFound)
    else if !bound && db.recovery.runs[req.run.value].epoch != req.epoch then Err(StaleExecution)
    else
      var decided :- ApplyDecision(db, req);
      var made := db.recovery.dispositions[req.key := Disposition(req.tenant, req.command, req.decision, req.evidence)];
      var disposed := decided.(recovery := decided.recovery.(dispositions := made));
      if req.run.None? then Ok(disposed)
      else
        var f := FindingKey(req.run.value, req.key);
        if f !in db.recovery.findings || db.recovery.findings[f].status.Settled() then Ok(disposed)
        else
          var finding := db.recovery.findings[f].(status := FindingDisposed);
          Ok(disposed.(recovery := disposed.recovery.(findings := db.recovery.findings[f := finding])))
  }

  // ---------- the gate ----------

  predicate UnsettledRow(db: DB, r: Id, f: FindingKey) {
    f in db.recovery.findings && f.run == r && !db.recovery.findings[f].status.Settled()
  }

  predicate HasUnsettled(db: DB, r: Id) {
    exists f | f in db.recovery.findings :: UnsettledRow(db, r, f)
  }

  predicate MayReopen(db: DB, r: Id) {
    AllComplete(db, r) && !HasUnsettled(db, r)
  }

  function Reopened(db: DB, r: Id): map<ScopeKey, Closure> {
    map s | s in db.recovery.closures ::
        if r in db.recovery.runs && s == db.recovery.runs[r].scope && db.recovery.closures[s].run == r
        then db.recovery.closures[s].(open := false) else db.recovery.closures[s]
  }

  /** internal/application/recovery.go:300-342. */
  function Evaluate(db: DB, r: Id): (out: Result<DB>)
    ensures out.Ok? ==>
        out.value == db.(recovery := db.recovery.(runs := out.value.recovery.runs,
                                                  closures := out.value.recovery.closures))
  {
    if r !in db.recovery.runs then Err(NotFound)
    else
      var run := db.recovery.runs[r];
      if run.phase == RecoveryReopened then Ok(db)
      else if !AllComplete(db, r) then
        if run.phase == RecoveryFenced then Ok(db)
            else Ok(db.(recovery := db.recovery.(runs := db.recovery.runs[r := run.(phase := RecoveryEnumerating)])))
      else if HasUnsettled(db, r)
          then Ok(db.(recovery := db.recovery.(runs := db.recovery.runs[r := run.(phase := RecoveryRestricted)])))
      else Ok(db.(recovery := db.recovery.(runs := db.recovery.runs[r := run.(phase := RecoveryReopened)],
                                           closures := Reopened(db, r))))
  }
}
