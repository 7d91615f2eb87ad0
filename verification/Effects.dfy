/** Permits of guarded mutations: the rules, the record's own moves and the
    transactions around the inventory write (internal/domain/effect.go,
    internal/application/effects.go), with the checks a release adds
    (internal/domain/release.go). */
module Effects {
  import opened Values
  import opened Records
  import opened Database

  datatype EffectRequest = EffectRequest(
    operation: Id, attempt: Option<Id>, owner: Option<Name>, kind: EffectKind, occurrence: nat,
    subject: Option<CanonicalSubject>, expectedRevision: Option<Name>, digest: Name, epoch: nat,
    leaseId: Option<Name>, leaseFence: nat, leaseExpiresAt: Option<Time>, deadline: Time)

  /** The ledger rows a release names, and the projection. */
  datatype EffectContext = EffectContext(
    now: Time, operation: Operation, attempt: Option<Attempt>, closed: bool, leaseRequired: bool,
    release: Option<Release>, effects: map<Id, Effect>)

  // ---------- what a release adds ----------

  /** internal/domain/release.go:321-338: a succeeded target is a succeeded effect of
      this operation, of the target's kind and subject, whose outcome is the receipt. */
  predicate TargetBacked(o: Id, name: TargetName, t: ReleaseTarget, digest: SubjectDigest, effects: map<Id, Effect>) {
    && t.effect.Some? && t.effect.value in effects
    && var e := effects[t.effect.value];
       && e.bind.operation == o
       && e.bind.kind == (if name == TargetActivation then EffectActivation else EffectPublication)
       && e.bind.subject == Some(ReleaseMutation(digest, name))
       && e.state == EffectSucceeded
       && t.receiptDigest.Some? && e.outcomeRef == Some(ReceiptRef(t.receiptDigest.value))
  }

  /** internal/domain/release.go:343-352. */
  predicate ReviewBacked(o: Id, digest: SubjectDigest, review: Option<Id>, effects: map<Id, Effect>) {
    && review.Some? && review.value in effects
    && var e := effects[review.value];
       && e.bind.operation == o && e.bind.kind == EffectReview
       && e.state == EffectSucceeded && e.outcomeRef == Some(ReviewedSubject(digest))
  }

  /** internal/domain/release.go:522-557. */
  function CheckReleaseEffect(req: EffectRequest, c: EffectContext): Check {
    if c.operation.bind.kind != KindRelease then
      Refuse(req.kind == EffectPublication || req.kind == EffectActivation || req.kind == EffectReview,
             DenyInvalidArgument)
    else
      match req.kind
      case EffectPublication =>
        if c.release.None? || !c.release.value.facts.Approved() then Fail(Denied(DenyApprovalRequired))
        else
          var facts := c.release.value.facts;
          var digest := facts.subject.value.digest;
          Refuse(!ReviewBacked(req.operation, digest, facts.reviewEffect, c.effects), DenyApprovalRequired)
          .Then(Refuse(req.subject != Some(ReleaseMutation(digest, TargetNpm))
                       && req.subject != Some(ReleaseMutation(digest, TargetBrowser)),
                       DenyApprovalRequired))
      case EffectActivation =>
        if c.release.None? || !c.release.value.facts.BothPublished() then Fail(Denied(DenyReceiptsRequired))
        else
          var facts := c.release.value.facts;
          var digest := facts.subject.value.digest;
          Refuse(!TargetBacked(req.operation, TargetNpm, facts.npm, digest, c.effects)
                 || !TargetBacked(req.operation, TargetBrowser, facts.browser, digest, c.effects), DenyReceiptsRequired)
          .Then(Refuse(req.subject != Some(ReleaseMutation(digest, TargetActivation)), DenyReceiptsRequired))
      case _ => Pass
  }

  // ---------- the rules ----------

  function Earlier(a: Time, b: Time): Time { if b < a then b else a }

  /** The attempt of a request that names one, or why it does not bind. */
  function CheckEffectAttempt(req: EffectRequest, c: EffectContext): Check {
    if req.attempt.None? then Pass
    else if c.attempt.None? || c.attempt.value.bind.operation != req.operation then Fail(NotFound)
    else
      var at := c.attempt.value;
      Refuse(at.bind.epoch != c.operation.executionEpoch || at.state == AttemptClosed
             || at.state == AttemptResultAccepted,
             DenyStaleExecution)
  }

  /** A deadline never extends the operation's, the attempt's or the lease's. */
  function DeadlineBound(req: EffectRequest, c: EffectContext): Time {
    var op := c.operation.EffectiveDeadline();
    var at := if req.attempt.Some? && c.attempt.Some? then Earlier(op, c.attempt.value.bind.deadline) else op;
    if req.leaseId.Some? && req.leaseExpiresAt.Some? then Earlier(at, req.leaseExpiresAt.value) else at
  }

  function CheckEffectLease(req: EffectRequest, c: EffectContext): Check {
    Refuse(req.leaseId.Some? && req.leaseExpiresAt.Some? && req.leaseExpiresAt.value <= c.now, DenyStaleExecution)
    .Then(Refuse(c.leaseRequired && req.kind == EffectBusinessWrite
                 && (!c.operation.lease.Valid(c.now) || req.leaseId != c.operation.lease.id
                     || req.leaseFence != c.operation.lease.fence),
                 DenyStaleExecution))
  }

  /** internal/domain/effect.go:144-210, in its order. */
  function CheckEffect(req: EffectRequest, c: EffectContext): Check {
    Refuse(req.owner.None? || req.subject.None? || req.occurrence == 0, DenyInvalidArgument)
    .Then(CheckReleaseEffect(req, c))
    .Then(Refuse(c.closed, DenyRecoveryRestricted))
    .Then(Refuse(req.epoch != c.operation.executionEpoch || c.operation.FencedForNewDispatch()
                 || c.now >= c.operation.EffectiveDeadline(), DenyStaleExecution))
    .Then(CheckEffectAttempt(req, c))
    .Then(Refuse(req.deadline <= c.now || req.deadline > DeadlineBound(req, c), DenyStaleExecution))
    .Then(CheckEffectLease(req, c))
  }

  // ---------- the record ----------

  /** internal/domain/effect.go:217-225. */
  function NewEffect(req: EffectRequest, tenant: Name, command: Name, now: Time): Effect {
    Effect(EffectBinding(tenant, req.operation, req.attempt, req.kind, req.occurrence, command, req.owner, req.subject,
                         req.expectedRevision, req.digest, req.epoch, req.leaseId, req.leaseFence, req.deadline, now),
           req.leaseExpiresAt, EffectPrepared, None, None, InventoryPending)
  }

  /** The binding a recheck runs against (internal/domain/effect.go:239-245). */
  function RequestOf(e: Effect): EffectRequest {
    var b := e.bind;
    EffectRequest(b.operation, b.attempt, b.owner, b.kind, b.occurrence, b.subject, b.expectedRevision, b.digest,
                  b.epoch,
                  b.leaseId, b.leaseFence, e.leaseExpiresAt, b.deadline)
  }

  /** internal/domain/effect.go:251-282: every field of the request is bound. */
  function Binds(e: Effect, tenant: Name, req: EffectRequest): Check {
    Require(e.bind.tenant == tenant, NotFound).Then(Require(RequestOf(e) == req, IdempotencyConflict))
  }

  /** internal/domain/effect.go:286-292. */
  function Permit(e: Effect): Result<Effect> {
    if e.state != EffectPrepared then Err(StaleExecution)
    else Ok(e.(state := EffectPermitted, inventory := InventoryConfirmed))
  }

  /** internal/domain/effect.go:295-301, with the confirmed inventory the caller
      records beside it (internal/application/effects.go:266-272). */
  function Deny(e: Effect, code: DenialCode): Result<Effect> {
    if e.state != EffectPrepared then Err(StaleExecution)
    else Ok(e.(state := EffectDenied, denial := Some(code), inventory := InventoryConfirmed))
  }

  /** internal/domain/effect.go:309-330. */
  function ObserveOutcome(e: Effect, outcome: EffectOutcome, receipt: Option<OutcomeRef>): Result<Effect> {
    match e.state
    case EffectSucceeded | EffectFailed => Ok(e)
    case EffectPermitted | EffectUnknown =>
      if outcome == EffectOutcomeUnknown then Ok(e.(state := EffectUnknown))
      else if receipt.None? then Err(EvidenceInsufficient)
      else Ok(e.(state := if outcome == EffectOutcomeSucceeded then EffectSucceeded else EffectFailed,
                 outcomeRef := receipt))
    case _ => Err(StaleExecution)
  }

  /** internal/domain/effect.go:335-348. */
  function ConfirmRecordNotSent(e: Effect, evidence: Name): Result<Effect> {
    match e.state
    case EffectConfirmedNotSent =>
        if e.outcomeRef == Some(NotSentRef(evidence)) then Ok(e) else Err(IdempotencyConflict)
    case EffectPrepared | EffectPermitted | EffectUnknown =>
      Ok(e.(state := EffectConfirmedNotSent, outcomeRef := Some(NotSentRef(evidence))))
    case _ => Err(StaleExecution)
  }

  // ---------- the transactions ----------

  /** The rows a release names among the ledger (internal/application/releases.go:110-126). */
  function NamedEffects(db: DB, names: set<Option<Id>>): map<Id, Effect> {
    map e | e in db.guarded.effects && Some(e) in names :: db.guarded.effects[e]
  }

  function NamesOf(r: ReleaseFacts): set<Option<Id>> {
    {r.reviewEffect, r.npm.effect, r.browser.effect, r.activation.effect}
  }

  /** internal/application/effects.go:60-95. */
  function LoadContext(c: Config, db: DB, o: Id, attempt: Option<Id>, tenant: Name, now: Time): Result<EffectContext> {
    if o !in db.work.operations || db.work.operations[o].bind.tenant != tenant then Err(NotFound)
    else
      var op := db.work.operations[o];
      var release := if op.bind.kind == KindRelease && o in db.policy.releases then Some(db.policy.releases[o])
          else None;
      Ok(EffectContext(now, op, if attempt.Some? then AttemptOf(db, attempt.value) else None,
                       AdmissionClosed(db, op.bind.tenant), c.LeaseRequired(op), release,
                       if release.Some? then NamedEffects(db, NamesOf(release.value.facts)) else map[]))
  }

  function OccurrenceOf(b: EffectBinding): OccurrenceKey { OccurrenceKey(b.operation, b.kind, b.occurrence) }

  function CommandOf(b: EffectBinding): CommandKey { CommandKey(b.tenant, b.command) }

  function InsertEffect(db: DB, id: Id, e: Effect): (r: Result<DB>)
    ensures r.Ok? ==> r.value == db.(guarded := r.value.guarded)
  {
    if id in db.guarded.effects || CommandOf(e.bind) in db.guarded.effectCommands
        || OccurrenceOf(e.bind) in db.guarded.effectOccurrences then Err(DuplicateKey)
    else Ok(db.(guarded := db.guarded.(effects := db.guarded.effects[id := e],
                                       effectCommands := db.guarded.effectCommands[CommandOf(e.bind) := id],
                                       effectOccurrences := db.guarded.effectOccurrences[OccurrenceOf(e.bind) := id])))
  }

  function UpdateEffect(db: DB, id: Id, e: Effect): DB {
    db.(guarded := db.guarded.(effects := db.guarded.effects[id := e]))
  }

  datatype PreparedEffect = PreparedEffect(db: DB, id: Id, effect: Effect, proceed: bool)

  function Reenter(db: DB, id: Id, tenant: Name, req: EffectRequest): Result<PreparedEffect>
    requires id in db.guarded.effects
  {
    var e := db.guarded.effects[id];
    match Binds(e, tenant, req)
    case Fail(error) => Err(error)
    case Pass => Ok(PreparedEffect(db, id, e, e.state == EffectPrepared))
  }

  /** internal/application/effects.go:158-228. */
  function PermitPrepare(c: Config, db: DB, id: Id, tenant: Name, command: Name, req: EffectRequest,
                         now: Time): (r: Result<PreparedEffect>)
    ensures r.Ok? ==> r.value.db == db.(guarded := r.value.db.guarded)
  {
    var byCommand := CommandKey(tenant, command);
    var byOccurrence := OccurrenceKey(req.operation, req.kind, req.occurrence);
    if byCommand in db.guarded.effectCommands && db.guarded.effectCommands[byCommand] in db.guarded.effects then
      Reenter(db, db.guarded.effectCommands[byCommand], tenant, req)
    else
      var ctx :- LoadContext(c, db, req.operation, req.attempt, tenant, now);
      if byOccurrence in db.guarded.effectOccurrences
          && db.guarded.effectOccurrences[byOccurrence] in db.guarded.effects then
        var other := db.guarded.effectOccurrences[byOccurrence];
        if db.guarded.effects[other].bind.command != command then Err(IdempotencyConflict)
            else Reenter(db, other, tenant, req)
      else
        var prepared := NewEffect(req, tenant, command, now);
        match CheckEffect(req, ctx)
        case Fail(Denied(code)) =>
          var denied := prepared.(state := EffectDenied, denial := Some(code));
          var recorded :- InsertEffect(db, id, denied);
          Ok(PreparedEffect(recorded, id, denied, false))
        case Fail(e) => Err(e)
        case Pass =>
          var recorded :- InsertEffect(db, id, prepared);
          Ok(PreparedEffect(recorded, id, prepared, true))
  }

  datatype PermittedEffect = PermittedEffect(db: DB, permitted: bool)

  /** internal/application/effects.go:240-286: the rules run again against the
      persisted binding. */
  function PermitConsume(c: Config, db: DB, id: Id, copy: Effect, tenant: Name, req: EffectRequest,
                         now: Time): (r: Result<PermittedEffect>)
    ensures r.Ok? ==> r.value.db == db.(guarded := r.value.db.guarded)
  {
    var ctx :- LoadContext(c, db, copy.bind.operation, copy.bind.attempt, tenant, now);
    if id !in db.guarded.effects then Err(NotFound)
    else
      var locked := db.guarded.effects[id];
      match Binds(locked, tenant, req)
      case Fail(e) => Err(e)
      case Pass =>
        if locked.state != EffectPrepared then Ok(PermittedEffect(db, false))
        else
          match CheckEffect(RequestOf(locked), ctx)
          case Fail(Denied(code)) =>
            var denied := Deny(locked, code).value;
            Ok(PermittedEffect(UpdateEffect(db, id, denied), false))
          case Fail(e) => Err(e)
          case Pass =>
            var permitted := Permit(locked).value;
            Ok(PermittedEffect(UpdateEffect(db, id, permitted), true))
  }

  /** internal/application/effects.go:288-300. */
  function MarkEffectUncertain(db: DB, id: Id): (r: Result<DB>)
    ensures r.Ok? ==> r.value == db.(guarded := r.value.guarded)
  {
    if id !in db.guarded.effects then Err(NotFound)
    else
      var e := db.guarded.effects[id];
      if e.state != EffectPrepared || e.inventory != InventoryPending then Ok(db)
      else Ok(UpdateEffect(db, id, e.(inventory := InventoryUncertain)))
  }

  /** internal/application/effects.go:333-366. */
  function Observe(db: DB, tenant: Name, id: Id, source: Name, sequence: nat, outcome: EffectOutcome,
                   receipt: Option<OutcomeRef>): (r: Result<DB>)
    ensures r.Ok? ==> r.value == db.(guarded := r.value.guarded)
  {
    if id !in db.guarded.effects || db.guarded.effects[id].bind.tenant != tenant
        || db.guarded.effects[id].bind.operation !in db.work.operations then Err(NotFound)
    else if (id, source, sequence) in db.guarded.effectReports then Ok(db)
    else
      var observed :- ObserveOutcome(db.guarded.effects[id], outcome, receipt);
      Ok(UpdateEffect(db.(guarded := db.guarded.(effectReports := db.guarded.effectReports + {(id, source,
          sequence)})), id, observed))
  }
}
