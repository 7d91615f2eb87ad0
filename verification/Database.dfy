/** The tables of one database, with the unique indexes the application relies on,
    and the queries its transactions make. */
module Database {
  import opened Values
  import opened Budget
  import opened Records

  /** What a deployment fixes: reviewed profiles, published prices (a revision never
      changes), execution pools and whether caps are required. */
  datatype Config = Config(
    profiles: map<Name, Profile>, prices: map<Name, Price>, resources: map<Name, ResourcePool>, capsRequired: bool)
  {
    function ProfileOf(op: Operation): Profile {
      if op.bind.profile.Some? && op.bind.profile.value in profiles then profiles[op.bind.profile.value]
          else UnknownProfile
    }
    predicate MultiStep(op: Operation) { ProfileOf(op).multiStep }
    predicate LeaseRequired(op: Operation) { ProfileOf(op).queuePool.Some? }
    function PriceOf(revision: Option<Name>): Option<Price> {
      if revision.Some? && revision.value in prices then Some(prices[revision.value]) else None
    }
  }

  /** Operations and the attempts made for them. */
  datatype Work = Work(
    operations: map<Id, Operation>, attempts: map<Id, Attempt>, instances: map<Id, Instance>,
    stages: map<Id, Verdict>, launches: map<Id, Launch>)

  /** Commands, stored settlement intents, execution permits and funding receipts. */
  datatype Control = Control(
    settlements: map<Id, SettlementIntent>, commands: map<CommandKey, Command>, permits: map<PermitKey, Permit>,
        funded: set<Id>)

  /** Dispatches, the unique index of their calls, and their usage and cost. */
  datatype Ledger = Ledger(dispatches: map<Id, Dispatch>, calls: map<CallKey, Id>, meters: map<Id, Meter>)

  /** Allocations by operation, what each returned to its pool, and the caps. */
  datatype Treasury = Treasury(
    allocations: map<Id, seq<AllocationRow>>, pools: map<Id, Pool>, returned: map<Id, map<Id, int>>, caps: map<CapKey,
        CostCapRow>)

  /** Guarded mutations, their two unique indexes, and the reports applied to them. */
  datatype Guarded = Guarded(
    effects: map<Id, Effect>, effectCommands: map<CommandKey, Id>, effectOccurrences: map<OccurrenceKey, Id>,
    effectReports: set<(Id, Name, nat)>)

  datatype Policy = Policy(releases: map<Id, Release>, grants: map<GrantKey, GrantPolicy>)

  datatype Recoveries = Recoveries(
    runs: map<Id, RecoveryRun>, progress: map<ProgressKey, Progress>, findings: map<FindingKey, Finding>,
    dispositions: map<Key, Disposition>, closures: map<ScopeKey, Closure>)

  datatype DB = DB(
    work: Work, control: Control, ledger: Ledger, money: Treasury, guarded: Guarded, policy: Policy,
        recovery: Recoveries)

  const Empty := DB(
    Work(map[], map[], map[], map[], map[]), Control(map[], map[], map[], {}), Ledger(map[], map[], map[]),
    Treasury(map[], map[], map[], map[]), Guarded(map[], map[], map[], {}), Policy(map[], map[]),
    Recoveries(map[], map[], map[], map[], map[]))

  // ---------- reads ----------

  function AllocationsOf(db: DB, o: Id): seq<AllocationRow> {
    if o in db.money.allocations then db.money.allocations[o] else []
  }

  function ReturnsOf(db: DB, o: Id): map<Id, int> {
    if o in db.money.returned then db.money.returned[o] else map[]
  }

  function MeterOf(db: DB, d: Id): Meter {
    if d in db.ledger.meters then db.ledger.meters[d] else NoMeter
  }

  function DispatchByCall(db: DB, k: CallKey): Option<Dispatch> {
    if k in db.ledger.calls && db.ledger.calls[k] in db.ledger.dispatches
        then Some(db.ledger.dispatches[db.ledger.calls[k]]) else None
  }

  function AttemptOf(db: DB, a: Id): Option<Attempt> {
    if a in db.work.attempts then Some(db.work.attempts[a]) else None
  }

  /** A closure of every scope closes each tenant
      (internal/adapters/postgres/queries/recovery.sql:80-81). */
  predicate ScopeOpenClosure(db: DB, s: ScopeKey) {
    s in db.recovery.closures && db.recovery.closures[s].open
  }

  predicate AdmissionClosed(db: DB, tenant: Name) {
    ScopeOpenClosure(db, ScopeAll) || ScopeOpenClosure(db, ScopeTenant(tenant))
  }

  predicate OpenAttemptRow(db: DB, o: Id, a: Id) {
    a in db.work.attempts && db.work.attempts[a].bind.operation == o && !db.work.attempts[a].Closed()
  }

  predicate HasOpenAttempt(db: DB, o: Id) {
    exists a | a in db.work.attempts :: OpenAttemptRow(db, o, a)
  }

  predicate UncertainAttemptRow(db: DB, o: Id, a: Id) {
    a in db.work.attempts && db.work.attempts[a].bind.operation == o && db.work.attempts[a].Uncertain()
  }

  predicate HasUnknownAttempt(db: DB, o: Id, except: Option<Id>) {
    exists a | a in db.work.attempts :: UncertainAttemptRow(db, o, a) && Some(a) != except
  }

  predicate HeldRow(db: DB, o: Id, d: Id) {
    d in db.ledger.dispatches && db.ledger.dispatches[d].bind.operation == o && db.ledger.dispatches[d].state.Held()
  }

  predicate HasUnsettledDispatch(db: DB, o: Id) {
    exists d | d in db.ledger.dispatches :: HeldRow(db, o, d)
  }

  predicate UnresolvedEffectRow(db: DB, o: Id, e: Id) {
    e in db.guarded.effects && db.guarded.effects[e].bind.operation == o && db.guarded.effects[e].Unresolved()
  }

  predicate HasUnresolvedEffect(db: DB, o: Id) {
    exists e | e in db.guarded.effects :: UnresolvedEffectRow(db, o, e)
  }

  /** internal/application/effects.go:398-404. */
  predicate SendersActing(db: DB, o: Id) {
    HasUnresolvedEffect(db, o) || HasUnsettledDispatch(db, o)
  }

  predicate HasUnknownDispatch(db: DB, o: Id) {
    exists d | d in db.ledger.dispatches ::
        db.ledger.dispatches[d].bind.operation == o && db.ledger.dispatches[d].state == DispatchUnknown
  }

  /** A call's actual cost above its reservation fences new admission
      (internal/adapters/postgres/queries/dispatch.sql:63-68). */
  predicate HasOverspend(db: DB, o: Id) {
    exists d | d in db.ledger.dispatches ::
      && db.ledger.dispatches[d].bind.operation == o
      && (db.ledger.dispatches[d].state.Sending() || db.ledger.dispatches[d].state == DispatchObserved)
      && MeterOf(db, d).charged > db.ledger.dispatches[d].bind.reserved.amount
  }

  function ActivePermits(db: DB, pool: Name): set<PermitKey> {
    set k | k in db.control.permits && k.pool == pool && db.control.permits[k].active
  }

  predicate HoldsPermit(db: DB, pool: Name, o: Id) {
    PermitKey(pool, o) in db.control.permits && db.control.permits[PermitKey(pool, o)].active
  }

  // ---------- writes ----------

  function PutOperation(db: DB, o: Id, op: Operation): (r: DB)
    ensures o in r.work.operations && r == db.(work := db.work.(operations := r.work.operations))
  {
    db.(work := db.work.(operations := db.work.operations[o := op]))
  }

  /** Moves the reservation or consumed cost of an operation on its allocations and
      on the caps that shadow them (internal/application/budget.go:42-97). */
  function MoveBudget(db: DB, o: Id, what: Movement, m: Money): (r: Result<DB>)
    requires o in db.work.operations
    ensures r.Ok? ==>
        r.value == db.(money := db.money.(allocations := r.value.money.allocations, caps := r.value.money.caps))
  {
    var bind := db.work.operations[o].bind;
    var allocs :- MoveAll(AllocationsOf(db, o), what, m);
    var caps :- MoveCaps(db.money.caps, bind.tenant, bind.project, what, m);
    Ok(db.(money := db.money.(allocations := db.money.allocations[o := allocs], caps := caps)))
  }

  /** Releases the permits of an operation
      (internal/adapters/postgres/queries/generation.sql:24-26). */
  function ReleasePermits(db: DB, o: Id): DB {
    db.(control := db.control.(permits := map k | k in db.control.permits ::
        if k.operation == o then db.control.permits[k].(active := false) else db.control.permits[k]))
  }
}
