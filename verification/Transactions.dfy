/** Every transaction of the application, grouped by the tables it may write. A
    transaction is one atomic step; one that answers an error changes nothing. */
module Transactions {
  import opened Values
  import opened Budget
  import opened Records
  import opened Database
  import Admission
  import Effects
  import Releases
  import Grants
  import Execution
  import Finance
  import Recovery

  /** A call in flight between its two transactions: the record its first one
      answered, and the request it was made with. */
  datatype Call = Call(id: Id, copy: Dispatch, tenant: Name, req: Admission.Request)
  {
    /** What the first transaction answers is bound to the request. */
    predicate Bound() {
      && copy.bind.tenant == tenant && copy.bind.kind == req.kind && copy.bind.owner == req.owner
          && copy.bind.call == req.call
      && copy.bind.operation == req.operation && copy.bind.attempt == req.attempt && copy.bind.instance == req.instance
      && copy.bind.grant == req.grant && copy.supersedes == req.supersedes
    }
  }

  datatype AdmissionTx =
    | AdmitPrepare(id: Id, tenant: Name, req: Admission.Request, authority: Admission.Authority,
                   revision: Option<Name>, now: Time)
    | AdmitConsume(call: Call, authority: Admission.Authority, now: Time)
    | MarkDispatchUncertain(id: Id)
    | ObserveDispatch(reader: Admission.Reader, id: Id, report: Report, outcome: DispatchOutcome)
    | ConfirmDispatchNotSent(id: Id, evidence: Name)

  function AdmissionStep(c: Config, db: DB, tx: AdmissionTx): (r: Result<DB>)
    ensures r.Ok? ==>
        r.value == db.(ledger := r.value.ledger,
            money := db.money.(allocations := r.value.money.allocations, caps := r.value.money.caps),
            work := db.work.(operations := r.value.work.operations))
  {
    match tx
    case AdmitPrepare(id, tenant, req, authority, revision, now) =>
      var p :- Admission.AdmitPrepare(c, db, id, tenant, req, authority, revision, now); Ok(p.db)
    case AdmitConsume(call, authority, now) =>
      var p :- Admission.AdmitConsume(c, db, call.id, call.copy, call.tenant, call.req, authority, now); Ok(p.db)
    case MarkDispatchUncertain(id) => Admission.MarkDispatchUncertain(db, id)
    case ObserveDispatch(reader, id, report, outcome) => Admission.Observe(c, db, reader, id, report, outcome)
    case ConfirmDispatchNotSent(id, evidence) => Admission.ConfirmNotSent(db, id, evidence, None)
  }

  /** A guarded mutation in flight between its two transactions. */
  datatype Mutation = Mutation(id: Id, copy: Effect, tenant: Name, req: Effects.EffectRequest)
  {
    predicate Bound() { copy.bind.tenant == tenant && Effects.RequestOf(copy) == req }
  }

  datatype EffectTx =
    | PermitPrepare(id: Id, tenant: Name, command: Name, req: Effects.EffectRequest, now: Time)
    | PermitConsume(mutation: Mutation, now: Time)
    | MarkEffectUncertain(id: Id)
    | ObserveEffect(id: Id, tenant: Name, source: Name, sequence: nat, outcome: EffectOutcome,
                    receipt: Option<OutcomeRef>)

  function EffectStep(c: Config, db: DB, tx: EffectTx): (r: Result<DB>)
    ensures r.Ok? ==> r.value == db.(guarded := r.value.guarded)
  {
    match tx
    case PermitPrepare(id, tenant, command, req, now) =>
      var p :- Effects.PermitPrepare(c, db, id, tenant, command, req, now); Ok(p.db)
    case PermitConsume(m, now) =>
      var p :- Effects.PermitConsume(c, db, m.id, m.copy, m.tenant, m.req, now); Ok(p.db)
    case MarkEffectUncertain(id) => Effects.MarkEffectUncertain(db, id)
    case ObserveEffect(id, tenant, source, sequence, outcome, receipt) =>
      Effects.Observe(db, tenant, id, source, sequence, outcome, receipt)
  }

  datatype GrantTx =
    | RegisterGrant(g: GrantKey, registration: Grants.Registration, now: Time)
    | BeginRevocation(g: GrantKey, tenant: Name)
    | AdvanceRevocation(g: GrantKey)

  function GrantStep(db: DB, tx: GrantTx): (r: Result<DB>)
    ensures r.Ok? ==> r.value == db.(policy := r.value.policy)
  {
    match tx
    case RegisterGrant(g, registration, now) => Grants.Register(db, g, registration, now)
    case BeginRevocation(g, tenant) => Grants.BeginRevocation(db, g, tenant)
    case AdvanceRevocation(g) => Grants.Revocation(db, g)
  }

  /** Intake, attempts and rounds. */
  datatype ExecutionTx =
    | Submit(o: Id, bind: OperationBinding, definition: Option<Name>)
    | ConfirmIntake(o: Id)
    | OpenAttempt(a: Id, o: Id, tenant: Name, profile: Option<Name>, now: Time)
    | PrepareLaunch(l: Id, a: Id, tenant: Name, deadline: Time, now: Time)
    | ConfirmLaunch(l: Id, tenant: Name, now: Time)
    | RegisterInstance(i: Id, l: Id, tenant: Name)
    | AcceptResult(a: Id, i: Id, tenant: Name, verdict: Verdict, observerEpoch: Option<nat>, now: Time)
    | AskQuestions(o: Id, tenant: Name)
    | SubmitAnswer(o: Id, tenant: Name)

  function ExecutionStep(c: Config, db: DB, tx: ExecutionTx): (r: Result<DB>)
    ensures r.Ok? ==> r.value == db.(work := r.value.work)
  {
    match tx
    case Submit(o, bind, definition) => Execution.Submit(db, o, bind, definition)
    case ConfirmIntake(o) => Execution.ConfirmIntake(db, o)
    case OpenAttempt(a, o, tenant, profile, now) => Execution.OpenAttempt(c, db, a, o, tenant, profile, now)
    case PrepareLaunch(l, a, tenant, deadline, now) => Execution.PrepareLaunch(db, l, a, tenant, deadline, now)
    case ConfirmLaunch(l, tenant, now) => Execution.ConfirmLaunch(db, l, tenant, now)
    case RegisterInstance(i, l, tenant) => Execution.RegisterInstance(db, i, l, tenant)
    case AcceptResult(a, i, tenant, verdict, observerEpoch, now) =>
        Execution.AcceptResult(db, a, i, tenant, verdict, observerEpoch, now)
    case AskQuestions(o, tenant) => Execution.AskQuestions(db, o, tenant)
    case SubmitAnswer(o, tenant) => Execution.SubmitAnswer(db, o, tenant)
  }

  /** Settlement, control commands and execution permits. */
  datatype ControlTx =
    | Settle(o: Id, tenant: Name, intent: SettlementIntent)
    | SettleFromIntent(o: Id)
    | SubmitCancel(o: Id, tenant: Name, expected: nat)
    | SubmitControl(k: CommandKey, o: Id, kind: CommandKind, target: Option<Name>, expected: nat, now: Time)
    | RecordCommandRelay(k: CommandKey, outcome: CommandOutcome)
    | RecordLease(o: Id, tenant: Name, lease: Execution.LeaseReport)
    | RequestPermit(o: Id, tenant: Name, briefCurrent: bool, now: Time)
    | RecordFunding(o: Id)

  function ControlStep(c: Config, db: DB, tx: ControlTx): (r: Result<DB>)
    ensures r.Ok? ==>
        r.value == db.(work := db.work.(operations := r.value.work.operations), control := r.value.control)
  {
    match tx
    case Settle(o, tenant, intent) => Execution.Settle(c, db, o, tenant, intent)
    case SettleFromIntent(o) => Execution.SettleFromIntent(c, db, o)
    case SubmitCancel(o, tenant, expected) => Execution.SubmitCancel(db, o, tenant, expected)
    case SubmitControl(k, o, kind, target, expected, now) =>
        Execution.SubmitControl(c, db, k, o, kind, target, expected, now)
    case RecordCommandRelay(k, outcome) => Execution.RecordCommandRelay(db, k, outcome)
    case RecordLease(o, tenant, lease) => Execution.RecordLease(c, db, o, tenant, lease)
    case RequestPermit(o, tenant, briefCurrent, now) => Execution.RequestPermit(c, db, o, tenant, briefCurrent, now)
    case RecordFunding(o) => Execution.RecordFunding(db, o)
  }

  datatype FinanceTx =
    | Allocate(o: Id, tenant: Name, actor: Name, amount: Money, listed: seq<Id>, now: Time)
    | CreatePool(pool: Id, terms: Pool)
    | AdjustPool(pool: Id, amount: Money)
    | SetCap(k: CapKey, ceiling: Int64)
    | SettleFinance(o: Id)

  function FinanceStep(db: DB, tx: FinanceTx): (r: Result<DB>)
    ensures r.Ok? ==> r.value == db.(money := r.value.money, work := db.work.(operations := r.value.work.operations))
  {
    match tx
    case Allocate(o, tenant, actor, amount, listed, now) => Finance.Allocate(db, o, tenant, actor, amount, listed, now)
    case CreatePool(pool, terms) => Finance.CreatePool(db, pool, terms)
    case AdjustPool(pool, amount) => Finance.AdjustPool(db, pool, amount)
    case SetCap(k, ceiling) => Finance.SetCap(db, k, ceiling)
    case SettleFinance(o) => Finance.SettleFinance(db, o)
  }

  /** A run of recovery, apart from what restores or disposes an obligation. */
  datatype RunTx =
    | BeginRecovery(r: Id, scope: ScopeKey, command: Name, digest: Name, epoch: nat, windowStart: Time,
                    windowEnd: Time, skew: int)
    | RunStarted(r: Id)
    | CommitPage(r: Id, category: Class, seen: Option<Id>, page: Recovery.Page)
    | SettleFinding(f: FindingKey, status: FindingStatus)
    | ConfirmRestoredLaunch(l: Id)
    | Evaluate(r: Id)

  function RunStep(db: DB, tx: RunTx): (r: Result<DB>)
    ensures r.Ok? ==> r.value == db.(recovery := r.value.recovery, work := r.value.work)
  {
    match tx
    case BeginRecovery(r, scope, command, digest, epoch, windowStart, windowEnd, skew) =>
      Recovery.Begin(db, r, scope, command, digest, epoch, windowStart, windowEnd, skew)
    case RunStarted(r) => Recovery.Started(db, r)
    case CommitPage(r, category, seen, page) => Recovery.CommitPage(db, r, category, seen, page)
    case SettleFinding(f, status) => Recovery.SettleFinding(db, f, status)
    case ConfirmRestoredLaunch(l) => Recovery.ConfirmRestoredLaunch(db, l)
    case Evaluate(r) => Recovery.Evaluate(db, r)
  }

  datatype Tx =
    | Admitting(admission: AdmissionTx)
    | Permitting(effect: EffectTx)
    | Releasing(o: Id, tenant: Name, facts: ReleaseFacts, expected: nat, cert: Option<Releases.Certified>)
    | Granting(grant: GrantTx)
    | Executing(execution: ExecutionTx)
    | Closing(a: Id, tenant: Name, outcome: AttemptOutcome, cleanup: CleanupState, listed: seq<Id>)
    | Controlling(control: ControlTx)
    | Financing(finance: FinanceTx)
    | Recovering(run: RunTx)
    | Restoring(f: FindingKey, body: Body)
    | Disposing(req: Recovery.DispositionRequest, bound: bool)

  function Step(c: Config, db: DB, tx: Tx): Result<DB> {
    match tx
    case Admitting(t) => AdmissionStep(c, db, t)
    case Permitting(t) => EffectStep(c, db, t)
    case Releasing(o, tenant, facts, expected, cert) => Releases.Record(db, o, tenant, facts, expected, cert)
    case Granting(t) => GrantStep(db, t)
    case Executing(t) => ExecutionStep(c, db, t)
    case Closing(a, tenant, outcome, cleanup, listed) =>
        Execution.CloseAttempt(c, db, a, tenant, outcome, cleanup, listed)
    case Controlling(t) => ControlStep(c, db, t)
    case Financing(t) => FinanceStep(db, t)
    case Recovering(t) => RunStep(db, t)
    case Restoring(f, body) => Recovery.Restore(c, db, f, body)
    case Disposing(req, bound) => Recovery.Dispose(db, req, bound)
  }

  function Apply(c: Config, db: DB, tx: Tx): DB {
    match Step(c, db, tx)
    case Ok(next) => next
    case Err(_) => db
  }

  lemma AdmissionCommits(c: Config, db: DB, t: AdmissionTx)
    ensures Apply(c, db, Admitting(t)) == match AdmissionStep(c, db, t) case Ok(next) => next case Err(_) => db
  {
    hide AdmissionStep, EffectStep, Releases.Record, GrantStep, ExecutionStep, Execution.CloseAttempt, ControlStep,
      FinanceStep, RunStep, Recovery.Restore, Recovery.Dispose;
  }

  lemma EffectCommits(c: Config, db: DB, t: EffectTx)
    ensures Apply(c, db, Permitting(t)) == match EffectStep(c, db, t) case Ok(next) => next case Err(_) => db
  {
    hide AdmissionStep, EffectStep, Releases.Record, GrantStep, ExecutionStep, Execution.CloseAttempt, ControlStep,
      FinanceStep, RunStep, Recovery.Restore, Recovery.Dispose;
  }

  /** What is in flight was answered by its own first transaction, and what is restored
      was published by an admission: nobody reserves a negative amount. */
  predicate InFlight(tx: Tx) {
    && (tx.Restoring? && tx.body.DispatchBody? ==> tx.body.dispatch.reserved.amount >= 0)
    && (tx.Admitting? && tx.admission.AdmitConsume? ==> tx.admission.call.Bound())
    && (tx.Permitting? && tx.effect.PermitConsume? ==> tx.effect.mutation.Bound())
  }

  /** Which record a transaction may insert, consume or restore. */
  datatype How = Prepares(id: Id) | Consumes(id: Id) | Restores(id: Id, body: Body) | Otherwise

  function HowOf(tx: Tx): How {
    match tx
    case Admitting(AdmitPrepare(id, _, _, _, _, _)) => Prepares(id)
    case Admitting(AdmitConsume(call, _, _)) => Consumes(call.id)
    case Permitting(PermitPrepare(id, _, _, _, _)) => Prepares(id)
    case Permitting(PermitConsume(m, _)) => Consumes(m.id)
    case Restoring(f, body) => Restores(f.key.id, body)
    case _ => Otherwise
  }

  // ---------- runs over one database ----------

  /** The transactions committed so far, the latest last. */
  datatype Run = Start | Then(prior: Run, tx: Tx)

  /** The database after a run that started from nothing. */
  function After(c: Config, run: Run): DB {
    hide Apply;
    match run
    case Start => Empty
    case Then(prior, tx) => Apply(c, After(c, prior), tx)
  }

  /** The earlier run is a part of the later one. */
  predicate Within(earlier: Run, later: Run) {
    earlier == later || (later.Then? && Within(earlier, later.prior))
  }

  /** A finding of a lost identity: only a rollback of the database leaves one. */
  predicate Lost(db: DB, f: FindingKey) {
    f in db.recovery.findings && db.recovery.findings[f].status == FindingMissing
  }

  /** A transaction of a run whose database was never rolled back. */
  predicate Steady(db: DB, tx: Tx) {
    InFlight(tx) && (tx.Restoring? ==> !Lost(db, tx.f))
  }

  predicate SteadyRun(c: Config, run: Run) {
    hide Apply;
    run.Then? ==> SteadyRun(c, run.prior) && Steady(After(c, run.prior), run.tx)
  }

  predicate InFlightRun(run: Run) {
    run.Then? ==> InFlightRun(run.prior) && InFlight(run.tx)
  }

  /** Without a lost identity there is nothing to restore. */
  lemma NothingRestored(c: Config, db: DB, f: FindingKey, body: Body)
    requires !Lost(db, f)
    ensures Apply(c, db, Restoring(f, body)) == db
  {
    hide Recovery.RestoreBody, AdmissionStep, EffectStep, GrantStep, ExecutionStep, ControlStep, FinanceStep, RunStep;
  }
}
