/** What a restored record lacks, and so which retries of its request are answered: the
    restore of a dispatch does not read back the argument digest and the effect class
    that were published, nor the superseded call and the evidence, which were not; the
    restore of a mutation has no lease expiry
    (internal/application/recovery_reconciliation.go:199-206,250-256,
    internal/domain/dispatch.go:351-399, internal/domain/effect.go:251-282). */
module Restored {
  import opened Values
  import opened Budget
  import opened Records
  import opened Database
  import opened Transactions
  import opened Worlds
  import opened Published
  import Admission
  import Effects
  import EffectSteps
  import Execution
  import Finance
  import Grants
  import Recovery
  import Releases
  import Termination
  import Unbroken

  // ---------- the indexes of requests ----------

  /** Every mutation is found under its command. */
  predicate CommandIndexed(db: DB, x: Id)
    requires x in db.guarded.effects
  {
    var k := Effects.CommandOf(db.guarded.effects[x].bind);
    k in db.guarded.effectCommands && db.guarded.effectCommands[k] == x
  }

  ghost predicate Indexed(db: DB) {
    Unbroken.Indexed(db) && forall x | x in db.guarded.effects :: CommandIndexed(db, x)
  }

  /** A new mutation is indexed, and an index stays. */
  predicate CommandsKept(db: DB, next: DB, k: CommandKey, x: Id) {
    && (k in db.guarded.effectCommands ==>
          k in next.guarded.effectCommands && next.guarded.effectCommands[k] == db.guarded.effectCommands[k])
    && (x in next.guarded.effects && x !in db.guarded.effects ==> CommandIndexed(next, x))
  }

  lemma PermittingCommands(c: Config, db: DB, t: EffectTx, k: CommandKey, x: Id)
    requires EffectStep(c, db, t).Ok?
    ensures CommandsKept(db, EffectStep(c, db, t).value, k, x)
  {
    hide Effects.CheckEffect, Effects.LoadContext;
  }

  lemma RestoringCommands(c: Config, db: DB, f: FindingKey, body: Body, k: CommandKey, x: Id)
    requires Recovery.Restore(c, db, f, body).Ok?
    ensures CommandsKept(db, Recovery.Restore(c, db, f, body).value, k, x)
  {
    hide Recovery.RestoreOperation, Recovery.RestoreAttempt, Recovery.RestoreLaunch, Recovery.RestoreDispatch;
  }

  lemma DisposingCommands(db: DB, req: Recovery.DispositionRequest, bound: bool, k: CommandKey, x: Id)
    requires Recovery.Dispose(db, req, bound).Ok?
    ensures CommandsKept(db, Recovery.Dispose(db, req, bound).value, k, x)
  {
    hide Admission.ConfirmNotSent, Effects.ObserveOutcome, Effects.ConfirmRecordNotSent;
  }

  lemma StepOfCommands(c: Config, db: DB, tx: Tx, k: CommandKey, x: Id)
    ensures CommandsKept(db, Apply(c, db, tx), k, x)
  {
    hide AdmissionStep, EffectStep, Releases.Record, GrantStep, ExecutionStep, Execution.CloseAttempt, ControlStep,
      FinanceStep, RunStep, Recovery.Restore, Recovery.Dispose;
    if Step(c, db, tx).Ok? {
      match tx
      case Permitting(t) => PermittingCommands(c, db, t, k, x);
      case Restoring(f, body) => RestoringCommands(c, db, f, body, k, x);
      case Disposing(req, bound) => DisposingCommands(db, req, bound, k, x);
      case _ =>
    }
  }

  lemma IndexedStep(c: Config, db: DB, tx: Tx)
    requires Indexed(db) && InFlight(tx)
    ensures Indexed(Apply(c, db, tx))
  {
    hide Apply, Unbroken.Indexed, EffectSteps.Permissible;
    var next := Apply(c, db, tx);
    Unbroken.IndexedStep(c, db, tx);
    forall x | x in next.guarded.effects
      ensures CommandIndexed(next, x)
    {
      EffectSteps.StepOfRow(c, db, tx, x);
      var k := Effects.CommandOf(next.guarded.effects[x].bind);
      StepOfCommands(c, db, tx, k, x);
      if x in db.guarded.effects { assert CommandIndexed(db, x); }
    }
  }

  ghost predicate AllIndexed(w: World) {
    Indexed(w.db) && (w.restorePoint.Some? ==> Indexed(w.restorePoint.value))
  }

  /** In every history each dispatch is found under its call and each mutation under its
      command. */
  lemma {:induction false} IndexedAlways(c: Config, h: History)
    ensures AllIndexed(WorldAfter(c, h))
  {
    hide Happens, Sound, Indexed;
    match h
    case Genesis => DawnIsIndexed();
    case Next(past, e) =>
      IndexedAlways(c, past);
      PublishedBeforePermission(c, past);
      IndexedEvent(c, WorldAfter(c, past), e);
  }

  lemma DawnIsIndexed()
    ensures AllIndexed(Dawn)
  {
  }

  lemma IndexedEvent(c: Config, w: World, e: Event)
    requires Sound(w) && AllIndexed(w)
    ensures AllIndexed(Happens(c, w, e))
  {
    hide Happens, Enabled, Apply, Sound, Indexed;
    EventRest(c, w, e);
    if !Enabled(c, w, e) {
      NothingHappens(c, w, e);
    } else if e.Rollback? {
      RollbackIndexed(c, w, e);
    } else {
      EventCommits(c, w, e);
      EnabledStandsAlone(c, w, e);
      if TxOf(w, e).Some? {
        EventInFlight(w, e);
        IndexedStep(c, w.db, TxOf(w, e).value);
      }
    }
  }

  lemma RollbackIndexed(c: Config, w: World, e: Event)
    requires Enabled(c, w, e) && e.Rollback? && AllIndexed(w)
    ensures AllIndexed(Happens(c, w, e))
  {
    hide Apply, Starts, Indexed;
    IndexedStep(c, w.restorePoint.value, Recovering(e.begin));
  }

  // ---------- a retry of a restored call ----------

  /** The request is one of the call, with its argument and effect class. */
  predicate Calls(b: DispatchBinding, tenant: Name, req: Admission.Request) {
    && b.tenant == tenant && b.owner == req.owner && b.call == req.call
    && b.argument == req.argument && b.sideEffecting == req.sideEffecting
  }

  /** The request names all that was published, and the provider and model of the frozen
      price. */
  predicate Repeats(c: Config, b: DispatchBinding, tenant: Name, req: Admission.Request) {
    && Calls(b, tenant, req)
    && b.kind == req.kind && b.operation == req.operation && b.attempt == req.attempt && b.instance == req.instance
    && b.digest == req.digest && b.route == req.route && b.grant == req.grant && b.reserved == req.exposure
    && b.epoch == req.epoch && b.deadline == req.deadline
    && (b.kind == DispatchModel && c.PriceOf(b.meter).Some? ==>
          c.PriceOf(b.meter).value.provider == req.provider && c.PriceOf(b.meter).value.model == req.model)
  }

  /** A restored dispatch, and the obligation it was issued. */
  predicate Recalled(w: World, d: Id) {
    && d in w.db.ledger.dispatches && Returned(w, d, w.db.ledger.dispatches[d].bind)
    && d in w.issued && w.issued[d].DispatchBody?
  }

  /** The request names nothing that the restored record lacks. */
  predicate Answerable(w: World, d: Id, req: Admission.Request) {
    && Recalled(w, d) && req.argument.None? && !req.sideEffecting && req.supersedes.None?
    && (w.db.ledger.dispatches[d].state == DispatchConfirmedNotSent || req.evidence.None?)
  }

  predicate Refused(c: Config, db: DB, id: Id, tenant: Name, req: Admission.Request,
                    authority: Admission.Authority, revision: Option<Name>, now: Time) {
    Admission.AdmitPrepare(c, db, id, tenant, req, authority, revision, now) == Err(IdempotencyConflict)
  }

  /** The record is answered, and grants nothing. */
  predicate Answered(c: Config, w: World, d: Id, id: Id, tenant: Name, req: Admission.Request,
                     authority: Admission.Authority, revision: Option<Name>, now: Time) {
    d in w.db.ledger.dispatches &&
    Admission.AdmitPrepare(c, w.db, id, tenant, req, authority, revision, now)
      == Ok(Admission.Prepared(w.db, d, w.db.ledger.dispatches[d], false))
  }

  predicate LeftBare(w: World, d: Id) {
    && Recalled(w, d) && w.db.ledger.dispatches[d].bind == Recovery.Bare(w.issued[d].dispatch)
    && Recovery.Remnant(w.db.ledger.dispatches[d]) && Unbroken.IndexedRow(w.db, d)
  }

  /** A restored record is what is left of its obligation, and found under its call. */
  lemma RecalledRow(c: Config, h: History, d: Id)
    requires Recalled(WorldAfter(c, h), d)
    ensures LeftBare(WorldAfter(c, h), d)
  {
    hide WorldAfter;
    IndexedAlways(c, h);
    PublishedBeforePermission(c, h);
    assert DispatchIssued(WorldAfter(c, h), WorldAfter(c, h).db, d);
  }

  predicate CallsRecalled(w: World, d: Id, tenant: Name, req: Admission.Request) {
    Recalled(w, d) && Calls(w.issued[d].dispatch, tenant, req)
  }

  /** Whoever retries a restored call and names an argument, a side effect, a superseded
      call or evidence that its record lacks is told that it was admitted with another
      request. */
  lemma RetryConflicts(c: Config, h: History, d: Id, id: Id, tenant: Name, req: Admission.Request,
                       authority: Admission.Authority, revision: Option<Name>, now: Time)
    requires CallsRecalled(WorldAfter(c, h), d, tenant, req) && !Answerable(WorldAfter(c, h), d, req)
    ensures Refused(c, WorldAfter(c, h).db, id, tenant, req, authority, revision, now)
  {
    hide WorldAfter;
    RecalledRow(c, h, d);
  }

  predicate RepeatsRecalled(c: Config, w: World, d: Id, tenant: Name, req: Admission.Request) {
    Recalled(w, d) && Repeats(c, w.issued[d].dispatch, tenant, req)
  }

  /** In every history a retry that names all that was published for a restored call is
      answered if and only if it names nothing the restored record lacks: no argument, no
      side effect, no superseded call and, unless the call was confirmed not sent, no
      evidence. Every other one is refused, and none is granted. */
  lemma RetryAnsweredExactly(c: Config, h: History, d: Id, id: Id, tenant: Name, req: Admission.Request,
                             authority: Admission.Authority, revision: Option<Name>, now: Time)
    requires RepeatsRecalled(c, WorldAfter(c, h), d, tenant, req)
    ensures if Answerable(WorldAfter(c, h), d, req)
            then Answered(c, WorldAfter(c, h), d, id, tenant, req, authority, revision, now)
            else Refused(c, WorldAfter(c, h).db, id, tenant, req, authority, revision, now)
  {
    hide WorldAfter;
    RecalledRow(c, h, d);
  }

  // ---------- a retry of a restored mutation ----------

  predicate RecalledEffect(w: World, x: Id) { x in w.db.guarded.effects && EffectKey(x) in w.restored }

  /** The request names all that was published; the lease expiry was not. */
  predicate RepeatsEffect(w: World, x: Id, tenant: Name, command: Name, req: Effects.EffectRequest) {
    && RecalledEffect(w, x)
    && var row := w.db.guarded.effects[x];
       && row.bind.tenant == tenant && row.bind.command == command
       && Effects.RequestOf(row).(leaseExpiresAt := req.leaseExpiresAt) == req
  }

  predicate EffectAnswered(c: Config, w: World, x: Id, id: Id, tenant: Name, command: Name, req: Effects.EffectRequest,
                           now: Time) {
    x in w.db.guarded.effects &&
    Effects.PermitPrepare(c, w.db, id, tenant, command, req, now)
      == Ok(Effects.PreparedEffect(w.db, x, w.db.guarded.effects[x], false))
  }

  predicate EffectRefused(c: Config, db: DB, id: Id, tenant: Name, command: Name, req: Effects.EffectRequest,
                          now: Time) {
    Effects.PermitPrepare(c, db, id, tenant, command, req, now) == Err(IdempotencyConflict)
  }

  /** In every history a retry that names all that was published for a restored mutation
      is answered if and only if it names no lease expiry; otherwise it is refused. */
  lemma MutationAnsweredExactly(c: Config, h: History, x: Id, id: Id, tenant: Name, command: Name,
                                req: Effects.EffectRequest, now: Time)
    requires RepeatsEffect(WorldAfter(c, h), x, tenant, command, req)
    ensures var w := WorldAfter(c, h);
            if req.leaseExpiresAt.None? then EffectAnswered(c, w, x, id, tenant, command, req, now)
            else EffectRefused(c, w.db, id, tenant, command, req, now)
  {
    hide WorldAfter, Unbroken.Indexed, Effects.CheckEffect, Effects.LoadContext;
    var w := WorldAfter(c, h);
    IndexedAlways(c, h);
    PublishedBeforePermission(c, h);
    assert EffectIssued(w, w.db, x) && CommandIndexed(w.db, x);
  }

  // ---------- a history with one ----------

  /** A free tool is sold, and every level of budget has a pool. */
  const FreeTool := Price(DispatchTool, None, None, 0, 0, 10, 0, 0, 0, 0, false, false, 1)

  const Sold := Config(map[], map[1 := FreeTool], map[], false)

  const Grant := GrantKey(1, 1)

  const Registration := Grants.Registration(1, 1, 1, [1], None, None)

  /** The call names its argument and has a side effect. */
  const Request := Admission.Request(
    DispatchTool, 1, 1, 1, 1, 1, None, 1, 1, None, None, Some(Grant), Some(1), 1, Money(0, 0), 10, None, None,
    Some(1), true)

  const Binding := DispatchBinding(
    DispatchTool, 1, 1, 1, None, 1, 1, 1, 1, Some(Grant), Money(0, 0), Some(1), 1, 10, 0, Some(1), true)

  function PoolOf(level: BudgetLevel, allotted: Int64): Pool {
    Pool(level, if level.LevelPlatform? then None else Some(1), if level.LevelActor? then Some(1) else None,
         0, 10, 0, 5, allotted)
  }

  const Opened := Termination.OpenedBy(Termination.Accepted, 1)

  const Pooled := Opened.(money := Opened.money.(pools :=
    map[1 := PoolOf(LevelPlatform, 0), 2 := PoolOf(LevelTenant, 0), 3 := PoolOf(LevelActor, 0)]))

  const Row := AllocationRow(1, 0, 1, 0, 0)

  const Funded := Pooled.(
    money := Pooled.money.(
      pools := map[1 := PoolOf(LevelPlatform, 1), 2 := PoolOf(LevelTenant, 1), 3 := PoolOf(LevelActor, 1)],
      allocations := map[1 := [Row, Row.(pool := 2), Row.(pool := 3)]]),
    work := Pooled.work.(operations := map[1 := Pooled.work.operations[1].(finance := FinanceFunded, revision := 4)]))

  const Granted := Funded.(policy := Funded.policy.(grants :=
    map[Grant := GrantPolicy(1, Some(1), Some(1), [1], None, None, true, RevocationNone, 0, 0)]))

  const Prepared := Dispatch(Binding, None, DispatchPrepared, None, None, None, InventoryPending)

  const Held := Granted.(ledger := Ledger(map[9 := Prepared], map[CallKey(1, 1, 1) := 9], map[]))

  const Opening: Run := Then(Termination.Intake, Executing(OpenAttempt(1, 1, 1, None, 0)))

  const Pooling: Run :=
    Then(Then(Then(Opening,
      Financing(CreatePool(1, PoolOf(LevelPlatform, 0)))),
      Financing(CreatePool(2, PoolOf(LevelTenant, 0)))),
      Financing(CreatePool(3, PoolOf(LevelActor, 0))))

  const Funding: Run := Then(Pooling, Financing(Allocate(1, 1, 1, Money(0, 1), [1, 2, 3], 0)))

  const Serving: Run := Then(Funding, Granting(RegisterGrant(Grant, Registration, 0)))

  lemma FinancingCommits(c: Config, db: DB, t: FinanceTx)
    ensures Apply(c, db, Financing(t)) == match FinanceStep(db, t) case Ok(next) => next case Err(_) => db
  {
    hide AdmissionStep, EffectStep, Releases.Record, GrantStep, ExecutionStep, Execution.CloseAttempt, ControlStep,
      FinanceStep, RunStep, Recovery.Restore, Recovery.Dispose;
  }

  lemma GrantingCommits(c: Config, db: DB, t: GrantTx)
    ensures Apply(c, db, Granting(t)) == match GrantStep(db, t) case Ok(next) => next case Err(_) => db
  {
    hide AdmissionStep, EffectStep, Releases.Record, GrantStep, ExecutionStep, Execution.CloseAttempt, ControlStep,
      FinanceStep, RunStep, Recovery.Restore, Recovery.Dispose;
  }

  /** The database before the call. */
  lemma ServingLeaves()
    ensures After(Sold, Serving) == Granted
  {
    hide Apply, After, FinanceStep, GrantStep;
    OpenedFirst();
    PoolsCreated();
    Allocated();
    Registered();
  }

  lemma OpenedFirst()
    ensures After(Sold, Opening) == Opened
  {
    hide Apply;
    Termination.AcceptedFirst(Sold);
    Termination.OpensOne(Sold, Termination.Accepted, 1);
  }

  lemma PoolCreated(pools: map<Id, Pool>, id: Id, level: BudgetLevel)
    requires id !in pools && forall q | q in pools :: pools[q].level != level
    ensures FinanceStep(WithPools(pools), CreatePool(id, PoolOf(level, 0)))
         == Ok(WithPools(pools[id := PoolOf(level, 0)]))
  {
  }

  function WithPools(pools: map<Id, Pool>): DB { Opened.(money := Opened.money.(pools := pools)) }

  lemma PoolsCreated()
    requires After(Sold, Opening) == Opened
    ensures After(Sold, Pooling) == Pooled
  {
    hide Apply, FinanceStep;
    var one := map[1 := PoolOf(LevelPlatform, 0)];
    var two := one[2 := PoolOf(LevelTenant, 0)];
    assert Opened == WithPools(map[]);
    PoolCreated(map[], 1, LevelPlatform);
    PoolCreated(one, 2, LevelTenant);
    PoolCreated(two, 3, LevelActor);
    FinancingCommits(Sold, WithPools(map[]), CreatePool(1, PoolOf(LevelPlatform, 0)));
    FinancingCommits(Sold, WithPools(one), CreatePool(2, PoolOf(LevelTenant, 0)));
    FinancingCommits(Sold, WithPools(two), CreatePool(3, PoolOf(LevelActor, 0)));
    assert After(Sold, Pooling.prior.prior) == WithPools(one);
    assert After(Sold, Pooling.prior) == WithPools(two);
    assert Pooled == WithPools(two[3 := PoolOf(LevelActor, 0)]);
  }

  lemma Allocated()
    requires After(Sold, Pooling) == Pooled
    ensures After(Sold, Funding) == Funded
  {
    hide Apply, FinanceStep;
    FinancingCommits(Sold, Pooled, Allocate(1, 1, 1, Money(0, 1), [1, 2, 3], 0));
    AllocatesAll();
  }

  lemma AllocatesAll()
    ensures FinanceStep(Pooled, Allocate(1, 1, 1, Money(0, 1), [1, 2, 3], 0)) == Ok(Funded)
  {
    hide Finance.ListsPools, Finance.SameLevelTwice, Finance.HasLevel, Finance.Draw;
    Listed();
    Drawn();
    assert AllocationsOf(Pooled, 1) == [];
    assert Funded.money.allocations[1] != [];
    assert Pooled.money.allocations[1 := Funded.money.allocations[1]] == Funded.money.allocations;
    assert Pooled.work.operations[1 := Funded.work.operations[1]] == Funded.work.operations;
    assert !Pooled.work.operations[1].FencedForNewDispatch();
    assert Pooled.work.operations[1].(finance := FinanceFunded).Transition() == Funded.work.operations[1];
    assert Finance.Allocate(Pooled, 1, 1, 1, Money(0, 1), [1, 2, 3], 0) == Ok(Funded);
  }

  lemma Listed()
    ensures Finance.ListsPools(Pooled, [1, 2, 3], 0, 1, 1, 0)
    ensures !Finance.SameLevelTwice(Pooled, [1, 2, 3])
    ensures Finance.HasLevel(Pooled, [1, 2, 3], LevelPlatform) && Finance.HasLevel(Pooled, [1, 2, 3], LevelTenant)
    ensures Finance.HasLevel(Pooled, [1, 2, 3], LevelActor)
  {
    var listed: seq<Id> := [1, 2, 3];
    assert 1 == listed[0] && 2 == listed[1] && 3 == listed[2];
    assert Pooled.money.pools[listed[0]].level == LevelPlatform;
    assert Pooled.money.pools[listed[1]].level == LevelTenant;
    assert Pooled.money.pools[listed[2]].level == LevelActor;
  }

  lemma Drawn()
    ensures Finance.Draw(Pooled.money.pools, [], [1, 2, 3], Money(0, 1), 0)
         == Ok(Finance.Share(Funded.money.pools, Funded.money.allocations[1]))
  {
    var one := Pooled.money.pools[1 := PoolOf(LevelPlatform, 1)];
    var two := one[2 := PoolOf(LevelTenant, 1)];
    var three := two[3 := PoolOf(LevelActor, 1)];
    var rows := [Row, Row.(pool := 2), Row.(pool := 3)];
    assert Finance.Draw(three, rows, [], Money(0, 1), 0) == Ok(Finance.Share(three, rows));
    assert [3][1..] == [] && [2, 3][1..] == [3] && [1, 2, 3][1..] == [2, 3];
    assert [Row, Row.(pool := 2)] + [Row.(pool := 3)] == rows;
    assert Finance.Draw(two, [Row, Row.(pool := 2)], [3], Money(0, 1), 0) == Ok(Finance.Share(three, rows));
    assert [Row] + [Row.(pool := 2)] == [Row, Row.(pool := 2)];
    assert Finance.Draw(one, [Row], [2, 3], Money(0, 1), 0) == Ok(Finance.Share(three, rows));
    assert [] + [Row] == [Row];
    assert three == Funded.money.pools;
  }

  lemma Registered()
    requires After(Sold, Funding) == Funded
    ensures After(Sold, Serving) == Granted
  {
    hide Apply;
    GrantingCommits(Sold, Funded, RegisterGrant(Grant, Registration, 0));
  }

  // the call is asked and its obligation published

  const Nobody := Admission.Authority(false, 0)

  predicate Asks(r: Result<Admission.Prepared>) { r == Ok(Admission.Prepared(Held, 9, Prepared, true)) }

  const Context := Admission.Context(
    0, Granted.work.operations[1], Granted.work.attempts[1], None, Some(FreeTool), Nobody,
    Some(Granted.policy.grants[Grant]), Granted.money.allocations[1], map[], false, None, false, false, false)

  lemma Loaded()
    ensures Admission.LoadContext(Sold, Granted, 1, DispatchTool, 1, 1, 1, None, Some(Grant), None, Nobody, 0)
         == Ok(Context.(price := None))
  {
  }

  lemma Checked()
    ensures Admission.CheckAdmission(Request, Context, true) == Pass
  {
    hide Admission.CheckExposure, Admission.CheckExecution, Admission.CheckRoute, Admission.CheckMoney;
    ExecutionChecked();
    RouteChecked();
    MoneyChecked();
  }

  lemma ExecutionChecked()
    ensures Admission.CheckExposure(Request, Context) == Pass && Admission.CheckExecution(Request, Context) == Pass
  {
  }

  lemma RouteChecked()
    ensures Admission.CheckRoute(Request, Context) == Pass
  {
  }

  lemma MoneyChecked()
    ensures Admission.CheckMoney(Request, Context, true) == Pass
  {
    hide MoveAll, CheckCaps;
    Reserves();
    assert Context.allocations != [];
  }

  lemma RowReserves(row: AllocationRow)
    requires row.currency == 0 && row.amount == 1 && row.reserved == 0 && row.consumed == 0
    ensures Move(row, ToReserve, Money(0, 0)) == Ok(row)
  {
  }

  lemma Reserves()
    ensures MoveAll(Granted.money.allocations[1], ToReserve, Money(0, 0)) == Ok(Granted.money.allocations[1])
  {
    hide Move;
    var rows := Granted.money.allocations[1];
    forall i | 0 <= i < |rows|
      ensures Move(rows[i], ToReserve, Money(0, 0)) == Ok(rows[i])
    {
      RowReserves(rows[i]);
    }
    var moved := MoveAll(rows, ToReserve, Money(0, 0));
    assert moved.Ok? && moved.value == rows;
  }

  lemma NothingMoves()
    ensures MoveBudget(Granted, 1, ToReserve, Money(0, 0)) == Ok(Granted)
  {
    Reserves();
    assert Granted.money.allocations[1 := Granted.money.allocations[1]] == Granted.money.allocations;
    assert MoveCaps(Granted.money.caps, 1, None, ToReserve, Money(0, 0)) == Ok(map[]);
  }

  lemma Asked()
    ensures Asks(Admission.AdmitPrepare(Sold, Granted, 9, 1, Request, Nobody, Some(1), 0))
  {
    hide Admission.LoadContext, Admission.CheckAdmission, MoveBudget;
    Loaded();
    Checked();
    NothingMoves();
    assert Context.(price := None).(price := Sold.PriceOf(Some(1))) == Context;
    assert Admission.NewDispatch(Request, Context, Some(1)) == Prepared;
    assert Admission.InsertDispatch(Granted, 9, Prepared) == Ok(Held);
  }

  // the database is rolled back to its beginning, and the call restored

  const TheKey := Key(ClassToolDispatch, 9)

  const Asking := Ask(1, 9, 1, Request, Nobody, Some(1), 0)

  const Putting := Put(1, Stored, 0)

  const Recover := BeginRecovery(2, ScopeAll, 1, 1, 1, 0, 10, 0)

  const Missed := FindingKey(2, TheKey)

  /** What a run committed after the restore point was marked. */
  function Committed(run: Run): History {
    match run
    case Start => Next(Genesis, MarkRestorePoint)
    case Then(prior, tx) => Next(Committed(prior), Commit(tx))
  }

  const Publishing := Next(Next(Committed(Serving), Asking), Putting)

  const Opens := StartPage(2, 2, ClassToolDispatch)

  const Commits := CommitListed(2)

  const Lists := ListPage(2, [9], 0)

  const Enumerating :=
    Next(Next(Next(Next(Publishing, Rollback(Recover)), Opens), Lists), Commits)

  const Losing := Next(Enumerating, RestoreFinding(Missed))

  predicate Leads(w: World, e: Event, next: World) {
    hide Happens;
    Happens(Sold, w, e) == next
  }

  predicate Leaves(c: Config, h: History, w: World) {
    hide WorldAfter;
    WorldAfter(c, h) == w
  }

  predicate StandaloneRun(run: Run) { run.Then? ==> StandaloneRun(run.prior) && Standalone(run.tx) }

  lemma {:induction false} CommittedLeaves(c: Config, run: Run)
    requires StandaloneRun(run)
    ensures Leaves(c, Committed(run), MarkedBefore(After(c, run)))
  {
    hide Apply, Happens, Standalone;
    match run
    case Start =>
      MarkHappens(c);
      assert WorldAfter(c, Genesis) == Dawn;
    case Then(prior, tx) =>
      CommittedLeaves(c, prior);
      CommitHappens(c, MarkedBefore(After(c, prior)), tx);
  }

  /** The restore point is the empty database. */
  function MarkedBefore(db: DB): World { Dawn.(db := db, restorePoint := Some(Empty)) }

  lemma MarkHappens(c: Config)
    ensures Happens(c, Dawn, MarkRestorePoint) == MarkedBefore(Empty)
  {
    hide Apply, Starts;
  }

  lemma CommitHappens(c: Config, w: World, tx: Tx)
    requires Standalone(tx)
    ensures Happens(c, w, Commit(tx)) == w.(db := Apply(c, w.db, tx))
  {
    hide Apply, Standalone;
  }

  const TheCall := Call(9, Prepared, 1, Request)

  const AskedWorld := MarkedBefore(Held).(
    issued := map[9 := DispatchBody(Binding)], used := {9}, flights := map[1 := CallFlight(TheCall, false)])

  const StoredWorld := AskedWorld.(
    inventory := map[TheKey := Object(DispatchBody(Binding), 0)], flights := map[1 := CallFlight(TheCall, true)])

  lemma Follow(h: History, e: Event, w: World, next: World)
    requires Leaves(Sold, h, w) && Leads(w, e, next)
    ensures Leaves(Sold, Next(h, e), next)
  {
    hide Happens;
  }

  lemma PublishingLeaves()
    ensures Leaves(Sold, Publishing, StoredWorld)
  {
    hide Leaves, Standalone, Leads, After;
    assert StandaloneRun(Serving) by { StandaloneServing(); }
    CommittedLeaves(Sold, Serving);
    ServingLeaves();
    AskHappens();
    PutHappens();
    Follow(Committed(Serving), Asking, MarkedBefore(Granted), AskedWorld);
    Follow(Next(Committed(Serving), Asking), Putting, AskedWorld, StoredWorld);
  }

  lemma StandaloneServing()
    ensures StandaloneRun(Serving)
  {
  }

  lemma AskHappens()
    ensures Leads(MarkedBefore(Granted), Asking, AskedWorld)
  {
    hide AskStep, AskPermitStep, PutStep, ConsumeStep, StartStep, Recovery.PageOf, Recovery.Follows, Starts,
      RestoreStep, Begins, Apply;
    AskSteps();
  }

  lemma AskSteps()
    ensures AskStep(Sold, MarkedBefore(Granted), Asking) == AskedWorld
  {
    hide Admission.AdmitPrepare;
    Asked();
  }

  lemma PutHappens()
    ensures Leads(AskedWorld, Putting, StoredWorld)
  {
    hide AskStep, AskPermitStep, ConsumeStep, StartStep, Recovery.PageOf, Recovery.Follows, Starts, RestoreStep,
      Begins, Apply;
  }

  const TheRun := RecoveryRun(ScopeAll, 1, 1, 1, RecoveryFenced, 0, 10, 0)

  const Begun := Apply(Sold, Empty, Recovering(Recover))

  function RolledTo(db: DB): World {
    StoredWorld.(db := db, begun := map[2 := {TheKey}], used := {9, 2}, restorePoint := None, rolledBack := Some(2))
  }

  const RolledWorld := RolledTo(Begun)

  /** The restored database has the run and its positions, and nothing else. */
  predicate BegunAlone(db: DB) {
    && db.work == Empty.work && db.ledger == Empty.ledger && db.money == Empty.money && db.guarded == Empty.guarded
    && db.recovery.runs == map[2 := TheRun] && db.recovery.findings == map[] && db.recovery.dispositions == map[]
    && ProgressKey(2, ClassToolDispatch) in db.recovery.progress
    && db.recovery.progress[ProgressKey(2, ClassToolDispatch)] == Progress(None, false)
  }

  lemma RunBegins()
    ensures BegunAlone(Begun)
  {
    hide AdmissionStep, EffectStep, GrantStep, ExecutionStep, ControlStep, FinanceStep, Recovery.CommitPage;
  }

  predicate StartsFrom(begin: RunTx) {
    hide Starts;
    begin.BeginRecovery? && Starts(Sold, Empty, begin)
  }

  lemma RunStarts()
    ensures StartsFrom(Recover)
  {
    hide Apply;
    RunBegins();
  }

  predicate RollsTo(w: World, begin: RunTx, next: World) {
    hide Apply;
    begin.BeginRecovery? && Begins(Sold, w, Empty, begin).(rolledBack := Some(begin.r)) == next
  }

  lemma BeginsRolled()
    ensures RollsTo(StoredWorld, Recover, RolledWorld)
  {
    hide Apply;
    assert StoredWorld.inventory.Keys == {TheKey};
  }

  lemma RollbackHappens()
    ensures Leads(StoredWorld, Rollback(Recover), RolledWorld)
  {
    hide AskStep, AskPermitStep, ConsumeStep, StartStep, PutStep, Recovery.PageOf, Recovery.Follows, RestoreStep,
      Apply, Starts, Begins, RolledWorld;
    RunStarts();
    BeginsRolled();
  }

  const Reading := PageFlight(2, TheRun, ClassToolDispatch, None, None)

  const ThePage := Recovery.Page([Recovery.Candidate(9, DispatchBody(Binding))], None, true)

  function WithFlight(w: World, f: Flight): World { w.(flights := w.flights[2 := f]) }

  const Read := Reading.(page := Some(ThePage))

  const StartedWorld := WithFlight(RolledWorld, Reading)

  const ListedWorld := WithFlight(RolledWorld, Read)

  lemma StartHappens()
    ensures Leads(RolledWorld, Opens, StartedWorld)
  {
    hide AskStep, AskPermitStep, ConsumeStep, PutStep, Recovery.PageOf, Recovery.Follows, RestoreStep, Apply, Begins,
      Starts;
    RunBegins();
  }

  lemma ListHappens()
    ensures Leads(StartedWorld, Lists, ListedWorld)
  {
    hide *;
    ReadingNow();
    ListingHappens(StartedWorld);
  }

  predicate ReadsAlone(w: World) { 2 in w.flights && w.flights[2] == Reading && PublishedAlone(w.inventory) }

  function WithPage(w: World): World { WithFlight(w, Read) }

  /** What reading and listing leave of the flights and the inventory. */
  lemma ReadingNow()
    ensures ReadsAlone(StartedWorld) && WithPage(StartedWorld) == ListedWorld
  {
    hide Begun;
    assert RolledWorld.flights[2 := Reading][2 := Read] == RolledWorld.flights[2 := Read];
  }

  lemma ListingHappens(w: World)
    requires ReadsAlone(w)
    ensures Leads(w, Lists, WithPage(w))
  {
    hide AskStep, AskPermitStep, ConsumeStep, PutStep, StartStep, RestoreStep, Apply, Begins, Starts, Recovery.PageOf,
      Recovery.Follows;
    OneFollows(w.inventory);
    OnePage(w.inventory);
  }

  predicate PublishedAlone(inventory: map<Key, Object>) {
    inventory == map[TheKey := Object(DispatchBody(Binding), 0)]
  }

  lemma OneFollows(inventory: map<Key, Object>)
    requires PublishedAlone(inventory)
    ensures Recovery.Follows(inventory, ClassToolDispatch, None, [9])
  {
  }

  lemma OnePage(inventory: map<Key, Object>)
    requires PublishedAlone(inventory)
    ensures Recovery.PageOf(inventory, TheRun, ClassToolDispatch, [9], 0) == ThePage
  {
    assert Recovery.Candidates(inventory, TheRun, ClassToolDispatch, []) == [];
    assert [9][1..] == [];
  }

  const Paging: Tx := Recovering(CommitPage(2, ClassToolDispatch, None, ThePage))

  const Found := Apply(Sold, Begun, Paging)

  function FoundIn(w: World, db: DB): World { w.(flights := map[1 := CallFlight(TheCall, true)], db := db) }

  const FoundWorld := FoundIn(RolledWorld, Found)

  predicate FoundMissing(db: DB) {
    && db.work == Empty.work && db.ledger == Empty.ledger && db.money == Empty.money && db.guarded == Empty.guarded
    && 2 in db.recovery.runs && Missed in db.recovery.findings
    && db.recovery.findings[Missed] == Finding(1, FindingMissing)
  }

  lemma Finds()
    ensures FoundMissing(Found)
  {
    hide AdmissionStep, EffectStep, GrantStep, ExecutionStep, ControlStep, FinanceStep, Recovery.AllComplete,
      Recovery.RecordEach;
    RunBegins();
    RecordsOne(Begun);
  }

  lemma RecordsOne(db: DB)
    requires BegunAlone(db)
    ensures Recovery.RecordEach(db, 2, ClassToolDispatch, ThePage.candidates).Ok?
    ensures Recovery.RecordEach(db, 2, ClassToolDispatch, ThePage.candidates).value
         == db.(recovery := db.recovery.(findings := map[Missed := Finding(1, FindingMissing)]))
  {
    assert Recovery.FindingOf(db, TheKey, DispatchBody(Binding)) == Ok(Finding(1, FindingMissing));
    assert ThePage.candidates[1..] == [];
  }

  lemma CommitPageHappens()
    ensures Leads(ListedWorld, Commits, FoundWorld)
  {
    hide AskStep, AskPermitStep, ConsumeStep, PutStep, StartStep, RestoreStep, Apply, Begins, Starts, Recovery.PageOf,
      Recovery.Follows;
    assert ListedWorld.flights - {2} == FoundWorld.flights;
  }

  lemma EnumeratingLeaves()
    ensures Leaves(Sold, Enumerating, FoundWorld)
  {
    hide Leaves, Leads, Apply, Publishing, StoredWorld, RolledWorld, StartedWorld, ListedWorld, FoundWorld;
    PublishingLeaves();
    RollbackHappens();
    StartHappens();
    ListHappens();
    CommitPageHappens();
    Follow(Publishing, Rollback(Recover), StoredWorld, RolledWorld);
    Follow(Next(Publishing, Rollback(Recover)), Opens, RolledWorld, StartedWorld);
    Follow(Next(Next(Publishing, Rollback(Recover)), Opens), Lists, StartedWorld, ListedWorld);
    Follow(Next(Next(Next(Publishing, Rollback(Recover)), Opens), Lists), Commits, ListedWorld, FoundWorld);
  }

  const Brought := Recovery.RestoredDispatch(Binding)

  predicate ReturnedBare(db: DB) { 9 in db.ledger.dispatches && db.ledger.dispatches[9] == Brought }

  lemma Restores(db: DB)
    requires FoundMissing(db)
    ensures ReturnedBare(Apply(Sold, db, Restoring(Missed, DispatchBody(Binding))))
  {
    hide AdmissionStep, EffectStep, GrantStep, ExecutionStep, ControlStep, FinanceStep, RunStep,
      Recovery.RestoreLaunch, Recovery.RestoreEffect;
  }

  /** A restored call the world knows, whose record is not what was published. */
  predicate Unrebuilt(w: World) {
    && ReturnedBare(w.db) && TheKey in w.restored && 9 in w.issued && w.issued[9] == DispatchBody(Binding)
    && Holds(w, TheKey, DispatchBody(Binding)) && !Rebuilds(w, 9)
  }

  lemma RestoreHappens()
    ensures Unrebuilt(Happens(Sold, FoundWorld, RestoreFinding(Missed)))
  {
    hide AskStep, AskPermitStep, ConsumeStep, PutStep, StartStep, Apply, Begins, Starts, Recovery.PageOf,
      Recovery.Follows;
    Finds();
    Restores(Found);
  }

  const Lost := WorldAfter(Sold, Losing)

  lemma UnrebuiltIsRecalled(w: World)
    requires Unrebuilt(w)
    ensures CallsRecalled(w, 9, 1, Request) && !Answerable(w, 9, Request)
  {
  }

  lemma LosingLeaves()
    ensures Unrebuilt(Lost)
  {
    hide Happens, Apply, Unrebuilt, Enumerating, FoundWorld;
    EnumeratingLeaves();
    RestoreHappens();
  }

  /** A published tool call with an argument and a side effect, lost by a rollback and
      restored: its record no longer makes its object, and a retry of the very request
      is refused. */
  lemma RestoredIsUnrebuilt(id: Id, revision: Option<Name>, now: Time)
    ensures Unrebuilt(Lost) && Refused(Sold, Lost.db, id, Binding.tenant, Request, Nobody, revision, now)
  {
    hide WorldAfter, Unrebuilt, CallsRecalled, Answerable, Refused;
    LosingLeaves();
    UnrebuiltIsRecalled(Lost);
    RetryConflicts(Sold, Losing, 9, id, 1, Request, Nobody, revision, now);
  }
}
