/** The services over one store, and what any sequence of their transactions leaves: the
    state the same run of transactions reaches, so what is proved of every run holds of
    the store as it is changed in place. And one request from its first transaction to
    its answer, when nothing comes between its steps
    (internal/application/dispatch.go:173-328). */
module Application {
  import opened Values
  import opened Records
  import opened Database
  import opened Tables
  import opened Transactions
  import Admission
  import DispatchSteps
  import Dispatching
  import Effects
  import Executing
  import Execution
  import Finance
  import Financing
  import Grants
  import Guarding
  import Inventories
  import Recovering
  import Recovery
  import Releases

  class Services {
    const store: Store
    const config: Config
    const dispatches: Dispatching.Dispatches
    const accountant: Financing.Accountant
    const executor: Executing.Executor
    const controller: Executing.Controller
    const guard: Guarding.Guard
    const recoverer: Recovering.Recoverer

    constructor (c: Config, i: Inventories.Inventory)
      ensures fresh(store) && config == c && Valid() && store.Snapshot() == Empty
    {
      var s := new Store();
      store, config := s, c;
      dispatches := new Dispatching.Dispatches(s, c);
      accountant := new Financing.Accountant(s);
      executor := new Executing.Executor(s, c);
      controller := new Executing.Controller(s, c);
      guard := new Guarding.Guard(s, c);
      recoverer := new Recovering.Recoverer(s, c, i);
    }

    ghost predicate Valid() {
      && dispatches.store == store && dispatches.config == config
      && accountant.store == store
      && executor.store == store && executor.config == config
      && controller.store == store && controller.config == config && controller.Valid()
      && guard.store == store && guard.config == config
      && recoverer.store == store && recoverer.config == config && recoverer.Valid()
    }

    method ExecuteAdmission(t: AdmissionTx)
      requires Valid()
      modifies store
      ensures store.Snapshot() == Kept(AdmissionStep(config, old(store.Snapshot()), t), old(store.Snapshot()))
    {
      hide Admission.AdmitPrepare, Admission.AdmitConsume, Admission.MarkDispatchUncertain, Admission.Observe,
        Admission.ConfirmNotSent;
      match t {
        case AdmitPrepare(id, tenant, req, authority, revision, now) =>
          var _ := dispatches.Prepare(id, tenant, req, authority, revision, now);
        case AdmitConsume(call, authority, now) =>
          var _ := dispatches.Consume(call.id, call.copy, call.tenant, call.req, authority, now);
        case MarkDispatchUncertain(id) =>
          var _ := dispatches.MarkInventoryUncertain(id);
        case ObserveDispatch(reader, id, report, outcome) =>
          var _ := dispatches.Observe(reader, id, report, outcome);
        case ConfirmDispatchNotSent(id, evidence) =>
          var _ := dispatches.ConfirmNotSentLocked(id, evidence, None);
      }
    }

    method ExecuteEffect(t: EffectTx)
      requires Valid()
      modifies store
      ensures store.Snapshot() == Kept(EffectStep(config, old(store.Snapshot()), t), old(store.Snapshot()))
    {
      hide Effects.PermitPrepare, Effects.PermitConsume, Effects.MarkEffectUncertain, Effects.Observe;
      match t {
        case PermitPrepare(id, tenant, command, req, now) =>
          var _ := guard.Prepare(id, tenant, command, req, now);
        case PermitConsume(m, now) =>
          var _ := guard.Consume(m.id, m.copy, m.tenant, m.req, now);
        case MarkEffectUncertain(id) =>
          var _ := guard.MarkInventoryUncertain(id);
        case ObserveEffect(id, tenant, source, sequence, outcome, receipt) =>
          var _ := guard.Observe(id, tenant, source, sequence, outcome, receipt);
      }
    }

    method ExecuteGrant(t: GrantTx)
      requires Valid()
      modifies store
      ensures store.Snapshot() == Kept(GrantStep(old(store.Snapshot()), t), old(store.Snapshot()))
    {
      hide Grants.Register, Grants.BeginRevocation, Grants.Revocation;
      match t {
        case RegisterGrant(g, registration, now) =>
          var _ := guard.RegisterGrant(g, registration, now);
        case BeginRevocation(g, tenant) =>
          var _ := guard.BeginRevocation(g, tenant);
        case AdvanceRevocation(g) =>
          var _ := guard.Revocation(g);
      }
    }

    method ExecuteAttempt(t: ExecutionTx)
      requires Valid()
      modifies store
      ensures store.Snapshot() == Kept(ExecutionStep(config, old(store.Snapshot()), t), old(store.Snapshot()))
    {
      hide Execution.Submit, Execution.ConfirmIntake, Execution.OpenAttempt, Execution.PrepareLaunch,
        Execution.ConfirmLaunch, Execution.RegisterInstance, Execution.AcceptResult, Execution.AskQuestions,
        Execution.SubmitAnswer;
      match t {
        case Submit(o, bind, definition) =>
          var _ := controller.Submit(o, bind, definition);
        case ConfirmIntake(o) =>
          var _ := executor.ConfirmIntake(o);
        case OpenAttempt(a, o, tenant, profile, now) =>
          var _ := executor.OpenAttempt(a, o, tenant, profile, now);
        case PrepareLaunch(l, a, tenant, deadline, now) =>
          var _ := executor.PrepareLaunch(l, a, tenant, deadline, now);
        case ConfirmLaunch(l, tenant, now) =>
          var _ := executor.ConfirmLaunch(l, tenant, now);
        case RegisterInstance(i, l, tenant) =>
          var _ := executor.RegisterInstance(i, l, tenant);
        case AcceptResult(a, i, tenant, verdict, observerEpoch, now) =>
          var _ := executor.AcceptResult(a, i, tenant, verdict, observerEpoch, now);
        case AskQuestions(o, tenant) =>
          var _ := executor.AskQuestions(o, tenant);
        case SubmitAnswer(o, tenant) =>
          var _ := executor.SubmitAnswer(o, tenant);
      }
    }

    method ExecuteControl(t: ControlTx)
      requires Valid()
      modifies store
      ensures store.Snapshot() == Kept(ControlStep(config, old(store.Snapshot()), t), old(store.Snapshot()))
    {
      hide Execution.Settle, Execution.SettleFromIntent, Execution.SubmitCancel, Execution.SubmitControl,
        Execution.RecordCommandRelay, Execution.RecordLease, Execution.RequestPermit, Execution.RecordFunding;
      match t {
        case Settle(o, tenant, intent) =>
          var _ := executor.Settle(o, tenant, intent);
        case SettleFromIntent(o) =>
          var _ := executor.SettleFromIntent(o);
        case SubmitCancel(o, tenant, expected) =>
          var _ := controller.SubmitCancel(o, tenant, expected);
        case SubmitControl(k, o, kind, target, expected, now) =>
          var _ := controller.SubmitControl(k, o, kind, target, expected, now);
        case RecordCommandRelay(k, outcome) =>
          var _ := controller.RecordCommandRelay(k, outcome);
        case RecordLease(o, tenant, lease) =>
          var _ := controller.RecordLease(o, tenant, lease);
        case RequestPermit(o, tenant, briefCurrent, now) =>
          var _ := controller.RequestPermit(o, tenant, briefCurrent, now);
        case RecordFunding(o) =>
          var _ := controller.RecordFunding(o);
      }
    }

    /** A list that is not the answer of the query is no transaction of the service. */
    method ExecuteFinance(t: FinanceTx)
      requires Valid()
      modifies store
      ensures store.Snapshot() == Kept(FinanceStep(old(store.Snapshot()), t), old(store.Snapshot()))
    {
      hide Finance.CreatePool, Finance.AdjustPool, Finance.SetCap, Finance.SettleFinance, Finance.ListsPools,
        Finance.Draw, Finance.SameLevelTwice, Finance.HasLevel;
      match t {
        case Allocate(o, tenant, actor, amount, listed, now) =>
          if Finance.ListsPools(store.Snapshot(), listed, amount.currency, tenant, actor, now) {
            var _ := accountant.Allocate(o, tenant, actor, amount, listed, now);
          }
        case CreatePool(pool, terms) =>
          var _ := accountant.CreatePool(pool, terms);
        case AdjustPool(pool, amount) =>
          var _ := accountant.AdjustPool(pool, amount);
        case SetCap(k, ceiling) =>
          var _ := accountant.SetCap(k, ceiling);
        case SettleFinance(o) =>
          var _ := accountant.SettleFinance(o);
      }
    }

    method ExecuteRun(t: RunTx)
      requires Valid()
      modifies store
      ensures store.Snapshot() == Kept(RunStep(old(store.Snapshot()), t), old(store.Snapshot()))
    {
      hide Recovery.Begin, Recovery.Started, Recovery.CommitPage, Recovery.SettleFinding,
        Recovery.ConfirmRestoredLaunch, Recovery.Evaluate;
      match t {
        case BeginRecovery(r, scope, command, digest, epoch, windowStart, windowEnd, skew) =>
          var _ := recoverer.Begin(r, scope, command, digest, epoch, windowStart, windowEnd, skew);
        case RunStarted(r) =>
          var _ := recoverer.Started(r);
        case CommitPage(r, category, seen, page) =>
          var _ := recoverer.CommitPage(r, category, seen, page);
        case SettleFinding(f, status) =>
          var _ := recoverer.SettleFinding(f, status);
        case ConfirmRestoredLaunch(l) =>
          var _ := recoverer.ConfirmRestoredLaunch(l);
        case Evaluate(r) =>
          var _ := recoverer.Evaluate(r);
      }
    }

    /** One transaction, whichever it is. */
    method Execute(tx: Tx)
      requires Valid()
      modifies store
      ensures Executed(config, tx, old(store.Snapshot()), store.Snapshot())
    {
      hide AdmissionStep, EffectStep, GrantStep, ExecutionStep, ControlStep, FinanceStep, RunStep, Releases.Record,
        Execution.CloseAttempt, Recovery.Restore, Recovery.Dispose;
      match tx {
        case Admitting(t) => ExecuteAdmission(t);
        case Permitting(t) => ExecuteEffect(t);
        case Releasing(o, tenant, facts, expected, cert) =>
          var _ := guard.RecordRelease(o, tenant, facts, expected, cert);
        case Granting(t) => ExecuteGrant(t);
        case Executing(t) => ExecuteAttempt(t);
        case Closing(a, tenant, outcome, cleanup, listed) =>
          var _ := executor.CloseAttempt(a, tenant, outcome, cleanup, listed);
        case Controlling(t) => ExecuteControl(t);
        case Financing(t) => ExecuteFinance(t);
        case Recovering(t) => ExecuteRun(t);
        case Restoring(f, body) =>
          var _ := recoverer.Restore(f, body);
        case Disposing(req, bound) =>
          var _ := recoverer.Dispose(req, bound);
      }
    }

    /** Transactions in turn leave what their run reaches. */
    method Replay(txs: seq<Tx>)
      requires Valid() && store.Snapshot() == Empty
      modifies store
      ensures Reached(config, RunOf(txs), store.Snapshot())
    {
      hide Apply;
      for i := 0 to |txs|
        invariant Reached(config, RunOf(txs[..i]), store.Snapshot())
      {
        assert txs[..i + 1][..i] == txs[..i] && txs[..i + 1][i] == txs[i];
        Execute(txs[i]);
      }
      assert txs[..|txs|] == txs;
    }
  }

  predicate Executed(c: Config, tx: Tx, before: DB, after: DB) {
    hide Apply;
    after == Apply(c, before, tx)
  }

  predicate Reached(c: Config, run: Run, db: DB) {
    hide Apply;
    db == After(c, run)
  }

  /** A transaction that fails keeps the state. */
  function Kept(spec: Result<DB>, db: DB): DB { if spec.Ok? then spec.value else db }

  function RunOf(txs: seq<Tx>): Run {
    if txs == [] then Start else Then(RunOf(txs[..|txs| - 1]), txs[|txs| - 1])
  }

  // ---------- one request through its four steps ----------

  /** The answer to a request: its record, and whether this request consumed the
      permission. */
  datatype Reply = Reply(id: Id, allowed: bool)

  /** A caller told it may send holds the one record that was authorized now, published
      exactly as it says. */
  predicate Granted(before: DB, after: DB, objects: map<Key, Object>, d: Id) {
    && d in after.ledger.dispatches && after.ledger.dispatches[d].state == DispatchAuthorized
    && (d in before.ledger.dispatches ==>
          before.ledger.dispatches[d].state == DispatchPrepared
          && before.ledger.dispatches[d].bind == after.ledger.dispatches[d].bind)
    && var k := DispatchKey(d, after.ledger.dispatches[d].bind);
       k in objects && objects[k].body == DispatchBody(after.ledger.dispatches[d].bind)
  }

  /** No dispatch became authorized. */
  predicate NoneGranted(before: DB, after: DB, d: Id) {
    DispatchSteps.InState(after, d, DispatchAuthorized) ==> DispatchSteps.InState(before, d, DispatchAuthorized)
  }

  /** What is published stays as it was published. */
  ghost predicate Keeps(objects: map<Key, Object>, next: map<Key, Object>) {
    forall k | k in objects :: k in next && next[k] == objects[k]
  }

  class Gate {
    const dispatches: Dispatching.Dispatches
    const inventory: Inventories.Inventory

    constructor (s: Store, c: Config, i: Inventories.Inventory)
      ensures dispatches.store == s && dispatches.config == c && inventory == i
    {
      inventory := i;
      dispatches := new Dispatching.Dispatches(s, c);
    }

    /** The four steps of an admission: the first transaction, again after a duplicate
        key; the obligation outside every lock, an uncertain write recorded and granting
        nothing; the second transaction. Only the request whose second transaction
        consumed the permission is told so (internal/application/dispatch.go:173-328). */
    method Admit(id: Id, tenant: Name, req: Admission.Request, authority: Admission.Authority, revision: Option<Name>,
                 now: Time, write: WriteReply, current: Admission.Authority, later: Time)
      returns (r: Result<Reply>)
      modifies dispatches.store, inventory
      ensures r.Ok? && r.value.allowed ==>
                Granted(old(dispatches.store.Snapshot()), dispatches.store.Snapshot(), inventory.objects, r.value.id)
      ensures !(r.Ok? && r.value.allowed) ==>
                forall d :: NoneGranted(old(dispatches.store.Snapshot()), dispatches.store.Snapshot(), d)
      ensures Keeps(old(inventory.objects), inventory.objects)
    {
      hide Admission.AdmitPrepare, Admission.AdmitConsume, Admission.MarkDispatchUncertain, Granted, NoneGranted;
      ghost var before := dispatches.store.Snapshot();
      var answered := dispatches.Prepare(id, tenant, req, authority, revision, now);
      if answered == Err(DuplicateKey) {
        answered := dispatches.Prepare(id, tenant, req, authority, revision, now);
      }
      ghost var prepared := dispatches.store.Snapshot();
      FirstGrantsNothing(dispatches.config, before, id, tenant, req, authority, revision, now);
      if answered.Err? { return Err(answered.error); }
      var d, copy := answered.value.id, answered.value.dispatch;
      if !answered.value.proceed { return Ok(Reply(d, false)); }
      var k, body := DispatchKey(d, copy.bind), DispatchBody(copy.bind);
      var written := Fail(EffectUncertain);
      if !write.Unwritten? { written := inventory.Put(k, body, now); }
      if written.Fail? || write.AckLost? {
        Marks(prepared, d);
        var _ := dispatches.MarkInventoryUncertain(d);
        ThenNone(before, prepared, dispatches.store.Snapshot());
        return Err(EffectUncertain);
      }
      SecondGrantsItsOwn(dispatches.config, prepared, d, copy, tenant, req, current, later);
      var decided := dispatches.Consume(d, copy, tenant, req, current, later);
      if decided == Ok(true) {
        GrantedBy(before, prepared, dispatches.store.Snapshot(), inventory.objects, d, copy);
      } else {
        ThenNone(before, prepared, dispatches.store.Snapshot());
      }
      return if decided.Err? then Err(decided.error) else Ok(Reply(d, decided.value));
    }
  }

  ghost predicate NobodyGranted(before: DB, after: DB) { forall d :: NoneGranted(before, after, d) }

  lemma ThenNone(before: DB, mid: DB, after: DB)
    requires NobodyGranted(before, mid) && NobodyGranted(mid, after)
    ensures NobodyGranted(before, after)
  {
    forall d
      ensures NoneGranted(before, after, d)
    {
      assert NoneGranted(before, mid, d) && NoneGranted(mid, after, d);
    }
  }

  /** The first transaction authorizes nothing; what proceeds is the prepared record. */
  lemma FirstGrantsNothing(c: Config, db: DB, id: Id, tenant: Name, req: Admission.Request,
                           authority: Admission.Authority, revision: Option<Name>, now: Time)
    ensures NobodyGranted(db, db)
    ensures match Admission.AdmitPrepare(c, db, id, tenant, req, authority, revision, now)
            case Err(_) => true
            case Ok(p) => NobodyGranted(db, p.db) && (p.proceed ==> Carried(db, p.db, p.id, p.dispatch, tenant, req))
  {
    hide Admission.AdmitPrepare, Apply, DispatchSteps.Admissible;
    var tx := Admitting(AdmitPrepare(id, tenant, req, authority, revision, now));
    AdmissionCommits(c, db, tx.admission);
    match Admission.AdmitPrepare(c, db, id, tenant, req, authority, revision, now)
    case Err(_) =>
    case Ok(p) =>
      forall d
        ensures NoneGranted(db, p.db, d)
      {
        DispatchSteps.StepOfRow(c, db, tx, d);
      }
      DispatchSteps.AskedIsBound(c, db, id, tenant, req, authority, revision, now);
      DispatchSteps.StepOfRow(c, db, tx, p.id);
  }

  /** The call in flight carries the prepared record and is bound to its request. */
  predicate Carried(before: DB, db: DB, d: Id, copy: Dispatch, tenant: Name, req: Admission.Request) {
    && d in db.ledger.dispatches && db.ledger.dispatches[d] == copy && copy.state == DispatchPrepared
    && Call(d, copy, tenant, req).Bound()
    && (d in before.ledger.dispatches ==>
          before.ledger.dispatches[d].state == DispatchPrepared && before.ledger.dispatches[d].bind == copy.bind)
  }

  lemma Marks(db: DB, id: Id)
    ensures match Admission.MarkDispatchUncertain(db, id)
            case Err(_) => true
            case Ok(next) => NobodyGranted(db, next)
    ensures NobodyGranted(db, db)
  {
    forall d
      ensures NoneGranted(db, db, d)
    {
    }
  }

  /** The second transaction authorizes its own record, or nothing. */
  lemma SecondGrantsItsOwn(c: Config, db: DB, id: Id, copy: Dispatch, tenant: Name, req: Admission.Request,
                           authority: Admission.Authority, now: Time)
    requires Call(id, copy, tenant, req).Bound() && id in db.ledger.dispatches && db.ledger.dispatches[id] == copy
    ensures NobodyGranted(db, db)
    ensures match Admission.AdmitConsume(c, db, id, copy, tenant, req, authority, now)
            case Err(_) => true
            case Ok(p) =>
              if p.allowed then id in p.db.ledger.dispatches && p.db.ledger.dispatches[id].bind == copy.bind
                                && p.db.ledger.dispatches[id].state == DispatchAuthorized
              else NobodyGranted(db, p.db)
  {
    hide Admission.AdmitConsume, Apply, DispatchSteps.Admissible;
    var call := Call(id, copy, tenant, req);
    var tx := Admitting(AdmitConsume(call, authority, now));
    AdmissionCommits(c, db, tx.admission);
    match Admission.AdmitConsume(c, db, id, copy, tenant, req, authority, now)
    case Err(_) =>
    case Ok(p) =>
      DispatchSteps.AllowedConsumes(c, db, call, authority, now);
      DispatchSteps.StepOfRow(c, db, tx, id);
      if !p.allowed {
        RefusedConsumes(c, db, call, authority, now);
        forall d
          ensures NoneGranted(db, p.db, d)
        {
          DispatchSteps.StepOfRow(c, db, tx, d);
        }
      }
  }

  lemma RefusedConsumes(c: Config, db: DB, call: Call, authority: Admission.Authority, now: Time)
    requires Admission.AdmitConsume(c, db, call.id, call.copy, call.tenant, call.req, authority, now).Ok?
    ensures var p := Admission.AdmitConsume(c, db, call.id, call.copy, call.tenant, call.req, authority, now).value;
            !p.allowed ==> NoneGranted(db, p.db, call.id)
  {
    hide Admission.CheckAdmission, Admission.LoadContext, MoveBudget;
  }

  lemma GrantedBy(before: DB, prepared: DB, after: DB, objects: map<Key, Object>, d: Id, copy: Dispatch)
    requires d in before.ledger.dispatches ==>
               before.ledger.dispatches[d].state == DispatchPrepared && before.ledger.dispatches[d].bind == copy.bind
    requires d in after.ledger.dispatches && after.ledger.dispatches[d].bind == copy.bind
    requires after.ledger.dispatches[d].state == DispatchAuthorized
    requires var k := DispatchKey(d, copy.bind); k in objects && objects[k].body == DispatchBody(copy.bind)
    ensures Granted(before, after, objects, d)
  {
  }
}
