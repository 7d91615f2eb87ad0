/** Attempts, settlement, control commands and execution permits, changed in place
    (internal/application/execution.go, execution_settlement.go, generation.go,
    operations.go). */
module Executing {
  import opened Values
  import opened Budget
  import opened Records
  import opened Database
  import opened Entities
  import opened LockedBudgets
  import opened Tables
  import Admission
  import Execution

  class Executor {
    const store: Store
    const config: Config

    constructor (s: Store, c: Config)
      ensures store == s && config == c
    {
      store, config := s, c;
    }

    // ---------- attempts ----------

    /** A new attempt of a multi-step operation starts only once the work so far is
        reconciled and, in a pool, permitted, funded and leased
        (internal/application/execution.go:68-169). */
    method OpenAttempt(a: Id, o: Id, tenant: Name, profile: Option<Name>, now: Time) returns (r: Check)
      modifies store
      ensures Committed(Execution.OpenAttempt(config, old(store.Snapshot()), a, o, tenant, profile, now), r,
                        old(store.Snapshot()), store.Snapshot())
    {
      hide Execution.BootstrapGate, AdmissionClosed;
      if o !in store.work.operations || store.work.operations[o].bind.tenant != tenant { return Fail(NotFound); }
      var op := new OperationEntity(store.work.operations[o]);
      if AdmissionClosed(store.Snapshot(), tenant) { return Fail(StaleExecution); }
      r := Execution.BootstrapGate(config, store.Snapshot(), o, now);
      if r.Fail? { return; }
      if op.Row().FencedForNewDispatch() || !op.intakeConfirmed
          || now >= op.Row().EffectiveDeadline() { return Fail(StaleExecution); }
      if a in store.work.attempts { return Fail(DuplicateKey); }
      var deadline := op.Row().EffectiveDeadline();
      var window := config.ProfileOf(op.Row()).attemptWindow;
      if window.Some? && window.value > 0 && now + window.value < deadline { deadline := now + window.value; }
      store.UpdateAttempt(a, Attempt(AttemptBinding(o, tenant, profile, op.executionEpoch, deadline), AttemptOpen,
                                     None, None));
      op.lifecycle := LifecycleRunning;
      op.Transition();
      store.UpdateOperation(o, op.Row());
      return Pass;
    }

    /** internal/application/operations.go:300-333. */
    method ConfirmIntake(o: Id) returns (r: Check)
      modifies store
      ensures Committed(Execution.ConfirmIntake(old(store.Snapshot()), o), r, old(store.Snapshot()), store.Snapshot())
    {
      if o !in store.work.operations { return Fail(NotFound); }
      if !store.work.operations[o].intakeConfirmed {
        store.UpdateOperation(o, store.work.operations[o].(intakeConfirmed := true).Transition());
      }
      return Pass;
    }

    /** internal/application/execution.go:208-269. */
    method PrepareLaunch(l: Id, a: Id, tenant: Name, deadline: Time, now: Time) returns (r: Check)
      modifies store
      ensures Committed(Execution.PrepareLaunch(old(store.Snapshot()), l, a, tenant, deadline, now), r,
                        old(store.Snapshot()), store.Snapshot())
    {
      hide AdmissionClosed;
      if !Execution.AttemptOfTenant(store.Snapshot(), a, tenant) { return Fail(NotFound); }
      var at := store.work.attempts[a];
      var op := new OperationEntity(store.work.operations[at.bind.operation]);
      var bound := if deadline > at.bind.deadline then at.bind.deadline else deadline;
      if AdmissionClosed(store.Snapshot(), op.bind.tenant) { return Fail(StaleExecution); }
      if op.Row().FencedForNewDispatch() || (at.state != AttemptOpen && at.state != AttemptLaunchPrepared)
         || at.bind.epoch != op.executionEpoch || now >= at.bind.deadline || bound <= now
      {
        return Fail(StaleExecution);
      }
      if l in store.work.launches { return Fail(DuplicateKey); }
      var bind := LaunchBinding(a, at.bind.operation, tenant, at.bind.profile, op.executionEpoch, bound, now);
      store.work := store.work.(launches := store.work.launches[l := Launch(bind, InventoryPending)]);
      store.UpdateAttempt(a, at.(state := AttemptLaunchPrepared));
      op.cleanup := CleanupPending;
      op.Transition();
      store.UpdateOperation(at.bind.operation, op.Row());
      return Pass;
    }

    /** internal/application/execution.go:271-310. */
    method ConfirmLaunch(l: Id, tenant: Name, now: Time) returns (r: Check)
      modifies store
      ensures Committed(Execution.ConfirmLaunch(old(store.Snapshot()), l, tenant, now), r, old(store.Snapshot()),
                        store.Snapshot())
    {
      if l !in store.work.launches || !Execution.AttemptOfTenant(store.Snapshot(), store.work.launches[l].bind.attempt,
          tenant) {
        return Fail(NotFound);
      }
      var launch := store.work.launches[l];
      var at := store.work.attempts[launch.bind.attempt];
      var op := store.work.operations[at.bind.operation];
      if launch.inventory == InventoryConfirmed { return Pass; }
      if op.FencedForNewDispatch() || launch.bind.epoch != op.executionEpoch || at.bind.epoch != op.executionEpoch
         || (at.state != AttemptLaunchPrepared && at.state != AttemptOpen)
         || now >= launch.bind.deadline || now >= at.bind.deadline
      {
        return Fail(StaleExecution);
      }
      store.work := store.work.(launches := store.work.launches[l := launch.(inventory := InventoryConfirmed)]);
      return Pass;
    }

    /** internal/application/execution.go:319-373. */
    method RegisterInstance(i: Id, l: Id, tenant: Name) returns (r: Check)
      modifies store
      ensures Committed(Execution.RegisterInstance(old(store.Snapshot()), i, l, tenant), r, old(store.Snapshot()),
                        store.Snapshot())
    {
      if l !in store.work.launches || !Execution.AttemptOfTenant(store.Snapshot(), store.work.launches[l].bind.attempt,
          tenant) {
        return Fail(NotFound);
      }
      var a := store.work.launches[l].bind.attempt;
      var at := store.work.attempts[a];
      var current := !exists j | j in store.work.instances ::
          store.work.instances[j].attempt == a && store.work.instances[j].current;
      if store.work.launches[l].inventory != InventoryConfirmed { return Fail(StaleExecution); }
      if i in store.work.instances { return Pass; }
      store.work := store.work.(instances := store.work.instances[i := Instance(a, current)]);
      if current && !at.Closed() {
        store.UpdateAttempt(a, at.(state := AttemptRunning));
        store.UpdateOperation(at.bind.operation, store.work.operations[at.bind.operation].Transition());
      }
      return Pass;
    }

    /** internal/application/execution.go:421-501. */
    method AcceptResult(a: Id, i: Id, tenant: Name, verdict: Verdict, observerEpoch: Option<nat>,
                        now: Time) returns (r: Check)
      modifies store
      ensures Committed(Execution.AcceptResult(old(store.Snapshot()), a, i, tenant, verdict, observerEpoch, now), r,
                        old(store.Snapshot()), store.Snapshot())
    {
      if !Execution.AttemptOfTenant(store.Snapshot(), a, tenant) || i !in store.work.instances {
        return Fail(NotFound);
      }
      var at := store.work.attempts[a];
      var op := store.work.operations[at.bind.operation];
      if a in store.work.stages {
        return if store.work.stages[a] == verdict then Pass else Fail(IdempotencyConflict);
      }
      if !store.work.instances[i].current || store.work.instances[i].attempt != a || at.bind.epoch != op.executionEpoch
         || (observerEpoch.Some? && observerEpoch.value != op.executionEpoch)
         || (op.FencedForNewDispatch() && op.control == ControlNone)
         || (at.state != AttemptRunning && at.state != AttemptLaunchPrepared)
         || now > at.bind.deadline
      {
        return Fail(StaleExecution);
      }
      store.work := store.work.(stages := store.work.stages[a := verdict]);
      store.UpdateAttempt(a, at.(state := AttemptResultAccepted));
      store.UpdateOperation(at.bind.operation, op.Transition());
      return Pass;
    }

    /** internal/application/preparation.go:88-143. */
    method AskQuestions(o: Id, tenant: Name) returns (r: Check)
      modifies store
      ensures Committed(Execution.AskQuestions(old(store.Snapshot()), o, tenant), r, old(store.Snapshot()),
                        store.Snapshot())
    {
      hide AdmissionClosed;
      if o !in store.work.operations || store.work.operations[o].bind.tenant != tenant { return Fail(NotFound); }
      var op := new OperationEntity(store.work.operations[o]);
      if op.bind.kind != KindPreparation { return Fail(Invalid); }
      if AdmissionClosed(store.Snapshot(), tenant) || op.Row().FencedForNewDispatch()
          || !op.intakeConfirmed { return Fail(StaleExecution); }
      op.lifecycle := LifecycleWaiting;
      op.Transition();
      store.UpdateOperation(o, op.Row());
      return Pass;
    }

    /** internal/application/preparation.go:150-220. */
    method SubmitAnswer(o: Id, tenant: Name) returns (r: Check)
      modifies store
      ensures Committed(Execution.SubmitAnswer(old(store.Snapshot()), o, tenant), r, old(store.Snapshot()),
                        store.Snapshot())
    {
      if o !in store.work.operations || store.work.operations[o].bind.tenant != tenant { return Fail(NotFound); }
      var op := new OperationEntity(store.work.operations[o]);
      if op.lifecycle.Terminal() || op.control != ControlNone { return Fail(StaleExecution); }
      op.lifecycle := LifecycleRunning;
      op.Transition();
      store.UpdateOperation(o, op.Row());
      return Pass;
    }

    /** Each dispatch still prepared when its attempt closes is denied and its
        reservation released (internal/application/execution.go:619-647). */
    method DenyPrepared(o: Id, listed: seq<Id>) returns (r: Check)
      requires o in store.work.operations && forall i | 0 <= i < |listed| :: listed[i] in store.ledger.dispatches
      modifies store`ledger, store`money
      ensures match Execution.DenyEach(old(store.Snapshot()), o, listed)
              case Ok(next) => r == Pass && store.Snapshot() == next
              case Err(e) => r == Fail(e)
    {
      hide MoveBudget, AllocationsOf, Execution.DenyEach, SavesTo;
      DenyNone(store.Snapshot(), o);
      if listed == [] { return Pass; }
      ghost var left := store.Snapshot();
      var budget := Lock(store, o);
      for i := 0 to |listed|
        invariant forall j | 0 <= j < |listed| :: listed[j] in store.ledger.dispatches
        invariant o in left.work.operations
        invariant Execution.DenyEach(old(store.Snapshot()), o, listed) == Execution.DenyEach(left, o, listed[i..])
        invariant budget.Valid() && fresh(budget.allocs) && fresh(budget.caps) && budget.Locks(left, o)
        invariant store.ledger == left.ledger
        invariant if i == 0 then left == store.Snapshot() else SavesTo(store.Snapshot(), left, o)
      {
        assert listed[i..][0] == listed[i] && listed[i..][1..] == listed[i + 1..];
        DenyFirst(left, o, listed[i..]);
        r, left := DenyOne(budget, o, listed[i], left);
        if r.Fail? { return; }
      }
      DenyNone(left, o);
      budget.Save(store, o, left);
      return Pass;
    }

    method DenyOne(budget: LockedBudget, o: Id, id: Id, ghost left: DB) returns (r: Check, ghost next: DB)
      requires budget.Valid() && budget.Locks(left, o) && id in left.ledger.dispatches && store.ledger == left.ledger
      requires left == store.Snapshot() || SavesTo(store.Snapshot(), left, o)
      modifies store`ledger, budget.allocs, budget.caps
      ensures match DeniedOne(left, o, id)
              case Err(e) => r == Fail(e)
              case Ok(denied) =>
                r == Pass && next == denied && budget.Locks(next, o) && store.ledger == next.ledger
                    && SavesTo(store.Snapshot(), next, o)
    {
      hide MoveBudget, AllocationsOf, SavesTo;
      next := left;
      var d := new DispatchEntity(store.ledger.dispatches[id]);
      r := d.Deny(DenyAttemptClosed);
      if r.Fail? { return; }
      r := budget.Move(ToRelease, d.bind.reserved, left, o);
      if r.Fail? { return; }
      store.UpdateDispatch(id, d.Row());
      ghost var freed := MoveBudget(left, o, ToRelease, d.bind.reserved).value;
      next := Admission.UpdateDispatch(freed, id, d.Row());
      SameMoney(freed, next, o);
      SavedOn(old(store.Snapshot()), left, freed, id, d.Row(), o);
    }

    /** A close settles the attempt, what it still had prepared and the operation's
        lifecycle; an open obligation keeps the operation reconciling; listed is the
        answer of the query (internal/application/execution.go:583-684). */
    method CloseAttempt(a: Id, tenant: Name, outcome: AttemptOutcome, cleanup: CleanupState,
                        listed: seq<Id>) returns (r: Check)
      modifies store
      ensures Committed(Execution.CloseAttempt(config, old(store.Snapshot()), a, tenant, outcome, cleanup, listed), r,
                        old(store.Snapshot()), store.Snapshot())
    {
      hide SendersActing, HasUnknownAttempt, Execution.DenyEach, Execution.ListsPrepared, Execution.SettleTerminal,
        Execution.LeftByClose;
      var began := store.Snapshot();
      if !Execution.AttemptOfTenant(began, a, tenant) { return Fail(NotFound); }
      var at := store.work.attempts[a];
      var o := at.bind.operation;
      var op := store.work.operations[o];
      var unresolved := SendersActing(began, o) || op.finance == FinanceExposureUnknown;
      var unknownAttempt := HasUnknownAttempt(began, o, Some(a));
      if at.Closed() {
        if at.outcome != Some(outcome) { return Fail(IdempotencyConflict); }
        if !at.CanSettleCleanup(outcome, cleanup)
           && !(op.lifecycle == LifecycleReconciling && !unresolved && !unknownAttempt && cleanup != CleanupUnknown
                && outcome != OutcomeUnknown)
        {
          SettleTerminal(o);
          return Pass;
        }
      }
      if !Execution.ListsPrepared(began, a, listed) { return Fail(Invalid); }
      var left := LeaveOperation(a, outcome, cleanup, unresolved, unknownAttempt);
      ListedRows(began, a, listed);
      r := DenyPrepared(o, listed);
      if r.Fail? {
        store.Rollback(began);
        return;
      }
      store.UpdateAttempt(a, at.(state := AttemptClosed, outcome := Some(outcome), cleanup := Some(cleanup)));
      store.UpdateOperation(o, left);
      SettleTerminal(o);
      return Pass;
    }

    /** The operation a close leaves (internal/application/execution.go:648-667). */
    method LeaveOperation(a: Id, outcome: AttemptOutcome, cleanup: CleanupState, unresolved: bool, unknownAttempt: bool)
      returns (left: Operation)
      requires a in store.work.attempts && store.work.attempts[a].bind.operation in store.work.operations
      requires var db, o := store.Snapshot(), store.work.attempts[a].bind.operation;
               && unresolved == (SendersActing(db, o) || store.work.operations[o].finance == FinanceExposureUnknown)
               && unknownAttempt == HasUnknownAttempt(db, o, Some(a))
      ensures left == Execution.LeftByClose(config, store.Snapshot(), a, outcome, cleanup)
    {
      hide SendersActing, HasUnknownAttempt, Execution.SettleClose, Execution.KeepReconciling, Config.MultiStep,
        Execution.LeftByClose;
      var row := store.work.operations[store.work.attempts[a].bind.operation];
      var op := new OperationEntity(row);
      var stage := if a in store.work.stages then Some(store.work.stages[a]) else None;
      var multiStep := config.MultiStep(row);
      LeftIs(config, store.Snapshot(), a, outcome, cleanup);
      op.SettleClose(stage, outcome, cleanup, multiStep);
      op.KeepReconciling(unresolved, unknownAttempt);
      op.Transition();
      left := op.Row();
    }

    // ---------- settlement ----------

    /** Frees the permits of a terminal operation once nothing of it is open
        (internal/application/execution_settlement.go:19-45). */
    method SettleTerminal(o: Id)
      requires o in store.work.operations
      modifies store`control
      ensures store.Snapshot() == Execution.SettleTerminal(old(store.Snapshot()), o)
    {
      hide SendersActing, HasUnknownAttempt, HasOpenAttempt;
      var db := store.Snapshot();
      var op := store.work.operations[o];
      if op.lifecycle.Terminal() {
        if HasOpenAttempt(db, o) || SendersActing(db, o) || HasUnknownAttempt(db, o, None)
           || op.cleanup == CleanupUnknown || op.finance == FinanceExposureUnknown
        {
          return;
        }
        ReleaseAll(o);
      }
    }

    /** internal/adapters/postgres/queries/generation.sql:24-26. */
    method ReleaseAll(o: Id)
      modifies store`control
      ensures store.Snapshot() == ReleasePermits(old(store.Snapshot()), o)
    {
      var permits := store.control.permits;
      var rest := permits.Keys;
      while rest != {}
        invariant rest <= permits.Keys && permits.Keys == store.control.permits.Keys
        invariant forall k | k in permits :: permits[k] ==
                    if k !in rest && k.operation == o then store.control.permits[k].(active := false)
                        else store.control.permits[k]
        decreases rest
      {
        var k :| k in rest;
        if k.operation == o { permits := permits[k := permits[k].(active := false)]; }
        rest := rest - {k};
      }
      assert permits == ReleasePermits(store.Snapshot(), o).control.permits;
      store.control := store.control.(permits := permits);
    }

    /** The business outcome of a multi-step operation: an open obligation stores the
        intent and keeps it reconciling (internal/application/execution_settlement.go:164-259). */
    method Settle(o: Id, tenant: Name, intent: SettlementIntent) returns (r: Check)
      modifies store
      ensures Committed(Execution.Settle(config, old(store.Snapshot()), o, tenant, intent), r, old(store.Snapshot()),
                        store.Snapshot())
    {
      hide SendersActing, HasUnknownAttempt, HasOpenAttempt, Execution.ObligationsOpen, Execution.SettleTerminal,
        Execution.SettleOutcome;
      var db := store.Snapshot();
      if o !in store.work.operations || store.work.operations[o].bind.tenant != tenant { return Fail(NotFound); }
      var op := new OperationEntity(store.work.operations[o]);
      if !config.MultiStep(op.Row()) { return Fail(Invalid); }
      if op.lifecycle.Terminal() {
        SettleTerminal(o);
        return Pass;
      }
      if HasOpenAttempt(db, o) { return Fail(StaleExecution); }
      var unresolved := Execution.ObligationsOpen(db, o);
      if o in store.control.settlements {
        if store.control.settlements[o] != intent { return Fail(IdempotencyConflict); }
        if unresolved { return Pass; }
      }
      StoredIntent(db, o, intent);
      if unresolved {
        if HasUnknownAttempt(db, o, None) { op.cleanup := CleanupUnknown; }
        op.lifecycle := LifecycleReconciling;
      } else {
        r := op.Settle(intent.outcome);
        if r.Fail? { return; }
      }
      op.Transition();
      store.control := store.control.(settlements := store.control.settlements[o := intent]);
      store.UpdateOperation(o, op.Row());
      ReconcilingStays(store.Snapshot(), o);
      SettleTerminal(o);
      return Pass;
    }

    /** The sweep re-applies the stored intent once the last obligation has resolved
        (internal/application/execution_settlement.go:69-119). */
    method SettleFromIntent(o: Id) returns (r: Check)
      modifies store
      ensures Committed(Execution.SettleFromIntent(config, old(store.Snapshot()), o), r, old(store.Snapshot()),
                        store.Snapshot())
    {
      hide HasOpenAttempt, Execution.ObligationsOpen, Execution.SettleTerminal, Execution.SettleOutcome;
      if o !in store.work.operations { return Fail(NotFound); }
      var op := new OperationEntity(store.work.operations[o]);
      if op.lifecycle != LifecycleReconciling || !config.MultiStep(op.Row())
          || o !in store.control.settlements { return Pass; }
      if HasOpenAttempt(store.Snapshot(), o) || Execution.ObligationsOpen(store.Snapshot(), o) { return Pass; }
      r := op.Settle(store.control.settlements[o].outcome);
      if r.Fail? { return; }
      op.Transition();
      store.UpdateOperation(o, op.Row());
      SettleTerminal(o);
      return Pass;
    }

    /** internal/application/execution_settlement.go:123-156. */
    method ReconcileSettlements(ids: seq<Id>)
      modifies store
      ensures store.Snapshot() == Swept(config, old(store.Snapshot()), ids)
    {
      hide Execution.SettleFromIntent;
      for i := 0 to |ids|
        invariant Swept(config, store.Snapshot(), ids[i..]) == Swept(config, old(store.Snapshot()), ids)
      {
        assert ids[i..][0] == ids[i] && ids[i..][1..] == ids[i + 1..];
        var _ := SettleFromIntent(ids[i]);
      }
    }
  }

  /** What sweeping the operations in turn leaves: one that is refused is passed over. */
  function Swept(c: Config, db: DB, ids: seq<Id>): DB
    decreases |ids|
  {
    if ids == [] then db
    else
      match Execution.SettleFromIntent(c, db, ids[0])
      case Ok(next) => Swept(c, next, ids[1..])
      case Err(_) => Swept(c, db, ids[1..])
  }

  lemma LeftIs(c: Config, db: DB, a: Id, outcome: AttemptOutcome, cleanup: CleanupState)
    requires a in db.work.attempts && db.work.attempts[a].bind.operation in db.work.operations
    ensures var o := db.work.attempts[a].bind.operation;
            var op := db.work.operations[o];
            var stage := if a in db.work.stages then Some(db.work.stages[a]) else None;
            Execution.LeftByClose(c, db, a, outcome, cleanup) ==
              Execution.KeepReconciling(Execution.SettleClose(op, stage, outcome, cleanup, c.MultiStep(op)),
                                        SendersActing(db, o) || op.finance == FinanceExposureUnknown,
                                        HasUnknownAttempt(db, o, Some(a))).Transition()
  {
  }

  lemma ListedRows(db: DB, a: Id, listed: seq<Id>)
    requires Execution.ListsPrepared(db, a, listed)
    ensures forall i | 0 <= i < |listed| :: listed[i] in db.ledger.dispatches
  {
    forall i | 0 <= i < |listed|
      ensures listed[i] in db.ledger.dispatches
    {
      assert Execution.PreparedRow(db, a, listed[i]);
    }
  }

  /** A stored intent is no obligation and opens no attempt. */
  lemma StoredIntent(db: DB, o: Id, intent: SettlementIntent)
    requires o in db.work.operations
    ensures var stored := db.(control := db.control.(settlements := db.control.settlements[o := intent]));
            Execution.ObligationsOpen(stored, o) == Execution.ObligationsOpen(db, o)
            && HasUnknownAttempt(stored, o, None) == HasUnknownAttempt(db, o, None)
  {
  }

  /** An operation that is not terminal keeps its permits. */
  lemma ReconcilingStays(db: DB, o: Id)
    requires o in db.work.operations
    ensures !db.work.operations[o].lifecycle.Terminal() ==> Execution.SettleTerminal(db, o) == db
  {
  }

  /** One row of a close's denials. */
  function DeniedOne(db: DB, o: Id, id: Id): Result<DB>
    requires o in db.work.operations && id in db.ledger.dispatches
  {
    var denied :- Admission.Deny(db.ledger.dispatches[id], DenyAttemptClosed);
    var freed :- MoveBudget(db, o, ToRelease, db.ledger.dispatches[id].bind.reserved);
    Ok(Admission.UpdateDispatch(freed, id, denied))
  }

  lemma SameMoney(db: DB, next: DB, o: Id)
    requires next.money == db.money
    ensures AllocationsOf(next, o) == AllocationsOf(db, o)
  {
  }

  /** What several movements leave is still what one save writes. */
  lemma SavedOn(db: DB, left: DB, freed: DB, id: Id, d: Dispatch, o: Id)
    requires left == db || SavesTo(db, left, o)
    requires SavesTo(left, freed, o)
    ensures SavesTo(Admission.UpdateDispatch(db, id, d), Admission.UpdateDispatch(freed, id, d), o)
  {
  }

  lemma DenyNone(db: DB, o: Id)
    requires o in db.work.operations
    ensures Execution.DenyEach(db, o, []) == Ok(db)
  {
  }

  lemma DenyFirst(db: DB, o: Id, listed: seq<Id>)
    requires o in db.work.operations && listed != [] && listed[0] in db.ledger.dispatches
    ensures var one := DeniedOne(db, o, listed[0]);
            && (one.Err? ==> Execution.DenyEach(db, o, listed) == Err(one.error))
            && (one.Ok? ==> o in one.value.work.operations
                            && Execution.DenyEach(db, o, listed) == Execution.DenyEach(one.value, o, listed[1..]))
  {
    hide MoveBudget;
  }

  // ---------- commands, leases and execution permits ----------

  /** Commands, leases and execution permits, recorded under the operation lock
      (internal/application/operations.go, internal/application/generation.go). */
  class Controller {
    const store: Store
    const config: Config
    const executor: Executor

    constructor (s: Store, c: Config)
      ensures store == s && config == c && executor.store == s && executor.config == c
    {
      store, config := s, c;
      executor := new Executor(s, c);
    }

    ghost predicate Valid() { executor.store == store && executor.config == config }

    /** Intake is refused while a recovery run has closed the tenant
        (internal/application/operations.go:66-184). */
    method Submit(o: Id, bind: OperationBinding, definition: Option<Name>) returns (r: Check)
      modifies store
      ensures Committed(Execution.Submit(old(store.Snapshot()), o, bind, definition), r, old(store.Snapshot()),
                        store.Snapshot())
    {
      if AdmissionClosed(store.Snapshot(), bind.tenant) { return Fail(StaleExecution); }
      if o in store.work.operations { return Fail(DuplicateKey); }
      store.UpdateOperation(o, Execution.NewOperation(bind, definition));
      return Pass;
    }

    /** A cancel fences at once; a quiescent operation is canceled by it
        (internal/application/operations.go:501-540). */
    method SubmitCancel(o: Id, tenant: Name, expected: nat) returns (r: Check)
      requires Valid()
      modifies store
      ensures Committed(Execution.SubmitCancel(old(store.Snapshot()), o, tenant, expected), r, old(store.Snapshot()),
                        store.Snapshot())
    {
      hide SendersActing, HasOpenAttempt, Execution.SettleTerminal, Execution.ApplyCancelFence;
      if o !in store.work.operations || store.work.operations[o].bind.tenant != tenant { return Fail(NotFound); }
      var op := new OperationEntity(store.work.operations[o]);
      if expected != op.revision { return Fail(RevisionConflict); }
      if op.lifecycle.Terminal() || op.control.Cancel() { return Pass; }
      var acting := HasOpenAttempt(store.Snapshot(), o) || SendersActing(store.Snapshot(), o);
      op.ApplyCancelFence(op.Row().SendersQuiescent(acting));
      op.Transition();
      store.UpdateOperation(o, op.Row());
      executor.SettleTerminal(o);
      return Pass;
    }

    /** internal/application/operations.go:433-500. */
    method SubmitControl(k: CommandKey, o: Id, kind: CommandKind, target: Option<Name>, expected: nat,
                         now: Time) returns (r: Check)
      modifies store
      ensures Committed(Execution.SubmitControl(config, old(store.Snapshot()), k, o, kind, target, expected, now), r,
                        old(store.Snapshot()), store.Snapshot())
    {
      hide Execution.DecideControl;
      if k in store.control.commands {
        if store.control.commands[k].operation != o { return Fail(IdempotencyConflict); }
        return Pass;
      }
      if o !in store.work.operations || store.work.operations[o].bind.tenant != k.tenant { return Fail(NotFound); }
      var op := new OperationEntity(store.work.operations[o]);
      if expected != op.revision { return Fail(RevisionConflict); }
      var decision := Execution.DecideControl(config.ProfileOf(op.Row()), op.Row(), kind, target, now);
      store.control := store.control.(commands := store.control.commands[k := Command(o, kind, target,
          decision.outcome)]);
      if decision.relay {
        if kind == CommandHold { op.control := ControlHoldPending; }
        op.Transition();
        store.UpdateOperation(o, op.Row());
      }
      return Pass;
    }

    /** A late receipt never undoes a fence installed meanwhile
        (internal/application/generation.go:347-391). */
    method RecordCommandRelay(k: CommandKey, outcome: CommandOutcome) returns (r: Check)
      modifies store
      ensures Committed(Execution.RecordCommandRelay(old(store.Snapshot()), k, outcome), r, old(store.Snapshot()),
                        store.Snapshot())
    {
      hide Execution.ApplyControl;
      if k !in store.control.commands
          || store.control.commands[k].operation !in store.work.operations { return Fail(NotFound); }
      var command := store.control.commands[k];
      var op := new OperationEntity(store.work.operations[command.operation]);
      if command.outcome != OutcomePending { return Pass; }
      if outcome == OutcomePending { return Fail(Invalid); }
      var answer := outcome;
      if op.lifecycle.Terminal() || op.control.Cancel() { answer := OutcomeRejected; }
      store.control := store.control.(commands := store.control.commands[k := command.(outcome := answer)]);
      op.ApplyControl(command.kind, answer, command.target);
      op.Transition();
      store.UpdateOperation(command.operation, op.Row());
      return Pass;
    }

    /** internal/application/generation.go:238-278. */
    method RecordLease(o: Id, tenant: Name, report: Execution.LeaseReport) returns (r: Check)
      modifies store
      ensures Committed(Execution.RecordLease(config, old(store.Snapshot()), o, tenant, report), r,
                        old(store.Snapshot()), store.Snapshot())
    {
      hide Execution.ReportLease;
      if o !in store.work.operations || store.work.operations[o].bind.tenant != tenant { return Fail(NotFound); }
      var op := new OperationEntity(store.work.operations[o]);
      if op.bind.profile.None? || op.bind.profile.value !in config.profiles { return Fail(ProfileUnqualified); }
      var changed;
      r, changed := op.RecordLease(report);
      if r.Fail? || !changed { return; }
      op.Transition();
      store.UpdateOperation(o, op.Row());
    }

    /** A permit is granted while the pool has room; the first grant sets the active
        deadline once (internal/application/generation.go:138-222). */
    method RequestPermit(o: Id, tenant: Name, briefCurrent: bool, now: Time) returns (r: Check)
      modifies store
      ensures Committed(Execution.RequestPermit(config, old(store.Snapshot()), o, tenant, briefCurrent, now), r,
                        old(store.Snapshot()), store.Snapshot())
    {
      hide AdmissionClosed, HoldsPermit, Execution.Available;
      if o !in store.work.operations || store.work.operations[o].bind.tenant != tenant { return Fail(NotFound); }
      var op := new OperationEntity(store.work.operations[o]);
      var profile := config.ProfileOf(op.Row());
      if op.bind.profile.None? || op.bind.profile.value !in config.profiles { return Fail(ProfileUnqualified); }
      if AdmissionClosed(store.Snapshot(), tenant) || !briefCurrent { return Fail(StaleExecution); }
      if op.bind.kind != KindGeneration && op.bind.kind != KindRefinement { return Fail(Invalid); }
      if op.Row().FencedForNewDispatch() || !op.intakeConfirmed { return Fail(StaleExecution); }
      if profile.queuePool.Some? && HoldsPermit(store.Snapshot(), profile.queuePool.value, o) { return Pass; }
      if now >= op.bind.deadline { return Fail(StaleExecution); }
      if profile.queuePool.None? || profile.queuePool.value !in config.resources { return Fail(ProfileUnqualified); }
      var pool := profile.queuePool.value;
      if !Execution.Available(config.resources[pool], |ActivePermits(store.Snapshot(), pool)|) { return Pass; }
      store.control := store.control.(permits := store.control.permits[PermitKey(pool, o) := Permit(true,
          op.executionEpoch, now)]);
      if op.activeDeadline.None? { op.activeDeadline := Some(now + profile.activeWindow); }
      op.lifecycle := LifecycleRunning;
      op.Transition();
      store.UpdateOperation(o, op.Row());
      return Pass;
    }

    /** internal/application/generation.go:285-341. */
    method RecordFunding(o: Id) returns (r: Check)
      modifies store
      ensures Committed(Execution.RecordFunding(old(store.Snapshot()), o), r, old(store.Snapshot()), store.Snapshot())
    {
      if o !in store.work.operations { return Fail(NotFound); }
      store.control := store.control.(funded := store.control.funded + {o});
      return Pass;
    }
  }
}
