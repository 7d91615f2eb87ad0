/** What must be quiet when an operation ends, and that an end is final
    (internal/application/execution.go:583-684, execution_settlement.go:51-259,
    operations.go:501-536). */
module Termination {
  import opened Values
  import opened Records
  import opened Database
  import opened Transactions
  import DispatchSteps
  import EffectSteps
  import Execution
  import WorkSteps

  predicate Terminal(db: DB, o: Id) {
    o in db.work.operations && db.work.operations[o].lifecycle.Terminal()
  }

  /** No terminal operation holds a prepared, authorized or unknown dispatch or a
      permitted or unknown effect. */
  ghost predicate Quiet(db: DB) {
    && (forall d | d in db.ledger.dispatches && db.ledger.dispatches[d].state.Held() ::
          db.ledger.dispatches[d].bind.operation in db.work.operations
              && !Terminal(db, db.ledger.dispatches[d].bind.operation))
    && (forall e | e in db.guarded.effects && db.guarded.effects[e].Unresolved() ::
          db.guarded.effects[e].bind.operation in db.work.operations
              && !Terminal(db, db.guarded.effects[e].bind.operation))
  }

  lemma QuietStep(c: Config, db: DB, tx: Tx)
    requires Quiet(db) && Steady(db, tx)
    ensures Quiet(Apply(c, db, tx))
  {
    hide Apply, DispatchSteps.Admissible, EffectSteps.Permissible;
    var next := Apply(c, db, tx);
    if tx.Restoring? {
      NothingRestored(c, db, tx.f, tx.body);
    } else {
      forall d | d in next.ledger.dispatches && next.ledger.dispatches[d].state.Held()
        ensures next.ledger.dispatches[d].bind.operation in next.work.operations
        ensures !Terminal(next, next.ledger.dispatches[d].bind.operation)
      {
        DispatchSteps.StepOfRow(c, db, tx, d);
        var o := next.ledger.dispatches[d].bind.operation;
        assert HeldRow(next, o, d);
        AdmissibleIsOpen(db, next.ledger.dispatches[d].bind, next.ledger.dispatches[d].supersedes);
        WorkSteps.StepOfWork(c, db, tx, o, 0);
      }
      forall e | e in next.guarded.effects && next.guarded.effects[e].Unresolved()
        ensures next.guarded.effects[e].bind.operation in next.work.operations
        ensures !Terminal(next, next.guarded.effects[e].bind.operation)
      {
        EffectSteps.StepOfRow(c, db, tx, e);
        var o := next.guarded.effects[e].bind.operation;
        assert UnresolvedEffectRow(next, o, e);
        PermissibleIsOpen(db, next.guarded.effects[e].bind);
        WorkSteps.StepOfWork(c, db, tx, o, 0);
      }
    }
  }

  lemma AdmissibleIsOpen(db: DB, b: DispatchBinding, supersedes: Option<Name>)
    ensures DispatchSteps.Admissible(db, b, supersedes) ==>
        b.operation in db.work.operations && !Terminal(db, b.operation)
  {
  }

  lemma PermissibleIsOpen(db: DB, b: EffectBinding)
    ensures EffectSteps.Permissible(db, b) ==> b.operation in db.work.operations && !Terminal(db, b.operation)
  {
  }

  /** In every run of a database that was never rolled back, terminal means quiet. */
  lemma {:induction false} TerminalIsQuiet(c: Config, run: Run)
    requires SteadyRun(c, run)
    ensures Quiet(After(c, run))
  {
    hide Apply;
    if run.Then? {
      TerminalIsQuiet(c, run.prior);
      QuietStep(c, After(c, run.prior), run.tx);
    }
  }

  // ---------- the end is final ----------

  /** An attempt that is not closed, or whose cleanup is still unknown. */
  predicate Live(db: DB, o: Id, a: Id) {
    && a in db.work.attempts && db.work.attempts[a].bind.operation == o
    && (!db.work.attempts[a].Closed() || db.work.attempts[a].cleanup == Some(CleanupUnknown))
  }

  /** A close beside another live attempt of the same operation. */
  ghost predicate Overlaps(db: DB, tx: Tx) {
    tx.Closing? && tx.a in db.work.attempts && exists a ::
        a != tx.a && Live(db, db.work.attempts[tx.a].bind.operation, a)
  }

  ghost predicate SeparateCloses(c: Config, run: Run) {
    hide Apply;
    run.Then? ==> SeparateCloses(c, run.prior) && !Overlaps(After(c, run.prior), run.tx)
  }

  /** An unknown cleanup is noted on its operation unless a later attempt is open. */
  predicate CleanupNoted(db: DB, a: Id) {
    a in db.work.attempts ==>
      var at := db.work.attempts[a];
      && at.bind.operation in db.work.operations
      && (at.cleanup == Some(CleanupUnknown) ==> at.Closed())
      && (at.cleanup == Some(CleanupUnknown) && !HasOpenAttempt(db, at.bind.operation) ==>
            db.work.operations[at.bind.operation].cleanup == CleanupUnknown)
  }

  /** Every unknown cleanup is noted, and an operation that ended has none. */
  ghost predicate Noted(db: DB) {
    && (forall a | a in db.work.attempts :: CleanupNoted(db, a))
    && (forall o, a | Terminal(db, o) && a in db.work.attempts :: !UnknownCleanup(db, o, a))
  }

  predicate UnknownCleanup(db: DB, o: Id, a: Id) {
    a in db.work.attempts && db.work.attempts[a].bind.operation == o
        && db.work.attempts[a].cleanup == Some(CleanupUnknown)
  }

  /** An operation that ended has no live attempt. */
  ghost predicate Ended(db: DB) {
    forall o, a | Terminal(db, o) && a in db.work.attempts :: !Live(db, o, a)
  }

  /** What a close writes of the row x, whether an attempt's or an operation's. */
  predicate CloseWrote(c: Config, db: DB, next: DB, tx: Tx, x: Id) {
    hide Execution.LeftByClose;
    next.work == db.work
    || (&& tx.Closing? && tx.a in db.work.attempts && tx.a in next.work.attempts
        && var o := db.work.attempts[tx.a].bind.operation;
           && o in db.work.operations && o in next.work.operations
           && (x != tx.a ==> (x in next.work.attempts <==> x in db.work.attempts)
                             && (x in db.work.attempts ==> next.work.attempts[x] == db.work.attempts[x]))
           && (x != o ==> (x in next.work.operations <==> x in db.work.operations)
                          && (x in db.work.operations ==> next.work.operations[x] == db.work.operations[x]))
           && next.work.operations[o] == Execution.LeftByClose(c, db, tx.a, tx.outcome, tx.cleanup)
           && next.work.attempts[tx.a] ==
              db.work.attempts[tx.a].(state := AttemptClosed, outcome := Some(tx.outcome), cleanup := Some(tx.cleanup)))
  }

  lemma CloseWrites(c: Config, db: DB, tx: Tx, x: Id)
    requires tx.Closing?
    ensures CloseWrote(c, db, Apply(c, db, tx), tx, x)
  {
    hide AdmissionStep, EffectStep, GrantStep, ExecutionStep, ControlStep, FinanceStep, RunStep, Execution.DenyEach,
      Execution.SettleTerminal, Execution.LeftByClose, SendersActing, HasUnknownAttempt, Execution.ListsPrepared;
  }

  lemma LeftCleanup(c: Config, db: DB, a: Id, outcome: AttemptOutcome, cleanup: CleanupState)
    requires a in db.work.attempts && db.work.attempts[a].bind.operation in db.work.operations
    ensures var kept := Execution.LeftByClose(c, db, a, outcome, cleanup);
            var others := HasUnknownAttempt(db, db.work.attempts[a].bind.operation, Some(a));
            && (cleanup == CleanupUnknown || others ==> kept.cleanup == CleanupUnknown)
            && (kept.lifecycle.Terminal() ==> cleanup != CleanupUnknown && !others)
  {
    hide SendersActing, HasUnknownAttempt;
  }

  /** The open attempts of an operation the close is not about stay. */
  lemma SameOthers(c: Config, db: DB, next: DB, tx: Tx, o: Id)
    requires tx.Closing? && forall x :: CloseWrote(c, db, next, tx, x)
    requires tx.a in db.work.attempts ==> o != db.work.attempts[tx.a].bind.operation
    ensures HasOpenAttempt(next, o) == HasOpenAttempt(db, o)
  {
    hide Execution.LeftByClose;
    forall a
      ensures OpenAttemptRow(next, o, a) == OpenAttemptRow(db, o, a)
    {
      assert CloseWrote(c, db, next, tx, a);
    }
  }

  lemma SameWork(db: DB, next: DB)
    requires next.work == db.work
    ensures Noted(db) ==> Noted(next)
    ensures Ended(db) ==> Ended(next)
  {
    forall o
      ensures HasOpenAttempt(next, o) == HasOpenAttempt(db, o)
    {
      assert forall a :: OpenAttemptRow(next, o, a) == OpenAttemptRow(db, o, a);
    }
    assert Noted(db) ==> forall a | a in next.work.attempts :: CleanupNoted(db, a);
    assert forall o, a :: Live(next, o, a) == Live(db, o, a) && UnknownCleanup(next, o, a) == UnknownCleanup(db, o, a);
    assert forall o :: Terminal(next, o) == Terminal(db, o);
  }

  /** A close notes what the other attempts left unknown. */
  lemma ClosingNotes(c: Config, db: DB, next: DB, tx: Tx, a: Id)
    requires tx.Closing? && (forall x :: CloseWrote(c, db, next, tx, x)) && next.work != db.work
    requires Noted(db) && a in next.work.attempts
    ensures CleanupNoted(next, a)
    ensures forall o | Terminal(next, o) :: !UnknownCleanup(next, o, a)
  {
    hide Execution.LeftByClose;
    assert CloseWrote(c, db, next, tx, tx.a) && CloseWrote(c, db, next, tx, a);
    assert CleanupNoted(db, a);
    var o := db.work.attempts[tx.a].bind.operation;
    var x := db.work.attempts[a].bind.operation;
    LeftCleanup(c, db, tx.a, tx.outcome, tx.cleanup);
    if x != o {
      assert CloseWrote(c, db, next, tx, x);
      SameOthers(c, db, next, tx, x);
      assert Terminal(next, x) ==> Terminal(db, x) && !UnknownCleanup(db, x, a);
    } else if a != tx.a && UnknownCleanup(db, o, a) {
      assert UncertainAttemptRow(db, o, a) && Some(a) != Some(tx.a);
      assert HasUnknownAttempt(db, o, Some(tx.a));
    }
  }

  /** Only a close changes a cleanup, and an operation ends otherwise with none unknown. */
  lemma OthersNote(c: Config, db: DB, tx: Tx, a: Id)
    requires Noted(db) && !tx.Restoring? && !tx.Closing? && a in Apply(c, db, tx).work.attempts
    ensures CleanupNoted(Apply(c, db, tx), a)
    ensures forall o | Terminal(Apply(c, db, tx), o) :: !UnknownCleanup(Apply(c, db, tx), o, a)
  {
    hide Apply;
    var next := Apply(c, db, tx);
    var o := next.work.attempts[a].bind.operation;
    WorkSteps.StepOfWork(c, db, tx, o, a);
    assert a in db.work.attempts ==> CleanupNoted(db, a);
    OpenStaysOpen(c, db, tx, o);
    assert OpenAttemptRow(next, o, a) || next.work.attempts[a].Closed();
    if Terminal(db, o) && a in db.work.attempts { assert !UnknownCleanup(db, o, a); }
  }

  lemma NotedStep(c: Config, db: DB, tx: Tx)
    requires Noted(db) && Steady(db, tx)
    ensures Noted(Apply(c, db, tx))
  {
    hide Apply, CleanupNoted, UnknownCleanup;
    var next := Apply(c, db, tx);
    if tx.Restoring? {
      NothingRestored(c, db, tx.f, tx.body);
    } else if tx.Closing? {
      forall x
        ensures CloseWrote(c, db, next, tx, x)
      {
        CloseWrites(c, db, tx, x);
      }
      if next.work == db.work {
        SameWork(db, next);
      } else {
        forall a | a in next.work.attempts
          ensures CleanupNoted(next, a)
          ensures forall o | Terminal(next, o) :: !UnknownCleanup(next, o, a)
        {
          ClosingNotes(c, db, next, tx, a);
        }
      }
    } else {
      forall a | a in next.work.attempts
        ensures CleanupNoted(next, a)
        ensures forall o | Terminal(next, o) :: !UnknownCleanup(next, o, a)
      {
        OthersNote(c, db, tx, a);
      }
    }
  }

  /** In every run of a database that was never rolled back, an operation that ended has
      no attempt whose cleanup is unknown. */
  lemma {:induction false} NotedAlways(c: Config, run: Run)
    requires SteadyRun(c, run)
    ensures Noted(After(c, run))
  {
    hide Apply;
    if run.Then? {
      NotedAlways(c, run.prior);
      NotedStep(c, After(c, run.prior), run.tx);
    }
  }

  lemma ClosingEnds(c: Config, db: DB, next: DB, tx: Tx)
    requires tx.Closing? && forall x :: CloseWrote(c, db, next, tx, x)
    requires Noted(db) && Ended(db) && !Overlaps(db, tx)
    ensures Ended(next)
  {
    hide Execution.LeftByClose;
    if next.work == db.work {
      SameWork(db, next);
    } else {
      assert CloseWrote(c, db, next, tx, tx.a);
      var o := db.work.attempts[tx.a].bind.operation;
      LeftCleanup(c, db, tx.a, tx.outcome, tx.cleanup);
      forall x, a | Terminal(next, x) && a in next.work.attempts
        ensures !Live(next, x, a)
      {
        assert CloseWrote(c, db, next, tx, x) && CloseWrote(c, db, next, tx, a);
        if x != o { assert Terminal(db, x); }
        if a != tx.a { assert !Live(db, x, a); }
      }
    }
  }

  lemma EndedStep(c: Config, db: DB, tx: Tx)
    requires Noted(db) && Ended(db) && Steady(db, tx) && !Overlaps(db, tx)
    ensures Ended(Apply(c, db, tx))
  {
    hide Apply;
    var next := Apply(c, db, tx);
    if tx.Restoring? {
      NothingRestored(c, db, tx.f, tx.body);
    } else if tx.Closing? {
      forall x
        ensures CloseWrote(c, db, next, tx, x)
      {
        CloseWrites(c, db, tx, x);
      }
      ClosingEnds(c, db, next, tx);
    } else {
      NotedStep(c, db, tx);
      forall o, a | Terminal(next, o) && a in next.work.attempts
        ensures !Live(next, o, a)
      {
        WorkSteps.StepOfWork(c, db, tx, o, a);
        assert OpenAttemptRow(next, o, a) || next.work.attempts[a].Closed()
            || next.work.attempts[a].bind.operation != o;
        assert !UnknownCleanup(next, o, a);
        if Terminal(db, o) && a in db.work.attempts { assert !Live(db, o, a); }
      }
    }
  }

  lemma OpenStaysOpen(c: Config, db: DB, tx: Tx, o: Id)
    requires !tx.Closing?
    ensures HasOpenAttempt(db, o) ==> HasOpenAttempt(Apply(c, db, tx), o)
  {
    hide Apply, WorkSteps.Gated;
    if HasOpenAttempt(db, o) {
      var a :| a in db.work.attempts && OpenAttemptRow(db, o, a);
      WorkSteps.StepOfWork(c, db, tx, o, a);
      var next := Apply(c, db, tx);
      assert a in next.work.attempts;
      assert next.work.attempts[a].bind == db.work.attempts[a].bind;
      assert !next.work.attempts[a].Closed();
      assert OpenAttemptRow(next, o, a);
    }
  }

  lemma {:induction false} EndedAlways(c: Config, run: Run)
    requires SteadyRun(c, run) && SeparateCloses(c, run)
    ensures Noted(After(c, run)) && Ended(After(c, run))
  {
    hide Apply;
    NotedAlways(c, run);
    if run.Then? {
      EndedAlways(c, run.prior);
      EndedStep(c, After(c, run.prior), run.tx);
    }
  }

  predicate SameLifecycle(db: DB, next: DB, o: Id) {
    o in db.work.operations && o in next.work.operations
        && next.work.operations[o].lifecycle == db.work.operations[o].lifecycle
  }

  /** While closes never overlap another live attempt, an end is final: the lifecycle
      stays whatever happens later. */
  lemma {:induction false} TerminalIsFinal(c: Config, earlier: Run, later: Run, o: Id)
    requires Within(earlier, later) && SteadyRun(c, later) && SeparateCloses(c, later)
    requires Terminal(After(c, earlier), o)
    ensures SameLifecycle(After(c, earlier), After(c, later), o)
  {
    hide Apply;
    if earlier != later {
      TerminalIsFinal(c, earlier, later.prior, o);
      var db := After(c, later.prior);
      EndedAlways(c, later.prior);
      WorkSteps.StepOfWork(c, db, later.tx, o, 0);
      if later.tx.Closing? && later.tx.a in db.work.attempts {
        assert CleanupNoted(db, later.tx.a) && !Live(db, o, later.tx.a);
      }
    }
  }

  // ---------- exactly when an end is final ----------

  /** A prepared dispatch belongs to the operation of its attempt. */
  predicate PreparedOwned(db: DB, d: Id) {
    d in db.ledger.dispatches && db.ledger.dispatches[d].state == DispatchPrepared ==>
      var b := db.ledger.dispatches[d].bind;
      b.attempt in db.work.attempts && db.work.attempts[b.attempt].bind.operation == b.operation
  }

  lemma PreparedOwnedStep(c: Config, db: DB, tx: Tx, d: Id)
    requires Steady(db, tx) && PreparedOwned(db, d)
    ensures PreparedOwned(Apply(c, db, tx), d)
  {
    hide Apply, WorkSteps.OperationStep, WorkSteps.Gated;
    var next := Apply(c, db, tx);
    if tx.Restoring? {
      NothingRestored(c, db, tx.f, tx.body);
    } else if d in next.ledger.dispatches {
      DispatchSteps.StepOfRow(c, db, tx, d);
      WorkSteps.StepOfWork(c, db, tx, 0, next.ledger.dispatches[d].bind.attempt);
    }
  }

  lemma {:induction false} PreparedOwnedAlways(c: Config, run: Run, d: Id)
    requires SteadyRun(c, run)
    ensures PreparedOwned(After(c, run), d)
  {
    hide Apply;
    if run.Then? {
      PreparedOwnedAlways(c, run.prior, d);
      PreparedOwnedStep(c, After(c, run.prior), run.tx, d);
    }
  }

  /** No attempt of the operation has a dispatch prepared or an unknown cleanup. */
  ghost predicate Concluded(db: DB, o: Id) {
    && (forall a | a in db.work.attempts :: !UnknownCleanup(db, o, a))
    && (forall a, d | a in db.work.attempts && db.work.attempts[a].bind.operation == o ::
          !Execution.PreparedRow(db, a, d))
  }

  /** In every run of a database that was never rolled back, what ended is concluded. */
  lemma TerminalIsConcluded(c: Config, run: Run, o: Id)
    requires SteadyRun(c, run) && Terminal(After(c, run), o)
    ensures Concluded(After(c, run), o)
  {
    hide After;
    var db := After(c, run);
    NotedAlways(c, run);
    TerminalIsQuiet(c, run);
    forall a, d | a in db.work.attempts && db.work.attempts[a].bind.operation == o
      ensures !Execution.PreparedRow(db, a, d)
    {
      PreparedOwnedAlways(c, run, d);
    }
  }

  /** The next transaction, whichever it is, leaves the lifecycle. */
  ghost predicate StaysEnded(c: Config, db: DB, o: Id) {
    hide Apply;
    forall tx :: SameLifecycle(db, Apply(c, db, tx), o)
  }

  /** The close of an attempt whose outcome nobody knows. */
  function UncertainClose(db: DB, a: Id): Tx {
    var tenant := if a in db.work.attempts then db.work.attempts[a].bind.tenant else 0;
    Closing(a, tenant, OutcomeUnknown, CleanupUnknown, [])
  }

  lemma UncertainCloseReopens(c: Config, db: DB, o: Id, a: Id)
    requires Terminal(db, o) && Concluded(db, o) && OpenAttemptRow(db, o, a)
    ensures !SameLifecycle(db, Apply(c, db, UncertainClose(db, a)), o)
  {
    hide AdmissionStep, EffectStep, GrantStep, ExecutionStep, ControlStep, FinanceStep, RunStep, SendersActing,
      HasUnknownAttempt;
    assert forall d :: !Execution.PreparedRow(db, a, d);
  }

  /** In every run of a database that was never rolled back, an end is final exactly
      while no attempt of the operation is open: with one open, its close rewrites the
      lifecycle. */
  lemma EndIsFinalExactlyWhenClosed(c: Config, run: Run, o: Id)
    requires SteadyRun(c, run) && Terminal(After(c, run), o)
    ensures StaysEnded(c, After(c, run), o) <==> !HasOpenAttempt(After(c, run), o)
  {
    hide Apply, After, Concluded;
    var db := After(c, run);
    TerminalIsConcluded(c, run, o);
    if HasOpenAttempt(db, o) {
      var a :| a in db.work.attempts && OpenAttemptRow(db, o, a);
      UncertainCloseReopens(c, db, o, a);
    } else {
      forall tx
        ensures SameLifecycle(db, Apply(c, db, tx), o)
      {
        WorkSteps.StepOfWork(c, db, tx, o, 0);
        if WorkSteps.Reopens(db, tx, o) { ReopensNothing(db, tx, o); }
      }
    }
  }

  lemma ReopensNothing(db: DB, tx: Tx, o: Id)
    requires WorkSteps.Reopens(db, tx, o) && Concluded(db, o)
    ensures HasOpenAttempt(db, o)
  {
    assert !UnknownCleanup(db, o, tx.a);
    assert OpenAttemptRow(db, o, tx.a);
  }

  // ---------- and not without that ----------

  /** A single-step profile, and an operation of it. */
  const Plain := Config(map[], map[], map[], false)

  const SampleBinding := OperationBinding(1, None, 1, KindLocalCheck, None, None, None, None, None, 10, 0)

  const Intake := Then(Then(Start, Executing(Submit(1, SampleBinding, None))), Executing(ConfirmIntake(1)))

  const TwoAttempts :=
    Then(Then(Intake, Executing(OpenAttempt(1, 1, 1, None, 0))), Executing(OpenAttempt(2, 1, 1, None, 0)))

  /** The first is closed as failed, then the second as canceled. */
  const FirstClose := Then(TwoAttempts, Closing(1, 1, OutcomeFailed, CleanupComplete, []))

  const SecondClose := Then(FirstClose, Closing(2, 1, OutcomeCanceled, CleanupComplete, []))

  const Opened: DB := Empty.(work := Empty.work.(
    operations := map[1 := Execution.NewOperation(SampleBinding, None).(intakeConfirmed := true,
        lifecycle := LifecycleRunning, revision := 4)],
    attempts := map[1 := Attempt(AttemptBinding(1, 1, None, 1, 10), AttemptOpen, None, None),
                    2 := Attempt(AttemptBinding(1, 1, None, 1, 10), AttemptOpen, None, None)]))

  /** What is left by closing one of the attempts of a single-step operation nothing
      was ever sent for. */
  function ClosedBy(db: DB, a: Id, outcome: AttemptOutcome, end: Lifecycle, control: ControlState): DB
    requires 1 in db.work.operations && a in db.work.attempts
  {
    db.(work := db.work.(
      attempts := db.work.attempts[a := db.work.attempts[a].(state := AttemptClosed, outcome := Some(outcome),
          cleanup := Some(CleanupComplete))],
      operations := db.work.operations[1 := db.work.operations[1].(
        lifecycle := end, control := control, cleanup := CleanupComplete,
            revision := db.work.operations[1].revision + 1)]))
  }

  const Failed := ClosedBy(Opened, 1, OutcomeFailed, LifecycleFailed, ControlNone)

  const Canceled := ClosedBy(Failed, 2, OutcomeCanceled, LifecycleCanceled, ControlCancelApplied)

  const TheOperation: Id := 1

  const Accepted: DB := Empty.(work := Empty.work.(
    operations := map[1 := Execution.NewOperation(SampleBinding, None).(intakeConfirmed := true, revision := 2)]))

  /** What an open attempt of the accepted operation leaves. */
  function OpenedBy(db: DB, a: Id): DB
    requires 1 in db.work.operations
  {
    db.(work := db.work.(
      attempts := db.work.attempts[a := Attempt(AttemptBinding(1, 1, None, 1, 10), AttemptOpen, None, None)],
      operations := db.work.operations[1 := db.work.operations[1].(
        lifecycle := LifecycleRunning, revision := db.work.operations[1].revision + 1)]))
  }

  lemma ExecutingCommits(c: Config, db: DB, t: ExecutionTx)
    ensures Apply(c, db, Executing(t)) == match ExecutionStep(c, db, t) case Ok(next) => next case Err(_) => db
  {
    hide AdmissionStep, EffectStep, Releases.Record, GrantStep, ExecutionStep, Execution.CloseAttempt, ControlStep,
      FinanceStep, RunStep, Recovery.Restore, Recovery.Dispose;
  }

  lemma AcceptedFirst(c: Config)
    ensures After(c, Intake) == Accepted
  {
    hide Apply, Execution.OpenAttempt;
    var submitted := PutOperation(Empty, 1, Execution.NewOperation(SampleBinding, None));
    ExecutingCommits(c, Empty, Submit(1, SampleBinding, None));
    assert After(c, Start) == Empty;
    assert After(c, Intake.prior) == submitted;
    ExecutingCommits(c, submitted, ConfirmIntake(1));
  }

  predicate OpensTo(c: Config, db: DB, a: Id) {
    hide Apply;
    1 in db.work.operations && Apply(c, db, Executing(OpenAttempt(a, 1, 1, None, 0))) == OpenedBy(db, a)
  }

  predicate OnceOpened(db: DB) { db == Accepted || db == OpenedBy(Accepted, 1) }

  lemma OpensOne(c: Config, db: DB, a: Id)
    requires c.profiles == map[] && OnceOpened(db) && a !in db.work.attempts
    ensures OpensTo(c, db, a)
  {
    hide AdmissionStep, EffectStep, GrantStep, ControlStep, FinanceStep, RunStep, Execution.CloseAttempt;
  }

  lemma OpenedTwice()
    ensures After(Plain, TwoAttempts) == Opened
  {
    hide Apply;
    AcceptedFirst(Plain);
    OpensOne(Plain, Accepted, 1);
    OpensOne(Plain, OpenedBy(Accepted, 1), 2);
    assert OpenedBy(OpenedBy(Accepted, 1), 2) == Opened;
  }

  lemma ClosedFirst()
    ensures Execution.CloseAttempt(Plain, Opened, 1, 1, OutcomeFailed, CleanupComplete, []) == Ok(Failed)
  {
    assert Execution.SettleTerminal(Failed, 1).control.permits == map[];
  }

  lemma ClosedSecond()
    ensures Execution.CloseAttempt(Plain, Failed, 2, 1, OutcomeCanceled, CleanupComplete, []) == Ok(Canceled)
  {
    assert Execution.SettleTerminal(Canceled, 1).control.permits == map[];
  }

  /** A terminal lifecycle that a later close rewrites: with two attempts open the
      first close ends the operation as failed and the second as canceled. */
  lemma EndRewritten()
    ensures SteadyRun(Plain, SecondClose)
    ensures After(Plain, FirstClose) == Failed && After(Plain, SecondClose) == Canceled
    ensures Terminal(Failed, TheOperation) && Terminal(Canceled, TheOperation)
    ensures !SameLifecycle(Failed, Canceled, TheOperation)
  {
    hide AdmissionStep, EffectStep, GrantStep, ExecutionStep, ControlStep, FinanceStep, RunStep,
      Execution.CloseAttempt;
    OpenedTwice();
    ClosedFirst();
    ClosedSecond();
  }

  // ---------- nor with one attempt open at a time ----------

  // An attempt whose cleanup was unknown settles beside a later one, its close applies the
  // cancel, and the close of the later attempt finds the operation ended
  // (internal/domain/attempt.go:266-317, internal/application/execution.go:583-684).

  /** A multi-step preparation outside any pool. */
  const Preparing := Config(map[1 := Profile(true, None, 0, None, false, {}, 10)], map[], map[], false)

  const Inquiry := OperationBinding(1, None, 1, KindPreparation, Some(1), None, None, None, None, 10, 0)

  /** A database with one operation that nothing was sent for. */
  function Holding(op: Operation, attempts: map<Id, Attempt>): DB {
    Empty.(work := Empty.work.(operations := map[1 := op], attempts := attempts))
  }

  const Fresh := Attempt(AttemptBinding(1, 1, Some(1), 1, 10), AttemptOpen, None, None)

  const Unclean := Fresh.(state := AttemptClosed, outcome := Some(OutcomeFailed), cleanup := Some(CleanupUnknown))

  const Clean := Unclean.(cleanup := Some(CleanupComplete))

  const Vanished := Fresh.(state := AttemptClosed, outcome := Some(OutcomeUnknown), cleanup := Some(CleanupUnknown))

  const Submitted := Execution.NewOperation(Inquiry, None)

  const Confirmed := Submitted.(intakeConfirmed := true, revision := 2)

  const Working := Confirmed.(lifecycle := LifecycleRunning, revision := 3)

  const Waiting := Working.(lifecycle := LifecycleWaiting, revision := 4)

  const Unsettled := Waiting.(lifecycle := LifecycleReconciling, cleanup := CleanupUnknown, revision := 5)

  const Answered := Unsettled.(lifecycle := LifecycleRunning, revision := 6)

  const Resumed := Answered.(revision := 7)

  const Cancelling := Resumed.(control := ControlCancelPending, revision := 8)

  const CanceledBeside := Cancelling.(
    lifecycle := LifecycleCanceled, control := ControlCancelApplied, cleanup := CleanupComplete, revision := 9)

  const Undone := CanceledBeside.(lifecycle := LifecycleReconciling, cleanup := CleanupUnknown, revision := 10)

  const Submitting := Then(Start, Executing(Submit(1, Inquiry, None)))

  const Confirming := Then(Submitting, Executing(ConfirmIntake(1)))

  const Opening := Then(Confirming, Executing(OpenAttempt(1, 1, 1, Some(1), 0)))

  /** The first attempt asks and fails, its cleanup unknown. */
  const Asking := Then(Opening, Executing(AskQuestions(1, 1)))

  const Failing := Then(Asking, Closing(1, 1, OutcomeFailed, CleanupUnknown, []))

  /** The answer lets a second attempt open, and the operation is canceled. */
  const Answering := Then(Failing, Executing(SubmitAnswer(1, 1)))

  const Retrying := Then(Answering, Executing(OpenAttempt(2, 1, 1, Some(1), 0)))

  const Cancel: Tx := Controlling(SubmitCancel(1, 1, 7))

  const Continuing := Then(Retrying, Cancel)

  /** The first attempt's cleanup settles and ends the operation beside the second. */
  const Ending := Then(Continuing, Closing(1, 1, OutcomeFailed, CleanupComplete, []))

  /** The second is closed, nobody knowing how it went. */
  const Reopening := Then(Ending, Closing(2, 1, OutcomeUnknown, CleanupUnknown, []))

  ghost predicate AtMostOneOpen(db: DB) {
    forall a, b :: OpenAttemptRow(db, 1, a) && OpenAttemptRow(db, 1, b) ==> a == b
  }

  ghost predicate OneAtATime(c: Config, run: Run) {
    hide After;
    AtMostOneOpen(After(c, run)) && (run.Then? ==> OneAtATime(c, run.prior))
  }

  predicate Leads(db: DB, tx: Tx, next: DB) {
    hide Apply;
    Apply(Preparing, db, tx) == next
  }

  lemma Executes(db: DB, t: ExecutionTx, next: DB)
    requires ExecutionStep(Preparing, db, t) == Ok(next)
    ensures Leads(db, Executing(t), next)
  {
    hide ExecutionStep, Apply;
    ExecutingCommits(Preparing, db, t);
  }

  /** Nothing is sending, in any of these databases. */
  lemma NothingSends(op: Operation, attempts: map<Id, Attempt>)
    ensures !SendersActing(Holding(op, attempts), 1)
  {
  }

  predicate OpensNext(op: Operation, attempts: map<Id, Attempt>, a: Id) {
    hide Leads;
    Leads(Holding(op, attempts), Executing(OpenAttempt(a, 1, 1, Some(1), 0)),
          Holding(op.(lifecycle := LifecycleRunning).Transition(), attempts[a := Fresh]))
  }

  lemma Opens(op: Operation, attempts: map<Id, Attempt>, a: Id)
    requires op.bind == Inquiry && !op.FencedForNewDispatch() && op.intakeConfirmed && op.finance == FinanceNotFunded
    requires op.executionEpoch == 1 && op.activeDeadline.None? && a !in attempts
    ensures OpensNext(op, attempts, a)
  {
    hide SendersActing, Leads;
    var db := Holding(op, attempts);
    NothingSends(op, attempts);
    assert !AdmissionClosed(db, 1);
    assert Preparing.ProfileOf(op) == Preparing.profiles[1];
    assert Execution.BootstrapGate(Preparing, db, 1, 0) == Pass;
    assert map[1 := op][1 := op.(lifecycle := LifecycleRunning).Transition()]
        == map[1 := op.(lifecycle := LifecycleRunning).Transition()];
    Executes(Holding(op, attempts), OpenAttempt(a, 1, 1, Some(1), 0),
             Holding(op.(lifecycle := LifecycleRunning).Transition(), attempts[a := Fresh]));
  }

  predicate Closable(op: Operation, attempts: map<Id, Attempt>, a: Id, outcome: AttemptOutcome,
                     cleanup: CleanupState) {
    && a in attempts && (attempts[a] == Fresh || attempts[a].CanSettleCleanup(outcome, cleanup))
    && attempts[a].bind == Fresh.bind && !HasUnknownAttempt(Holding(op, attempts), 1, Some(a))
  }

  predicate ClosesNext(op: Operation, attempts: map<Id, Attempt>, a: Id, outcome: AttemptOutcome,
                       cleanup: CleanupState) {
    hide Leads;
    a in attempts &&
    var kept := Execution.SettleClose(op, None, outcome, cleanup, true).Transition();
    var closed := attempts[a].(state := AttemptClosed, outcome := Some(outcome), cleanup := Some(cleanup));
    Leads(Holding(op, attempts), Closing(a, 1, outcome, cleanup, []), Holding(kept, attempts[a := closed]))
  }

  /** What a close leaves when no other attempt is uncertain. */
  lemma Closes(op: Operation, attempts: map<Id, Attempt>, a: Id, outcome: AttemptOutcome, cleanup: CleanupState)
    requires op.bind == Inquiry && op.finance == FinanceNotFunded && Closable(op, attempts, a, outcome, cleanup)
    ensures ClosesNext(op, attempts, a, outcome, cleanup)
  {
    hide SendersActing, HasUnknownAttempt, HasOpenAttempt, AdmissionStep, EffectStep, GrantStep, ExecutionStep,
      ControlStep, FinanceStep, RunStep, Execution.SettleClose;
    var db := Holding(op, attempts);
    NothingSends(op, attempts);
    assert Execution.ListsPrepared(db, a, []);
  }

  predicate Leaves(run: Run, db: DB) {
    hide After;
    After(Preparing, run) == db
  }

  lemma Follow(run: Run, tx: Tx, db: DB, next: DB)
    requires Leaves(run, db) && Leads(db, tx, next)
    ensures Leaves(Then(run, tx), next)
  {
    hide Apply;
  }

  lemma Becomes(op: Operation, attempts: map<Id, Attempt>, next: Operation)
    ensures PutOperation(Holding(op, attempts), 1, next) == Holding(next, attempts)
  {
    assert map[1 := op][1 := next] == map[1 := next];
  }

  // ---------- the steps ----------

  const One: map<Id, Attempt> := map[1 := Fresh]

  const OneFailed: map<Id, Attempt> := map[1 := Unclean]

  const Both: map<Id, Attempt> := map[1 := Unclean, 2 := Fresh]

  const OneSettled: map<Id, Attempt> := map[1 := Clean, 2 := Fresh]

  const BothClosed: map<Id, Attempt> := map[1 := Clean, 2 := Vanished]

  lemma ConfirmingLeaves()
    ensures Leaves(Start, Empty) && Leaves(Submitting, Holding(Submitted, map[]))
    ensures Leaves(Confirming, Holding(Confirmed, map[]))
  {
    hide Leads, After;
    Executes(Empty, Submit(1, Inquiry, None), Holding(Submitted, map[]));
    Becomes(Submitted, map[], Confirmed);
    Executes(Holding(Submitted, map[]), ConfirmIntake(1), Holding(Confirmed, map[]));
    StartsEmpty();
    Follow(Start, Submitting.tx, Empty, Holding(Submitted, map[]));
    Follow(Submitting, Confirming.tx, Holding(Submitted, map[]), Holding(Confirmed, map[]));
  }

  lemma StartsEmpty()
    ensures Leaves(Start, Empty)
  {
    hide Apply;
  }

  lemma OpeningLeaves()
    requires Leaves(Confirming, Holding(Confirmed, map[]))
    ensures Leaves(Opening, Holding(Working, One))
  {
    hide Leads, Leaves, Confirming;
    Opens(Confirmed, map[], 1);
    assert map[][1 := Fresh] == One;
    Follow(Confirming, Opening.tx, Holding(Confirmed, map[]), Holding(Working, One));
  }

  lemma FailingLeaves()
    requires Leaves(Opening, Holding(Working, One))
    ensures Leaves(Asking, Holding(Waiting, One)) && Leaves(Failing, Holding(Unsettled, OneFailed))
  {
    hide Leads, Leaves, Opening;
    Becomes(Working, One, Waiting);
    Executes(Holding(Working, One), AskQuestions(1, 1), Holding(Waiting, One));
    assert !HasUnknownAttempt(Holding(Waiting, One), 1, Some(1));
    Closes(Waiting, One, 1, OutcomeFailed, CleanupUnknown);
    assert One[1 := Unclean] == OneFailed;
    Follow(Opening, Asking.tx, Holding(Working, One), Holding(Waiting, One));
    Follow(Asking, Failing.tx, Holding(Waiting, One), Holding(Unsettled, OneFailed));
  }

  lemma ContinuingLeaves()
    requires Leaves(Failing, Holding(Unsettled, OneFailed))
    ensures Leaves(Answering, Holding(Answered, OneFailed)) && Leaves(Retrying, Holding(Resumed, Both))
    ensures Leaves(Continuing, Holding(Cancelling, Both))
  {
    hide Leads, Leaves, Failing;
    Becomes(Unsettled, OneFailed, Answered);
    Executes(Holding(Unsettled, OneFailed), SubmitAnswer(1, 1), Holding(Answered, OneFailed));
    Opens(Answered, OneFailed, 2);
    assert OneFailed[2 := Fresh] == Both;
    Cancels();
    Follow(Failing, Answering.tx, Holding(Unsettled, OneFailed), Holding(Answered, OneFailed));
    Follow(Answering, Retrying.tx, Holding(Answered, OneFailed), Holding(Resumed, Both));
    Follow(Retrying, Continuing.tx, Holding(Resumed, Both), Holding(Cancelling, Both));
  }

  lemma Cancels()
    ensures Leads(Holding(Resumed, Both), Cancel, Holding(Cancelling, Both))
  {
    hide SendersActing, AdmissionStep, EffectStep, GrantStep, ExecutionStep, FinanceStep, RunStep,
      Execution.CloseAttempt;
    assert OpenAttemptRow(Holding(Resumed, Both), 1, 2);
  }

  lemma ReopeningLeaves()
    requires Leaves(Continuing, Holding(Cancelling, Both))
    ensures Leaves(Ending, Holding(CanceledBeside, OneSettled)) && Leaves(Reopening, Holding(Undone, BothClosed))
  {
    hide Leads, Leaves, Continuing;
    assert !HasUnknownAttempt(Holding(Cancelling, Both), 1, Some(1));
    Closes(Cancelling, Both, 1, OutcomeFailed, CleanupComplete);
    assert Both[1 := Clean] == OneSettled;
    Follow(Continuing, Ending.tx, Holding(Cancelling, Both), Holding(CanceledBeside, OneSettled));
    assert !HasUnknownAttempt(Holding(CanceledBeside, OneSettled), 1, Some(2));
    Closes(CanceledBeside, OneSettled, 2, OutcomeUnknown, CleanupUnknown);
    assert OneSettled[2 := Vanished] == BothClosed;
    Follow(Ending, Reopening.tx, Holding(CanceledBeside, OneSettled), Holding(Undone, BothClosed));
  }

  // ---------- the result ----------

  ghost predicate OneBefore(run: Run) {
    hide After;
    run.Then? && OneAtATime(Preparing, run.prior)
  }

  lemma OneMore(run: Run, op: Operation, attempts: map<Id, Attempt>)
    requires OneBefore(run) && Leaves(run, Holding(op, attempts))
    requires attempts == map[] || attempts in {One, OneFailed, Both, OneSettled, BothClosed}
    ensures OneAtATime(Preparing, run)
  {
    hide After;
  }

  lemma OneSoFar()
    requires Leaves(Start, Empty) && Leaves(Submitting, Holding(Submitted, map[]))
    requires Leaves(Confirming, Holding(Confirmed, map[])) && Leaves(Opening, Holding(Working, One))
    requires Leaves(Asking, Holding(Waiting, One)) && Leaves(Failing, Holding(Unsettled, OneFailed))
    ensures OneAtATime(Preparing, Failing)
  {
    hide Leaves, After, Holding, One, OneFailed;
    assert OneAtATime(Preparing, Start) by { NoneAtFirst(); }
    OneMore(Submitting, Submitted, map[]);
    OneMore(Confirming, Confirmed, map[]);
    OneMore(Opening, Working, One);
    OneMore(Asking, Waiting, One);
    OneMore(Failing, Unsettled, OneFailed);
  }

  lemma NoneAtFirst()
    ensures OneAtATime(Preparing, Start)
  {
    hide Apply;
  }

  lemma OneToTheEnd()
    requires OneAtATime(Preparing, Failing)
    requires Leaves(Answering, Holding(Answered, OneFailed)) && Leaves(Retrying, Holding(Resumed, Both))
    requires Leaves(Continuing, Holding(Cancelling, Both)) && Leaves(Ending, Holding(CanceledBeside, OneSettled))
    requires Leaves(Reopening, Holding(Undone, BothClosed))
    ensures OneAtATime(Preparing, Reopening)
  {
    hide Leaves, Apply, Holding, Failing, OneFailed, Both, OneSettled, BothClosed;
    OneMore(Answering, Answered, OneFailed);
    OneMore(Retrying, Resumed, Both);
    OneMore(Continuing, Cancelling, Both);
    OneMore(Ending, CanceledBeside, OneSettled);
    OneMore(Reopening, Undone, BothClosed);
  }

  predicate Everyday(run: Run) {
    run.Then? ==> Everyday(run.prior) && (run.tx.Executing? || run.tx.Closing? || run.tx.Controlling?)
  }

  lemma {:induction false} EverydayIsSteady(run: Run)
    requires Everyday(run)
    ensures SteadyRun(Preparing, run)
  {
    hide After;
    if run.Then? { EverydayIsSteady(run.prior); }
  }

  lemma ReopeningIsEveryday()
    ensures Everyday(Reopening)
  {
  }

  /** Nothing is rolled back and no two attempts are ever open together; yet the close of
      the second attempt undoes the end of the operation. */
  lemma EndUndone()
    ensures SteadyRun(Preparing, Reopening) && OneAtATime(Preparing, Reopening)
    ensures Leaves(Ending, Holding(CanceledBeside, OneSettled)) && Leaves(Reopening, Holding(Undone, BothClosed))
    ensures Terminal(Holding(CanceledBeside, OneSettled), TheOperation)
    ensures !SameLifecycle(Holding(CanceledBeside, OneSettled), Holding(Undone, BothClosed), TheOperation)
  {
    hide Leaves, SteadyRun, OneAtATime, One, OneFailed, Both, OneSettled, BothClosed;
    ReopeningIsEveryday();
    EverydayIsSteady(Reopening);
    ConfirmingLeaves();
    OpeningLeaves();
    FailingLeaves();
    ContinuingLeaves();
    ReopeningLeaves();
    OneSoFar();
    OneToTheEnd();
  }
}
