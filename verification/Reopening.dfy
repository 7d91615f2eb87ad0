/** What a reopened run leaves behind: while a run is not reopened it holds the closure of
    its scope, so what it found settled stays settled; when it reopens every obligation is
    disposed or its record is definite, and only its own closure is lifted
    (internal/application/recovery.go:80-185,300-342,
    internal/application/recovery_enumeration.go:103-239). */
module Reopening {
  import opened Values
  import opened Records
  import opened Database
  import opened Transactions
  import opened Worlds
  import opened Published
  import Admission
  import DispatchSteps
  import Effects
  import EffectSteps
  import Enumeration
  import Execution
  import Recovery
  import Releases
  import WorkSteps

  // ---------- closures ----------

  predicate Reopened(db: DB, r: Id) { r in db.recovery.runs && db.recovery.runs[r].phase == RecoveryReopened }

  /** The closure belongs to a run of its scope and is open until that run reopens. */
  predicate ClosureOwned(db: DB, s: ScopeKey) {
    s in db.recovery.closures ==>
      var r := db.recovery.closures[s].run;
      r in db.recovery.runs && db.recovery.runs[r].scope == s && db.recovery.closures[s].open == !Reopened(db, r)
  }

  /** A run that is not reopened holds the closure of its scope. */
  predicate RunCloses(db: DB, r: Id) {
    r in db.recovery.runs && !Reopened(db, r) ==>
      var s := db.recovery.runs[r].scope;
      s in db.recovery.closures && db.recovery.closures[s] == Closure(r, true)
  }

  /** Two open closures are of two tenants. */
  predicate Apart(db: DB, s: ScopeKey, t: ScopeKey) {
    && s in db.recovery.closures && t in db.recovery.closures && db.recovery.closures[s].open
    && db.recovery.closures[t].open && s != t
    ==> s.ScopeTenant? && t.ScopeTenant?
  }

  ghost predicate Fencing(db: DB) {
    && (forall s :: ClosureOwned(db, s))
    && (forall r :: RunCloses(db, r))
    && (forall s, t :: Apart(db, s, t))
  }

  lemma BeginFences(db: DB, t: RunTx)
    requires t.BeginRecovery? && RunStep(db, t).Ok? && Fencing(db)
    ensures Fencing(RunStep(db, t).value)
  {
    var next := RunStep(db, t).value;
    forall s
      ensures ClosureOwned(next, s)
    {
      assert ClosureOwned(db, s);
    }
    forall r
      ensures RunCloses(next, r)
    {
      assert RunCloses(db, r);
    }
    forall s, u
      ensures Apart(next, s, u)
    {
      assert Apart(db, s, u);
    }
  }

  lemma EvaluateFences(db: DB, r: Id)
    requires Recovery.Evaluate(db, r).Ok? && Fencing(db)
    ensures Fencing(Recovery.Evaluate(db, r).value)
  {
    hide Recovery.AllComplete, Recovery.HasUnsettled;
    var next := Recovery.Evaluate(db, r).value;
    assert RunCloses(db, r);
    forall s
      ensures ClosureOwned(next, s)
    {
      assert ClosureOwned(db, s);
    }
    forall q
      ensures RunCloses(next, q)
    {
      assert RunCloses(db, q);
    }
    forall s, u
      ensures Apart(next, s, u)
    {
      assert Apart(db, s, u);
    }
  }

  /** Nothing else moves a closure, or a run past its phases. */
  predicate SamePhases(db: DB, next: DB) {
    && next.recovery.closures == db.recovery.closures && next.recovery.runs.Keys == db.recovery.runs.Keys
    && forall r | r in db.recovery.runs && r in next.recovery.runs ::
        next.recovery.runs[r].scope == db.recovery.runs[r].scope && Reopened(next, r) == Reopened(db, r)
  }

  lemma SamePhasesFence(db: DB, next: DB)
    requires SamePhases(db, next) && Fencing(db)
    ensures Fencing(next)
  {
    forall s
      ensures ClosureOwned(next, s)
    {
      assert ClosureOwned(db, s);
    }
    forall r
      ensures RunCloses(next, r)
    {
      assert RunCloses(db, r);
    }
    forall s, t
      ensures Apart(next, s, t)
    {
      assert Apart(db, s, t);
    }
  }

  lemma RunningPhases(db: DB, t: RunTx)
    requires RunStep(db, t).Ok? && !t.BeginRecovery? && !t.Evaluate?
    ensures SamePhases(db, RunStep(db, t).value)
  {
    hide Recovery.AllComplete, Recovery.RecordEach;
  }

  lemma FencingStep(c: Config, db: DB, tx: Tx)
    requires Fencing(db)
    ensures Fencing(Apply(c, db, tx))
  {
    hide AdmissionStep, EffectStep, Releases.Record, GrantStep, ExecutionStep, Execution.CloseAttempt, ControlStep,
      FinanceStep, RunStep, Recovery.RestoreBody, Recovery.ApplyDecision, Fencing;
    if Step(c, db, tx).Ok? {
      if tx.Recovering? && tx.run.BeginRecovery? {
        BeginFences(db, tx.run);
      } else if tx.Recovering? && tx.run.Evaluate? {
        EvaluateStep(db, tx.run);
        EvaluateFences(db, tx.run.r);
      } else {
        if tx.Recovering? { RunningPhases(db, tx.run); }
        SamePhasesFence(db, Step(c, db, tx).value);
      }
    }
  }

  lemma EvaluateStep(db: DB, t: RunTx)
    requires t.Evaluate?
    ensures RunStep(db, t) == Recovery.Evaluate(db, t.r)
  {
  }

  /** In every run of the system, each recovery run holds the closure of its scope until it
      reopens and none after. */
  lemma {:induction false} FencingAlways(c: Config, run: Run)
    ensures Fencing(After(c, run))
  {
    hide Apply, Fencing;
    if run.Then? {
      FencingAlways(c, run.prior);
      FencingStep(c, After(c, run.prior), run.tx);
    } else {
      NothingFenced();
    }
  }

  lemma NothingFenced()
    ensures Fencing(Empty)
  {
  }

  // ---------- the gate ----------

  /** Every class of the run was read to its end. */
  predicate ReadThrough(db: DB, r: Id) {
    forall category: Class :: ProgressKey(r, category) in db.recovery.progress
        && db.recovery.progress[ProgressKey(r, category)].complete
  }

  /** Every finding of the run is disposed, or was found or has become settled. */
  predicate AllSettled(db: DB, r: Id) {
    forall f | f in db.recovery.findings && f.run == r ::
      db.recovery.findings[f].status in {FindingPresent, FindingResolved, FindingDisposed, FindingOutsideScope}
  }

  /** The closure of another scope or of another run. */
  predicate OtherCloses(db: DB, r: Id, s: ScopeKey) {
    s in db.recovery.closures && db.recovery.closures[s].open && db.recovery.closures[s].run != r
  }

  /** Exactly the closures of the run are lifted. */
  predicate Lifts(db: DB, next: DB, r: Id) {
    && next.recovery.closures.Keys == db.recovery.closures.Keys
    && forall s | s in db.recovery.closures && s in next.recovery.closures ::
         next.recovery.closures[s] ==
         if db.recovery.closures[s].run == r then Closure(r, false) else db.recovery.closures[s]
  }

  /** The gate opens if and only if everything was read and settled; it then lifts the
      closure of the run and of no other, and otherwise lifts none. */
  lemma ReopensExactly(db: DB, r: Id)
    requires Fencing(db) && r in db.recovery.runs && !Reopened(db, r)
    ensures Recovery.Evaluate(db, r).Ok?
    ensures var next := Recovery.Evaluate(db, r).value;
            && (Reopened(next, r) <==> ReadThrough(db, r) && AllSettled(db, r))
            && (Reopened(next, r) ==> Lifts(db, next, r))
            && (!Reopened(next, r) ==> next.recovery.closures == db.recovery.closures)
            && (ReadThrough(db, r) && !AllSettled(db, r) ==> Enumeration.PhaseIs(next, r, RecoveryRestricted))
            && (!ReadThrough(db, r) ==>
                  Enumeration.PhaseIs(next, r, if db.recovery.runs[r].phase == RecoveryFenced then RecoveryFenced
                                               else RecoveryEnumerating))
  {
    hide Recovery.AllComplete, Recovery.HasUnsettled;
    GateExactly(db, r);
    assert RunCloses(db, r);
    forall s | s in db.recovery.closures
      ensures db.recovery.closures[s].run == r ==> s == db.recovery.runs[r].scope
    {
      assert ClosureOwned(db, s);
    }
  }

  lemma GateExactly(db: DB, r: Id)
    ensures Recovery.AllComplete(db, r) <==> ReadThrough(db, r)
    ensures !Recovery.HasUnsettled(db, r) <==> AllSettled(db, r)
  {
    forall category: Class
      ensures category in CLASSES
    {
      Enumeration.EveryClass(category);
    }
    if !Recovery.HasUnsettled(db, r) {
      forall f | f in db.recovery.findings && f.run == r
        ensures db.recovery.findings[f].status
            in {FindingPresent, FindingResolved, FindingDisposed, FindingOutsideScope}
      {
        assert !Recovery.UnsettledRow(db, r, f);
      }
    }
  }

  /** Admission of a tenant is then closed only by another run. */
  lemma AdmissionReopens(db: DB, r: Id, tenant: Name)
    requires Fencing(db) && r in db.recovery.runs && !Reopened(db, r) && ReadThrough(db, r) && AllSettled(db, r)
    ensures Recovery.Evaluate(db, r).Ok?
    ensures AdmissionClosed(Recovery.Evaluate(db, r).value, tenant) <==>
            OtherCloses(db, r, ScopeAll) || OtherCloses(db, r, ScopeTenant(tenant))
  {
    hide Recovery.Evaluate, Fencing;
    ReopensExactly(db, r);
  }

  // ---------- what a finding says of its record ----------

  predicate Of(scope: ScopeKey, tenant: Name) { scope == ScopeAll || scope == ScopeTenant(tenant) }

  /** No answer about the obligation is open: the operation is recorded, the attempt of the
      launch is closed, the mutation was not sent or its outcome is known, and so the call. */
  predicate Definite(db: DB, k: Key) {
    match k.category
    case ClassIntake => k.id in db.work.operations
    case ClassJobLaunch =>
      && k.id in db.work.launches && db.work.launches[k.id].bind.attempt in db.work.attempts
      && db.work.attempts[db.work.launches[k.id].bind.attempt].state == AttemptClosed
    case ClassBusinessWrite =>
      k.id in db.guarded.effects && db.guarded.effects[k.id].state !in {EffectPermitted, EffectUnknown}
    case ClassModelDispatch | ClassToolDispatch =>
      k.id in db.ledger.dispatches && db.ledger.dispatches[k.id].state !in {DispatchAuthorized, DispatchUnknown}
  }

  /** What is prepared belongs to a tenant of the scope. */
  predicate Barred(db: DB, k: Key, scope: ScopeKey) {
    match k.category
    case ClassIntake | ClassJobLaunch => true
    case ClassBusinessWrite =>
      k.id in db.guarded.effects && db.guarded.effects[k.id].state == EffectPrepared ==>
        Of(scope, db.guarded.effects[k.id].bind.tenant)
    case ClassModelDispatch | ClassToolDispatch =>
      k.id in db.ledger.dispatches && db.ledger.dispatches[k.id].state == DispatchPrepared ==>
        Of(scope, db.ledger.dispatches[k.id].bind.tenant)
  }

  /** The finding belongs to a run; found or resolved, its record is definite as long as the
      run is not reopened; disposed, a disposition was made. */
  predicate FindingTrue(db: DB, f: FindingKey) {
    f in db.recovery.findings ==>
      && f.run in db.recovery.runs && Of(db.recovery.runs[f.run].scope, db.recovery.findings[f].tenant)
      && db.recovery.findings[f].status != FindingOutsideScope
      && (db.recovery.findings[f].status == FindingDisposed ==> f.key in db.recovery.dispositions)
      && (db.recovery.findings[f].status in {FindingPresent, FindingResolved} && !Reopened(db, f.run) ==>
            Definite(db, f.key) && Barred(db, f.key, db.recovery.runs[f.run].scope))
  }

  // ---------- a definite record stays so behind the closure ----------

  predicate LaunchBound(db: DB, next: DB, l: Id) {
    l in db.work.launches ==> l in next.work.launches && next.work.launches[l].bind == db.work.launches[l].bind
  }

  lemma ExecutingLaunch(c: Config, db: DB, t: ExecutionTx, l: Id)
    requires ExecutionStep(c, db, t).Ok?
    ensures LaunchBound(db, ExecutionStep(c, db, t).value, l)
  {
    hide Execution.BootstrapGate, SendersActing, AdmissionClosed;
  }

  lemma RestoringLaunch(c: Config, db: DB, f: FindingKey, body: Body, l: Id)
    requires Recovery.Restore(c, db, f, body).Ok?
    ensures LaunchBound(db, Recovery.Restore(c, db, f, body).value, l)
  {
    hide Recovery.RestoreOperation, Recovery.RestoreAttempt, Admission.InsertDispatch, MoveBudget,
      Recovery.ExposeOperation, Effects.InsertEffect;
  }

  lemma StepOfLaunch(c: Config, db: DB, tx: Tx, l: Id)
    ensures LaunchBound(db, Apply(c, db, tx), l)
  {
    hide AdmissionStep, EffectStep, Releases.Record, GrantStep, ExecutionStep, FinanceStep, Execution.CloseAttempt,
      ControlStep, Recovery.RecordEach, Recovery.AllComplete, Recovery.RecoveryInProgress, Recovery.Restore,
      Recovery.Dispose;
    if tx.Executing? && ExecutionStep(c, db, tx.execution).Ok? { ExecutingLaunch(c, db, tx.execution, l); }
    if tx.Restoring? && Recovery.Restore(c, db, tx.f, tx.body).Ok? { RestoringLaunch(c, db, tx.f, tx.body, l); }
  }

  /** The closure of the scope is open. */
  predicate Closes(db: DB, scope: ScopeKey) { scope in db.recovery.closures && db.recovery.closures[scope].open }

  lemma ClosedToTenant(db: DB, scope: ScopeKey, tenant: Name)
    requires Closes(db, scope) && Of(scope, tenant)
    ensures AdmissionClosed(db, tenant)
  {
  }

  lemma DefiniteStays(c: Config, db: DB, tx: Tx, k: Key, scope: ScopeKey)
    requires InFlight(tx) && Closes(db, scope) && Definite(db, k) && Barred(db, k, scope)
    ensures Definite(Apply(c, db, tx), k) && Barred(Apply(c, db, tx), k, scope)
  {
    hide Apply, SendersActing, HasOpenAttempt;
    match k.category
    case ClassIntake => WorkSteps.StepOfWork(c, db, tx, k.id, 0);
    case ClassJobLaunch =>
      StepOfLaunch(c, db, tx, k.id);
      WorkSteps.StepOfWork(c, db, tx, 0, db.work.launches[k.id].bind.attempt);
    case ClassBusinessWrite =>
      EffectSteps.StepOfRow(c, db, tx, k.id);
      if db.guarded.effects[k.id].state == EffectPrepared {
        ClosedToTenant(db, scope, db.guarded.effects[k.id].bind.tenant);
      }
    case ClassModelDispatch | ClassToolDispatch =>
      DispatchSteps.StepOfRow(c, db, tx, k.id);
      if db.ledger.dispatches[k.id].state == DispatchPrepared {
        ClosedToTenant(db, scope, db.ledger.dispatches[k.id].bind.tenant);
      }
  }

  // ---------- findings ----------

  /** The candidates a page commits are of tenants in the scope of their run. */
  predicate CommitsInScope(db: DB, tx: Tx) {
    tx.Recovering? && tx.run.CommitPage? && tx.run.r in db.recovery.runs ==>
      forall x | x in tx.run.page.candidates :: Of(db.recovery.runs[tx.run.r].scope, x.body.Tenant())
  }

  /** What an enumeration records of a candidate, against the record. */
  lemma FoundIsTrue(db: DB, k: Key, body: Body, scope: ScopeKey)
    requires Recovery.FindingOf(db, k, body).Ok? && Of(scope, body.Tenant())
    ensures var status := Recovery.FindingOf(db, k, body).value.status;
            && status in {FindingPresent, FindingMissing, FindingUnresolved, FindingDisposed}
            && (status == FindingPresent ==> Definite(db, k) && Barred(db, k, scope))
            && (status == FindingDisposed ==> k in db.recovery.dispositions)
  {
  }

  /** The recorded row of a candidate. */
  predicate FoundTrue(db: DB, next: DB, f: FindingKey, scope: ScopeKey) {
    f in next.recovery.findings && f !in db.recovery.findings ==>
      var status := next.recovery.findings[f].status;
      && status in {FindingPresent, FindingMissing, FindingUnresolved, FindingDisposed}
      && (status == FindingPresent ==> Definite(db, f.key) && Barred(db, f.key, scope))
      && (status == FindingDisposed ==> f.key in db.recovery.dispositions)
  }

  lemma {:induction false} RecordedIsTrue(db: DB, r: Id, category: Class, candidates: seq<Recovery.Candidate>,
                                          f: FindingKey, scope: ScopeKey)
    requires Recovery.RecordEach(db, r, category, candidates).Ok?
    requires forall x | x in candidates :: Of(scope, x.body.Tenant())
    ensures FoundTrue(db, Recovery.RecordEach(db, r, category, candidates).value, f, scope)
    decreases |candidates|
  {
    hide Recovery.FindingOf, Definite, Barred;
    if candidates != [] {
      var k := FindingKey(r, Key(category, candidates[0].id));
      if k in db.recovery.findings {
        RecordedIsTrue(db, r, category, candidates[1..], f, scope);
      } else {
        FoundIsTrue(db, k.key, candidates[0].body, scope);
        var finding := Recovery.FindingOf(db, k.key, candidates[0].body).value;
        var mid := db.(recovery := db.recovery.(findings := db.recovery.findings[k := finding]));
        RecordedIsTrue(mid, r, category, candidates[1..], f, scope);
        SameRows(db, mid, f.key, scope);
        Enumeration.RecordEachKeeps(mid, r, category, candidates[1..], f);
      }
    }
  }

  lemma SameRows(db: DB, next: DB, k: Key, scope: ScopeKey)
    requires next.work == db.work && next.ledger == db.ledger && next.guarded == db.guarded
    ensures Definite(next, k) == Definite(db, k) && Barred(next, k, scope) == Barred(db, k, scope)
  {
  }

  /** How a finding that was not settled before, or not there, reads after a transaction. */
  predicate FindingMoves(db: DB, next: DB, f: FindingKey, scope: ScopeKey) {
    f in next.recovery.findings ==>
      var status := next.recovery.findings[f].status;
      || (f in db.recovery.findings && status == db.recovery.findings[f].status)
      || (&& status != FindingOutsideScope
          && (status == FindingDisposed ==> f.key in next.recovery.dispositions)
          && (status in {FindingPresent, FindingResolved} ==>
                Definite(next, f.key) && Barred(next, f.key, scope)))
  }

  lemma PageMoves(db: DB, t: RunTx, f: FindingKey)
    requires t.CommitPage? && RunStep(db, t).Ok? && CommitsInScope(db, Recovering(t))
    requires t.r in db.recovery.runs
    ensures FindingMoves(db, RunStep(db, t).value, f, db.recovery.runs[t.r].scope)
  {
    hide Recovery.AllComplete, Recovery.RecordEach, Definite, Barred;
    var next := RunStep(db, t).value;
    var scope := db.recovery.runs[t.r].scope;
    if Recovery.RecordEach(db, t.r, t.category, t.page.candidates).Ok? {
      RecordedIsTrue(db, t.r, t.category, t.page.candidates, f, scope);
      Enumeration.RecordEachKeeps(db, t.r, t.category, t.page.candidates, f);
    }
    SameRows(db, next, f.key, scope);
  }

  lemma SettledMoves(db: DB, x: FindingKey, status: FindingStatus, f: FindingKey, scope: ScopeKey)
    requires Recovery.SettleFinding(db, x, status).Ok?
    requires f in db.recovery.findings ==> Of(scope, db.recovery.findings[f].tenant)
    ensures FindingMoves(db, Recovery.SettleFinding(db, x, status).value, f, scope)
  {
  }

  lemma RestoredMoves(c: Config, db: DB, x: FindingKey, body: Body, f: FindingKey, scope: ScopeKey)
    requires Recovery.Restore(c, db, x, body).Ok?
    ensures FindingMoves(db, Recovery.Restore(c, db, x, body).value, f, scope)
  {
    hide Recovery.RestoreDispatch, Recovery.RestoreLaunch, Recovery.RestoreEffect;
  }

  lemma DisposedMoves(db: DB, req: Recovery.DispositionRequest, bound: bool, f: FindingKey, scope: ScopeKey)
    requires Recovery.Dispose(db, req, bound).Ok?
    ensures FindingMoves(db, Recovery.Dispose(db, req, bound).value, f, scope)
  {
    hide Recovery.ApplyDecision, Recovery.OperationFor, Recovery.Applies, Recovery.Unrestorable, Definite, Barred;
  }

  /** The runs and the dispositions there are stay, and a reopened run stays reopened. */
  predicate RunsStay(db: DB, next: DB, r: Id, k: Key) {
    && (r in db.recovery.runs ==>
          && r in next.recovery.runs && next.recovery.runs[r].scope == db.recovery.runs[r].scope
          && (Reopened(db, r) ==> Reopened(next, r)))
    && (k in db.recovery.dispositions ==> k in next.recovery.dispositions)
  }

  lemma RunningStays(db: DB, t: RunTx, r: Id, k: Key)
    requires RunStep(db, t).Ok?
    ensures RunsStay(db, RunStep(db, t).value, r, k)
  {
    hide Recovery.AllComplete, Recovery.HasUnsettled, Recovery.Reopened, Recovery.RecoveryInProgress,
      Recovery.RecordEach;
  }

  lemma StepOfRuns(c: Config, db: DB, tx: Tx, r: Id, k: Key)
    ensures RunsStay(db, Apply(c, db, tx), r, k)
  {
    hide AdmissionStep, EffectStep, Releases.Record, GrantStep, ExecutionStep, Execution.CloseAttempt, ControlStep,
      FinanceStep, RunStep, Recovery.RestoreBody, Recovery.ApplyDecision;
    if tx.Recovering? && RunStep(db, tx.run).Ok? { RunningStays(db, tx.run, r, k); }
  }

  lemma RunningMoves(db: DB, t: RunTx, f: FindingKey, scope: ScopeKey)
    requires RunStep(db, t).Ok? && CommitsInScope(db, Recovering(t))
    requires f in db.recovery.findings ==> Of(scope, db.recovery.findings[f].tenant)
    requires t.CommitPage? && t.r == f.run && t.r in db.recovery.runs ==> scope == db.recovery.runs[t.r].scope
    ensures FindingMoves(db, RunStep(db, t).value, f, scope)
  {
    hide Recovery.Started, Recovery.CommitPage, Recovery.SettleFinding, Recovery.Evaluate,
      Recovery.RecoveryInProgress, FindingMoves, Definite, Barred;
    match t
    case CommitPage(r, category, seen, page) =>
      if f.run == r {
        PageCommits(db, t);
        PageMoves(db, t, f);
      } else {
        PageElsewhere(db, t, f, scope);
      }
    case SettleFinding(x, status) => SettledMoves(db, x, status, f, scope);
    case _ => SameFindings(db, RunStep(db, t).value, f, scope);
  }

  lemma PageCommits(db: DB, t: RunTx)
    requires t.CommitPage? && RunStep(db, t).Ok?
    ensures t.r in db.recovery.runs
  {
    hide Recovery.RecordEach, Recovery.AllComplete;
  }

  lemma PageElsewhere(db: DB, t: RunTx, f: FindingKey, scope: ScopeKey)
    requires t.CommitPage? && RunStep(db, t).Ok? && t.r != f.run
    ensures FindingMoves(db, RunStep(db, t).value, f, scope)
  {
    hide Recovery.RecordEach, Recovery.AllComplete, Definite, Barred;
    if Recovery.RecordEach(db, t.r, t.category, t.page.candidates).Ok? {
      Enumeration.RecordEachKeeps(db, t.r, t.category, t.page.candidates, f);
    }
  }

  lemma SameFindings(db: DB, next: DB, f: FindingKey, scope: ScopeKey)
    requires next.recovery.findings == db.recovery.findings
    ensures FindingMoves(db, next, f, scope)
  {
    hide Definite, Barred;
  }

  /** The scope is that of the run of the finding, whose tenant is in it. */
  predicate ScopeOf(db: DB, f: FindingKey, scope: ScopeKey) {
    && (f in db.recovery.findings ==> Of(scope, db.recovery.findings[f].tenant))
    && (f.run in db.recovery.runs ==> scope == db.recovery.runs[f.run].scope)
  }

  lemma StepOfFinding(c: Config, db: DB, tx: Tx, f: FindingKey, scope: ScopeKey)
    requires CommitsInScope(db, tx) && ScopeOf(db, f, scope)
    ensures FindingMoves(db, Apply(c, db, tx), f, scope)
  {
    hide AdmissionStep, EffectStep, Releases.Record, GrantStep, ExecutionStep, Execution.CloseAttempt, ControlStep,
      FinanceStep, RunStep, Recovery.Restore, Recovery.Dispose, FindingMoves, CommitsInScope;
    if Step(c, db, tx).Ok? {
      match tx
      case Recovering(t) => RunningMoves(db, t, f, scope);
      case Restoring(x, body) => RestoredMoves(c, db, x, body, f, scope);
      case Disposing(req, bound) => DisposedMoves(db, req, bound, f, scope);
      case _ => SameFindings(db, Step(c, db, tx).value, f, scope);
    } else {
      SameFindings(db, db, f, scope);
    }
  }

  predicate NewInScope(db: DB, next: DB, f: FindingKey) {
    f !in db.recovery.findings && f in next.recovery.findings ==>
      f.run in db.recovery.runs && Of(db.recovery.runs[f.run].scope, next.recovery.findings[f].tenant)
  }

  /** A finding belongs to the tenant of the candidate it was recorded for. */
  lemma StepOfTenant(c: Config, db: DB, tx: Tx, f: FindingKey)
    requires CommitsInScope(db, tx)
    ensures NewInScope(db, Apply(c, db, tx), f)
  {
    hide AdmissionStep, EffectStep, Releases.Record, GrantStep, ExecutionStep, Execution.CloseAttempt, ControlStep,
      FinanceStep, RunStep, Recovery.RestoreBody, Recovery.ApplyDecision;
    if tx.Recovering? && RunStep(db, tx.run).Ok? { RecordedTenant(db, tx.run, f); }
  }

  lemma RecordedTenant(db: DB, t: RunTx, f: FindingKey)
    requires RunStep(db, t).Ok? && CommitsInScope(db, Recovering(t))
    ensures NewInScope(db, RunStep(db, t).value, f)
  {
    hide Recovery.RecordEach, Recovery.AllComplete, Recovery.HasUnsettled, Recovery.Reopened,
      Recovery.RecoveryInProgress;
    if t.CommitPage? && Recovery.RecordEach(db, t.r, t.category, t.page.candidates).Ok? {
      Enumeration.RecordEachKeeps(db, t.r, t.category, t.page.candidates, f);
    }
  }

  ghost predicate FindingsTrue(db: DB) { forall f :: FindingTrue(db, f) }

  lemma FindingTrueStep(c: Config, db: DB, tx: Tx, f: FindingKey)
    requires InFlight(tx) && CommitsInScope(db, tx) && Fencing(db) && FindingTrue(db, f)
    ensures FindingTrue(Apply(c, db, tx), f)
  {
    hide Apply, Definite, Barred, CommitsInScope;
    var next := Apply(c, db, tx);
    if f in next.recovery.findings {
      if f !in db.recovery.findings { StepOfTenant(c, db, tx, f); }
      StepOfRuns(c, db, tx, f.run, f.key);
      var scope := db.recovery.runs[f.run].scope;
      StepOfFinding(c, db, tx, f, scope);
      TenantStays(c, db, tx, f);
      if !Reopened(db, f.run) && f in db.recovery.findings
         && db.recovery.findings[f].status in {FindingPresent, FindingResolved}
      {
        assert RunCloses(db, f.run);
        DefiniteStays(c, db, tx, f.key, scope);
      }
    }
  }

  lemma TenantStays(c: Config, db: DB, tx: Tx, f: FindingKey)
    ensures Enumeration.FindingStep(db, Apply(c, db, tx), tx, f)
  {
    hide Apply;
    Enumeration.StepOfRecovery(c, db, tx, f.run, ProgressKey(f.run, ClassIntake), f);
  }

  // ---------- every history ----------

  /** A listed page holds candidates of the run's scope. */
  predicate PageScoped(f: Flight) {
    f.PageFlight? && f.page.Some? ==> forall x | x in f.page.value.candidates :: Of(f.run.scope, x.body.Tenant())
  }

  ghost predicate Faithful(w: World) {
    && Fencing(w.db) && FindingsTrue(w.db)
    && (w.restorePoint.Some? ==> Fencing(w.restorePoint.value) && FindingsTrue(w.restorePoint.value))
    && forall t :: FlightScoped(w, t)
  }

  lemma {:induction false} CandidatesScoped(inventory: map<Key, Object>, run: RecoveryRun, category: Class,
                                            listed: seq<Id>, x: Recovery.Candidate)
    requires x in Recovery.Candidates(inventory, run, category, listed)
    ensures Of(run.scope, x.body.Tenant())
  {
    if x in Recovery.Candidates(inventory, run, category, listed[1..]) {
      CandidatesScoped(inventory, run, category, listed[1..], x);
    }
  }

  lemma ListedScoped(w: World, f: Flight, following: seq<Id>, limit: nat)
    requires f.PageFlight?
    requires f.page == Some(Recovery.PageOf(w.inventory, f.run, f.category, following, limit))
    ensures PageScoped(f)
  {
    forall x | x in f.page.value.candidates
      ensures Of(f.run.scope, x.body.Tenant())
    {
      CandidatesScoped(w.inventory, f.run, f.category, Recovery.Listed(following, limit), x);
    }
  }

  predicate FlightScoped(w: World, t: Id) { t in w.flights ==> PageScoped(w.flights[t]) }

  lemma FlightsScoped(c: Config, w: World, e: Event, t: Id)
    requires Faithful(w)
    ensures FlightScoped(Happens(c, w, e), t)
  {
    hide Happens, Recovery.PageOf, Recovery.Follows, FindingsTrue, Fencing;
    var next := Happens(c, w, e);
    Enumeration.EventPages(c, w, e, t);
    assert FlightScoped(w, t);
    if t in next.flights && next.flights[t].PageFlight? && next.flights[t].page.Some? {
      var f := next.flights[t];
      if !(t in w.flights && w.flights[t] == f) {
        var following, limit :| Recovery.Follows(w.inventory, f.category, f.seen, following)
                                && f.page.value == Recovery.PageOf(w.inventory, f.run, f.category, following, limit);
        ListedScoped(w, f, following, limit);
      }
    }
  }

  predicate AnyInScope(db: DB, tx: Option<Tx>) { tx.Some? ==> CommitsInScope(db, tx.value) }

  /** The page an event commits was listed for a run of the same scope. */
  lemma EventCommitsInScope(c: Config, w: World, e: Event)
    requires Enumeration.Complete(w) && Faithful(w) && Enabled(c, w, e)
    ensures AnyInScope(w.db, TxOf(w, e))
  {
    hide Starts, Recovery.Follows, Enumeration.Enumerated, Enumeration.BegunHeld, Fencing, FindingsTrue;
    if e.CommitListed? {
      assert Enumeration.PageSound(w, w.flights[e.ticket]);
      assert FlightScoped(w, e.ticket);
    }
  }

  lemma TrueStep(c: Config, db: DB, tx: Tx)
    requires InFlight(tx) && CommitsInScope(db, tx) && Fencing(db) && FindingsTrue(db)
    ensures Fencing(Apply(c, db, tx)) && FindingsTrue(Apply(c, db, tx))
  {
    hide Apply, Fencing, FindingTrue, CommitsInScope;
    FencingStep(c, db, tx);
    forall f
      ensures FindingTrue(Apply(c, db, tx), f)
    {
      FindingTrueStep(c, db, tx, f);
    }
  }

  lemma DbFaithful(c: Config, w: World, e: Event)
    requires Sound(w) && Enumeration.Complete(w) && Faithful(w) && Enabled(c, w, e)
    ensures Fencing(Happens(c, w, e).db) && FindingsTrue(Happens(c, w, e).db)
  {
    hide Happens, Apply, Enabled, Sound, Enumeration.Complete, Fencing, FindingsTrue, CommitsInScope;
    if e.Rollback? {
      Enumeration.RollbackCommits(c, w, e);
      RollbackInScope(w.restorePoint.value, e.begin);
      TrueStep(c, w.restorePoint.value, Recovering(e.begin));
    } else {
      EventCommits(c, w, e);
      if TxOf(w, e).Some? {
        EnabledStandsAlone(c, w, e);
        EventInFlight(w, e);
        EventCommitsInScope(c, w, e);
        TrueStep(c, w.db, TxOf(w, e).value);
      }
    }
  }

  lemma RollbackInScope(db: DB, begin: RunTx)
    requires begin.BeginRecovery?
    ensures CommitsInScope(db, Recovering(begin)) && InFlight(Recovering(begin))
  {
  }

  lemma FaithfulStep(c: Config, w: World, e: Event)
    requires Sound(w) && Enumeration.Complete(w) && Faithful(w)
    ensures Faithful(Happens(c, w, e))
  {
    hide Happens, Enabled, Sound, Enumeration.Complete, Fencing, FindingsTrue, FlightScoped;
    var next := Happens(c, w, e);
    if Enabled(c, w, e) {
      DbFaithful(c, w, e);
      EventRest(c, w, e);
      forall t
        ensures FlightScoped(next, t)
      {
        FlightsScoped(c, w, e, t);
      }
    } else {
      NothingHappens(c, w, e);
    }
  }

  lemma {:induction false} FaithfulAlways(c: Config, h: History)
    ensures Faithful(WorldAfter(c, h))
  {
    hide Happens, Faithful, Sound, Enumeration.Complete;
    match h
    case Genesis => DawnIsFaithful();
    case Next(past, e) =>
      FaithfulAlways(c, past);
      PublishedBeforePermission(c, past);
      Enumeration.EnumerationIsComplete(c, past);
      FaithfulStep(c, WorldAfter(c, past), e);
  }

  lemma DawnIsFaithful()
    ensures Faithful(Dawn)
  {
  }

  // ---------- the step that reopens ----------

  /** What the inventory held when the run began, recorded or stored inside the widened
      window and of a tenant of the scope. */
  predicate Owed(w: World, r: Id, k: Key) {
    && r in w.db.recovery.runs && r in w.begun && k in w.begun[r] && k in w.inventory
    && var run, x := w.db.recovery.runs[r], w.inventory[k];
       && Of(run.scope, x.body.Tenant())
       && (|| run.windowStart - run.skew <= x.body.RecordedAt() <= run.windowEnd + run.skew
           || run.windowStart - run.skew <= x.modifiedAt <= run.windowEnd + run.skew)
  }

  /** An operator decided about it: the finding says so, and a disposition stands. */
  predicate Decided(db: DB, r: Id, k: Key) {
    && FindingKey(r, k) in db.recovery.findings
    && db.recovery.findings[FindingKey(r, k)].status == FindingDisposed && k in db.recovery.dispositions
  }

  /** The event reopens the run. */
  predicate ReopensAt(c: Config, w: World, e: Event, r: Id) {
    hide Happens;
    !e.Rollback? && r in w.db.recovery.runs && !Reopened(w.db, r) && Reopened(Happens(c, w, e).db, r)
  }

  /** In every history: when a run reopens admission, everything it owed is decided by a
      disposition or its record is there and definite: no call authorized or unknown, no
      mutation permitted or unknown, no launch with an open attempt. */
  lemma ReopeningIsDefinite(c: Config, h: History, e: Event, r: Id, k: Key)
    requires ReopensAt(c, WorldAfter(c, h), e, r) && Owed(WorldAfter(c, h), r, k)
    ensures Decided(WorldAfter(c, h).db, r, k) || Definite(WorldAfter(c, h).db, k)
  {
    hide WorldAfter, Happens, Apply, Definite, Barred, Fencing;
    var w := WorldAfter(c, h);
    OwedIsObligation(w, r, k);
    Enumeration.ReopeningIsComplete(c, h, e, r, k);
    FaithfulAlways(c, h);
    assert FindingTrue(w.db, FindingKey(r, k));
  }

  lemma OwedIsObligation(w: World, r: Id, k: Key)
    requires Owed(w, r, k)
    ensures Enumeration.Obligation(w, r, k)
  {
  }

  lemma OnlyEvaluates(c: Config, db: DB, tx: Tx, r: Id)
    requires r in db.recovery.runs && !Reopened(db, r) && Reopened(Apply(c, db, tx), r)
    ensures tx == Recovering(Evaluate(r))
  {
    hide AdmissionStep, EffectStep, Releases.Record, GrantStep, ExecutionStep, Execution.CloseAttempt, ControlStep,
      FinanceStep, RunStep, Recovery.RestoreBody, Recovery.ApplyDecision;
    if tx.Recovering? && RunStep(db, tx.run).Ok? { RunningEvaluates(db, tx.run, r); }
  }

  lemma RunningEvaluates(db: DB, t: RunTx, r: Id)
    requires RunStep(db, t).Ok? && r in db.recovery.runs && !Reopened(db, r) && Reopened(RunStep(db, t).value, r)
    ensures t == Evaluate(r)
  {
    hide Recovery.RecordEach, Recovery.AllComplete, Recovery.HasUnsettled, Recovery.Reopened,
      Recovery.RecoveryInProgress;
  }

  predicate Evaluates(db: DB, next: DB, r: Id) {
    hide Recovery.Evaluate;
    Recovery.Evaluate(db, r).Ok? && next == Recovery.Evaluate(db, r).value
  }

  lemma EvaluateCommits(c: Config, db: DB, r: Id)
    requires Recovery.Evaluate(db, r).Ok?
    ensures Evaluates(db, Apply(c, db, Recovering(Evaluate(r))), r)
  {
    hide Recovery.Evaluate, Apply;
    Enumeration.RunCommits(c, db, Evaluate(r));
    EvaluateStep(db, Evaluate(r));
  }

  /** In every history: the step that reopens a run lifts its closure and no other, and
      admission of a tenant stays closed only by another run. */
  lemma ReopeningLifts(c: Config, h: History, e: Event, r: Id, tenant: Name)
    requires ReopensAt(c, WorldAfter(c, h), e, r)
    ensures Lifts(WorldAfter(c, h).db, Happens(c, WorldAfter(c, h), e).db, r)
    ensures AdmissionClosed(Happens(c, WorldAfter(c, h), e).db, tenant) <==>
            OtherCloses(WorldAfter(c, h).db, r, ScopeAll) || OtherCloses(WorldAfter(c, h).db, r, ScopeTenant(tenant))
  {
    hide WorldAfter, Happens, Apply, Enabled, Fencing, FindingsTrue, Recovery.Evaluate, AdmissionClosed, OtherCloses,
      Lifts, ReadThrough, AllSettled;
    var w := WorldAfter(c, h);
    FaithfulAlways(c, h);
    EventCommits(c, w, e);
    OnlyEvaluates(c, w.db, TxOf(w, e).value, r);
    ReopensExactly(w.db, r);
    EvaluateCommits(c, w.db, r);
    AdmissionReopens(w.db, r, tenant);
  }

  // ---------- what begins and what is decided ----------

  /** No open closure meets the scope. */
  predicate Clear(db: DB, scope: ScopeKey) {
    forall s | s in db.recovery.closures && db.recovery.closures[s].open ::
      s.ScopeTenant? && scope.ScopeTenant? && s != scope
  }

  predicate Commanded(db: DB, scope: ScopeKey, command: Name) {
    exists q | q in db.recovery.runs :: db.recovery.runs[q].scope == scope && db.recovery.runs[q].command == command
  }

  /** A new command begins its run if and only if no open closure meets its scope and its
      window is one; the run is recorded as commanded, its scope closed, its classes unread. */
  lemma BeginsExactly(db: DB, r: Id, scope: ScopeKey, command: Name, digest: Name, epoch: nat, from: Time, until: Time,
                      skew: int)
    requires r !in db.recovery.runs && !Commanded(db, scope, command)
    ensures var begun := Recovery.Begin(db, r, scope, command, digest, epoch, from, until, skew);
            && (begun.Ok? <==> Clear(db, scope) && from < until && skew >= 0)
            && (begun.Ok? ==> BegunAs(begun.value, r, scope, command, digest, epoch, from, until, skew))
  {
    assert !exists q | q in db.recovery.runs :: Recovery.CommandedBy(db.recovery.runs[q], scope, command);
    forall category: Class
      ensures category in CLASSES
    {
      Enumeration.EveryClass(category);
    }
    assert Clear(db, scope) <==> !Recovery.RecoveryInProgress(db, scope);
  }

  predicate BegunAs(db: DB, r: Id, scope: ScopeKey, command: Name, digest: Name, epoch: nat, from: Time, until: Time,
                    skew: int) {
    && r in db.recovery.runs && skew >= 0
    && db.recovery.runs[r] == RecoveryRun(scope, command, digest, epoch, RecoveryFenced, from, until, skew)
    && scope in db.recovery.closures && db.recovery.closures[scope] == Closure(r, true)
    && forall category: Class ::
         ProgressKey(r, category) in db.recovery.progress
         && db.recovery.progress[ProgressKey(r, category)] == Progress(None, false)
  }

  /** An intake or a launch can only be retained, a call also confirmed not sent, a mutation
      also resolved. */
  predicate MayDecide(category: Class, decision: Decision) {
    match decision
    case DisposeRetainExposure => true
    case DisposeConfirmNotSent => category in {ClassModelDispatch, ClassToolDispatch, ClassBusinessWrite}
    case DisposeResolveSucceeded | DisposeResolveFailed => category == ClassBusinessWrite
  }

  /** The operator decides for the obligation's own tenant under its current recovery epoch;
      what can not be restored may be retained under the epoch of its run. */
  predicate MayDispose(db: DB, req: Recovery.DispositionRequest, bound: bool) {
    && MayDecide(req.key.category, req.decision)
    && if bound then
         var o := Recovery.OperationFor(db, req.key);
         && o.Some? && o.value in db.work.operations && db.work.operations[o.value].bind.tenant == req.tenant
         && db.work.operations[o.value].recoveryEpoch == req.epoch
       else
         && req.run.Some? && req.run.value in db.recovery.runs && req.decision == DisposeRetainExposure
         && db.recovery.runs[req.run.value].scope == ScopeTenant(req.tenant)
         && db.recovery.runs[req.run.value].epoch == req.epoch
         && FindingKey(req.run.value, req.key) in db.recovery.findings
  }

  /** The disposition, and its finding disposed unless it was settled. */
  predicate Disposed(db: DB, next: DB, req: Recovery.DispositionRequest) {
    && next.recovery.dispositions ==
       db.recovery.dispositions[req.key := Disposition(req.tenant, req.command, req.decision, req.evidence)]
    && next.recovery.findings.Keys == db.recovery.findings.Keys
    && forall f | f in db.recovery.findings && f in next.recovery.findings ::
         && next.recovery.findings[f].tenant == db.recovery.findings[f].tenant
         && next.recovery.findings[f].status ==
            if req.run == Some(f.run) && f.key == req.key && db.recovery.findings[f].status in
                 {FindingMissing, FindingRestored, FindingUnresolved}
            then FindingDisposed else db.recovery.findings[f].status
  }

  /** A decision is taken once per obligation, if and only if it may be and the obligation's
      own change is accepted. */
  lemma DisposesExactly(db: DB, req: Recovery.DispositionRequest, bound: bool)
    requires req.key !in db.recovery.dispositions
    ensures var r := Recovery.Dispose(db, req, bound);
            && (r.Ok? <==> MayDispose(db, req, bound) && Recovery.ApplyDecision(db, req).Ok?)
            && (r.Ok? ==> Disposed(db, r.value, req))
  {
    hide Recovery.ApplyDecision, Recovery.OperationFor;
    assert Recovery.Applies(req.key.category, req.decision) <==> MayDecide(req.key.category, req.decision);
  }

  /** An operation that comes back admits nothing: it reconciles, nothing of it is known to
      be clean or settled, and the epoch its obligation recorded is retired. */
  lemma RestoredIsFenced(c: Config, db: DB, o: Id, intake: IntakeBinding, epoch: nat)
    requires o !in db.work.operations
    ensures var r := Recovery.RestoreOperation(c, db, o, intake, epoch);
            && r.Ok? && o in r.value.work.operations
            && var op := r.value.work.operations[o];
               && op.bind.tenant == intake.tenant && op.bind.kind == intake.kind && op.bind.profile == intake.profile
               && op.lifecycle == LifecycleReconciling && op.FencedForNewDispatch()
               && op.cleanup == CleanupUnknown && op.finance == FinanceExposureUnknown
               && op.executionEpoch > intake.epoch && op.recoveryEpoch == epoch
  {
  }

  /** An attempt that comes back waits for its launch to be observed, with no outcome. */
  lemma RestoredAttemptIsOpen(db: DB, a: Id, bind: AttemptBinding)
    requires a !in db.work.attempts
    ensures var next := Recovery.RestoreAttempt(db, a, bind);
            && a in next.work.attempts && next.work.attempts[a].bind == bind
            && next.work.attempts[a].state !in {AttemptClosed, AttemptResultAccepted}
            && !next.work.attempts[a].Uncertain() && next.work.attempts[a].outcome.None?
  {
  }

  /** A restoration settles the finding of an intake and leaves any other to be settled by
      what its record proves; no other finding moves. */
  lemma RestoredFinding(c: Config, db: DB, f: FindingKey, body: Body, g: FindingKey)
    requires Recovery.Restore(c, db, f, body).Ok? && g in db.recovery.findings
    ensures var next := Recovery.Restore(c, db, f, body).value;
            && g in next.recovery.findings
            && next.recovery.findings[g].status ==
               if g != f || db.recovery.findings[g].status != FindingMissing then db.recovery.findings[g].status
               else if f.key.category == ClassIntake then FindingResolved
               else FindingRestored
  {
    hide Recovery.RestoreBody;
  }
}
