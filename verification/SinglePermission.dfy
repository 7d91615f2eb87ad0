/** A call is told it may send at most once, over any interleaving of requests,
    retries, lost acknowledgements and not-sent confirmations, and even across one
    rollback of the database (internal/application/dispatch.go:173-328,
    internal/application/recovery.go:80-185,
    internal/application/recovery_reconciliation.go:182-243). */
module SinglePermission {
  import opened Values
  import opened Records
  import opened Database
  import opened Transactions
  import opened Worlds
  import opened Published
  import Admission
  import DispatchSteps
  import Effects
  import Enumeration
  import Execution
  import Fences
  import Recovery
  import Releases
  import Termination
  import Unbroken

  // ---------- what the deployment must do ----------

  function CallOf(b: DispatchBinding): CallKey { CallKey(b.tenant, b.owner, b.call) }

  predicate Dispatched(k: Key) { k.category == ClassModelDispatch || k.category == ClassToolDispatch }

  /** The window of the run begun after the rollback covers every published dispatch of
      its scope that the restore point does not know. */
  ghost predicate WindowCovers(c: Config, w: World, begin: RunTx)
    requires begin.BeginRecovery? && w.restorePoint.Some?
  {
    hide Apply;
    var runs := Apply(c, w.restorePoint.value, Recovering(begin)).recovery.runs;
    begin.r in runs ==>
      forall k | k in w.inventory && Dispatched(k) && k.id !in w.restorePoint.value.ledger.dispatches
                 && begin.scope.InScope(w.inventory[k].body.Tenant()) ::
        Recovery.Eligible(runs[begin.r], w.inventory[k])
  }

  /** No lost dispatch is disposed by retaining its exposure, and the window of the
      recovery after a rollback covers what was lost. */
  ghost predicate Considerate(c: Config, w: World, e: Event) {
    hide WindowCovers;
    && (e.Commit? && e.tx.Disposing? && Dispatched(e.tx.req.key) && e.tx.req.decision == DisposeRetainExposure ==>
          e.tx.req.key.id in w.db.ledger.dispatches)
    && (e.Rollback? && e.begin.BeginRecovery? && w.restorePoint.Some? ==> WindowCovers(c, w, e.begin))
  }

  ghost predicate ConsiderateHistory(c: Config, h: History) {
    hide WorldAfter, Considerate;
    h.Next? ==> ConsiderateHistory(c, h.past) && Considerate(c, WorldAfter(c, h.past), h.event)
  }

  // ---------- what becomes of a call that was told ----------

  /** The permission a caller was told of was published under its own record. */
  predicate ToldIssued(w: World, t: Told) {
    && t.id in w.issued && w.issued[t.id].DispatchBody?
    && CallOf(w.issued[t.id].dispatch) == t.call
    && Holds(w, KeyOfTold(w, t), w.issued[t.id])
  }

  function KeyOfTold(w: World, t: Told): Key
    requires t.id in w.issued && w.issued[t.id].DispatchBody?
  {
    DispatchKey(t.id, w.issued[t.id].dispatch)
  }

  /** The record of the call can never be consumed again. */
  predicate Spent(db: DB, t: Told) {
    && t.id in db.ledger.dispatches && db.ledger.dispatches[t.id].Call() == t.call
    && (db.ledger.dispatches[t.id].state == DispatchPrepared ==> Fences.StaleDispatch(db, t.id))
  }

  /** Admission is closed by the run for the tenant. */
  predicate ClosedBy(db: DB, r: Id, tenant: Name) {
    && r in db.recovery.runs && db.recovery.runs[r].scope.InScope(tenant)
    && db.recovery.runs[r].scope in db.recovery.closures
    && db.recovery.closures[db.recovery.runs[r].scope] == Closure(r, true)
  }

  predicate NotRecovered(db: DB, f: FindingKey) {
    f in db.recovery.findings ==> db.recovery.findings[f].status == FindingMissing
  }

  /** Nothing else was issued for the call. */
  predicate SoleIssue(w: World, t: Told, i: Id) {
    i in w.issued && w.issued[i].DispatchBody? && CallOf(w.issued[i].dispatch) == t.call ==> i == t.id
  }

  /** The rollback lost the record of the call: admission stays closed until the run
      that followed it found and restored the record. */
  ghost predicate Awaited(w: World, r: Id, t: Told) {
    && t.id !in w.db.ledger.dispatches && t.call !in w.db.ledger.calls
    && ClosedBy(w.db, r, t.call.tenant)
    && t.id in w.issued && w.issued[t.id].DispatchBody?
    && Enumeration.Obligation(w, r, KeyOfTold(w, t)) && NotRecovered(w.db, FindingKey(r, KeyOfTold(w, t)))
    && forall i | i in w.issued :: SoleIssue(w, t, i)
  }

  /** A call of a tenant that no rollback touched, or that recovery covers. */
  predicate Followed(w: World, t: Told) {
    w.rolledBack.Some? ==>
      && w.rolledBack.value in w.db.recovery.runs
      && w.db.recovery.runs[w.rolledBack.value].scope.InScope(t.call.tenant)
  }

  ghost predicate Accounted(w: World, t: Told) {
    ToldIssued(w, t) && (Followed(w, t) ==> Spent(w.db, t) || (w.rolledBack.Some? && Awaited(w, w.rolledBack.value, t)))
  }

  /** Of the calls followed, no two answers allowed the same one. */
  ghost predicate ToldOnce(w: World) {
    forall i, j | 0 <= i < j < |w.told| && Followed(w, w.told[i]) :: w.told[i].call != w.told[j].call
  }

  ghost predicate Single(w: World) {
    && Unbroken.Indexed(w.db)
    && (forall i | 0 <= i < |w.told| :: Accounted(w, w.told[i]))
    && ToldOnce(w) && RunKnown(w)
    && (w.rolledBack.None? ==> Unbroken.Whole(w))
  }

  // ---------- a spent record stays spent ----------

  lemma SpentStep(c: Config, db: DB, tx: Tx, t: Told)
    requires InFlight(tx) && Spent(db, t)
    ensures Spent(Apply(c, db, tx), t)
  {
    hide Apply, Fences.StaleDispatch, DispatchSteps.Admissible;
    DispatchSteps.StepOfRow(c, db, tx, t.id);
    Fences.StaleStep(c, db, tx, t.id, 0);
  }

  /** A record that is consumed was not spent. */
  lemma ConsumedWasNotSpent(c: Config, db: DB, tx: Tx, t: Told)
    requires InFlight(tx) && DispatchSteps.InState(db, t.id, DispatchPrepared)
    requires DispatchSteps.InState(Apply(c, db, tx), t.id, DispatchAuthorized)
    ensures !Spent(db, t)
  {
    hide Apply;
    DispatchSteps.StepOfRow(c, db, tx, t.id);
  }

  // ---------- who is told ----------

  /** The answer told the request that its transaction consumed the record. */
  predicate Tells(w: World, next: World, e: Event) {
    && e.Consume? && e.ticket in w.flights && w.flights[e.ticket].CallFlight?
    && var call := w.flights[e.ticket].call;
       && next.told == w.told + [Told(call.copy.Call(), call.id)]
       && DispatchSteps.InState(w.db, call.id, DispatchPrepared)
       && DispatchSteps.InState(next.db, call.id, DispatchAuthorized)
  }

  lemma ConsumeTells(c: Config, w: World, e: Event)
    requires Consuming(w, e)
    ensures var next := ConsumeStep(c, w, e.ticket, e.authority, e.now); next.told == w.told || Tells(w, next, e)
  {
    hide Admission.AdmitConsume, Effects.PermitConsume;
    match w.flights[e.ticket]
    case CallFlight(call, _) =>
      if Admission.AdmitConsume(c, w.db, call.id, call.copy, call.tenant, call.req, e.authority, e.now).Ok? {
        DispatchSteps.AllowedConsumes(c, w.db, call, e.authority, e.now);
      }
    case MutationFlight(_, _) =>
  }

  predicate ToldStep(w: World, next: World, e: Event) {
    (next.told == w.told || Tells(w, next, e)) && (!e.Rollback? ==> next.rolledBack == w.rolledBack)
  }

  lemma EventTells(c: Config, w: World, e: Event)
    requires Enabled(c, w, e)
    ensures ToldStep(w, Happens(c, w, e), e)
  {
    hide Apply, AskStep, AskPermitStep, ConsumeStep, Recovery.PageOf, Recovery.Follows, Starts, Tells;
    if e.Ask? || e.AskPermit? { AskTells(c, w, e); }
    if e.Consume? { ConsumeTells(c, w, e); ConsumeRolls(c, w, e); }
  }

  lemma AskTells(c: Config, w: World, e: Event)
    ensures e.Ask? ==> AskStep(c, w, e).told == w.told && AskStep(c, w, e).rolledBack == w.rolledBack
    ensures e.AskPermit? ==> AskPermitStep(c, w, e).told == w.told && AskPermitStep(c, w, e).rolledBack == w.rolledBack
  {
    hide Admission.AdmitPrepare, Effects.PermitPrepare;
  }

  lemma ConsumeRolls(c: Config, w: World, e: Event)
    requires Consuming(w, e)
    ensures ConsumeStep(c, w, e.ticket, e.authority, e.now).rolledBack == w.rolledBack
  {
    hide Admission.AdmitConsume, Effects.PermitConsume;
  }

  // ---------- while a record is awaited ----------

  /** A closure stays until its run reopens it. */
  lemma ClosureStays(c: Config, db: DB, tx: Tx, r: Id, tenant: Name)
    requires ClosedBy(db, r, tenant)
    ensures ClosedBy(Apply(c, db, tx), r, tenant) || Recovery.MayReopen(db, r)
  {
    hide AdmissionStep, EffectStep, Releases.Record, GrantStep, ExecutionStep, Execution.CloseAttempt, ControlStep,
      FinanceStep, Recovery.RestoreBody, Recovery.ApplyDecision, RunStep;
    if tx.Recovering? && RunStep(db, tx.run).Ok? { RunningClosure(db, tx.run, r, tenant); }
  }

  lemma RunningClosure(db: DB, t: RunTx, r: Id, tenant: Name)
    requires RunStep(db, t).Ok? && ClosedBy(db, r, tenant)
    ensures ClosedBy(RunStep(db, t).value, r, tenant) || Recovery.MayReopen(db, r)
  {
    hide Recovery.RecordEach, Recovery.AllComplete, Recovery.HasUnsettled;
  }

  /** The transaction does not dispose of the lost obligation. */
  predicate Keeps(db: DB, tx: Tx, k: Key) {
    tx.Disposing? && tx.req.key == k && k.id !in db.ledger.dispatches ==> tx.req.decision != DisposeRetainExposure
  }

  lemma {:induction false} RecordedIsMissing(db: DB, r: Id, category: Class, candidates: seq<Recovery.Candidate>,
                                             f: FindingKey)
    requires Recovery.RecordEach(db, r, category, candidates).Ok? && NotRecovered(db, f)
    requires Dispatched(f.key) && f.key.id !in db.ledger.dispatches
    ensures NotRecovered(Recovery.RecordEach(db, r, category, candidates).value, f)
    decreases |candidates|
  {
    if candidates != [] {
      var k := FindingKey(r, Key(category, candidates[0].id));
      if k in db.recovery.findings {
        RecordedIsMissing(db, r, category, candidates[1..], f);
      } else {
        var finding := Recovery.FindingOf(db, k.key, candidates[0].body).value;
        RecordedIsMissing(db.(recovery := db.recovery.(findings := db.recovery.findings[k := finding])), r, category,
                          candidates[1..], f);
      }
    }
  }

  lemma RunningFinding(db: DB, t: RunTx, f: FindingKey)
    requires RunStep(db, t).Ok? && NotRecovered(db, f) && Dispatched(f.key) && f.key.id !in db.ledger.dispatches
    ensures NotRecovered(RunStep(db, t).value, f)
  {
    hide Recovery.RecordEach, Recovery.AllComplete, Recovery.HasUnsettled, Recovery.Reopened,
      Recovery.RecoveryInProgress;
    if t.CommitPage? && Recovery.RecordEach(db, t.r, t.category, t.page.candidates).Ok? {
      RecordedIsMissing(db, t.r, t.category, t.page.candidates, f);
    }
  }

  lemma RestoringFinding(c: Config, db: DB, g: FindingKey, body: Body, f: FindingKey)
    requires Recovery.Restore(c, db, g, body).Ok? && NotRecovered(db, f) && Dispatched(f.key)
    requires f.key.id !in Recovery.Restore(c, db, g, body).value.ledger.dispatches
    ensures NotRecovered(Recovery.Restore(c, db, g, body).value, f)
  {
    hide Recovery.RestoreOperation, Recovery.RestoreAttempt, Recovery.RestoreLaunch, Recovery.RestoreEffect,
      MoveBudget, Recovery.ExposeOperation;
  }

  lemma DisposingFinding(db: DB, req: Recovery.DispositionRequest, bound: bool, f: FindingKey)
    requires Recovery.Dispose(db, req, bound).Ok? && NotRecovered(db, f) && Dispatched(f.key)
    requires f.key.id !in db.ledger.dispatches && (req.key == f.key ==> req.decision != DisposeRetainExposure)
    ensures NotRecovered(Recovery.Dispose(db, req, bound).value, f)
  {
    hide Effects.ObserveOutcome, Effects.ConfirmRecordNotSent;
  }

  lemma FindingStays(c: Config, db: DB, tx: Tx, f: FindingKey)
    requires NotRecovered(db, f) && Dispatched(f.key) && Keeps(db, tx, f.key)
    requires f.key.id !in db.ledger.dispatches && f.key.id !in Apply(c, db, tx).ledger.dispatches
    ensures NotRecovered(Apply(c, db, tx), f)
  {
    hide AdmissionStep, EffectStep, Releases.Record, GrantStep, ExecutionStep, Execution.CloseAttempt, ControlStep,
      FinanceStep, RunStep, Recovery.Restore, Recovery.Dispose;
    if Step(c, db, tx).Ok? {
      match tx
      case Recovering(t) => RunningFinding(db, t, f);
      case Restoring(g, body) => RestoringFinding(c, db, g, body, f);
      case Disposing(req, bound) => DisposingFinding(db, req, bound, f);
      case _ =>
    }
  }

  /** A run whose obligation has no settled finding cannot reopen. */
  lemma AwaitedHoldsGate(w: World, r: Id, k: Key)
    requires Enumeration.Complete(w) && Enumeration.Obligation(w, r, k) && NotRecovered(w.db, FindingKey(r, k))
    ensures !Recovery.MayReopen(w.db, r)
  {
    hide Recovery.Eligible, Enumeration.PageSound, Enumeration.BegunHeld;
    Enumeration.EveryClass(k.category);
    assert Enumeration.KeyEnumerated(w, w.db, r, k);
    if Recovery.AllComplete(w.db, r) { assert Recovery.UnsettledRow(w.db, r, FindingKey(r, k)); }
  }

  /** The transaction behind an event, with what the hypotheses give of it. */
  lemma EventKeeps(c: Config, w: World, e: Event, tx: Tx, k: Key)
    requires Considerate(c, w, e) && StandsAlone(e) && TxOf(w, e) == Some(tx) && Dispatched(k)
    ensures Keeps(w.db, tx, k)
  {
    hide WindowCovers;
  }

  predicate Appears(db: DB, next: DB, d: Id) { d !in db.ledger.dispatches && d in next.ledger.dispatches }

  /** A row that appears is either of a call asked now, or restored from what was
      published. */
  predicate AppearsFrom(w: World, e: Event, next: DB, d: Id) {
    d in next.ledger.dispatches &&
    var row := next.ledger.dispatches[d];
    || (e.Ask? && e.id == d && d !in w.used && !AdmissionClosed(w.db, row.bind.tenant))
    || (d in w.issued && w.issued[d].DispatchBody? && row == Recovery.RestoredDispatch(w.issued[d].dispatch))
  }

  lemma AppearsAs(c: Config, w: World, e: Event, tx: Tx, d: Id)
    requires Sound(w) && Enabled(c, w, e) && TxOf(w, e) == Some(tx) && Appears(w.db, Apply(c, w.db, tx), d)
    ensures AppearsFrom(w, e, Apply(c, w.db, tx), d)
  {
    hide Apply, Enabled, DispatchSteps.Admissible, AdmissionClosed;
    EnabledStandsAlone(c, w, e);
    EventInFlight(w, e);
    EventWrites(w, e);
    TablesKept(c, w.db, tx);
    DispatchSteps.StepOfRow(c, w.db, tx, d);
    EnabledAsk(c, w, e);
    if e.RestoreFinding? { assert ObjectIssued(w, e.f.key); }
  }

  lemma ClosedRefuses(db: DB, r: Id, tenant: Name)
    requires ClosedBy(db, r, tenant)
    ensures AdmissionClosed(db, tenant)
  {
  }

  predicate NotIndexed(db: DB, t: Told) { t.call in db.ledger.calls ==> t.id in db.ledger.dispatches }

  /** Two rows of one call are the same row, so an awaited call cannot appear anew. */
  lemma AwaitedCall(c: Config, w: World, e: Event, tx: Tx, r: Id, t: Told)
    requires Sound(w) && Enabled(c, w, e) && TxOf(w, e) == Some(tx)
    requires Unbroken.Indexed(w.db) && Awaited(w, r, t)
    ensures NotIndexed(Apply(c, w.db, tx), t)
  {
    hide Apply, Enabled, Enumeration.Obligation, AdmissionClosed, Sound, ClosedBy, DispatchSteps.Admissible;
    var db := Apply(c, w.db, tx);
    EnabledStandsAlone(c, w, e);
    EventInFlight(w, e);
    Unbroken.IndexedStep(c, w.db, tx);
    if t.call in db.ledger.calls {
      var x := db.ledger.calls[t.call];
      DispatchSteps.StepOfRow(c, w.db, tx, x);
      NoRowOfCall(w.db, t, x);
      ClosedRefuses(w.db, r, t.call.tenant);
      AppearsAs(c, w, e, tx, x);
      assert SoleIssue(w, t, x);
    }
  }

  lemma NoRowOfCall(db: DB, t: Told, x: Id)
    requires Unbroken.Indexed(db) && t.call !in db.ledger.calls
    ensures x in db.ledger.dispatches ==> db.ledger.dispatches[x].Call() != t.call
  {
    if x in db.ledger.dispatches { assert Unbroken.IndexedRow(db, x); }
  }

  /** No other obligation is issued for an awaited call. */
  lemma AwaitedIssue(c: Config, w: World, e: Event, r: Id, t: Told, i: Id)
    requires Sound(w) && Enabled(c, w, e) && !e.Rollback? && Awaited(w, r, t)
    ensures SoleIssue(Happens(c, w, e), t, i)
  {
    hide Happens, Apply, Enabled, Enumeration.Obligation, AdmissionClosed, Sound, ClosedBy;
    var next := Happens(c, w, e);
    if i in w.issued {
      IssuedKept(c, w, e, i);
      assert SoleIssue(w, t, i);
    } else if i in next.issued && next.issued[i].DispatchBody? {
      EventCommits(c, w, e);
      NewIssue(c, w, e, i);
      ClosedRefuses(w.db, r, t.call.tenant);
      AppearsAs(c, w, e, TxOf(w, e).value, i);
    }
  }

  predicate KeepsIssue(w: World, next: World, i: Id) {
    i in w.issued ==> i in next.issued && next.issued[i] == w.issued[i]
  }

  lemma IssuedKept(c: Config, w: World, e: Event, i: Id)
    requires Sound(w)
    ensures KeepsIssue(w, Happens(c, w, e), i)
  {
    hide Happens;
    WorldGrows(c, w, e);
  }

  predicate IssuesRow(w: World, next: World, i: Id) {
    i in next.issued && i !in w.issued && next.issued[i].DispatchBody? ==>
      Appears(w.db, next.db, i) && next.issued[i] == DispatchBody(next.db.ledger.dispatches[i].bind)
  }

  /** What is issued anew is the obligation of a row inserted now. */
  lemma NewIssue(c: Config, w: World, e: Event, i: Id)
    ensures IssuesRow(w, Happens(c, w, e), i)
  {
    hide Apply, Admission.AdmitPrepare, Admission.AdmitConsume, Effects.PermitPrepare, Effects.PermitConsume,
      Recovery.PageOf, Recovery.Follows, Starts;
  }

  // ---------- one event ----------

  lemma ObligationStays(c: Config, w: World, e: Event, r: Id, k: Key)
    requires Sound(w) && Enabled(c, w, e) && !e.Rollback? && Enumeration.Obligation(w, r, k)
    ensures Enumeration.Obligation(Happens(c, w, e), r, k)
  {
    hide Happens, Apply, Enabled, Recovery.Eligible, Sound;
    var next := Happens(c, w, e);
    SoundUses(w);
    WorldGrows(c, w, e);
    EventCommits(c, w, e);
    if TxOf(w, e).Some? {
      Enumeration.StepOfRecovery(c, w.db, TxOf(w, e).value, r, ProgressKey(0, ClassIntake),
                                 FindingKey(0, Key(ClassIntake, 0)));
    }
    Enumeration.SameEligible(w.db.recovery.runs[r], next.db.recovery.runs[r], w.inventory[k]);
  }

  lemma SoundUses(w: World)
    requires Sound(w)
    ensures (forall i | i in w.issued :: i in w.used) && (forall r | r in w.begun :: r in w.used)
  {
  }

  /** An awaited record comes back as it was published, or stays awaited. */
  lemma AwaitedTx(c: Config, w: World, e: Event, tx: Tx, r: Id, t: Told)
    requires Sound(w) && Enumeration.Complete(w) && Enabled(c, w, e) && TxOf(w, e) == Some(tx) && Considerate(c, w, e)
    requires Unbroken.Indexed(w.db) && Awaited(w, r, t) && ToldIssued(w, t)
    ensures Spent(Apply(c, w.db, tx), t) || StillAwaited(w, Apply(c, w.db, tx), r, t)
  {
    hide Apply, Enabled, Considerate, Enumeration.Complete, Enumeration.Obligation, Sound, AdmissionClosed,
      Recovery.MayReopen, ClosedBy;
    var db := Apply(c, w.db, tx);
    AwaitedHoldsGate(w, r, KeyOfTold(w, t));
    ClosureStays(c, w.db, tx, r, t.call.tenant);
    AwaitedCall(c, w, e, tx, r, t);
    if t.id in db.ledger.dispatches {
      SoundUses(w);
      AppearsAs(c, w, e, tx, t.id);
    } else {
      EnabledStandsAlone(c, w, e);
      EventKeeps(c, w, e, tx, KeyOfTold(w, t));
      FindingStays(c, w.db, tx, FindingKey(r, KeyOfTold(w, t)));
    }
  }

  /** What a transaction leaves of an awaited record. */
  predicate StillAwaited(w: World, db: DB, r: Id, t: Told) {
    && ToldIssued(w, t) && t.id !in db.ledger.dispatches && t.call !in db.ledger.calls
    && ClosedBy(db, r, t.call.tenant) && NotRecovered(db, FindingKey(r, KeyOfTold(w, t)))
  }

  lemma AwaitedStep(c: Config, w: World, e: Event, r: Id, t: Told)
    requires Sound(w) && Enumeration.Complete(w) && Enabled(c, w, e) && !e.Rollback? && Considerate(c, w, e)
    requires Unbroken.Indexed(w.db) && Awaited(w, r, t) && ToldIssued(w, t)
    ensures Spent(Happens(c, w, e).db, t) || Awaited(Happens(c, w, e), r, t)
  {
    hide Happens, Apply, Enabled, Considerate, Enumeration.Complete, Enumeration.Obligation, Sound, ClosedBy, Spent;
    var next := Happens(c, w, e);
    EventCommits(c, w, e);
    IssuedKept(c, w, e, t.id);
    ObligationStays(c, w, e, r, KeyOfTold(w, t));
    forall i | i in next.issued
      ensures SoleIssue(next, t, i)
    {
      AwaitedIssue(c, w, e, r, t, i);
    }
    if TxOf(w, e).Some? { AwaitedTx(c, w, e, TxOf(w, e).value, r, t); }
  }

  lemma ToldIssuedStays(c: Config, w: World, e: Event, t: Told)
    requires Sound(w) && ToldIssued(w, t)
    ensures ToldIssued(Happens(c, w, e), t)
  {
    hide Happens, Sound;
    SoundUses(w);
    WorldGrows(c, w, e);
  }

  /** The scope of the run after the rollback is fixed when it begins. */
  lemma FollowedStays(c: Config, w: World, e: Event, t: Told)
    requires Enabled(c, w, e) && !e.Rollback?
    ensures Followed(Happens(c, w, e), t) ==> RunKnown(w) ==> Followed(w, t)
  {
    hide Happens, Apply, Enabled;
    EventCommits(c, w, e);
    EventTells(c, w, e);
    if TxOf(w, e).Some? && w.rolledBack.Some? {
      Enumeration.StepOfRecovery(c, w.db, TxOf(w, e).value, w.rolledBack.value, ProgressKey(0, ClassIntake),
                                 FindingKey(0, Key(ClassIntake, 0)));
    }
  }

  predicate RunKnown(w: World) { w.rolledBack.Some? ==> w.rolledBack.value in w.db.recovery.runs }

  /** A call told anew was published under its record, and the record is spent now. */
  lemma NewlyTold(c: Config, w: World, e: Event)
    requires Sound(w) && Enabled(c, w, e) && Unbroken.Indexed(w.db) && Tells(w, Happens(c, w, e), e)
    ensures var t := LastTold(Happens(c, w, e)); ToldIssued(Happens(c, w, e), t) && Spent(Happens(c, w, e).db, t)
  {
    hide Happens, Enabled, Unbroken.Indexed;
    var call := w.flights[e.ticket].call;
    var next := Happens(c, w, e);
    var t := Told(call.copy.Call(), call.id);
    EnabledConsume(c, w, e);
    assert FlightIssued(w, w.flights[e.ticket]) && DispatchIssued(w, w.db, call.id);
    assert ToldIssued(w, t);
    ToldIssuedStays(c, w, e, t);
    DispatchIssuedStep(c, w, e, call.id);
  }

  function LastTold(w: World): Told { if w.told == [] then Told(CallKey(0, 0, 0), 0) else w.told[|w.told| - 1] }

  /** A call told now was told of no other answer. */
  lemma ToldAfresh(c: Config, w: World, e: Event, t: Told)
    requires Sound(w) && Enabled(c, w, e) && Unbroken.Indexed(w.db) && Tells(w, Happens(c, w, e), e)
    requires Spent(w.db, t) || t.call !in w.db.ledger.calls
    ensures t.call != LastTold(Happens(c, w, e)).call
  {
    hide Happens, Enabled, Apply, Fences.StaleDispatch;
    var call := w.flights[e.ticket].call;
    EnabledConsume(c, w, e);
    assert FlightIssued(w, w.flights[e.ticket]) && DispatchIssued(w, w.db, call.id);
    assert Unbroken.IndexedRow(w.db, call.id);
    if Spent(w.db, t) && t.call == call.copy.Call() {
      assert Unbroken.IndexedRow(w.db, t.id);
      EventCommits(c, w, e);
      EventInFlight(w, e);
      ConsumedWasNotSpent(c, w.db, TxOf(w, e).value, t);
    }
  }

  lemma AccountedStep(c: Config, w: World, e: Event, t: Told)
    requires Sound(w) && Enumeration.Complete(w) && Enabled(c, w, e) && !e.Rollback? && Considerate(c, w, e)
    requires Unbroken.Indexed(w.db) && RunKnown(w) && Accounted(w, t)
    ensures Accounted(Happens(c, w, e), t)
  {
    hide Happens, Apply, Enabled, Considerate, Enumeration.Complete, Sound, Spent, Awaited, Unbroken.Indexed;
    ToldIssuedStays(c, w, e, t);
    FollowedStays(c, w, e, t);
    EventTells(c, w, e);
    EventCommits(c, w, e);
    EnabledStandsAlone(c, w, e);
    if Followed(w, t) && Spent(w.db, t) {
      if TxOf(w, e).Some? {
        EventInFlight(w, e);
        SpentStep(c, w.db, TxOf(w, e).value, t);
      }
    } else if Followed(w, t) {
      AwaitedStep(c, w, e, w.rolledBack.value, t);
    }
  }

  // ---------- the rollback ----------

  /** The state a rollback returns to, and the run begun on it. */
  function Past(w: World): DB { if w.restorePoint.Some? then w.restorePoint.value else Empty }

  function RunOf(e: Event): Id { if e.Rollback? && e.begin.BeginRecovery? then e.begin.r else 0 }

  function BeginOf(e: Event): Tx { if e.Rollback? then Recovering(e.begin) else Recovering(Evaluate(0)) }

  function RunIn(tx: Tx): Id { if tx.Recovering? && tx.run.BeginRecovery? then tx.run.r else 0 }

  /** A record the restore point holds is, once the run began, spent. */
  lemma RestoredPointSpent(c: Config, w: World, tx: Tx, t: Told)
    requires Unbroken.Whole(w) && Sound(w) && ToldIssued(w, t) && w.restorePoint.Some?
        && t.id in Past(w).ledger.dispatches
    requires BeginsIn(c, Past(w), tx, t.call.tenant)
    ensures Spent(Apply(c, Past(w), tx), t)
  {
    hide Apply, Unbroken.Indexed, Unbroken.NoneMissing;
    var past := Past(w);
    assert DispatchIssued(w, past, t.id);
    Fences.BeginKeepsRows(c, past, tx);
    var row := past.ledger.dispatches[t.id];
    if row.state == DispatchPrepared {
      assert Fences.ReachedEpoch(past, row.bind.operation, row.bind.tenant, row.bind.epoch);
      Fences.BeginRaisesEpoch(c, past, tx, row.bind.operation);
    }
  }

  /** A recovery run is begun by the transaction, its scope covering the tenant. */
  predicate BeginsIn(c: Config, db: DB, tx: Tx, tenant: Name) {
    hide Apply;
    && tx.Recovering? && tx.run.BeginRecovery? && tx.run.r !in db.recovery.runs
    && tx.run.r in Apply(c, db, tx).recovery.runs && tx.run.scope.InScope(tenant)
  }

  /** What beginning the run leaves: its closure, and no finding of its own. */
  lemma BegunCloses(c: Config, past: DB, tx: Tx, tenant: Name, k: Key)
    requires BeginsIn(c, past, tx, tenant)
    requires FindingKey(RunIn(tx), k) !in past.recovery.findings
    ensures ClosedBy(Apply(c, past, tx), RunIn(tx), tenant)
        && NotRecovered(Apply(c, past, tx), FindingKey(RunIn(tx), k))
  {
    hide AdmissionStep, EffectStep, GrantStep, ExecutionStep, ControlStep, FinanceStep, Recovery.CommitPage,
      Recovery.RecoveryInProgress;
  }

  /** The run after the rollback knows what the inventory held. */
  predicate BegunWithAll(w: World, next: World, r: Id) { r in next.begun && next.begun[r] == w.inventory.Keys }

  lemma RollbackBegins(c: Config, w: World, e: Event, tenant: Name)
    requires Enabled(c, w, e) && e.Rollback? && w.restorePoint.Some?
    ensures BegunWithAll(w, Happens(c, w, e), RunOf(e))
    ensures Covered(e, tenant) ==> BeginsIn(c, Past(w), BeginOf(e), tenant)
  {
    hide Apply;
  }

  lemma FreshRunFoundNothing(w: World, past: DB, r: Id, k: Key)
    requires Enumeration.Enumerated(w, past) && r !in past.recovery.runs
    ensures FindingKey(r, k) !in past.recovery.findings
  {
    hide Enumeration.KeyEnumerated;
  }

  lemma SoleBeforeRollback(w: World, t: Told, i: Id)
    requires Unbroken.Whole(w) && Sound(w) && Spent(w.db, t)
    ensures SoleIssue(w, t, i)
  {
    hide Unbroken.NoneMissing, Termination.Quiet, Fences.EpochsReached;
    if i in w.issued && w.issued[i].DispatchBody? && CallOf(w.issued[i].dispatch) == t.call {
      assert Unbroken.Known(w.db, i, w.issued[i]) && DispatchIssued(w, w.db, i);
      assert Unbroken.IndexedRow(w.db, i) && Unbroken.IndexedRow(w.db, t.id);
    }
  }

  /** What the restore point lacks is not indexed there either. */
  lemma LostCall(w: World, t: Told)
    requires Unbroken.Whole(w) && w.restorePoint.Some? && Spent(w.db, t) && t.id !in Past(w).ledger.dispatches
    ensures t.call !in Past(w).ledger.calls
  {
    hide Unbroken.NoneMissing, Termination.Quiet, Fences.EpochsReached;
    assert Unbroken.IndexedRow(w.db, t.id);
  }

  /** A record the restore point lacks is awaited by the run that began. */
  lemma LostIsAwaited(c: Config, w: World, e: Event, t: Told)
    requires Sound(w) && Enumeration.Complete(w) && Unbroken.Whole(w) && Enabled(c, w, e) && e.Rollback?
        && Considerate(c, w, e)
    requires w.restorePoint.Some? && t.id !in Past(w).ledger.dispatches
    requires ToldIssued(w, t) && Spent(w.db, t) && Covered(e, t.call.tenant)
    ensures Awaited(Happens(c, w, e), RunOf(e), t)
  {
    hide Happens, Enabled, Apply, Unbroken.Steadfast, BeginsIn, ClosedBy, NotRecovered, Recovery.Eligible,
      Enumeration.Enumerated, Enumeration.PageSound, Unbroken.Known, DispatchIssued, EffectIssued, Spent;
    var next := Happens(c, w, e);
    var past := Past(w);
    var tx := BeginOf(e);
    var k := KeyOfTold(w, t);
    RollbackBegins(c, w, e, t.call.tenant);
    Enumeration.RollbackCommits(c, w, e);
    NewRunIsNew(c, past, tx, t.call.tenant);
    FreshRunFoundNothing(w, past, RunOf(e), k);
    BegunCloses(c, past, tx, t.call.tenant, k);
    Fences.BeginKeepsRows(c, past, tx);
    LostCall(w, t);
    RunOpened(next.db, RunOf(e), t.call.tenant);
    forall i | i in next.issued
      ensures SoleIssue(next, t, i)
    {
      SoleBeforeRollback(w, t, i);
    }
  }

  predicate Covered(e: Event, tenant: Name) { e.Rollback? && e.begin.BeginRecovery? && e.begin.scope.InScope(tenant) }

  lemma NewRunIsNew(c: Config, db: DB, tx: Tx, tenant: Name)
    requires BeginsIn(c, db, tx, tenant)
    ensures RunIn(tx) !in db.recovery.runs
  {
    hide Apply;
  }

  lemma RunOpened(db: DB, r: Id, tenant: Name)
    requires ClosedBy(db, r, tenant)
    ensures r in db.recovery.runs
  {
  }

  /** The scope followed after the rollback is the scope of the run begun. */
  lemma FollowedIsCovered(c: Config, w: World, e: Event, t: Told)
    requires Enabled(c, w, e) && e.Rollback?
    ensures Followed(Happens(c, w, e), t) ==> Covered(e, t.call.tenant)
    ensures RunKnown(Happens(c, w, e))
  {
    hide Happens, Enabled, Apply, Starts;
    Enumeration.RollbackCommits(c, w, e);
    RollbackBegins(c, w, e, t.call.tenant);
    StartsRun(c, w, e);
    RunScope(c, Past(w), e.begin);
  }

  predicate StartsWith(c: Config, db: DB, e: Event) {
    hide Starts;
    e.Rollback? && e.begin.BeginRecovery? && Starts(c, db, e.begin)
  }

  predicate ScopeIs(db: DB, begin: RunTx) {
    begin.BeginRecovery? && begin.r in db.recovery.runs && db.recovery.runs[begin.r].scope == begin.scope
  }

  lemma StartsRun(c: Config, w: World, e: Event)
    requires Enabled(c, w, e) && e.Rollback?
    ensures w.restorePoint.Some? && StartsWith(c, Past(w), e)
  {
    hide Starts;
  }

  lemma RunScope(c: Config, db: DB, begin: RunTx)
    requires StartsWith(c, db, Rollback(begin))
    ensures ScopeIs(Apply(c, db, Recovering(begin)), begin)
  {
    hide AdmissionStep, EffectStep, GrantStep, ExecutionStep, ControlStep, FinanceStep, Recovery.CommitPage,
      Recovery.RecoveryInProgress;
  }

  lemma RollbackStep(c: Config, w: World, e: Event)
    requires Sound(w) && Enumeration.Complete(w) && Single(w) && Enabled(c, w, e) && e.Rollback? && Considerate(c, w, e)
    ensures Single(Happens(c, w, e))
  {
    hide Happens, Enabled, Apply, Considerate, Sound, Enumeration.Complete, Unbroken.Whole, Unbroken.Indexed, Spent,
      Awaited, ToldIssued;
    var next := Happens(c, w, e);
    Enumeration.RollbackCommits(c, w, e);
    RolledOnce(c, w, e);
    WholeIsIndexed(w);
    Unbroken.IndexedStep(c, Past(w), BeginOf(e));
    forall i | 0 <= i < |next.told|
      ensures Accounted(next, next.told[i])
    {
      var t := w.told[i];
      assert Accounted(w, t);
      ToldIssuedStays(c, w, e, t);
      FollowedIsCovered(c, w, e, t);
      if Followed(next, t) {
        RollbackBegins(c, w, e, t.call.tenant);
        if t.id in Past(w).ledger.dispatches {
          RestoredPointSpent(c, w, BeginOf(e), t);
        } else {
          LostIsAwaited(c, w, e, t);
        }
      }
    }
    FollowedIsCovered(c, w, e, Told(CallKey(0, 0, 0), 0));
  }

  lemma RolledOnce(c: Config, w: World, e: Event)
    requires Enabled(c, w, e) && e.Rollback?
    ensures w.rolledBack.None?
  {
    hide Starts;
  }

  lemma WholeIsIndexed(w: World)
    requires Unbroken.Whole(w)
    ensures w.restorePoint.Some? ==> Unbroken.Indexed(Past(w))
  {
    hide Unbroken.Indexed, Termination.Quiet, Fences.EpochsReached, Unbroken.NoneMissing;
  }

  // ---------- every history ----------

  lemma SingleStep(c: Config, w: World, e: Event)
    requires Sound(w) && Enumeration.Complete(w) && Single(w) && Considerate(c, w, e)
    ensures Single(Happens(c, w, e))
  {
    hide Happens, Enabled, Apply, Considerate, Sound, Enumeration.Complete, Unbroken.Whole, Unbroken.Indexed,
      Accounted;
    var next := Happens(c, w, e);
    if !Enabled(c, w, e) {
      NothingHappens(c, w, e);
    } else if e.Rollback? {
      RollbackStep(c, w, e);
    } else {
      EventTells(c, w, e);
      if w.rolledBack.None? { Unbroken.WholeStep(c, w, e); }
      IndexedEvent(c, w, e);
      RunKnownStays(c, w, e);
      forall i | 0 <= i < |next.told|
        ensures Accounted(next, next.told[i])
      {
        ToldAccounted(c, w, e, i);
      }
      ToldOnceStep(c, w, e);
    }
  }

  lemma IndexedEvent(c: Config, w: World, e: Event)
    requires Sound(w) && Enabled(c, w, e) && !e.Rollback? && Unbroken.Indexed(w.db)
    ensures Unbroken.Indexed(Happens(c, w, e).db)
  {
    hide Happens, Enabled, Apply, Unbroken.Indexed;
    EventCommits(c, w, e);
    EnabledStandsAlone(c, w, e);
    if TxOf(w, e).Some? {
      EventInFlight(w, e);
      Unbroken.IndexedStep(c, w.db, TxOf(w, e).value);
    }
  }

  lemma RunKnownStays(c: Config, w: World, e: Event)
    requires Enabled(c, w, e) && !e.Rollback? && RunKnown(w)
    ensures RunKnown(Happens(c, w, e))
  {
    hide Happens, Enabled, Apply;
    EventCommits(c, w, e);
    EventTells(c, w, e);
    if TxOf(w, e).Some? && w.rolledBack.Some? {
      Enumeration.StepOfRecovery(c, w.db, TxOf(w, e).value, w.rolledBack.value, ProgressKey(0, ClassIntake),
                                 FindingKey(0, Key(ClassIntake, 0)));
    }
  }

  ghost predicate AccountedAt(w: World, i: nat) { i < |w.told| ==> Accounted(w, w.told[i]) }

  lemma ToldAccounted(c: Config, w: World, e: Event, i: nat)
    requires Sound(w) && Enumeration.Complete(w) && Single(w) && Enabled(c, w, e) && !e.Rollback?
        && Considerate(c, w, e)
    ensures AccountedAt(Happens(c, w, e), i)
  {
    hide Happens, Enabled, Considerate, Sound, Enumeration.Complete, Unbroken.Whole, Unbroken.Indexed, Spent, Awaited,
      ToldIssued, Followed;
    EventTells(c, w, e);
    if i < |w.told| {
      assert Accounted(w, w.told[i]);
      AccountedStep(c, w, e, w.told[i]);
    } else if i < |Happens(c, w, e).told| {
      NewlyTold(c, w, e);
    }
  }

  lemma ToldOnceStep(c: Config, w: World, e: Event)
    requires Sound(w) && Single(w) && Enabled(c, w, e) && !e.Rollback?
    ensures ToldOnce(Happens(c, w, e))
  {
    hide Happens, Enabled, Sound, Unbroken.Whole, Unbroken.Indexed, Spent, ToldIssued, Followed, ClosedBy,
      Enumeration.Obligation;
    var next := Happens(c, w, e);
    EventTells(c, w, e);
    forall i, j | 0 <= i < j < |next.told| && Followed(next, next.told[i])
      ensures next.told[i].call != next.told[j].call
    {
      FollowedStays(c, w, e, next.told[i]);
      if j < |w.told| {
        assert next.told[i] == w.told[i] && next.told[j] == w.told[j];
      } else {
        assert Accounted(w, w.told[i]);
        ToldAfresh(c, w, e, w.told[i]);
      }
    }
  }

  /** In every history of a considerate deployment, with at most one rollback of the
      database, a call that was told it may be sent is spent, or awaited by the closed
      recovery; before a rollback nothing at all is lost. */
  lemma {:induction false} SingleAlways(c: Config, h: History)
    requires ConsiderateHistory(c, h)
    ensures Single(WorldAfter(c, h))
  {
    hide Happens, Single, Considerate;
    match h
    case Genesis => DawnIsSingle();
    case Next(past, e) =>
      SingleAlways(c, past);
      PublishedBeforePermission(c, past);
      Enumeration.EnumerationIsComplete(c, past);
      SingleStep(c, WorldAfter(c, past), e);
  }

  lemma DawnIsSingle()
    ensures Single(Dawn)
  {
  }

  /** So of the answers that allowed a call of a tenant the recovery covers, or of any
      tenant before a rollback, no two are for the same call. */
  lemma ToldAtMostOnce(c: Config, h: History)
    requires ConsiderateHistory(c, h)
    ensures ToldOnce(WorldAfter(c, h))
  {
    hide WorldAfter, ConsiderateHistory, Accounted, Unbroken.Indexed, Unbroken.Whole, ToldOnce;
    SingleAlways(c, h);
  }

  // ---------- a rollback can happen ----------

  /** A run over every scope begun on an empty database. */
  const FirstRun := BeginRecovery(1, ScopeAll, 1, 1, 1, 0, 10, 0)

  const RolledBack := Next(Next(Genesis, MarkRestorePoint), Rollback(FirstRun))

  const Marked := Dawn.(restorePoint := Some(Empty))

  lemma MarkedFirst(c: Config)
    ensures Happens(c, Dawn, MarkRestorePoint) == Marked && Considerate(c, Dawn, MarkRestorePoint)
  {
    hide Apply, Starts, WindowCovers;
  }

  predicate BegunOn(db: DB) { 1 in db.recovery.runs && ClosedBy(db, 1, 7) }

  lemma FirstRunBegins(c: Config)
    ensures BegunOn(Apply(c, Empty, Recovering(FirstRun)))
  {
    hide AdmissionStep, EffectStep, GrantStep, ExecutionStep, ControlStep, FinanceStep, Recovery.CommitPage;
  }

  lemma MayRollBack(c: Config)
    ensures Enabled(c, Marked, Rollback(FirstRun)) && Considerate(c, Marked, Rollback(FirstRun))
  {
    hide Apply, BegunOn;
    FirstRunBegins(c);
    RunsBegun(Apply(c, Empty, Recovering(FirstRun)));
  }

  lemma RunsBegun(db: DB)
    requires BegunOn(db)
    ensures 1 in db.recovery.runs
  {
  }

  /** The histories the result is about include a rollback, after which the run holds the
      closure of every scope. */
  lemma RollbackHappens(c: Config)
    ensures ConsiderateHistory(c, RolledBack)
    ensures WorldAfter(c, RolledBack).rolledBack == Some(1) && BegunOn(WorldAfter(c, RolledBack).db)
  {
    hide Happens, Enabled, Considerate, BegunOn, Apply;
    MarkedFirst(c);
    MayRollBack(c);
    FirstRunBegins(c);
    Enumeration.RollbackCommits(c, Marked, Rollback(FirstRun));
    assert WorldAfter(c, Genesis) == Dawn;
    assert WorldAfter(c, Next(Genesis, MarkRestorePoint)) == Marked;
    assert ConsiderateHistory(c, Genesis);
    assert ConsiderateHistory(c, Next(Genesis, MarkRestorePoint));
  }
}
