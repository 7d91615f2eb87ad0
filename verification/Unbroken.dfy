/** Before any rollback nothing is lost: every published or issued obligation has its
    row, no finding is missing, terminal operations are quiet. */
module Unbroken {
  import opened Values
  import opened Records
  import opened Database
  import opened Transactions
  import opened Worlds
  import opened Published
  import Admission
  import DispatchSteps
  import Effects
  import EffectSteps
  import Enumeration
  import Execution
  import Fences
  import Recovery
  import Releases
  import Replacements
  import Termination
  import WorkSteps

  // ---------- the call index ----------

  /** Every dispatch is found under its call, and only there. */
  ghost predicate Indexed(db: DB) {
    && (forall d | d in db.ledger.dispatches :: IndexedRow(db, d))
    && (forall k | k in db.ledger.calls ::
        db.ledger.calls[k] in db.ledger.dispatches && db.ledger.dispatches[db.ledger.calls[k]].Call() == k)
  }

  predicate IndexedRow(db: DB, d: Id)
    requires d in db.ledger.dispatches
  {
    db.ledger.dispatches[d].Call() in db.ledger.calls && db.ledger.calls[db.ledger.dispatches[d].Call()] == d
  }

  lemma PrepareIndexes(c: Config, db: DB, t: AdmissionTx, d: Id)
    requires t.AdmitPrepare? && AdmissionStep(c, db, t).Ok?
    ensures var next := AdmissionStep(c, db, t).value;
            d !in db.ledger.dispatches && d in next.ledger.dispatches ==> IndexedRow(next, d)
  {
    hide Admission.CheckAdmission, Admission.LoadContext, MoveBudget;
  }

  lemma RestoreIndexes(c: Config, db: DB, f: FindingKey, body: Body, d: Id)
    requires Recovery.Restore(c, db, f, body).Ok?
    ensures var next := Recovery.Restore(c, db, f, body).value;
            d !in db.ledger.dispatches && d in next.ledger.dispatches ==> IndexedRow(next, d)
  {
    hide Recovery.RestoreOperation, Recovery.RestoreAttempt, Recovery.RestoreLaunch, Recovery.RestoreEffect,
      MoveBudget, Recovery.ExposeOperation;
  }

  predicate IndexedNew(db: DB, next: DB, d: Id) {
    d !in db.ledger.dispatches && d in next.ledger.dispatches ==> IndexedRow(next, d)
  }

  /** Only a first transaction and a restoration add a row. */
  lemma AppearsIndexed(c: Config, db: DB, tx: Tx, d: Id)
    requires InFlight(tx)
    ensures IndexedNew(db, Apply(c, db, tx), d)
  {
    hide AdmissionStep, EffectStep, Releases.Record, GrantStep, ExecutionStep, Execution.CloseAttempt, ControlStep,
      FinanceStep, RunStep, Recovery.Restore, Recovery.Dispose, DispatchSteps.RowMoves, DispatchSteps.Admissible;
    DispatchSteps.StepOfRow(c, db, tx, d);
    if Step(c, db, tx).Ok? {
      if tx.Admitting? && tx.admission.AdmitPrepare? { PrepareIndexes(c, db, tx.admission, d); }
      if tx.Restoring? { RestoreIndexes(c, db, tx.f, tx.body, d); }
    }
  }

  lemma IndexedStep(c: Config, db: DB, tx: Tx)
    requires Indexed(db) && InFlight(tx)
    ensures Indexed(Apply(c, db, tx))
  {
    hide Apply, DispatchSteps.Admissible;
    var next := Apply(c, db, tx);
    forall d | d in next.ledger.dispatches
      ensures IndexedRow(next, d)
    {
      DispatchSteps.StepOfRow(c, db, tx, d);
      AppearsIndexed(c, db, tx, d);
      if d in db.ledger.dispatches {
        assert IndexedRow(db, d);
        Replacements.StepOfLedger(c, db, tx, db.ledger.dispatches[d].Call(), d);
      }
    }
    forall k | k in next.ledger.calls
      ensures next.ledger.calls[k] in next.ledger.dispatches && next.ledger.dispatches[next.ledger.calls[k]].Call() == k
    {
      Replacements.StepOfLedger(c, db, tx, k, 0);
      if k in db.ledger.calls { DispatchSteps.StepOfRow(c, db, tx, db.ledger.calls[k]); }
    }
  }

  // ---------- no finding is missing ----------

  predicate NotMissing(db: DB, f: FindingKey) { !Lost(db, f) }

  ghost predicate NoneMissing(db: DB) { forall f :: NotMissing(db, f) }

  lemma {:induction false} RecordedIsNotMissing(db: DB, r: Id, category: Class, candidates: seq<Recovery.Candidate>,
                                                f: FindingKey)
    requires Recovery.RecordEach(db, r, category, candidates).Ok? && NotMissing(db, f)
    requires forall x | x in candidates :: Recovery.Settlement(db, Key(category, x.id), x.body) != Ok(FindingMissing)
    ensures NotMissing(Recovery.RecordEach(db, r, category, candidates).value, f)
    decreases |candidates|
  {
    hide Recovery.Settlement;
    if candidates != [] {
      var x := candidates[0];
      var k := FindingKey(r, Key(category, x.id));
      if k in db.recovery.findings {
        RecordedIsNotMissing(db, r, category, candidates[1..], f);
      } else {
        var finding := Recovery.FindingOf(db, k.key, x.body).value;
        var mid := db.(recovery := db.recovery.(findings := db.recovery.findings[k := finding]));
        forall y | y in candidates[1..]
          ensures Recovery.Settlement(mid, Key(category, y.id), y.body) != Ok(FindingMissing)
        {
          SameSettlement(db, mid, Key(category, y.id), y.body);
        }
        RecordedIsNotMissing(mid, r, category, candidates[1..], f);
      }
    }
  }

  lemma SameSettlement(db: DB, mid: DB, k: Key, body: Body)
    requires mid.work == db.work && mid.ledger == db.ledger && mid.guarded == db.guarded
    ensures Recovery.Settlement(mid, k, body) == Recovery.Settlement(db, k, body)
  {
  }

  /** The candidates of a page a transaction commits are known to the database. */
  ghost predicate CommitsKnown(db: DB, tx: Tx) {
    tx.Recovering? && tx.run.CommitPage? ==>
      forall x | x in tx.run.page.candidates ::
          Recovery.Settlement(db, Key(tx.run.category, x.id), x.body) != Ok(FindingMissing)
  }

  lemma RunningMissing(db: DB, t: RunTx, f: FindingKey)
    requires RunStep(db, t).Ok? && NotMissing(db, f) && CommitsKnown(db, Recovering(t))
    ensures NotMissing(RunStep(db, t).value, f)
  {
    hide Recovery.AllComplete, Recovery.HasUnsettled, Recovery.Reopened, Recovery.RecoveryInProgress,
      Recovery.RecordEach, Recovery.Settlement;
    if t.CommitPage? && Recovery.RecordEach(db, t.r, t.category, t.page.candidates).Ok? {
      RecordedIsNotMissing(db, t.r, t.category, t.page.candidates, f);
    }
  }

  lemma NotMissingStep(c: Config, db: DB, tx: Tx, f: FindingKey)
    requires NotMissing(db, f) && CommitsKnown(db, tx)
    ensures NotMissing(Apply(c, db, tx), f)
  {
    hide AdmissionStep, EffectStep, Releases.Record, GrantStep, ExecutionStep, Execution.CloseAttempt, ControlStep,
      FinanceStep, RunStep, Recovery.RestoreBody, Recovery.ApplyDecision, CommitsKnown;
    if tx.Recovering? && RunStep(db, tx.run).Ok? { RunningMissing(db, tx.run, f); }
  }

  // ---------- every obligation has its row ----------

  predicate LaunchKept(db: DB, next: DB, l: Id) { l in db.work.launches ==> l in next.work.launches }

  lemma ExecutingLaunch(c: Config, db: DB, t: ExecutionTx, l: Id)
    requires ExecutionStep(c, db, t).Ok?
    ensures LaunchKept(db, ExecutionStep(c, db, t).value, l)
  {
    hide Execution.BootstrapGate, SendersActing, AdmissionClosed;
  }

  lemma RestoringLaunch(c: Config, db: DB, f: FindingKey, body: Body, l: Id)
    requires Recovery.Restore(c, db, f, body).Ok?
    ensures LaunchKept(db, Recovery.Restore(c, db, f, body).value, l)
  {
    hide Recovery.RestoreOperation, Recovery.RestoreAttempt, Admission.InsertDispatch, MoveBudget,
      Recovery.ExposeOperation, Effects.InsertEffect;
  }

  lemma StepOfLaunch(c: Config, db: DB, tx: Tx, l: Id)
    ensures LaunchKept(db, Apply(c, db, tx), l)
  {
    hide AdmissionStep, EffectStep, Releases.Record, GrantStep, ExecutionStep, FinanceStep, Execution.CloseAttempt,
      ControlStep, Recovery.RecordEach, Recovery.AllComplete, Recovery.RecoveryInProgress, Recovery.Restore,
      Recovery.Dispose;
    if tx.Executing? && ExecutionStep(c, db, tx.execution).Ok? { ExecutingLaunch(c, db, tx.execution, l); }
    if tx.Restoring? && Recovery.Restore(c, db, tx.f, tx.body).Ok? { RestoringLaunch(c, db, tx.f, tx.body, l); }
  }

  /** The database has the row an obligation was published from. */
  predicate Known(db: DB, id: Id, body: Body) {
    match body
    case IntakeBody(b) => id in db.work.operations && db.work.operations[id].bind.tenant == b.tenant
    case LaunchBody(_) => id in db.work.launches
    case DispatchBody(_) => id in db.ledger.dispatches
    case EffectBody(_) => id in db.guarded.effects
  }

  lemma KnownStep(c: Config, db: DB, tx: Tx, id: Id, body: Body)
    requires InFlight(tx) && Known(db, id, body)
    ensures Known(Apply(c, db, tx), id, body)
  {
    hide Apply, SendersActing, HasOpenAttempt;
    WorkSteps.StepOfWork(c, db, tx, id, 0);
    StepOfLaunch(c, db, tx, id);
    DispatchSteps.StepOfRow(c, db, tx, id);
    EffectSteps.StepOfRow(c, db, tx, id);
  }

  /** What the database knows is not missing to an enumeration. */
  lemma KnownIsNotMissing(db: DB, k: Key, body: Body)
    requires Known(db, k.id, body) && Recovery.Decodes(k, body)
    ensures Recovery.Settlement(db, k, body) != Ok(FindingMissing)
  {
  }

  // ---------- a world before any rollback ----------

  /** What holds of every state of a database that was never rolled back. */
  ghost predicate Steadfast(db: DB) {
    Termination.Quiet(db) && Fences.EpochsReached(db) && Indexed(db) && NoneMissing(db)
  }

  ghost predicate Whole(w: World) {
    && Steadfast(w.db)
    && (forall k | k in w.inventory :: Known(w.db, k.id, w.inventory[k].body))
    && (forall i | i in w.issued :: Known(w.db, i, w.issued[i]))
    && (w.restorePoint.Some? ==>
          && Steadfast(w.restorePoint.value)
          && forall k | k in w.restorePoint.value.ledger.calls ::
               k in w.db.ledger.calls && w.db.ledger.calls[k] == w.restorePoint.value.ledger.calls[k])
  }

  lemma SteadfastStep(c: Config, db: DB, tx: Tx)
    requires Steadfast(db) && InFlight(tx) && CommitsKnown(db, tx)
    ensures Steadfast(Apply(c, db, tx))
  {
    hide Apply, Termination.Quiet, Fences.EpochsReached, Indexed, NotMissing;
    assert tx.Restoring? ==> NotMissing(db, tx.f);
    MissingIsLost(db);
    Termination.QuietStep(c, db, tx);
    Fences.EpochsStep(c, db, tx);
    IndexedStep(c, db, tx);
    forall f
      ensures NotMissing(Apply(c, db, tx), f)
    {
      NotMissingStep(c, db, tx, f);
    }
  }

  lemma MissingIsLost(db: DB)
    ensures forall f :: NotMissing(db, f) ==> !Lost(db, f)
  {
  }

  ghost predicate AnyKnown(db: DB, tx: Option<Tx>) { tx.Some? ==> CommitsKnown(db, tx.value) }

  /** The page an event commits lists only what the database knows. */
  lemma EventCommitsKnown(c: Config, w: World, e: Event)
    requires Sound(w) && Enumeration.Complete(w) && Whole(w) && Enabled(c, w, e)
    ensures AnyKnown(w.db, TxOf(w, e))
  {
    hide Starts, Recovery.Follows, Recovery.Settlement, Steadfast, Enumeration.Enumerated, Enumeration.BegunHeld,
      Enumeration.PageCovers;
    if e.CommitListed? {
      var f := w.flights[e.ticket];
      assert Enumeration.PageSound(w, f);
      forall x | x in f.page.value.candidates
        ensures Recovery.Settlement(w.db, Key(f.category, x.id), x.body) != Ok(FindingMissing)
      {
        var k := Key(f.category, x.id);
        assert Enumeration.CandidateHeld(w, f.category, x);
        assert ObjectIssued(w, k) && Known(w.db, k.id, w.inventory[k].body);
        KnownIsNotMissing(w.db, k, x.body);
      }
    }
  }

  lemma KnownGrows(c: Config, w: World, e: Event, id: Id, body: Body)
    requires Sound(w) && Enabled(c, w, e) && !e.Rollback? && Known(w.db, id, body)
    ensures Known(Happens(c, w, e).db, id, body)
  {
    hide Happens, Enabled, Apply;
    EventCommits(c, w, e);
    EnabledStandsAlone(c, w, e);
    if TxOf(w, e).Some? {
      EventInFlight(w, e);
      KnownStep(c, w.db, TxOf(w, e).value, id, body);
    }
  }

  /** What is issued anew is known. */
  predicate NewKnown(w: World, next: World) {
    forall i | i in next.issued && i !in w.issued :: Known(next.db, i, next.issued[i])
  }

  lemma NewIsKnown(c: Config, w: World, e: Event)
    ensures NewKnown(w, Happens(c, w, e))
  {
    hide Apply, Admission.AdmitPrepare, Admission.AdmitConsume, Effects.PermitPrepare, Effects.PermitConsume,
      Recovery.PageOf, Recovery.Follows, Starts;
  }

  predicate KnownAt(w: World, k: Key) { k in w.inventory ==> Known(w.db, k.id, w.inventory[k].body) }

  lemma ObjectKnown(c: Config, w: World, e: Event, k: Key)
    requires Sound(w) && Whole(w) && Enabled(c, w, e) && !e.Rollback?
    ensures KnownAt(Happens(c, w, e), k)
  {
    hide Happens, Enabled, Steadfast;
    var next := Happens(c, w, e);
    EventObjects(c, w, e, k);
    if k in next.inventory {
      if t :|
        && t in w.flights && !w.flights[t].PageFlight? && KeyOf(w.flights[t]) == k
        && next.inventory[k].body == BodyOf(w.flights[t])
      {
        assert FlightIssued(w, w.flights[t]);
        assert Known(w.db, k.id, w.issued[k.id]);
      }
      KnownGrows(c, w, e, k.id, next.inventory[k].body);
    }
  }

  lemma WholeStep(c: Config, w: World, e: Event)
    requires Sound(w) && Enumeration.Complete(w) && Whole(w) && Enabled(c, w, e) && !e.Rollback?
    ensures Whole(Happens(c, w, e))
  {
    hide Happens, Enabled, Apply, Steadfast, Known, Sound, Enumeration.Complete;
    var next := Happens(c, w, e);
    EventCommits(c, w, e);
    EnabledStandsAlone(c, w, e);
    EventRest(c, w, e);
    SoundGrows(c, w, e);
    if TxOf(w, e).Some? {
      EventInFlight(w, e);
      EventCommitsKnown(c, w, e);
      SteadfastStep(c, w.db, TxOf(w, e).value);
    }
    forall k | k in next.inventory
      ensures Known(next.db, k.id, next.inventory[k].body)
    {
      ObjectKnown(c, w, e, k);
    }
    forall i | i in next.issued
      ensures Known(next.db, i, next.issued[i])
    {
      NewIsKnown(c, w, e);
      if i in w.issued { KnownGrows(c, w, e, i, w.issued[i]); }
    }
    if next.restorePoint.Some? {
      var past := next.restorePoint.value;
      forall k | k in past.ledger.calls
        ensures k in next.db.ledger.calls && next.db.ledger.calls[k] == past.ledger.calls[k]
      {
        if TxOf(w, e).Some? { Replacements.StepOfLedger(c, w.db, TxOf(w, e).value, k, 0); }
      }
    }
  }

  lemma SoundGrows(c: Config, w: World, e: Event)
    requires Sound(w)
    ensures Grows(w, Happens(c, w, e))
  {
    hide Happens;
    WorldGrows(c, w, e);
  }

  /** No rollback happened. */
  predicate Forward(h: History) { h.Next? ==> Forward(h.past) && !h.event.Rollback? }

  /** In every history without a rollback every published or issued obligation has its
      row, no finding is missing, every dispatch is found under its call and terminal
      operations are quiet. */
  lemma {:induction false} WholeAlways(c: Config, h: History)
    requires Forward(h)
    ensures Whole(WorldAfter(c, h))
  {
    hide Happens, Enabled, Apply, Whole, Sound, Enumeration.Complete;
    match h
    case Genesis => DawnIsWhole();
    case Next(past, e) =>
      WholeAlways(c, past);
      PublishedBeforePermission(c, past);
      Enumeration.EnumerationIsComplete(c, past);
      var w := WorldAfter(c, past);
      if Enabled(c, w, e) { WholeStep(c, w, e); } else { NothingHappens(c, w, e); }
  }

  lemma DawnIsWhole()
    ensures Whole(Dawn)
  {
  }
}
