/** When a run reopens admission every obligation the inventory held at its beginning,
    inside the widened window and the scope, has its finding and it is settled, however
    replicas interleave, lose pages or repeat listings
    (internal/application/recovery_enumeration.go:31-160, internal/application/recovery.go:300-342,
    internal/adapters/inventory/filesystem.go:265-331). */
module Enumeration {
  import opened Values
  import opened Records
  import opened Database
  import opened Transactions
  import opened Worlds
  import opened Published
  import Admission
  import Effects
  import Execution
  import Recovery
  import Releases

  // ---------- the recovery tables across one transaction ----------

  /** What a run fixes when it begins. */
  predicate SameRun(a: RecoveryRun, b: RecoveryRun) {
    b.scope == a.scope && b.windowStart == a.windowStart && b.windowEnd == a.windowEnd && b.skew == a.skew
        && b.epoch == a.epoch
  }

  predicate BeginsRun(tx: Tx, r: Id) { tx.Recovering? && tx.run.BeginRecovery? && tx.run.r == r }

  predicate CommitsPage(tx: Tx, p: ProgressKey) {
    tx.Recovering? && tx.run.CommitPage? && ProgressKey(tx.run.r, tx.run.category) == p
  }

  predicate RunsStep(db: DB, next: DB, tx: Tx, r: Id) {
    && (r in db.recovery.runs ==> r in next.recovery.runs && SameRun(db.recovery.runs[r], next.recovery.runs[r]))
    && (r !in db.recovery.runs && r in next.recovery.runs ==> BeginsRun(tx, r))
  }

  predicate ProgressStep(db: DB, next: DB, tx: Tx, p: ProgressKey) {
    p in next.recovery.progress ==>
      || (p in db.recovery.progress && next.recovery.progress[p] == db.recovery.progress[p])
      || (BeginsRun(tx, p.run) && p.run !in db.recovery.runs && p.run in next.recovery.runs
          && next.recovery.progress[p] == Progress(None, false))
      || (CommitsPage(tx, p) && p in db.recovery.progress)
  }

  predicate FindingStep(db: DB, next: DB, tx: Tx, f: FindingKey) {
    && (f in db.recovery.findings ==>
        f in next.recovery.findings && next.recovery.findings[f].tenant == db.recovery.findings[f].tenant)
    && (f !in db.recovery.findings && f in next.recovery.findings ==> f.run in db.recovery.runs)
  }

  predicate FoundIn(candidates: seq<Recovery.Candidate>, id: Id, tenant: Name) {
    exists i | 0 <= i < |candidates| :: candidates[i].id == id && candidates[i].body.Tenant() == tenant
  }

  lemma {:induction false} RecordEachKeeps(db: DB, r: Id, category: Class, candidates: seq<Recovery.Candidate>,
                                           f: FindingKey)
    requires Recovery.RecordEach(db, r, category, candidates).Ok?
    ensures var next := Recovery.RecordEach(db, r, category, candidates).value;
            && (f in db.recovery.findings ==>
                f in next.recovery.findings && next.recovery.findings[f] == db.recovery.findings[f])
            && (f !in db.recovery.findings && f in next.recovery.findings ==>
                  f.run == r && f.key.category == category
                      && FoundIn(candidates, f.key.id, next.recovery.findings[f].tenant))
            && (forall i | 0 <= i < |candidates| ::
                FindingKey(r, Key(category, candidates[i].id)) in next.recovery.findings)
    decreases |candidates|
  {
    if candidates != [] {
      var k := FindingKey(r, Key(category, candidates[0].id));
      var mid := if k in db.recovery.findings then db
                 else db.(recovery := db.recovery.(findings := db.recovery.findings[k := Recovery.FindingOf(db, k.key,
                     candidates[0].body).value]));
      RecordEachKeeps(mid, r, category, candidates[1..], f);
      RecordEachKeeps(mid, r, category, candidates[1..], k);
    }
  }

  lemma RunningStep(db: DB, t: RunTx, r: Id, p: ProgressKey, f: FindingKey)
    requires RunStep(db, t).Ok?
    ensures RunsStep(db, RunStep(db, t).value, Recovering(t), r)
    ensures ProgressStep(db, RunStep(db, t).value, Recovering(t), p)
    ensures FindingStep(db, RunStep(db, t).value, Recovering(t), f)
  {
    hide Recovery.AllComplete, Recovery.HasUnsettled, Recovery.Reopened, Recovery.RecoveryInProgress,
      Recovery.RecordEach;
    if t.CommitPage? && Recovery.RecordEach(db, t.r, t.category, t.page.candidates).Ok? {
      RecordEachKeeps(db, t.r, t.category, t.page.candidates, f);
    }
  }

  lemma StepOfRecovery(c: Config, db: DB, tx: Tx, r: Id, p: ProgressKey, f: FindingKey)
    ensures RunsStep(db, Apply(c, db, tx), tx, r)
    ensures ProgressStep(db, Apply(c, db, tx), tx, p)
    ensures FindingStep(db, Apply(c, db, tx), tx, f)
  {
    hide AdmissionStep, EffectStep, Releases.Record, GrantStep, ExecutionStep, Execution.CloseAttempt, ControlStep,
      FinanceStep, RunStep, Recovery.RestoreBody, Recovery.ApplyDecision;
    if tx.Recovering? && RunStep(db, tx.run).Ok? { RunningStep(db, tx.run, r, p, f); }
  }

  /** A page that was committed left a finding for each of its candidates. */
  lemma PageRecorded(db: DB, r: Id, category: Class, seen: Option<Id>, page: Recovery.Page)
    requires Recovery.CommitPage(db, r, category, seen, page).Ok?
    ensures var next := Recovery.CommitPage(db, r, category, seen, page).value;
            || next == db
            || (&& ProgressKey(r, category) in db.recovery.progress
                && db.recovery.progress[ProgressKey(r, category)].cursor == seen
                && !db.recovery.progress[ProgressKey(r, category)].complete
                && ProgressKey(r, category) in next.recovery.progress
                && next.recovery.progress[ProgressKey(r, category)] == Progress(page.next, page.complete)
                && forall i | 0 <= i < |page.candidates| ::
                    FindingKey(r, Key(category, page.candidates[i].id)) in next.recovery.findings)
  {
    hide Recovery.AllComplete, Recovery.RecordEach;
    if Recovery.RecordEach(db, r, category, page.candidates).Ok? {
      RecordEachKeeps(db, r, category, page.candidates, FindingKey(r, Key(category, 0)));
    }
  }

  // ---------- listing ----------

  predicate After(cursor: Option<Id>, id: Id) { cursor.None? || cursor.value < id }

  /** The page reaches the identity. */
  predicate Reaches(page: Recovery.Page, id: Id) { page.complete || (page.next.Some? && id <= page.next.value) }

  /** The identity is among the candidates. */
  predicate Has(candidates: seq<Recovery.Candidate>, id: Id) {
    exists i | 0 <= i < |candidates| :: candidates[i].id == id
  }

  predicate HasCandidate(page: Recovery.Page, id: Id) { Has(page.candidates, id) }

  predicate Listable(inventory: map<Key, Object>, run: RecoveryRun, k: Key) {
    k in inventory && Recovery.Eligible(run, inventory[k])
  }

  /** Every eligible identity listed is a candidate. */
  lemma {:induction false} ListedIsCandidate(inventory: map<Key, Object>, run: RecoveryRun, category: Class,
                                             listed: seq<Id>, i: nat)
    requires i < |listed| && Listable(inventory, run, Key(category, listed[i]))
    ensures Has(Recovery.Candidates(inventory, run, category, listed), listed[i])
    decreases i
  {
    hide Recovery.Eligible;
    var all := Recovery.Candidates(inventory, run, category, listed);
    var rest := Recovery.Candidates(inventory, run, category, listed[1..]);
    if i == 0 {
      assert all[0].id == listed[0];
    } else {
      ListedIsCandidate(inventory, run, category, listed[1..], i - 1);
      HasBehind(all, rest, listed[i]);
    }
  }

  /** What a tail has, the whole has. */
  lemma HasBehind(all: seq<Recovery.Candidate>, rest: seq<Recovery.Candidate>, id: Id)
    requires |rest| <= |all| && all[|all| - |rest|..] == rest && Has(rest, id)
    ensures Has(all, id)
  {
    var j :| 0 <= j < |rest| && rest[j].id == id;
    assert all[|all| - |rest|..][j] == all[|all| - |rest| + j];
  }

  /** A candidate carries the body the inventory holds. */
  lemma {:induction false} CandidateIsHeld(inventory: map<Key, Object>, run: RecoveryRun, category: Class,
                                           listed: seq<Id>, x: Recovery.Candidate)
    requires x in Recovery.Candidates(inventory, run, category, listed)
    ensures Key(category, x.id) in inventory && inventory[Key(category, x.id)].body == x.body
  {
    hide Recovery.Eligible;
    if x in Recovery.Candidates(inventory, run, category, listed[1..]) {
      CandidateIsHeld(inventory, run, category, listed[1..], x);
    }
  }

  /** A page misses nothing eligible between its cursor and where it reaches. */
  lemma PageIsComplete(inventory: map<Key, Object>, run: RecoveryRun, category: Class, cursor: Option<Id>,
                       following: seq<Id>, limit: nat, id: Id)
    requires Recovery.Follows(inventory, category, cursor, following)
    requires Key(category, id) in inventory && Recovery.Eligible(run, inventory[Key(category, id)]) && After(cursor, id)
    requires Reaches(Recovery.PageOf(inventory, run, category, following, limit), id)
    ensures HasCandidate(Recovery.PageOf(inventory, run, category, following, limit), id)
  {
    var listed := Recovery.Listed(following, limit);
    var k := Key(category, id);
    assert k.id in following;
    var i :| 0 <= i < |following| && following[i] == id;
    assert i < |listed| && listed[i] == id;
    ListedIsCandidate(inventory, run, category, listed, i);
  }

  // ---------- the cursor of a run ----------

  predicate Passed(p: Progress, id: Id) { p.complete || (p.cursor.Some? && id <= p.cursor.value) }

  /** An object the inventory held when the run began. */
  predicate HeldAtBegin(w: World, r: Id, k: Key) { r in w.begun && k in w.begun[r] && k in w.inventory }

  /** What a class's position passed has its finding. */
  predicate KeyEnumerated(w: World, db: DB, r: Id, k: Key) {
    && r in db.recovery.runs && HeldAtBegin(w, r, k) && Recovery.Eligible(db.recovery.runs[r], w.inventory[k])
    && ProgressKey(r, k.category) in db.recovery.progress && Passed(db.recovery.progress[ProgressKey(r, k.category)],
        k.id)
    ==> FindingKey(r, k) in db.recovery.findings
  }

  ghost predicate Enumerated(w: World, db: DB) {
    && (forall r, k :: KeyEnumerated(w, db, r, k))
    && (forall r | r in db.recovery.runs :: r in w.begun)
    && (forall p | p in db.recovery.progress :: p.run in db.recovery.runs)
    && (forall f | f in db.recovery.findings :: f.run in db.recovery.runs)
  }

  /** A listed page misses nothing that was there when the run began. */
  predicate PageCovers(w: World, r: Id, run: RecoveryRun, category: Class, seen: Option<Id>, page: Recovery.Page,
                       k: Key) {
    && HeldAtBegin(w, r, k) && k.category == category && Recovery.Eligible(run, w.inventory[k]) && After(seen, k.id)
        && Reaches(page, k.id)
    ==> HasCandidate(page, k.id)
  }

  /** The candidates of a page are published as they were listed. */
  predicate CandidateHeld(w: World, category: Class, x: Recovery.Candidate) {
    Key(category, x.id) in w.inventory && w.inventory[Key(category, x.id)].body == x.body
  }

  predicate RunMatches(db: DB, r: Id, run: RecoveryRun) { r in db.recovery.runs ==> SameRun(run, db.recovery.runs[r]) }

  ghost predicate PageSound(w: World, f: Flight) {
    f.PageFlight? ==>
      && f.r in w.begun
      && RunMatches(w.db, f.r, f.run) && (w.restorePoint.Some? ==> RunMatches(w.restorePoint.value, f.r, f.run))
      && (f.page.Some? ==>
            && (forall k | HeldAtBegin(w, f.r, k) :: PageCovers(w, f.r, f.run, f.category, f.seen, f.page.value, k))
            && (forall x | x in f.page.value.candidates :: CandidateHeld(w, f.category, x)))
  }

  /** The runs of an earlier state are the runs there are. */
  ghost predicate RunsAgree(past: DB, db: DB) {
    forall r | r in past.recovery.runs :: r in db.recovery.runs && SameRun(db.recovery.runs[r], past.recovery.runs[r])
  }

  /** Each run that began is known by what the inventory held then. */
  ghost predicate BegunHeld(w: World) {
    && (forall r | r in w.begun :: r in w.used && forall k | k in w.begun[r] :: k in w.inventory)
    && (forall i | i in w.issued :: i in w.used)
  }

  ghost predicate Complete(w: World) {
    && Enumerated(w, w.db) && (w.restorePoint.Some? ==> Enumerated(w, w.restorePoint.value))
    && (forall t | t in w.flights :: PageSound(w, w.flights[t]))
    && (w.restorePoint.Some? ==> RunsAgree(w.restorePoint.value, w.db))
    && BegunHeld(w)
  }

  // ---------- one transaction ----------

  /** The page of a commit, if it is one, was listed soundly for its run. */
  ghost predicate CommitsSoundly(w: World, db: DB, tx: Tx) {
    tx.Recovering? && tx.run.CommitPage? && tx.run.r in db.recovery.runs ==>
      forall k | HeldAtBegin(w, tx.run.r, k) ::
        PageCovers(w, tx.run.r, db.recovery.runs[tx.run.r], tx.run.category, tx.run.seen, tx.run.page, k)
  }

  lemma SameEligible(a: RecoveryRun, b: RecoveryRun, x: Object)
    ensures SameRun(a, b) ==> Recovery.Eligible(a, x) == Recovery.Eligible(b, x)
  {
  }

  lemma CommitKey(db: DB, t: RunTx)
    requires t.CommitPage? && RunStep(db, t).Ok?
    ensures RunStep(db, t).value == Recovery.CommitPage(db, t.r, t.category, t.seen, t.page).value
        && t.r in db.recovery.runs
  {
    hide Recovery.AllComplete, Recovery.RecordEach;
  }

  lemma RunCommits(c: Config, db: DB, t: RunTx)
    ensures Apply(c, db, Recovering(t)) == match RunStep(db, t) case Ok(next) => next case Err(_) => db
  {
    hide AdmissionStep, EffectStep, Releases.Record, GrantStep, ExecutionStep, Execution.CloseAttempt, ControlStep,
      FinanceStep, RunStep, Recovery.Restore, Recovery.Dispose;
  }

  lemma KeyEnumeratedStep(c: Config, w: World, next: World, db: DB, tx: Tx, r: Id, k: Key)
    requires Enumerated(w, db) && BegunHeld(w) && Grows(w, next) && CommitsSoundly(w, db, tx)
    ensures KeyEnumerated(next, Apply(c, db, tx), r, k)
  {
    hide Apply, Recovery.Eligible, BeginsRun;
    var p := ProgressKey(r, k.category);
    var f := FindingKey(r, k);
    var after := Apply(c, db, tx);
    StepOfRecovery(c, db, tx, r, p, f);
    assert KeyEnumerated(w, db, r, k);
    if r in db.recovery.runs && HeldAtBegin(next, r, k) && p in after.recovery.progress {
      assert HeldAtBegin(w, r, k);
      SameEligible(db.recovery.runs[r], after.recovery.runs[r], w.inventory[k]);
      if CommitsPage(tx, p) {
        RunCommits(c, db, tx.run);
        if RunStep(db, tx.run).Ok? {
          CommitKey(db, tx.run);
          PageRecorded(db, tx.run.r, tx.run.category, tx.run.seen, tx.run.page);
          assert PageCovers(w, r, db.recovery.runs[r], k.category, tx.run.seen, tx.run.page, k);
        }
      }
    }
  }

  lemma EnumeratedStep(c: Config, w: World, next: World, db: DB, tx: Tx)
    requires Enumerated(w, db) && BegunHeld(w) && Grows(w, next) && CommitsSoundly(w, db, tx)
    requires forall r | BeginsRun(tx, r) && r !in db.recovery.runs && r in Apply(c, db, tx).recovery.runs ::
        r in next.begun
    ensures Enumerated(next, Apply(c, db, tx))
  {
    hide Apply, KeyEnumerated;
    var after := Apply(c, db, tx);
    forall r, k
      ensures KeyEnumerated(next, after, r, k)
    {
      KeyEnumeratedStep(c, w, next, db, tx, r, k);
    }
    forall r | r in after.recovery.runs
      ensures r in next.begun
    {
      StepOfRecovery(c, db, tx, r, ProgressKey(0, ClassIntake), FindingKey(0, Key(ClassIntake, 0)));
    }
    forall p | p in after.recovery.progress
      ensures p.run in after.recovery.runs
    {
      StepOfRecovery(c, db, tx, p.run, p, FindingKey(0, Key(ClassIntake, 0)));
    }
    forall f | f in after.recovery.findings
      ensures f.run in after.recovery.runs
    {
      StepOfRecovery(c, db, tx, f.run, ProgressKey(0, ClassIntake), f);
    }
  }

  // ---------- every event ----------

  /** The page flights after an event. */
  ghost predicate PageStep(w: World, next: World, t: Id) {
    t in next.flights && next.flights[t].PageFlight? ==>
      var f := next.flights[t];
      || (t in w.flights && w.flights[t] == f)
      || (f.page.None? && f.r in w.db.recovery.runs && f.run == w.db.recovery.runs[f.r] && next.db == w.db
          && next.restorePoint == w.restorePoint)
      || (t in w.flights && w.flights[t].PageFlight? && f.page.Some? && f == w.flights[t].(page := f.page)
          && exists following, limit ::
               Recovery.Follows(w.inventory, f.category, f.seen, following)
                   && f.page.value == Recovery.PageOf(w.inventory, f.run, f.category, following, limit))
  }

  /** A request adds no page. */
  lemma AskPages(c: Config, w: World, e: Event, t: Id)
    ensures e.Ask? ==> PageStep(w, AskStep(c, w, e), t)
    ensures e.AskPermit? ==> PageStep(w, AskPermitStep(c, w, e), t)
  {
    hide Admission.AdmitPrepare, Effects.PermitPrepare, Recovery.PageOf, Recovery.Follows;
  }

  lemma EventPages(c: Config, w: World, e: Event, t: Id)
    ensures PageStep(w, Happens(c, w, e), t)
  {
    hide Apply, Admission.AdmitConsume, Effects.PermitConsume, Recovery.PageOf, Recovery.Follows, Starts, Standalone,
      RestoreStep, Begins, AskStep, AskPermitStep;
    AskPages(c, w, e, t);
  }

  /** A listing of the inventory covers what was there when the run began. */
  lemma ListingCovers(w: World, next: World, r: Id, run: RecoveryRun, category: Class, seen: Option<Id>,
                      following: seq<Id>, limit: nat)
    requires BegunHeld(w) && Grows(w, next) && r in w.begun && Recovery.Follows(w.inventory, category, seen, following)
    ensures var page := Recovery.PageOf(w.inventory, run, category, following, limit);
            && (forall k | HeldAtBegin(next, r, k) :: PageCovers(next, r, run, category, seen, page, k))
            && (forall x | x in page.candidates :: CandidateHeld(next, category, x))
  {
    hide Recovery.PageOf, Recovery.Follows, Recovery.Eligible;
    var page := Recovery.PageOf(w.inventory, run, category, following, limit);
    forall k | HeldAtBegin(next, r, k)
      ensures PageCovers(next, r, run, category, seen, page, k)
    {
      assert HeldAtBegin(w, r, k);
      if k.category == category && Recovery.Eligible(run, w.inventory[k]) && After(seen, k.id) && Reaches(page, k.id) {
        PageIsComplete(w.inventory, run, category, seen, following, limit, k.id);
      }
    }
    ListedHeld(w, next, run, category, following, limit);
  }

  lemma ListedHeld(w: World, next: World, run: RecoveryRun, category: Class, following: seq<Id>, limit: nat)
    requires Grows(w, next)
    ensures forall x | x in Recovery.PageOf(w.inventory, run, category, following, limit).candidates ::
        CandidateHeld(next, category, x)
  {
    forall x | x in Recovery.PageOf(w.inventory, run, category, following, limit).candidates
      ensures CandidateHeld(next, category, x)
    {
      CandidateIsHeld(w.inventory, run, category, Recovery.Listed(following, limit), x);
    }
  }

  lemma PageStays(w: World, next: World, f: Flight)
    requires BegunHeld(w) && Grows(w, next) && f.PageFlight? && PageSound(w, f)
    ensures f.page.Some? ==>
              && (forall k | HeldAtBegin(next, f.r, k) ::
                  PageCovers(next, f.r, f.run, f.category, f.seen, f.page.value, k))
              && (forall x | x in f.page.value.candidates :: CandidateHeld(next, f.category, x))
    ensures f.r in next.begun
  {
    if f.page.Some? {
      forall k | HeldAtBegin(next, f.r, k)
        ensures PageCovers(next, f.r, f.run, f.category, f.seen, f.page.value, k)
      {
        assert HeldAtBegin(w, f.r, k);
        assert PageCovers(w, f.r, f.run, f.category, f.seen, f.page.value, k);
      }
      forall x | x in f.page.value.candidates
        ensures CandidateHeld(next, f.category, x)
      {
        assert CandidateHeld(w, f.category, x);
      }
    }
  }

  /** A run a flight belongs to keeps what it fixed. */
  lemma RunStillMatches(c: Config, db: DB, tx: Tx, r: Id, run: RecoveryRun)
    requires RunMatches(db, r, run) && (r !in db.recovery.runs ==> !BeginsRun(tx, r))
    ensures RunMatches(Apply(c, db, tx), r, run)
  {
    hide Apply;
    StepOfRecovery(c, db, tx, r, ProgressKey(0, ClassIntake), FindingKey(0, Key(ClassIntake, 0)));
  }

  /** Runs begin only with an identity never used. */
  predicate BeginsFresh(w: World, tx: Tx) { forall r | r in w.used :: !BeginsRun(tx, r) }

  /** Only its own event begins a run, and it is then known. */
  ghost predicate BeginsOwn(w: World, next: World, e: Event) {
    TxOf(w, e).Some? ==>
      && BeginsFresh(w, TxOf(w, e).value)
      && (e.Begin? ==> e.begin.BeginRecovery? && e.begin.r in next.begun)
      && (!e.Begin? ==> forall r :: !BeginsRun(TxOf(w, e).value, r))
  }

  lemma EventBegins(c: Config, w: World, e: Event)
    requires Enabled(c, w, e)
    ensures BeginsOwn(w, Happens(c, w, e), e)
  {
    hide Apply, Starts, Recovery.Follows, AskStep, AskPermitStep, ConsumeStep, PutStep, StartStep, Recovery.PageOf;
  }

  ghost predicate AnySoundly(w: World, tx: Option<Tx>) { tx.Some? ==> CommitsSoundly(w, w.db, tx.value) }

  /** The page an event commits is one of its flights, listed soundly. */
  lemma EventCommitsSoundly(c: Config, w: World, e: Event)
    requires Complete(w) && Enabled(c, w, e)
    ensures AnySoundly(w, TxOf(w, e))
  {
    hide Starts, Recovery.Follows, Recovery.Eligible, Enumerated, BegunHeld;
    if e.CommitListed? {
      var f := w.flights[e.ticket];
      assert PageSound(w, f);
      if f.r in w.db.recovery.runs {
        forall k | HeldAtBegin(w, f.r, k)
          ensures PageCovers(w, f.r, w.db.recovery.runs[f.r], f.category, f.seen, f.page.value, k)
        {
          assert PageCovers(w, f.r, f.run, f.category, f.seen, f.page.value, k);
          SameEligible(f.run, w.db.recovery.runs[f.r], w.inventory[k]);
        }
      }
    }
  }

  /** After an event the database is one transaction on from what it was, or from the
      restore point. */
  lemma DbEnumerated(c: Config, w: World, e: Event)
    requires Complete(w) && Enabled(c, w, e)
    ensures Enumerated(Happens(c, w, e), Happens(c, w, e).db)
  {
    hide Happens, Apply, Enabled, KeyEnumerated, PageSound;
    var next := Happens(c, w, e);
    WorldGrows(c, w, e);
    if e.Rollback? {
      RollbackCommits(c, w, e);
      EnumeratedStep(c, w, next, w.restorePoint.value, Recovering(e.begin));
    } else {
      EventCommits(c, w, e);
      if TxOf(w, e).Some? {
        EventCommitsSoundly(c, w, e);
        EventBegins(c, w, e);
        EnumeratedStep(c, w, next, w.db, TxOf(w, e).value);
      } else {
        EnumeratedGrows(w, next, w.db);
      }
    }
  }

  /** A rollback begins its run on the restore point and leaves the rest. */
  predicate RollsBack(c: Config, w: World, next: World, e: Event) {
    hide Apply;
    && e.Rollback? && w.restorePoint.Some? && e.begin.BeginRecovery? && e.begin.r !in w.used
    && next.db == Apply(c, w.restorePoint.value, Recovering(e.begin)) && e.begin.r in next.begun
    && next.restorePoint.None? && next.flights == w.flights && next.rolledBack == Some(e.begin.r)
    && next.told == w.told && next.inventory == w.inventory && next.issued == w.issued
  }

  lemma RollbackCommits(c: Config, w: World, e: Event)
    requires Enabled(c, w, e) && e.Rollback?
    ensures RollsBack(c, w, Happens(c, w, e), e)
  {
    hide Apply;
  }

  lemma EnumeratedGrows(w: World, next: World, db: DB)
    requires Enumerated(w, db) && BegunHeld(w) && Grows(w, next)
    ensures Enumerated(next, db)
  {
    hide Recovery.Eligible;
    forall r, k
      ensures KeyEnumerated(next, db, r, k)
    {
      assert KeyEnumerated(w, db, r, k);
      if r in db.recovery.runs && HeldAtBegin(next, r, k) { assert HeldAtBegin(w, r, k); }
    }
  }

  ghost predicate FlightSound(w: World, t: Id) { t in w.flights ==> PageSound(w, w.flights[t]) }

  lemma PagesSound(c: Config, w: World, e: Event, t: Id)
    requires Complete(w) && Enabled(c, w, e)
    ensures FlightSound(Happens(c, w, e), t)
  {
    hide Happens, Apply, Enabled, Enumerated, Recovery.Eligible, PageCovers;
    var next := Happens(c, w, e);
    WorldGrows(c, w, e);
    EventPages(c, w, e, t);
    EventRest(c, w, e);
    if t in next.flights && next.flights[t].PageFlight? {
      var f := next.flights[t];
      if t in w.flights && w.flights[t] == f {
        PageStays(w, next, f);
        MatchesStay(c, w, e, f);
      } else if t in w.flights && w.flights[t].PageFlight? && f.page.Some? && f == w.flights[t].(page := f.page) {
        assert PageSound(w, w.flights[t]);
        var following, limit :| Recovery.Follows(w.inventory, f.category, f.seen, following)
                                && f.page.value == Recovery.PageOf(w.inventory, f.run, f.category, following, limit);
        ListingCovers(w, next, f.r, f.run, f.category, f.seen, following, limit);
        MatchesStay(c, w, e, f);
      } else {
        StartedMatches(w, f.r);
      }
    }
  }

  lemma StartedMatches(w: World, r: Id)
    requires Complete(w) && r in w.db.recovery.runs
    ensures r in w.begun && (w.restorePoint.Some? ==> RunMatches(w.restorePoint.value, r, w.db.recovery.runs[r]))
  {
  }

  predicate FlightMatches(w: World, f: Flight) {
    f.PageFlight? ==>
      RunMatches(w.db, f.r, f.run) && (w.restorePoint.Some? ==> RunMatches(w.restorePoint.value, f.r, f.run))
  }

  predicate FlightBegun(w: World, f: Flight) { f.PageFlight? && f.r in w.begun }

  /** The run of a flight that was there stays what it was read as. */
  lemma MatchesStay(c: Config, w: World, e: Event, f: Flight)
    requires Complete(w) && Enabled(c, w, e) && FlightBegun(w, f) && FlightMatches(w, f)
    ensures FlightMatches(Happens(c, w, e), f)
  {
    hide Happens, Apply, Enabled, Enumerated, PageSound;
    EventRest(c, w, e);
    if e.Rollback? {
      RollbackCommits(c, w, e);
      RunStillMatches(c, w.restorePoint.value, Recovering(e.begin), f.r, f.run);
    } else {
      EventCommits(c, w, e);
      if TxOf(w, e).Some? {
        EventBegins(c, w, e);
        RunStillMatches(c, w.db, TxOf(w, e).value, f.r, f.run);
      }
    }
  }

  ghost predicate PastAgrees(w: World) { w.restorePoint.Some? ==> RunsAgree(w.restorePoint.value, w.db) }

  lemma AgreeStays(c: Config, w: World, e: Event)
    requires Complete(w) && Enabled(c, w, e)
    ensures PastAgrees(Happens(c, w, e))
  {
    hide Happens, Apply, Enabled, Enumerated, PageSound;
    var next := Happens(c, w, e);
    EventRest(c, w, e);
    if e.Rollback? {
      RollbackCommits(c, w, e);
    } else if next.restorePoint.Some? {
      EventCommits(c, w, e);
      forall r | r in next.restorePoint.value.recovery.runs
        ensures r in next.db.recovery.runs
            && SameRun(next.db.recovery.runs[r], next.restorePoint.value.recovery.runs[r])
      {
        if TxOf(w, e).Some? {
          StepOfRecovery(c, w.db, TxOf(w, e).value, r, ProgressKey(0, ClassIntake), FindingKey(0, Key(ClassIntake, 0)));
        }
      }
    }
  }

  lemma CompleteStep(c: Config, w: World, e: Event)
    requires Complete(w)
    ensures Complete(Happens(c, w, e))
  {
    hide Happens, Enabled, Enumerated, PageSound;
    var next := Happens(c, w, e);
    if Enabled(c, w, e) {
      WorldGrows(c, w, e);
      EventRest(c, w, e);
      DbEnumerated(c, w, e);
      AgreeStays(c, w, e);
      EnumeratedGrows(w, next, w.db);
      if w.restorePoint.Some? { EnumeratedGrows(w, next, w.restorePoint.value); }
      forall t | t in next.flights
        ensures PageSound(next, next.flights[t])
      {
        PagesSound(c, w, e, t);
      }
      BegunStays(c, w, e);
    } else {
      NothingHappens(c, w, e);
    }
  }

  lemma AskKeepsBegun(c: Config, w: World, e: Event)
    requires BegunHeld(w)
    ensures e.Ask? ==> BegunHeld(AskStep(c, w, e))
    ensures e.AskPermit? ==> BegunHeld(AskPermitStep(c, w, e))
  {
    hide Admission.AdmitPrepare, Effects.PermitPrepare;
  }

  lemma RequestKeepsBegun(c: Config, w: World, e: Event)
    requires BegunHeld(w) && (e.Put? || Consuming(w, e)) && e.ticket in w.flights && !w.flights[e.ticket].PageFlight?
    ensures e.Put? ==> BegunHeld(PutStep(w, e.ticket, e.reply, e.now))
    ensures e.Consume? ==> BegunHeld(ConsumeStep(c, w, e.ticket, e.authority, e.now))
  {
    hide Admission.AdmitConsume, Effects.PermitConsume;
  }

  lemma BegunStays(c: Config, w: World, e: Event)
    requires BegunHeld(w)
    ensures BegunHeld(Happens(c, w, e))
  {
    hide Apply, AskStep, AskPermitStep, ConsumeStep, PutStep, Recovery.PageOf, Recovery.Follows, Starts;
    if e.Ask? || e.AskPermit? { AskKeepsBegun(c, w, e); }
    if Enabled(c, w, e) && (e.Put? || e.Consume?) { RequestKeepsBegun(c, w, e); }
  }

  lemma {:induction false} EnumerationIsComplete(c: Config, h: History)
    ensures Complete(WorldAfter(c, h))
  {
    hide Happens, Complete;
    match h
    case Genesis => DawnIsComplete();
    case Next(past, e) =>
      EnumerationIsComplete(c, past);
      CompleteStep(c, WorldAfter(c, past), e);
  }

  lemma DawnIsComplete()
    ensures Complete(Dawn)
  {
  }

  // ---------- the gate ----------

  predicate PhaseIs(db: DB, r: Id, phase: RecoveryPhase) { r in db.recovery.runs && db.recovery.runs[r].phase == phase }

  /** An obligation of the run: published when it began, inside its widened window and
      its scope. */
  predicate Obligation(w: World, r: Id, k: Key) {
    r in w.db.recovery.runs && HeldAtBegin(w, r, k) && Recovery.Eligible(w.db.recovery.runs[r], w.inventory[k])
  }

  predicate FoundSettled(db: DB, r: Id, k: Key) {
    FindingKey(r, k) in db.recovery.findings && db.recovery.findings[FindingKey(r, k)].status.Settled()
  }

  /** The run reopens only when every class is complete and nothing is unsettled. */
  lemma ReopensOnlyThen(c: Config, db: DB, tx: Tx, r: Id)
    requires !PhaseIs(db, r, RecoveryReopened) && PhaseIs(Apply(c, db, tx), r, RecoveryReopened)
    ensures Recovery.MayReopen(db, r)
  {
    hide AdmissionStep, EffectStep, Releases.Record, GrantStep, ExecutionStep, Execution.CloseAttempt, ControlStep,
      FinanceStep, Recovery.RestoreBody, Recovery.ApplyDecision, RunStep, Recovery.MayReopen;
    if tx.Recovering? && RunStep(db, tx.run).Ok? { RunningReopens(db, tx.run, r); }
  }

  lemma RunningReopens(db: DB, t: RunTx, r: Id)
    requires RunStep(db, t).Ok? && !PhaseIs(db, r, RecoveryReopened)
        && PhaseIs(RunStep(db, t).value, r, RecoveryReopened)
    ensures Recovery.MayReopen(db, r)
  {
    hide Recovery.RecordEach, Recovery.AllComplete, Recovery.HasUnsettled, Recovery.Reopened,
      Recovery.RecoveryInProgress;
  }

  /** In every history: when a run reopens admission, each obligation published when it
      began, inside the widened window and the scope, has its finding, and it is settled. */
  lemma ReopeningIsComplete(c: Config, h: History, e: Event, r: Id, k: Key)
    requires !PhaseIs(WorldAfter(c, h).db, r, RecoveryReopened) && PhaseIs(Happens(c, WorldAfter(c, h), e).db, r,
        RecoveryReopened)
    requires !e.Rollback? && Obligation(WorldAfter(c, h), r, k)
    ensures FoundSettled(WorldAfter(c, h).db, r, k)
  {
    hide WorldAfter, Happens, Apply, Recovery.Eligible, Enabled;
    var w := WorldAfter(c, h);
    EnumerationIsComplete(c, h);
    EventCommits(c, w, e);
    ReopensOnlyThen(c, w.db, TxOf(w, e).value, r);
    assert KeyEnumerated(w, w.db, r, k);
    EveryClass(k.category);
    assert !Recovery.UnsettledRow(w.db, r, FindingKey(r, k));
  }

  lemma EveryClass(category: Class)
    ensures category in CLASSES
  {
    match category
    case ClassIntake =>
    case ClassJobLaunch =>
    case ClassModelDispatch =>
    case ClassToolDispatch =>
    case ClassBusinessWrite =>
  }
}
