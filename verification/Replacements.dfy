/** Replacement calls: what a call supersedes was never sent, and the chains are
    well-founded (internal/domain/dispatch.go:267-277,454-473,
    internal/application/dispatch.go:670-716). */
module Replacements {
  import opened Values
  import opened Budget
  import opened Records
  import opened Database
  import opened Transactions
  import Admission
  import DispatchSteps
  import Effects
  import Execution
  import Recovery
  import Releases

  // ---------- the call index and the meters, across one transaction ----------

  /** The index only grows, and by calls of rows that appear. */
  predicate CallStep(db: DB, next: DB, k: CallKey) {
    && (k in db.ledger.calls ==> k in next.ledger.calls && next.ledger.calls[k] == db.ledger.calls[k])
    && (k !in db.ledger.calls && k in next.ledger.calls ==>
          var d := next.ledger.calls[k];
          d !in db.ledger.dispatches && d in next.ledger.dispatches && next.ledger.dispatches[d].Call() == k)
  }

  predicate Free(m: Meter) { m.charged == 0 && !Admission.Reported(m.reports) }

  /** A call is confirmed not sent only with nothing charged and no usage reported,
      and nothing is metered on it afterwards. */
  predicate MeterStep(db: DB, next: DB, d: Id) {
    d in next.ledger.dispatches && next.ledger.dispatches[d].state == DispatchConfirmedNotSent ==>
      && d in db.ledger.dispatches && MeterOf(next, d) == MeterOf(db, d)
      && (db.ledger.dispatches[d].state != DispatchConfirmedNotSent ==> Free(MeterOf(db, d)))
  }

  predicate Observes(tx: Tx) { tx.Admitting? && tx.admission.ObserveDispatch? }

  lemma NotSentLedger(db: DB, id: Id, evidence: Name, guard: Option<nat>, k: CallKey, d: Id)
    requires Admission.ConfirmNotSent(db, id, evidence, guard).Ok?
    ensures var next := Admission.ConfirmNotSent(db, id, evidence, guard).value;
        CallStep(db, next, k) && MeterStep(db, next, d) && next.ledger.meters == db.ledger.meters
  {
    hide MoveBudget, Admission.SettleExposure, Admission.Reported;
  }

  lemma PrepareLedger(c: Config, db: DB, t: AdmissionTx, k: CallKey, d: Id)
    requires t.AdmitPrepare? && AdmissionStep(c, db, t).Ok?
    ensures var next := AdmissionStep(c, db, t).value;
        CallStep(db, next, k) && MeterStep(db, next, d) && next.ledger.meters == db.ledger.meters
  {
    hide Admission.CheckAdmission, Admission.LoadContext, MoveBudget, Admission.Reported;
  }

  lemma ConsumeLedger(c: Config, db: DB, t: AdmissionTx, k: CallKey, d: Id)
    requires t.AdmitConsume? && AdmissionStep(c, db, t).Ok?
    ensures var next := AdmissionStep(c, db, t).value;
        CallStep(db, next, k) && MeterStep(db, next, d) && next.ledger.meters == db.ledger.meters
  {
    hide Admission.CheckAdmission, Admission.LoadContext, MoveBudget, Admission.Reported;
  }

  lemma ObserveLedger(c: Config, db: DB, t: AdmissionTx, k: CallKey, d: Id)
    requires t.ObserveDispatch? && AdmissionStep(c, db, t).Ok?
    ensures var next := AdmissionStep(c, db, t).value; CallStep(db, next, k) && MeterStep(db, next, d)
  {
    hide Admission.SettleMoney, Admission.MeterReport, Admission.SettleExposure, Admission.Reported;
  }

  lemma AdmittingLedger(c: Config, db: DB, t: AdmissionTx, k: CallKey, d: Id)
    requires AdmissionStep(c, db, t).Ok?
    ensures var next := AdmissionStep(c, db, t).value; CallStep(db, next, k) && MeterStep(db, next, d)
    ensures !t.ObserveDispatch? ==> AdmissionStep(c, db, t).value.ledger.meters == db.ledger.meters
  {
    hide Admission.AdmitPrepare, Admission.AdmitConsume, Admission.Observe, Admission.ConfirmNotSent,
      Admission.Reported;
    match t
    case AdmitPrepare(_, _, _, _, _, _) => PrepareLedger(c, db, t, k, d);
    case AdmitConsume(_, _, _) => ConsumeLedger(c, db, t, k, d);
    case ObserveDispatch(_, _, _, _) => ObserveLedger(c, db, t, k, d);
    case ConfirmDispatchNotSent(id, evidence) => NotSentLedger(db, id, evidence, None, k, d);
    case MarkDispatchUncertain(_) =>
  }

  lemma ClosingLedger(c: Config, db: DB, a: Id, tenant: Name, outcome: AttemptOutcome, cleanup: CleanupState,
                      listed: seq<Id>, k: CallKey, d: Id)
    requires Execution.CloseAttempt(c, db, a, tenant, outcome, cleanup, listed).Ok?
    ensures var next := Execution.CloseAttempt(c, db, a, tenant, outcome, cleanup, listed).value;
        CallStep(db, next, k) && MeterStep(db, next, d) && next.ledger.meters == db.ledger.meters
  {
    hide Execution.DenyEach, Execution.SettleTerminal, Execution.LeftByClose, SendersActing, HasUnknownAttempt,
      Execution.ListsPrepared;
    var o := db.work.attempts[a].bind.operation;
    if Execution.DenyEach(db, o, listed).Ok? {
      DispatchSteps.DenyEachRow(db, o, listed, d);
    }
  }

  lemma RestoringLedger(c: Config, db: DB, f: FindingKey, body: Body, k: CallKey, d: Id)
    requires Recovery.Restore(c, db, f, body).Ok?
    ensures var next := Recovery.Restore(c, db, f, body).value;
        CallStep(db, next, k) && MeterStep(db, next, d) && next.ledger.meters == db.ledger.meters
  {
    hide Recovery.RestoreOperation, Recovery.RestoreAttempt, Recovery.RestoreLaunch, Recovery.RestoreEffect,
      MoveBudget, Recovery.ExposeOperation, Admission.Reported;
  }

  lemma DisposingLedger(db: DB, req: Recovery.DispositionRequest, bound: bool, k: CallKey, d: Id)
    requires Recovery.Dispose(db, req, bound).Ok?
    ensures var next := Recovery.Dispose(db, req, bound).value;
        CallStep(db, next, k) && MeterStep(db, next, d) && next.ledger.meters == db.ledger.meters
  {
    hide Admission.ConfirmNotSent, Effects.ObserveOutcome, Effects.ConfirmRecordNotSent, Admission.Reported;
    if Admission.ConfirmNotSent(db, req.key.id, req.evidence, Some(req.epoch)).Ok? {
      NotSentLedger(db, req.key.id, req.evidence, Some(req.epoch), k, d);
    }
  }

  lemma StepOfLedger(c: Config, db: DB, tx: Tx, k: CallKey, d: Id)
    ensures CallStep(db, Apply(c, db, tx), k) && MeterStep(db, Apply(c, db, tx), d)
    ensures !Observes(tx) ==> Apply(c, db, tx).ledger.meters == db.ledger.meters
  {
    hide AdmissionStep, EffectStep, Releases.Record, GrantStep, ExecutionStep, Execution.CloseAttempt, ControlStep,
      FinanceStep, RunStep, Recovery.Restore, Recovery.Dispose, Admission.Reported;
    if Step(c, db, tx).Ok? {
      match tx
      case Admitting(t) => AdmittingLedger(c, db, t, k, d);
      case Closing(a, tenant, outcome, cleanup, listed) =>
          ClosingLedger(c, db, a, tenant, outcome, cleanup, listed, k, d);
      case Restoring(f, body) => RestoringLedger(c, db, f, body, k, d);
      case Disposing(req, bound) => DisposingLedger(db, req, bound, k, d);
      case _ =>
    }
  }

  // ---------- chains ----------

  /** The row a call's replacement names. */
  function Original(d: Dispatch): CallKey
    requires d.supersedes.Some?
  {
    CallKey(d.bind.tenant, d.bind.owner, d.supersedes.value)
  }

  predicate Replaces(db: DB, d: Id) {
    d in db.ledger.dispatches && db.ledger.dispatches[d].state != DispatchDenied
        && db.ledger.dispatches[d].supersedes.Some?
  }

  /** The superseded call of an admitted one is recorded, confirmed not sent, with
      nothing charged and no usage reported; and it is older. */
  ghost predicate Chained(db: DB, rank: map<Id, nat>) {
    && rank.Keys == db.ledger.dispatches.Keys
    && (forall d | d in rank :: rank[d] < |rank|)
    && (forall k | k in db.ledger.calls :: db.ledger.calls[k] in db.ledger.dispatches)
    && (forall d | d in db.ledger.dispatches && db.ledger.dispatches[d].state == DispatchConfirmedNotSent ::
        Free(MeterOf(db, d)))
    && (forall d | d in rank && Replaces(db, d) ::
          var k := Original(db.ledger.dispatches[d]);
          && k in db.ledger.calls
          && var a := db.ledger.calls[k]; SettledOriginal(db, a) && rank[a] < rank[d])
  }

  predicate SettledOriginal(db: DB, a: Id) {
    a in db.ledger.dispatches && db.ledger.dispatches[a].state == DispatchConfirmedNotSent && Free(MeterOf(db, a))
  }

  /** New rows rank after every row there is. */
  function Ranked(rank: map<Id, nat>, next: DB): map<Id, nat> {
    map d | d in next.ledger.dispatches :: if d in rank then rank[d] else |rank|
  }

  lemma MoreRows(a: set<Id>, b: set<Id>, d: Id)
    requires a <= b && d in b && d !in a
    ensures |a| < |b|
  {
    assert a <= b - {d};
    SmallerSet(a, b - {d});
  }

  lemma {:induction false} SmallerSet(a: set<Id>, b: set<Id>)
    requires a <= b
    ensures |a| <= |b|
    decreases a
  {
    if a != {} {
      var x :| x in a;
      SmallerSet(a - {x}, b - {x});
    }
  }

  lemma RanksGrow(rank: map<Id, nat>, db: DB, next: DB)
    requires rank.Keys == db.ledger.dispatches.Keys && forall d | d in rank :: rank[d] < |rank|
    requires forall d | d in db.ledger.dispatches :: d in next.ledger.dispatches
    ensures var r := Ranked(rank, next); r.Keys == next.ledger.dispatches.Keys && forall d | d in r :: r[d] < |r|
  {
    var r := Ranked(rank, next);
    SmallerSet(rank.Keys, r.Keys);
    assert |rank| == |rank.Keys| && |r| == |r.Keys|;
    forall d | d in r
      ensures r[d] < |r|
    {
      if d !in rank { MoreRows(rank.Keys, r.Keys, d); }
    }
  }

  lemma OriginalKept(c: Config, db: DB, tx: Tx, a: Id)
    requires InFlight(tx)
    ensures SettledOriginal(db, a) ==> SettledOriginal(Apply(c, db, tx), a)
  {
    hide Apply, Admission.Reported, DispatchSteps.Admissible;
    DispatchSteps.StepOfRow(c, db, tx, a);
    StepOfLedger(c, db, tx, CallKey(0, 0, 0), a);
  }

  lemma ChainedStep(c: Config, db: DB, tx: Tx, rank: map<Id, nat>)
    requires InFlight(tx) && Chained(db, rank)
    ensures Chained(Apply(c, db, tx), Ranked(rank, Apply(c, db, tx)))
  {
    hide Apply, Admission.Reported;
    var next := Apply(c, db, tx);
    forall d | d in db.ledger.dispatches
      ensures d in next.ledger.dispatches
    {
      DispatchSteps.StepOfRow(c, db, tx, d);
    }
    RanksGrow(rank, db, next);
    forall k | k in next.ledger.calls
      ensures next.ledger.calls[k] in next.ledger.dispatches
    {
      StepOfLedger(c, db, tx, k, 0);
    }
    forall d | d in next.ledger.dispatches && next.ledger.dispatches[d].state == DispatchConfirmedNotSent
      ensures Free(MeterOf(next, d))
    {
      StepOfLedger(c, db, tx, CallKey(0, 0, 0), d);
    }
    forall d | d in next.ledger.dispatches && Replaces(next, d)
      ensures ReplacesOlder(next, Ranked(rank, next), d)
    {
      ReplacementStep(c, db, tx, rank, d);
    }
  }

  /** The call a replacement names is settled not sent and older. */
  ghost predicate ReplacesOlder(db: DB, rank: map<Id, nat>, d: Id) {
    d in db.ledger.dispatches && Replaces(db, d) ==>
      var k := Original(db.ledger.dispatches[d]);
      && k in db.ledger.calls
      && var a := db.ledger.calls[k];
         SettledOriginal(db, a) && a in rank && d in rank && rank[a] < rank[d]
  }

  lemma ReplacementStep(c: Config, db: DB, tx: Tx, rank: map<Id, nat>, d: Id)
    requires InFlight(tx) && Chained(db, rank)
    ensures ReplacesOlder(Apply(c, db, tx), Ranked(rank, Apply(c, db, tx)), d)
  {
    hide Apply, Admission.Reported;
    var next := Apply(c, db, tx);
    if d in next.ledger.dispatches && Replaces(next, d) {
      var k := Original(next.ledger.dispatches[d]);
      forall x | x in db.ledger.dispatches
        ensures x in next.ledger.dispatches
      {
        DispatchSteps.StepOfRow(c, db, tx, x);
      }
      RanksGrow(rank, db, next);
      DispatchSteps.StepOfRow(c, db, tx, d);
      StepOfLedger(c, db, tx, k, 0);
      assert d in db.ledger.dispatches ==> Replaces(db, d);
      OriginalKept(c, db, tx, db.ledger.calls[k]);
    }
  }

  function RankOf(c: Config, run: Run): map<Id, nat> {
    hide Apply;
    match run
    case Start => map[]
    case Then(prior, tx) => Ranked(RankOf(c, prior), Apply(c, After(c, prior), tx))
  }

  /** In every run, rollback restorations included, what an admitted call supersedes is
      confirmed not sent, free of charge and usage, and ranks strictly below it: the
      chains of replacements are well-founded and only the newest call of one can have
      been sent. */
  lemma {:induction false} ChainsAreFounded(c: Config, run: Run)
    requires InFlightRun(run)
    ensures Chained(After(c, run), RankOf(c, run))
  {
    hide Apply, Admission.Reported;
    if run.Then? {
      ChainsAreFounded(c, run.prior);
      ChainedStep(c, After(c, run.prior), run.tx, RankOf(c, run.prior));
    }
  }

  /** And it stays so in all later states. */
  lemma {:induction false} OriginalStaysNotSent(c: Config, earlier: Run, later: Run, a: Id)
    requires Within(earlier, later) && InFlightRun(later)
    ensures SettledOriginal(After(c, earlier), a) ==> SettledOriginal(After(c, later), a)
  {
    hide Apply, Admission.Reported;
    if earlier != later {
      OriginalStaysNotSent(c, earlier, later.prior, a);
      OriginalKept(c, After(c, later.prior), later.tx, a);
    }
  }
}
