/** Over whole runs: the books stay exact, so no release is refused and no cap clamps;
    and, while no call costs more than it reserved, an allocation is never overdrawn
    (internal/application/budget.go:42-97, internal/domain/budget.go:322-388,
    internal/domain/dispatch.go:284-294). */
module Solvency {
  import opened Values
  import opened Budget
  import opened Records
  import opened Database
  import opened Transactions
  import opened Books
  import opened Conservation
  import opened Sums
  import Admission
  import DispatchSteps
  import Effects
  import Execution
  import Finance
  import Recovery
  import Releases
  import Replacements
  import WorkSteps

  // ---------- links ----------

  lemma LinkedStep(c: Config, db: DB, tx: Tx)
    requires InFlight(tx) && Linked(db)
    ensures Linked(Apply(c, db, tx))
  {
    hide Apply, Conservation.ObserveWrote;
    var next := Apply(c, db, tx);
    forall d | d in next.ledger.dispatches
      ensures LinkedRow(next, d)
    {
      DispatchSteps.StepOfRow(c, db, tx, d);
      var b := next.ledger.dispatches[d].bind;
      WorkSteps.StepOfWork(c, db, tx, b.operation, b.attempt);
      if d in db.ledger.dispatches { assert LinkedRow(db, d); }
    }
    forall d | d in next.ledger.meters
      ensures d in next.ledger.dispatches
    {
      MetersLinked(c, db, tx, d);
      if d in db.ledger.dispatches { DispatchSteps.StepOfRow(c, db, tx, d); }
    }
  }

  lemma MetersLinked(c: Config, db: DB, tx: Tx, d: Id)
    requires Linked(db)
    ensures d in Apply(c, db, tx).ledger.meters ==> d in db.ledger.dispatches
  {
    hide AdmissionStep, EffectStep, GrantStep, ExecutionStep, ControlStep, FinanceStep, RunStep,
      Execution.CloseAttempt, Recovery.Restore, Recovery.Dispose;
    Replacements.StepOfLedger(c, db, tx, CallKey(0, 0, 0), d);
    if Replacements.Observes(tx) && AdmissionStep(c, db, tx.admission).Ok? {
      ObserveWrites(c, db, tx.admission);
    }
  }

  lemma {:induction false} LinkedAlways(c: Config, run: Run)
    requires InFlightRun(run)
    ensures Linked(After(c, run))
  {
    hide Apply;
    if run.Then? {
      LinkedAlways(c, run.prior);
      LinkedStep(c, After(c, run.prior), run.tx);
    }
  }

  // ---------- conservation over a run ----------

  /** Whatever was added to the book was added while it was unused. */
  ghost predicate Timely(c: Config, run: Run, s: Book) {
    hide Apply;
    run.Then? ==>
        Timely(c, run.prior, s) && (Opens(After(c, run.prior), run.tx, s) ==> Unused(c, After(c, run.prior), s))
  }

  /** In every run, rollback restorations included: each allocation's reserved amount is
      the sum of what the operation's prepared, authorized and unknown dispatches hold
      and its consumed amount the sum of what they were charged; and likewise each
      counted cap over its tenant's or project's operations. */
  lemma {:induction false} MoneyIsConserved(c: Config, run: Run, s: Book)
    requires InFlightRun(run) && Timely(c, run, s)
    ensures Balanced(c, After(c, run), s)
  {
    hide Apply;
    if run.Then? {
      MoneyIsConserved(c, run.prior, s);
      LinkedAlways(c, run.prior);
      BookedStep(c, After(c, run.prior), run.tx, s);
    }
  }

  /** Hence the release of a held dispatch is never refused, by the allocations or the
      caps. */
  lemma ReleaseIsNeverRefused(c: Config, db: DB, o: Id, d: Id)
    requires Linked(db) && Balanced(c, db, OfOperation(o)) && HeldRow(db, o, d) && o in db.work.operations
    ensures MoveBudget(db, o, ToRelease, db.ledger.dispatches[d].bind.reserved).Ok?
  {
    var m := db.ledger.dispatches[d].bind.reserved;
    HeldIsAtLeast(db, OfOperation(o), d);
    assert LinkedRow(db, d) && CurrencyAgrees(db, o, d);
    ReleaseIsAccepted(AllocationsOf(db, o), m);
  }

  /** And a cap that predates the calls never meets its clamp: the counter covers what
      is released. */
  lemma CapNeverClamps(c: Config, db: DB, o: Id, d: Id, k: CapKey)
    requires Linked(db) && Balanced(c, db, OfCap(k)) && HeldRow(db, o, d)
    requires k in db.money.caps && k.Counted() && Reserves(db, OfCap(k), db.ledger.dispatches[d].bind)
    ensures db.money.caps[k].reserved - db.ledger.dispatches[d].bind.reserved.amount >= 0
  {
    HeldIsAtLeast(db, OfCap(k), d);
  }

  // ---------- no overdraft ----------

  /** What a dispatch binds of its operation's allocation: its reservation while it is
      held, its cost once it is settled. */
  function BoundAt(db: DB, o: Id, d: Id): int {
    if d in db.ledger.dispatches && db.ledger.dispatches[d].bind.operation == o then
      if db.ledger.dispatches[d].state.Held() then db.ledger.dispatches[d].bind.reserved.amount
          else MeterOf(db, d).charged
    else 0
  }

  function BoundBy(db: DB, o: Id): map<Id, int> {
    map d | d in db.ledger.dispatches :: BoundAt(db, o, d)
  }

  ghost function Bound(db: DB, o: Id): int { Sum(BoundBy(db, o)) }

  /** No allocation of the operation is below what its calls bind. */
  ghost predicate Solvent(db: DB, o: Id) {
    forall i | 0 <= i < |AllocationsOf(db, o)| :: Bound(db, o) <= AllocationsOf(db, o)[i].amount
  }

  /** No call of the operation costs more than it reserved, none is charged after its
      outcome settled, and nothing is restored. */
  ghost predicate Modest(db: DB, next: DB, tx: Tx, o: Id) {
    && !tx.Restoring?
    && forall d | d in next.ledger.dispatches && next.ledger.dispatches[d].bind.operation == o :: ModestRow(db, next, d)
  }

  predicate ModestRow(db: DB, next: DB, d: Id) {
    d in db.ledger.dispatches && d in next.ledger.dispatches ==>
      && (db.ledger.dispatches[d].state.Held() && !next.ledger.dispatches[d].state.Held() ==>
            MeterOf(next, d).charged <= next.ledger.dispatches[d].bind.reserved.amount)
      && (!db.ledger.dispatches[d].state.Held() ==> MeterOf(next, d).charged == MeterOf(db, d).charged)
  }

  /** The amounts allocated to an operation, which nothing but an allocation adds to. */
  predicate AmountsKept(db: DB, next: DB, o: Id) {
    var a, b := AllocationsOf(db, o), AllocationsOf(next, o);
    |b| == |a| && forall i | 0 <= i < |a| ::
        b[i].amount == a[i].amount && b[i].pool == a[i].pool && b[i].consumed >= a[i].consumed
  }

  lemma MoveKeepsAmounts(db: DB, o: Id, what: Movement, m: Money, x: Id)
    requires o in db.work.operations && MoveBudget(db, o, what, m).Ok?
    ensures AmountsKept(db, MoveBudget(db, o, what, m).value, x)
  {
    var a, b := AllocationsOf(db, x), AllocationsOf(MoveBudget(db, o, what, m).value, x);
    if x == o {
      forall i | 0 <= i < |a|
        ensures b[i].amount == a[i].amount && b[i].pool == a[i].pool && b[i].consumed >= a[i].consumed
      {
        assert Move(a[i], what, m) == Ok(b[i]);
        AddInt64Exact(a[i].consumed, m.amount);
      }
    }
  }

  lemma NotSentAmounts(db: DB, id: Id, evidence: Name, guard: Option<nat>, x: Id)
    requires Admission.ConfirmNotSent(db, id, evidence, guard).Ok?
    ensures AmountsKept(db, Admission.ConfirmNotSent(db, id, evidence, guard).value, x)
  {
    hide MoveBudget, Admission.SettleExposure, Admission.Reported, Admission.UpdateDispatch;
    if id in db.ledger.dispatches {
      var d := db.ledger.dispatches[id];
      if d.bind.operation in db.work.operations && MoveBudget(db, d.bind.operation, ToRelease, d.bind.reserved).Ok? {
        MoveKeepsAmounts(db, d.bind.operation, ToRelease, d.bind.reserved, x);
      }
    }
  }

  lemma AdmittingAmounts(c: Config, db: DB, t: AdmissionTx, x: Id)
    requires AdmissionStep(c, db, t).Ok?
    ensures AmountsKept(db, AdmissionStep(c, db, t).value, x)
  {
    hide Admission.AdmitPrepare, Admission.Observe, Admission.ConfirmNotSent, Admission.CheckAdmission, MoveBudget,
      AmountsKept, Conservation.ObserveWrote;
    var next := AdmissionStep(c, db, t).value;
    SameMoneyAmounts(db, next, x);
    match t
    case AdmitPrepare(_, _, _, _, _, _) =>
      PrepareWrites(c, db, t);
      if next != db && next.ledger.dispatches[t.id].state == DispatchPrepared {
        MovedAmounts(db, next, t.req.operation, ToReserve, next.ledger.dispatches[t.id].bind.reserved, x);
      }
    case AdmitConsume(call, _, _) =>
      if call.id in db.ledger.dispatches && call.copy.bind.operation in db.work.operations {
        MovedAmounts(db, next, call.copy.bind.operation, ToRelease, db.ledger.dispatches[call.id].bind.reserved, x);
      }
    case ObserveDispatch(_, id, _, _) =>
      ObserveWrites(c, db, t);
      if next != db {
        var meter, delta :| ObserveWrote(c, db, next, id, meter, delta);
        ObservedAmounts(c, db, next, id, meter, delta, x);
      }
    case ConfirmDispatchNotSent(id, evidence) => NotSentAmounts(db, id, evidence, None, x);
    case MarkDispatchUncertain(_) =>
  }

  lemma SameMoneyAmounts(db: DB, next: DB, x: Id)
    ensures next.money == db.money ==> AmountsKept(db, next, x)
  {
  }

  lemma MovedAmounts(db: DB, next: DB, o: Id, what: Movement, m: Money, x: Id)
    requires o in db.work.operations
    ensures MoveBudget(db, o, what, m).Ok? && next.money == MoveBudget(db, o, what, m).value.money ==>
        AmountsKept(db, next, x)
  {
    hide MoveBudget;
    if MoveBudget(db, o, what, m).Ok? { MoveKeepsAmounts(db, o, what, m, x); }
  }

  lemma ObservedAmounts(c: Config, db: DB, next: DB, id: Id, meter: Meter, delta: Money, x: Id)
    requires ObserveWrote(c, db, next, id, meter, delta)
    ensures AmountsKept(db, next, x)
  {
    hide MoveBudget;
    var d := db.ledger.dispatches[id];
    var o := d.bind.operation;
    var moved := if delta.amount > 0 then MoveBudget(db, o, ToCharge, delta).value else db;
    if delta.amount > 0 { MoveKeepsAmounts(db, o, ToCharge, delta, x); }
    MovedAmounts(moved, next, o, ToRelease, d.bind.reserved, x);
  }

  lemma {:induction false} DenyEachAmounts(db: DB, o: Id, listed: seq<Id>, x: Id)
    requires o in db.work.operations && Execution.DenyEach(db, o, listed).Ok?
    ensures AmountsKept(db, Execution.DenyEach(db, o, listed).value, x)
    decreases |listed|
  {
    hide MoveBudget;
    if listed != [] {
      var row := Admission.Deny(db.ledger.dispatches[listed[0]], DenyAttemptClosed).value;
      var freed := MoveBudget(db, o, ToRelease, db.ledger.dispatches[listed[0]].bind.reserved).value;
      MoveKeepsAmounts(db, o, ToRelease, db.ledger.dispatches[listed[0]].bind.reserved, x);
      DenyEachAmounts(Admission.UpdateDispatch(freed, listed[0], row), o, listed[1..], x);
    }
  }

  lemma ClosingAmounts(c: Config, db: DB, next: DB, tx: Tx, x: Id)
    requires CloseDenied(c, db, next, tx)
    ensures AmountsKept(db, next, x)
  {
    hide Execution.DenyEach, Execution.ListsPrepared;
    if !(next.ledger == db.ledger && next.money == db.money) {
      DenyEachAmounts(db, db.work.attempts[tx.a].bind.operation, tx.listed, x);
    }
  }

  lemma DisposingAmounts(db: DB, req: Recovery.DispositionRequest, bound: bool, x: Id)
    requires Recovery.Dispose(db, req, bound).Ok?
    ensures AmountsKept(db, Recovery.Dispose(db, req, bound).value, x)
  {
    hide Admission.ConfirmNotSent, Effects.ObserveOutcome, Effects.ConfirmRecordNotSent;
    if Admission.ConfirmNotSent(db, req.key.id, req.evidence, Some(req.epoch)).Ok? {
      NotSentAmounts(db, req.key.id, req.evidence, Some(req.epoch), x);
    }
  }

  lemma FinancingAmounts(db: DB, t: FinanceTx, x: Id)
    requires FinanceStep(db, t).Ok? && !Opens(db, Financing(t), OfOperation(x))
    ensures AmountsKept(db, FinanceStep(db, t).value, x)
  {
    hide Finance.Draw, Finance.ReturnEach, Finance.ListsPools, HasUnsettledDispatch, Finance.SameLevelTwice,
      Finance.HasLevel;
  }

  lemma RestoringDispatchAmounts(c: Config, db: DB, d: Id, b: DispatchBinding, epoch: nat, x: Id)
    requires Recovery.RestoreDispatch(c, db, d, b, epoch).Ok?
    ensures AmountsKept(db, Recovery.RestoreDispatch(c, db, d, b, epoch).value, x)
  {
    hide MoveBudget, AmountsKept, Recovery.ExposeOperation, Recovery.RestoreOperation, Recovery.RestoreAttempt;
    var next := Recovery.RestoreDispatch(c, db, d, b, epoch).value;
    var owned := Recovery.RestoreOperation(c, db, b.operation, Recovery.Anonymous(b.tenant, None, b.admittedAt,
        b.epoch), epoch).value;
    var attempted := Recovery.RestoreAttempt(owned, b.attempt, AttemptBinding(b.operation, b.tenant, None, b.epoch,
        b.deadline));
    SameMoneyAmounts(db, next, x);
    if d !in db.ledger.dispatches {
      var inserted := Admission.InsertDispatch(attempted, d, Recovery.RestoredDispatch(b)).value;
      MovedAmounts(inserted, next, b.operation, ToRestore, b.reserved, x);
      SameRows(db, inserted, next, x);
    }
  }

  lemma SameRows(db: DB, same: DB, next: DB, x: Id)
    requires same.money == db.money
    ensures AmountsKept(same, next, x) ==> AmountsKept(db, next, x)
  {
  }

  lemma RestoringAmounts(c: Config, db: DB, f: FindingKey, body: Body, x: Id)
    requires Recovery.Restore(c, db, f, body).Ok?
    ensures AmountsKept(db, Recovery.Restore(c, db, f, body).value, x)
  {
    hide Recovery.RestoreDispatch, Recovery.RestoreOperation, Recovery.RestoreAttempt, Effects.InsertEffect;
    if body.DispatchBody? && f.run in db.recovery.runs {
      var epoch := db.recovery.runs[f.run].epoch;
      if Recovery.RestoreDispatch(c, db, f.key.id, body.dispatch, epoch).Ok? {
        RestoringDispatchAmounts(c, db, f.key.id, body.dispatch, epoch, x);
      }
    }
  }

  lemma StepOfAmounts(c: Config, db: DB, tx: Tx, x: Id)
    requires InFlight(tx) && !Opens(db, tx, OfOperation(x))
    ensures AmountsKept(db, Apply(c, db, tx), x)
  {
    hide AdmissionStep, EffectStep, Releases.Record, GrantStep, ExecutionStep, Execution.CloseAttempt, ControlStep,
      FinanceStep, RunStep, Recovery.Restore, Recovery.Dispose, CloseDenied;
    if Step(c, db, tx).Ok? {
      var next := Step(c, db, tx).value;
      match tx
      case Admitting(t) => AdmittingAmounts(c, db, t, x);
      case Closing(_, _, _, _, _) => CloseDenies(c, db, tx); ClosingAmounts(c, db, next, tx, x);
      case Financing(t) => FinancingAmounts(db, t, x);
      case Restoring(f, body) => RestoringAmounts(c, db, f, body, x);
      case Disposing(req, bound) => DisposingAmounts(db, req, bound, x);
      case _ =>
    }
  }

  // ---------- what is bound ----------

  lemma BoundIsCovered(c: Config, db: DB, o: Id)
    requires Linked(db)
    ensures 0 <= Bound(db, o) <= Held(db, OfOperation(o)) + Charged(c, db, OfOperation(o))
  {
    var s := OfOperation(o);
    var both := map d | d in db.ledger.dispatches :: HeldAt(db, s, d) + ChargedAt(c, db, s, d);
    forall d | d in db.ledger.dispatches
      ensures 0 <= BoundAt(db, o, d) <= both[d]
    {
      assert LinkedRow(db, d);
    }
    SumNonNegative(BoundBy(db, o));
    SumMonotone(BoundBy(db, o), both);
    SumSplit(both, HeldBy(db, s), ChargedBy(c, db, s));
  }

  predicate BoundMoves(db: DB, next: DB, o: Id, d: Id) {
    if d in db.ledger.dispatches then BoundAt(next, o, d) <= BoundAt(db, o, d)
    else BoundAt(next, o, d) == if Admits(db, next, o, d) then next.ledger.dispatches[d].bind.reserved.amount else 0
  }

  /** A row binds no more than it did, and a new one its reservation. */
  lemma BoundRow(c: Config, db: DB, next: DB, tx: Tx, o: Id, d: Id)
    requires InFlight(tx) && Linked(db) && next == Apply(c, db, tx)
    requires Modest(db, next, tx, o)
    ensures BoundMoves(db, next, o, d)
  {
    hide Apply, DispatchSteps.Admissible;
    DispatchSteps.StepOfRow(c, db, tx, d);
    Replacements.StepOfLedger(c, db, tx, CallKey(0, 0, 0), d);
    MetersLinked(c, db, tx, d);
    if d in next.ledger.dispatches && next.ledger.dispatches[d].bind.operation == o { assert ModestRow(db, next, d); }
  }

  /** The transaction admitted a call of the operation. */
  predicate Admits(db: DB, next: DB, o: Id, d: Id) {
    && d !in db.ledger.dispatches && d in next.ledger.dispatches
    && next.ledger.dispatches[d].state == DispatchPrepared && next.ledger.dispatches[d].bind.operation == o
  }

  predicate Adds(tx: Tx) { tx.Restoring? || (tx.Admitting? && tx.admission.AdmitPrepare?) }

  /** Only a first transaction and a restoration add a row. */
  lemma OnlyThoseAdd(c: Config, db: DB, next: DB, tx: Tx, d: Id)
    requires next == Apply(c, db, tx) && !Adds(tx)
    ensures d in next.ledger.dispatches ==> d in db.ledger.dispatches
  {
    hide EffectStep, Releases.Record, GrantStep, ExecutionStep, Execution.CloseAttempt, ControlStep, FinanceStep,
      RunStep, Admission.AdmitPrepare, Admission.Observe, Admission.CheckAdmission, Admission.LoadContext, MoveBudget,
      Admission.SettleExposure, Conservation.ObserveWrote, Execution.DenyEach, Execution.ListsPrepared,
      Effects.ObserveOutcome, Effects.ConfirmRecordNotSent;
    if Step(c, db, tx).Ok? {
      match tx
      case Admitting(t) => if t.ObserveDispatch? { ObserveAddsNone(c, db, t, d); }
      case Closing(_, _, _, _, _) =>
        CloseDenies(c, db, tx);
        if next.ledger != db.ledger {
          DispatchSteps.DenyEachRow(db, db.work.attempts[tx.a].bind.operation, tx.listed, d);
        }
      case _ =>
    }
  }

  lemma ObserveAddsNone(c: Config, db: DB, t: AdmissionTx, d: Id)
    requires t.ObserveDispatch? && AdmissionStep(c, db, t).Ok?
    ensures d in AdmissionStep(c, db, t).value.ledger.dispatches ==> d in db.ledger.dispatches
  {
    hide AdmissionStep;
    ObserveWrites(c, db, t);
  }

  /** An admission fits beside everything reserved and consumed. */
  predicate Fits(c: Config, db: DB, next: DB, o: Id, d: Id, held: int, charged: int)
  {
    && d in next.ledger.dispatches && next.ledger.dispatches.Keys == db.ledger.dispatches.Keys + {d}
    && forall i | 0 <= i < |AllocationsOf(db, o)| ::
         held + charged + next.ledger.dispatches[d].bind.reserved.amount <= AllocationsOf(db, o)[i].amount
  }

  lemma AdmitsFitting(c: Config, db: DB, next: DB, tx: Tx, o: Id, d: Id)
    requires InFlight(tx) && Linked(db) && next == Apply(c, db, tx) && !tx.Restoring? && Exact(c, db, OfOperation(o))
    requires Admits(db, next, o, d)
    ensures Fits(c, db, next, o, d, Held(db, OfOperation(o)), Charged(c, db, OfOperation(o)))
  {
    hide AdmissionStep, EffectStep, Releases.Record, GrantStep, ExecutionStep, Execution.CloseAttempt, ControlStep,
      FinanceStep, RunStep, Recovery.Restore, Recovery.Dispose, MoveBudget, DispatchSteps.Admissible;
    if !Adds(tx) {
      OnlyThoseAdd(c, db, next, tx, d);
    } else {
      PrepareWrites(c, db, tx.admission);
      DispatchSteps.AdmittingStep(c, db, tx.admission, d);
      var row := next.ledger.dispatches[d];
      AdmissibleReserves(db, row.bind, row.supersedes);
      ReservesFitting(db, o, row.bind.reserved, Held(db, OfOperation(o)), Charged(c, db, OfOperation(o)));
    }
  }

  lemma ReservesFitting(db: DB, o: Id, m: Money, held: int, charged: int)
    requires o in db.work.operations && m.amount >= 0 && MoveBudget(db, o, ToReserve, m).Ok?
    requires forall i | 0 <= i < |AllocationsOf(db, o)| :: RowExact(AllocationsOf(db, o)[i], held, charged)
    ensures forall i | 0 <= i < |AllocationsOf(db, o)| :: held + charged + m.amount <= AllocationsOf(db, o)[i].amount
  {
    var a := AllocationsOf(db, o);
    var b := MoveAll(a, ToReserve, m).value;
    forall i | 0 <= i < |a|
      ensures held + charged + m.amount <= a[i].amount
    {
      assert Move(a[i], ToReserve, m) == Ok(b[i]);
      ReserveIsExact(a[i], m);
    }
  }

  // ---------- a step keeps it ----------

  lemma RowStays(c: Config, db: DB, tx: Tx, d: Id)
    requires InFlight(tx)
    ensures d in db.ledger.dispatches ==> d in Apply(c, db, tx).ledger.dispatches
  {
    hide Apply;
    DispatchSteps.StepOfRow(c, db, tx, d);
  }

  lemma SolventStep(c: Config, db: DB, next: DB, tx: Tx, o: Id)
    requires InFlight(tx) && Linked(db) && next == Apply(c, db, tx) && Modest(db, next, tx, o)
    requires Balanced(c, db, OfOperation(o)) && Solvent(db, o)
    requires Opens(db, tx, OfOperation(o)) ==> Unused(c, db, OfOperation(o)) && Balanced(c, next, OfOperation(o))
    ensures Solvent(next, o)
  {
    hide Apply, ModestRow, Linked, BoundAt, DispatchSteps.RowStep, Books.HeldAt;
    var s := OfOperation(o);
    BoundIsCovered(c, db, o);
    forall d | d in db.ledger.dispatches
      ensures d in next.ledger.dispatches
    {
      RowStays(c, db, tx, d);
    }
    forall d
      ensures d in db.ledger.dispatches ==> BoundAt(next, o, d) <= BoundAt(db, o, d)
      ensures d !in db.ledger.dispatches ==>
          BoundAt(next, o, d) == if Admits(db, next, o, d) then next.ledger.dispatches[d].bind.reserved.amount else 0
    {
      BoundRow(c, db, next, tx, o, d);
    }
    if Opens(db, tx, s) {
      forall d | d in next.ledger.dispatches
        ensures d in db.ledger.dispatches
      {
        OnlyThoseAdd(c, db, next, tx, d);
      }
      BoundShrinks(db, next, o);
      UnusedBindsNothing(c, db, o);
      assert forall i | 0 <= i < |AllocationsOf(next, o)| :: AllocationsOf(next, o)[i].Sane();
    } else {
      StepOfAmounts(c, db, tx, o);
      if d :| Admits(db, next, o, d) {
        AdmitsFitting(c, db, next, tx, o, d);
        BoundGrows(db, next, o, d);
      } else {
        BoundShrinks(db, next, o);
      }
    }
  }

  lemma UnusedBindsNothing(c: Config, db: DB, o: Id)
    requires Unused(c, db, OfOperation(o))
    ensures Bound(db, o) == 0
  {
    forall d | d in db.ledger.dispatches
      ensures BoundAt(db, o, d) == 0
    {
      assert HeldAt(db, OfOperation(o), d) == 0 && ChargedAt(c, db, OfOperation(o), d) == 0 && !HeldRow(db, o, d);
    }
    SumZero(BoundBy(db, o));
  }

  lemma BoundGrows(db: DB, next: DB, o: Id, d: Id)
    requires d !in db.ledger.dispatches && next.ledger.dispatches.Keys == db.ledger.dispatches.Keys + {d}
    requires forall x | x in db.ledger.dispatches :: BoundAt(next, o, x) <= BoundAt(db, o, x)
    ensures Bound(next, o) <= Bound(db, o) + BoundAt(next, o, d)
  {
    SumTakeOut(BoundBy(next, o), d);
    SumMonotone(BoundBy(next, o) - {d}, BoundBy(db, o));
  }

  /** New rows that bind nothing leave the sum where it is or lower. */
  lemma BoundShrinks(db: DB, next: DB, o: Id)
    requires db.ledger.dispatches.Keys <= next.ledger.dispatches.Keys
    requires forall x | x in db.ledger.dispatches :: BoundAt(next, o, x) <= BoundAt(db, o, x)
    requires forall x | x !in db.ledger.dispatches :: BoundAt(next, o, x) <= 0
    ensures Bound(next, o) <= Bound(db, o)
  {
    var padded := map d | d in next.ledger.dispatches :: if d in db.ledger.dispatches then BoundAt(db, o, d) else 0;
    SumMonotone(BoundBy(next, o), padded);
    SumPadded(padded, BoundBy(db, o));
  }

  // ---------- over a run ----------

  ghost predicate ModestRun(c: Config, run: Run, o: Id) {
    hide Apply;
    run.Then? ==> ModestRun(c, run.prior, o) && Modest(After(c, run.prior), After(c, run), run.tx, o)
  }

  /** While no call of an operation costs more than it reserved, no cost arrives after
      the settling report and nothing is restored, what its unsettled calls reserve
      together with what its settled calls cost never exceeds any of its allocations. */
  lemma {:induction false} NoOverdraft(c: Config, run: Run, o: Id)
    requires InFlightRun(run) && Timely(c, run, OfOperation(o)) && ModestRun(c, run, o)
    ensures Solvent(After(c, run), o)
  {
    hide Apply, Modest;
    if run.Then? {
      NoOverdraft(c, run.prior, o);
      LinkedAlways(c, run.prior);
      MoneyIsConserved(c, run.prior, OfOperation(o));
      MoneyIsConserved(c, run, OfOperation(o));
      SolventStep(c, After(c, run.prior), After(c, run), run.tx, o);
    }
  }

  /** The sum of both counters may itself exceed the allocation: a call that holds its
      whole reservation is charged before it settles. */
  lemma CountersMayExceed()
    ensures var row := AllocationRow(1, 1, 10, 0, 0);
            && row.Reserve(Money(1, 10)) == Ok(row.(reserved := 10))
            && row.(reserved := 10).Charge(Money(1, 5)) == Ok(row.(reserved := 10, consumed := 5))
  {
    AddInt64Exact(0, 0);
    AddInt64Exact(0, 10);
    AddInt64Exact(0, 5);
  }
}
