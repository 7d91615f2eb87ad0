/** Conservation of money: what the books show is what the dispatches hold and cost,
    through every transaction (internal/application/budget.go:42-97,
    internal/application/dispatch.go:509-716, internal/application/execution.go:619-647,
    internal/application/recovery_reconciliation.go:182-243). */
module Conservation {
  import opened Values
  import opened Budget
  import opened Records
  import opened Database
  import opened Transactions
  import opened Books
  import opened Sums
  import Admission
  import DispatchSteps
  import Effects
  import Execution
  import Finance
  import Recovery
  import Releases
  import WorkSteps

  /** An operation's allocations are in the currency of what it holds. */
  ghost predicate Agrees(db: DB, s: Book) {
    match s
    case OfOperation(o) => forall d | d in db.ledger.dispatches :: CurrencyAgrees(db, o, d)
    case OfCap(_) => true
  }

  ghost predicate Balanced(c: Config, db: DB, s: Book) { Exact(c, db, s) && Agrees(db, s) }

  // ---------- the four movements of one dispatch ----------

  /** The row d is written, the meter of d at most, and the money moved as it was. */
  predicate Writes(db: DB, next: DB, d: Id, row: Dispatch, moved: DB) {
    && next.money == moved.money
    && next.ledger.dispatches == db.ledger.dispatches[d := row]
    && next.ledger.meters - {d} == db.ledger.meters - {d}
  }

  lemma WritesOne(db: DB, next: DB, d: Id, row: Dispatch, moved: DB)
    requires Writes(db, next, d, row, moved)
    ensures next.ledger.dispatches - {d} == db.ledger.dispatches - {d}
  {
  }

  /** The allocations keep their currency, and what they moved was in it. */
  lemma AgreesAfter(db: DB, next: DB, o: Id, d: Id, row: Dispatch, what: Movement, m: Money, s: Book)
    requires o in db.work.operations && MoveBudget(db, o, what, m).Ok?
    requires Writes(db, next, d, row, MoveBudget(db, o, what, m).value)
    requires row.state.Held() && (d in db.ledger.dispatches ==>
        !db.ledger.dispatches[d].state.Held() || db.ledger.dispatches[d].bind != row.bind)
             ==> row.bind.operation == o && row.bind.reserved.currency == m.currency
    requires Agrees(db, s)
    ensures Agrees(next, s)
  {
    if s.OfOperation? {
      CurrenciesKept(db, o, what, m, s.o);
      assert AllocationsOf(next, s.o) == AllocationsOf(MoveBudget(db, o, what, m).value, s.o);
      forall x | x in next.ledger.dispatches
        ensures CurrencyAgrees(next, s.o, x)
      {
        if x in db.ledger.dispatches { assert CurrencyAgrees(db, s.o, x); }
      }
    }
  }

  lemma CurrenciesKept(db: DB, o: Id, what: Movement, m: Money, x: Id)
    requires o in db.work.operations && MoveBudget(db, o, what, m).Ok?
    ensures var a, b := AllocationsOf(db, x), AllocationsOf(MoveBudget(db, o, what, m).value, x);
            && |b| == |a|
            && (forall i | 0 <= i < |a| :: b[i].currency == a[i].currency)
            && (x == o ==> forall i | 0 <= i < |a| :: a[i].currency == m.currency)
  {
    var a, b := AllocationsOf(db, x), AllocationsOf(MoveBudget(db, o, what, m).value, x);
    if x == o {
      assert forall i | 0 <= i < |a| :: Move(a[i], what, m) == Ok(b[i]);
    }
  }

  /** A new row that holds its reservation. */
  lemma HoldsNew(c: Config, db: DB, next: DB, o: Id, d: Id, row: Dispatch, what: Movement, s: Book)
    requires Linked(db) && SameBinds(db, next) && o in db.work.operations
    requires what.ToReserve? || what.ToRestore?
    requires d !in db.ledger.dispatches && row.state.Held() && row.bind.operation == o && row.bind.reserved.amount >= 0
    requires MoveBudget(db, o, what, row.bind.reserved).Ok?
    requires Writes(db, next, d, row, MoveBudget(db, o, what, row.bind.reserved).value)
        && next.ledger.meters == db.ledger.meters
    requires Balanced(c, db, s)
    ensures Balanced(c, next, s)
  {
    hide MoveBudget;
    var m := row.bind.reserved;
    WritesOne(db, next, d, row, MoveBudget(db, o, what, m).value);
    SumsMove(c, db, next, s, d);
    assert HeldAt(next, s, d) == if Hits(db, s, o, m.currency) then m.amount else 0;
    assert ChargedAt(c, next, s, d) == 0;
    MovedStaysExact(c, db, next, o, what, m, s);
    AgreesAfter(db, next, o, d, row, what, m, s);
  }

  lemma LinkedAt(db: DB, d: Id)
    requires Linked(db) && d in db.ledger.dispatches
    ensures LinkedRow(db, d)
  {
  }

  /** A row lets go of its reservation. */
  lemma LetsGo(c: Config, db: DB, next: DB, o: Id, d: Id, row: Dispatch, s: Book)
    requires Linked(db) && SameBinds(db, next) && o in db.work.operations
    requires d in db.ledger.dispatches && db.ledger.dispatches[d].state.Held() && !row.state.Held()
    requires row.bind == db.ledger.dispatches[d].bind && row.bind.operation == o
    requires MoveBudget(db, o, ToRelease, row.bind.reserved).Ok?
    requires Writes(db, next, d, row, MoveBudget(db, o, ToRelease, row.bind.reserved).value)
        && next.ledger.meters == db.ledger.meters
    requires Balanced(c, db, s)
    ensures Balanced(c, next, s)
  {
    hide MoveBudget, Linked;
    var m := row.bind.reserved;
    LinkedAt(db, d);
    WritesOne(db, next, d, row, MoveBudget(db, o, ToRelease, m).value);
    SumsMove(c, db, next, s, d);
    HeldIsAtLeast(db, s, d);
    assert HeldAt(db, s, d) == if Hits(db, s, o, m.currency) then m.amount else 0;
    MovedStaysExact(c, db, next, o, ToRelease, m, s);
    AgreesAfter(db, next, o, d, row, ToRelease, m, s);
  }

  /** A row is charged an increase of its cost in the currency of its price. */
  lemma ChargesRow(c: Config, db: DB, next: DB, o: Id, d: Id, row: Dispatch, delta: Money, s: Book)
    requires Linked(db) && SameBinds(db, next) && o in db.work.operations
    requires d in db.ledger.dispatches && row.bind == db.ledger.dispatches[d].bind && row.bind.operation == o
    requires row.state.Held() == db.ledger.dispatches[d].state.Held()
    requires c.PriceOf(row.bind.meter).Some? && c.PriceOf(row.bind.meter).value.currency == delta.currency
        && delta.amount >= 0
    requires MoveBudget(db, o, ToCharge, delta).Ok?
    requires Writes(db, next, d, row, MoveBudget(db, o, ToCharge, delta).value)
    requires MeterOf(next, d).charged == MeterOf(db, d).charged + delta.amount
    requires Balanced(c, db, s)
    ensures Balanced(c, next, s)
  {
    hide MoveBudget;
    assert LinkedRow(db, d);
    WritesOne(db, next, d, row, MoveBudget(db, o, ToCharge, delta).value);
    SumsMove(c, db, next, s, d);
    assert HeldAt(next, s, d) == HeldAt(db, s, d);
    assert ChargedAt(c, next, s, d) == ChargedAt(c, db, s, d) + if Hits(db, s, o, delta.currency) then delta.amount
        else 0;
    MovedStaysExact(c, db, next, o, ToCharge, delta, s);
    AgreesAfter(db, next, o, d, row, ToCharge, delta, s);
  }

  /** A row changes without a movement of money: it holds what it held and costs what
      it cost. */
  lemma StaysBooked(c: Config, db: DB, next: DB, d: Id, s: Book)
    requires Linked(db) && SameBinds(db, next)
    requires next.money == db.money
    requires next.ledger.dispatches - {d} == db.ledger.dispatches - {d}
        && next.ledger.meters - {d} == db.ledger.meters - {d}
    requires HeldAt(next, s, d) == HeldAt(db, s, d) && ChargedAt(c, next, s, d) == ChargedAt(c, db, s, d)
    requires d in next.ledger.dispatches && next.ledger.dispatches[d].state.Held() ==>
               d in db.ledger.dispatches && db.ledger.dispatches[d].state.Held()
                   && db.ledger.dispatches[d].bind == next.ledger.dispatches[d].bind
    requires Balanced(c, db, s)
    ensures Balanced(c, next, s)
  {
    SumsMove(c, db, next, s, d);
    if s.OfOperation? {
      assert AllocationsOf(next, s.o) == AllocationsOf(db, s.o);
      forall x | x in next.ledger.dispatches
        ensures CurrencyAgrees(next, s.o, x)
      {
        if x != d {
          assert x in next.ledger.dispatches - {d} && (next.ledger.dispatches - {d})[x] == next.ledger.dispatches[x];
          assert x in db.ledger.dispatches - {d} && (db.ledger.dispatches - {d})[x] == db.ledger.dispatches[x];
        }
        assert x in db.ledger.dispatches ==> CurrencyAgrees(db, s.o, x);
      }
    }
  }

  // ---------- the transactions ----------

  lemma NotSentBooked(c: Config, db: DB, id: Id, evidence: Name, guard: Option<nat>, s: Book)
    requires Linked(db) && Balanced(c, db, s) && Admission.ConfirmNotSent(db, id, evidence, guard).Ok?
    ensures Balanced(c, Admission.ConfirmNotSent(db, id, evidence, guard).value, s)
  {
    hide MoveBudget, Admission.SettleExposure, Admission.Reported, Linked, Balanced;
    var next := Admission.ConfirmNotSent(db, id, evidence, guard).value;
    var d := db.ledger.dispatches[id];
    if next != db {
      var row := Admission.ConfirmRecordNotSent(d, evidence, MeterOf(db, id).charged,
                                                Admission.Reported(MeterOf(db, id).reports)).value;
      LetsGo(c, db, next, d.bind.operation, id, row, s);
    }
  }

  /** A first transaction writes a refusal, or a prepared row with its reservation. */
  predicate Prepares(db: DB, next: DB, d: Id, o: Id) {
    && d !in db.ledger.dispatches && d in next.ledger.dispatches && o in db.work.operations
    && next.work == db.work && next.ledger.meters == db.ledger.meters
    && var row := next.ledger.dispatches[d];
       && next.ledger.dispatches == db.ledger.dispatches[d := row] && row.bind.operation == o
       && ((row.state == DispatchDenied && next.money == db.money)
           || (&& row.state == DispatchPrepared && MoveBudget(db, o, ToReserve, row.bind.reserved).Ok?
               && next.money == MoveBudget(db, o, ToReserve, row.bind.reserved).value.money))
  }

  lemma PrepareWrites(c: Config, db: DB, t: AdmissionTx)
    requires t.AdmitPrepare? && AdmissionStep(c, db, t).Ok?
    ensures var next := AdmissionStep(c, db, t).value; next == db || Prepares(db, next, t.id, t.req.operation)
  {
    hide Admission.CheckAdmission, MoveBudget;
  }

  lemma PrepareBooked(c: Config, db: DB, t: AdmissionTx, s: Book)
    requires t.AdmitPrepare? && AdmissionStep(c, db, t).Ok? && InFlight(Admitting(t))
    requires Linked(db) && Balanced(c, db, s)
    ensures Balanced(c, AdmissionStep(c, db, t).value, s)
  {
    hide AdmissionStep, MoveBudget, Linked, Balanced, DispatchSteps.Admissible;
    var next := AdmissionStep(c, db, t).value;
    PrepareWrites(c, db, t);
    if next != db {
      DispatchSteps.AdmittingStep(c, db, t, t.id);
      var row := next.ledger.dispatches[t.id];
      FreshIsUnmetered(db, t.id);
      if row.state == DispatchPrepared {
        AdmissibleReserves(db, row.bind, row.supersedes);
        HoldsNew(c, db, next, t.req.operation, t.id, row, ToReserve, s);
      } else {
        StaysBooked(c, db, next, t.id, s);
      }
    }
  }

  lemma RowIsLinked(db: DB, d: Id)
    requires Linked(db)
    ensures d in db.ledger.dispatches ==> LinkedRow(db, d)
  {
  }

  lemma FreshIsUnmetered(db: DB, d: Id)
    requires Linked(db)
    ensures d !in db.ledger.dispatches ==> d !in db.ledger.meters
  {
  }

  lemma AdmissibleReserves(db: DB, b: DispatchBinding, supersedes: Option<Name>)
    ensures DispatchSteps.Admissible(db, b, supersedes) ==> b.operation in db.work.operations && b.reserved.amount >= 0
  {
  }

  lemma ConsumeBooked(c: Config, db: DB, t: AdmissionTx, s: Book)
    requires t.AdmitConsume? && t.call.Bound() && AdmissionStep(c, db, t).Ok?
    requires Linked(db) && Balanced(c, db, s)
    ensures Balanced(c, AdmissionStep(c, db, t).value, s)
  {
    hide Admission.CheckAdmission, MoveBudget, Admission.LoadContext, Linked, Balanced;
    var next := AdmissionStep(c, db, t).value;
    var id := t.call.id;
    if next != db {
      var row := next.ledger.dispatches[id];
      assert row.bind == db.ledger.dispatches[id].bind && row.bind.operation == t.call.copy.bind.operation;
      RowIsLinked(db, id);
      if row.state == DispatchDenied {
        LetsGo(c, db, next, row.bind.operation, id, row, s);
      } else {
        StaysBooked(c, db, next, id, s);
      }
    }
  }

  lemma UncertainBooked(c: Config, db: DB, id: Id, s: Book)
    requires Admission.MarkDispatchUncertain(db, id).Ok?
    requires Linked(db) && Balanced(c, db, s)
    ensures Balanced(c, Admission.MarkDispatchUncertain(db, id).value, s)
  {
    hide Linked, Balanced;
    StaysBooked(c, db, Admission.MarkDispatchUncertain(db, id).value, id, s);
  }

  // ---------- observation: the charge, then the release ----------

  /** The row as it was and the meter after the report. */
  function Metered(db: DB, moved: DB, id: Id, meter: Meter): DB {
    moved.(ledger := db.ledger.(meters := db.ledger.meters[id := meter]))
  }

  lemma ObserveCharged(c: Config, db: DB, id: Id, meter: Meter, delta: Money, s: Book)
    requires Linked(db) && Balanced(c, db, s)
    requires id in db.ledger.dispatches && c.PriceOf(db.ledger.dispatches[id].bind.meter).Some?
    requires c.PriceOf(db.ledger.dispatches[id].bind.meter).value.currency == delta.currency
    requires delta.amount >= 0 && meter.charged == MeterOf(db, id).charged + delta.amount
    requires db.ledger.dispatches[id].bind.operation in db.work.operations
    requires delta.amount > 0 ==> MoveBudget(db, db.ledger.dispatches[id].bind.operation, ToCharge, delta).Ok?
    ensures var o := db.ledger.dispatches[id].bind.operation;
            var moved := if delta.amount > 0 then MoveBudget(db, o, ToCharge, delta).value else db;
            Balanced(c, Metered(db, moved, id, meter), s) && Linked(Metered(db, moved, id, meter))
  {
    hide MoveBudget, Balanced, Linked;
    var o := db.ledger.dispatches[id].bind.operation;
    var row := db.ledger.dispatches[id];
    assert db.ledger.dispatches == db.ledger.dispatches[id := row];
    if delta.amount > 0 {
      var moved := MoveBudget(db, o, ToCharge, delta).value;
      MeteredLinked(db, moved, id, meter);
      ChargesRow(c, db, Metered(db, moved, id, meter), o, id, row, delta, s);
    } else {
      MeteredLinked(db, db, id, meter);
      StaysBooked(c, db, Metered(db, db, id, meter), id, s);
    }
  }

  lemma MeteredLinked(db: DB, moved: DB, id: Id, meter: Meter)
    requires Linked(db) && id in db.ledger.dispatches && moved.work == db.work && moved.ledger == db.ledger
    ensures Linked(Metered(db, moved, id, meter))
  {
    var next := Metered(db, moved, id, meter);
    assert forall d | d in next.ledger.dispatches :: LinkedRow(db, d);
  }

  /** A movement reads the money and the operations' scopes only. */
  lemma SameMovement(a: DB, b: DB, o: Id, what: Movement, m: Money)
    requires o in a.work.operations && o in b.work.operations && a.work.operations[o].bind == b.work.operations[o].bind
    requires a.money == b.money
    ensures MoveBudget(a, o, what, m).Ok? == MoveBudget(b, o, what, m).Ok?
    ensures MoveBudget(a, o, what, m).Ok? ==>
        MoveBudget(a, o, what, m).value.money == MoveBudget(b, o, what, m).value.money
  {
  }

  /** What an observation writes: the report's meter and charge, then the outcome and,
      once it is definite, the release. */
  ghost predicate ObserveWrote(c: Config, db: DB, next: DB, id: Id, meter: Meter, delta: Money) {
    && id in db.ledger.dispatches && id in next.ledger.dispatches
    && var d, row := db.ledger.dispatches[id], next.ledger.dispatches[id];
       var o := d.bind.operation;
       && o in db.work.operations && SameBinds(db, next)
       && next.ledger.dispatches == db.ledger.dispatches[id := row] && row.bind == d.bind
       && next.ledger.meters == db.ledger.meters[id := meter]
       && c.PriceOf(d.bind.meter).Some? && c.PriceOf(d.bind.meter).value.currency == delta.currency
       && delta.amount >= 0 && meter.charged == MeterOf(db, id).charged + delta.amount
       && (delta.amount > 0 ==> MoveBudget(db, o, ToCharge, delta).Ok?)
       && var moved := if delta.amount > 0 then MoveBudget(db, o, ToCharge, delta).value else db;
          if row.state.Held() == d.state.Held() then next.money == moved.money
          else d.state.Held() && o in moved.work.operations && MoveBudget(moved, o, ToRelease, d.bind.reserved).Ok?
               && next.money == MoveBudget(moved, o, ToRelease, d.bind.reserved).value.money
  }

  lemma ObserveWrites(c: Config, db: DB, t: AdmissionTx)
    requires t.ObserveDispatch? && AdmissionStep(c, db, t).Ok?
    ensures var next := AdmissionStep(c, db, t).value;
            next == db || exists meter, delta :: ObserveWrote(c, db, next, t.id, meter, delta)
  {
    hide MoveBudget, Admission.SettleExposure, Admission.MeterReport, Admission.Cumulative;
    var next := AdmissionStep(c, db, t).value;
    if next != db {
      var d := db.ledger.dispatches[t.id];
      var price := c.PriceOf(d.bind.meter).value;
      var (meter, delta) := Admission.MeterReport(price, MeterOf(db, t.id), t.report).value;
      ReportCharges(price, MeterOf(db, t.id), t.report);
      assert ObserveWrote(c, db, next, t.id, meter, delta);
    }
  }

  lemma ReportCharges(price: Price, meter: Meter, report: Report)
    requires Admission.MeterReport(price, meter, report).Ok?
    ensures var (after, delta) := Admission.MeterReport(price, meter, report).value;
            delta.currency == price.currency && delta.amount >= 0 && after.charged == meter.charged + delta.amount
  {
  }

  lemma ObserveBooked(c: Config, db: DB, next: DB, id: Id, meter: Meter, delta: Money, s: Book)
    requires Linked(db) && Balanced(c, db, s) && ObserveWrote(c, db, next, id, meter, delta)
    ensures Balanced(c, next, s)
  {
    hide MoveBudget, Balanced, Linked;
    var d, row := db.ledger.dispatches[id], next.ledger.dispatches[id];
    var o := d.bind.operation;
    var moved := if delta.amount > 0 then MoveBudget(db, o, ToCharge, delta).value else db;
    var mid := Metered(db, moved, id, meter);
    ObserveCharged(c, db, id, meter, delta, s);
    assert mid.work == db.work;
    if row.state.Held() == d.state.Held() {
      StaysBooked(c, mid, next, id, s);
    } else {
      SameMovement(moved, mid, o, ToRelease, d.bind.reserved);
      LetsGo(c, mid, next, o, id, row, s);
    }
  }

  // ---------- the other transactions ----------

  lemma SameBooks(c: Config, db: DB, next: DB, s: Book)
    requires Linked(db) && SameBinds(db, next) && next.ledger == db.ledger && next.money == db.money
    requires Balanced(c, db, s)
    ensures Balanced(c, next, s)
  {
    SameRow(c, db, next, s, 0, 1);
    SumsMove(c, db, next, s, 0);
    if s.OfOperation? {
      assert AllocationsOf(next, s.o) == AllocationsOf(db, s.o);
      forall x | x in next.ledger.dispatches
        ensures CurrencyAgrees(next, s.o, x)
      {
        assert CurrencyAgrees(db, s.o, x);
      }
    }
  }

  lemma {:induction false} DenyEachBooked(c: Config, db: DB, o: Id, listed: seq<Id>, s: Book)
    requires o in db.work.operations && Execution.DenyEach(db, o, listed).Ok?
    requires forall i | 0 <= i < |listed| && listed[i] in db.ledger.dispatches ::
        db.ledger.dispatches[listed[i]].bind.operation == o
    requires Linked(db) && Balanced(c, db, s)
    ensures Linked(Execution.DenyEach(db, o, listed).value) && Balanced(c, Execution.DenyEach(db, o, listed).value, s)
    decreases |listed|
  {
    hide MoveBudget, Balanced;
    if listed != [] {
      var d := listed[0];
      var row := Admission.Deny(db.ledger.dispatches[d], DenyAttemptClosed).value;
      var freed := MoveBudget(db, o, ToRelease, db.ledger.dispatches[d].bind.reserved).value;
      var mid := Admission.UpdateDispatch(freed, d, row);
      LetsGo(c, db, mid, o, d, row, s);
      assert forall x | x in mid.ledger.dispatches :: LinkedRow(db, x);
      DenyEachBooked(c, mid, o, listed[1..], s);
    }
  }

  /** A close denies what was prepared for its attempt and changes nothing else of the
      books. */
  predicate CloseDenied(c: Config, db: DB, next: DB, tx: Tx) {
    (next.ledger == db.ledger && next.money == db.money)
    || (&& tx.Closing? && tx.a in db.work.attempts && db.work.attempts[tx.a].bind.operation in db.work.operations
        && Execution.ListsPrepared(db, tx.a, tx.listed)
        && var denied := Execution.DenyEach(db, db.work.attempts[tx.a].bind.operation, tx.listed);
           denied.Ok? && next.ledger == denied.value.ledger && next.money == denied.value.money)
  }

  lemma CloseDenies(c: Config, db: DB, tx: Tx)
    requires tx.Closing? && Execution.CloseAttempt(c, db, tx.a, tx.tenant, tx.outcome, tx.cleanup, tx.listed).Ok?
    ensures CloseDenied(c, db, Execution.CloseAttempt(c, db, tx.a, tx.tenant, tx.outcome, tx.cleanup, tx.listed).value,
                        tx)
  {
    hide Execution.DenyEach, Execution.SettleTerminal, Execution.LeftByClose, SendersActing, HasUnknownAttempt,
      Execution.ListsPrepared;
  }

  lemma ClosingBooked(c: Config, db: DB, next: DB, tx: Tx, s: Book)
    requires CloseDenied(c, db, next, tx) && SameBinds(db, next)
    requires Linked(db) && Balanced(c, db, s)
    ensures Balanced(c, next, s)
  {
    hide Balanced, Execution.DenyEach;
    if next.ledger == db.ledger && next.money == db.money {
      SameBooks(c, db, next, s);
    } else {
      var o := db.work.attempts[tx.a].bind.operation;
      forall i | 0 <= i < |tx.listed| && tx.listed[i] in db.ledger.dispatches
        ensures db.ledger.dispatches[tx.listed[i]].bind.operation == o
      {
        assert PreparedRow(db, tx, i) && LinkedRow(db, tx.listed[i]);
      }
      DenyEachBooked(c, db, o, tx.listed, s);
      SameBooks(c, Execution.DenyEach(db, o, tx.listed).value, next, s);
    }
  }

  predicate PreparedRow(db: DB, tx: Tx, i: nat)
    requires tx.Closing? && i < |tx.listed|
  {
    Execution.PreparedRow(db, tx.a, tx.listed[i])
  }

  /** A restored exposure is held again. */
  lemma RestoreDispatchBooked(c: Config, db: DB, d: Id, b: DispatchBinding, epoch: nat, s: Book)
    requires Recovery.RestoreDispatch(c, db, d, b, epoch).Ok? && b.reserved.amount >= 0
    requires Linked(db) && Balanced(c, db, s)
    ensures Balanced(c, Recovery.RestoreDispatch(c, db, d, b, epoch).value, s)
  {
    hide MoveBudget, Balanced, Recovery.ExposeOperation, Recovery.RestoreOperation, Recovery.RestoreAttempt, Linked;
    var next := Recovery.RestoreDispatch(c, db, d, b, epoch).value;
    var owned := Recovery.RestoreOperation(c, db, b.operation, Recovery.Anonymous(b.tenant, None, b.admittedAt,
        b.epoch), epoch).value;
    var attempted := Recovery.RestoreAttempt(owned, b.attempt, AttemptBinding(b.operation, b.tenant, None, b.epoch,
        b.deadline));
    RestoredIsLinked(c, db, d, b, epoch);
    SameBooks(c, db, attempted, s);
    FreshIsUnmetered(db, d);
    if d in db.ledger.dispatches {
    } else {
      var inserted := Admission.InsertDispatch(attempted, d, Recovery.RestoredDispatch(b)).value;
      SameMovement(inserted, attempted, b.operation, ToRestore, b.reserved);
      HoldsNew(c, attempted, next, b.operation, d, Recovery.RestoredDispatch(b), ToRestore, s);
    }
  }

  lemma RestoredIsLinked(c: Config, db: DB, d: Id, b: DispatchBinding, epoch: nat)
    requires Recovery.RestoreDispatch(c, db, d, b, epoch).Ok? && Linked(db)
    ensures var owned := Recovery.RestoreOperation(c, db, b.operation, Recovery.Anonymous(b.tenant, None, b.admittedAt,
        b.epoch), epoch).value;
            var attempted := Recovery.RestoreAttempt(owned, b.attempt, AttemptBinding(b.operation, b.tenant, None,
                b.epoch, b.deadline));
            Linked(attempted) && SameBinds(db, attempted)
  {
    hide MoveBudget, Recovery.ExposeOperation, Admission.InsertDispatch;
    var owned := Recovery.RestoreOperation(c, db, b.operation, Recovery.Anonymous(b.tenant, None, b.admittedAt,
        b.epoch), epoch).value;
    var attempted := Recovery.RestoreAttempt(owned, b.attempt, AttemptBinding(b.operation, b.tenant, None, b.epoch,
        b.deadline));
    forall x | x in attempted.ledger.dispatches
      ensures LinkedRow(attempted, x)
    {
      assert LinkedRow(db, x);
    }
  }

  lemma RestoringBooked(c: Config, db: DB, f: FindingKey, body: Body, s: Book)
    requires Recovery.Restore(c, db, f, body).Ok? && InFlight(Restoring(f, body))
    requires Linked(db) && Balanced(c, db, s) && SameBinds(db, Recovery.Restore(c, db, f, body).value)
    ensures Balanced(c, Recovery.Restore(c, db, f, body).value, s)
  {
    hide Recovery.RestoreDispatch, Recovery.RestoreOperation, Recovery.RestoreAttempt, Effects.InsertEffect, Balanced,
      Linked;
    var next := Recovery.Restore(c, db, f, body).value;
    if body.DispatchBody? && f.run in db.recovery.runs {
      var epoch := db.recovery.runs[f.run].epoch;
      var restored := Recovery.RestoreDispatch(c, db, f.key.id, body.dispatch, epoch);
      if restored.Ok? && next != db {
        RestoreDispatchBooked(c, db, f.key.id, body.dispatch, epoch, s);
        RestoreKeepsLinks(c, db, f.key.id, body.dispatch, epoch);
        SameBooks(c, restored.value, next, s);
      }
    } else {
      SameBooks(c, db, next, s);
    }
  }

  lemma RestoreKeepsLinks(c: Config, db: DB, d: Id, b: DispatchBinding, epoch: nat)
    requires Recovery.RestoreDispatch(c, db, d, b, epoch).Ok? && Linked(db) && b.reserved.amount >= 0
    ensures Linked(Recovery.RestoreDispatch(c, db, d, b, epoch).value)
  {
    hide MoveBudget, Recovery.ExposeOperation, Recovery.RestoreOperation, Recovery.RestoreAttempt;
    var next := Recovery.RestoreDispatch(c, db, d, b, epoch).value;
    RestoredIsLinked(c, db, d, b, epoch);
    forall x | x in next.ledger.dispatches
      ensures LinkedRow(next, x)
    {
      if x in db.ledger.dispatches { assert LinkedRow(db, x); }
    }
  }

  /** A disposition leaves the ledger, or confirms one dispatch not sent. */
  predicate DisposedAs(db: DB, next: DB, req: Recovery.DispositionRequest) {
    || (next.ledger == db.ledger && next.money == db.money && next.work == db.work)
    || (var confirmed := Admission.ConfirmNotSent(db, req.key.id, req.evidence, Some(req.epoch));
        confirmed.Ok? && next.ledger == confirmed.value.ledger && next.money == confirmed.value.money
        && next.work == confirmed.value.work)
  }

  lemma DisposeWrites(db: DB, req: Recovery.DispositionRequest, bound: bool)
    requires Recovery.Dispose(db, req, bound).Ok?
    ensures DisposedAs(db, Recovery.Dispose(db, req, bound).value, req)
  {
    hide Admission.ConfirmNotSent, Effects.ObserveOutcome, Effects.ConfirmRecordNotSent, Recovery.OperationFor,
      Recovery.Applies, Recovery.Unrestorable;
  }

  lemma DisposingBooked(c: Config, db: DB, req: Recovery.DispositionRequest, bound: bool, s: Book)
    requires Recovery.Dispose(db, req, bound).Ok?
    requires Linked(db) && Balanced(c, db, s)
    ensures Balanced(c, Recovery.Dispose(db, req, bound).value, s)
  {
    hide Recovery.Dispose, Admission.ConfirmNotSent, Balanced, Linked;
    var next := Recovery.Dispose(db, req, bound).value;
    var confirmed := Admission.ConfirmNotSent(db, req.key.id, req.evidence, Some(req.epoch));
    DisposeWrites(db, req, bound);
    if next.ledger == db.ledger && next.money == db.money && next.work == db.work {
      SameBooks(c, db, next, s);
    } else {
      NotSentBooked(c, db, req.key.id, req.evidence, Some(req.epoch), s);
      NotSentLinks(db, req.key.id, req.evidence, Some(req.epoch));
      SameBooks(c, confirmed.value, next, s);
    }
  }

  lemma NotSentLinks(db: DB, id: Id, evidence: Name, guard: Option<nat>)
    requires Linked(db) && Admission.ConfirmNotSent(db, id, evidence, guard).Ok?
    ensures Linked(Admission.ConfirmNotSent(db, id, evidence, guard).value)
  {
    hide MoveBudget, Admission.Reported;
    var next := Admission.ConfirmNotSent(db, id, evidence, guard).value;
    forall x | x in next.ledger.dispatches
      ensures LinkedRow(next, x)
    {
      assert LinkedRow(db, x);
    }
  }

  // ---------- what opens a book ----------

  /** The transaction adds an allocation or a cap to the book. */
  predicate Opens(db: DB, tx: Tx, s: Book) {
    tx.Financing?
    && match s
       case OfOperation(o) => tx.finance.Allocate? && tx.finance.o == o
       case OfCap(k) => tx.finance.SetCap? && tx.finance.k == k && k !in db.money.caps
  }

  /** No dispatch of the book holds a reservation or has cost anything. */
  ghost predicate Unused(c: Config, db: DB, s: Book) {
    forall d | d in db.ledger.dispatches ::
      HeldAt(db, s, d) == 0 && ChargedAt(c, db, s, d) == 0 && (s.OfOperation? ==> !HeldRow(db, s.o, d))
  }

  lemma UnusedIsZero(c: Config, db: DB, s: Book)
    requires Unused(c, db, s)
    ensures Held(db, s) == 0 && Charged(c, db, s) == 0
  {
    SumZero(HeldBy(db, s));
    SumZero(ChargedBy(c, db, s));
  }

  /** What was drawn is the old rows and new ones that hold and cost nothing. */
  lemma {:induction false} DrawnRows(pools: map<Id, Pool>, rows: seq<AllocationRow>, listed: seq<Id>, amount: Money,
                                     now: Time)
    requires forall i | 0 <= i < |listed| :: listed[i] in pools
    requires Finance.Draw(pools, rows, listed, amount, now).Ok?
    ensures var drawn := Finance.Draw(pools, rows, listed, amount, now).value.rows;
            && |rows| <= |drawn| && drawn[..|rows|] == rows
            && (forall i | |rows| <= i < |drawn| :: RowExact(drawn[i], 0, 0))
    decreases |listed|
  {
    if listed != [] {
      if Finance.Holds(rows, listed[0]) {
        DrawnRows(pools, rows, listed[1..], amount, now);
      } else {
        var drawn := pools[listed[0]].Allocate(amount, now).value;
        var row := AllocationRow(listed[0], drawn.currency, amount.amount, 0, 0);
        DrawnRows(pools[listed[0] := drawn], rows + [row], listed[1..], amount, now);
        var all := Finance.Draw(pools, rows, listed, amount, now).value.rows;
        assert all[..|rows|] == all[..|rows| + 1][..|rows|];
        assert all[|rows|] == all[..|rows| + 1][|rows|];
      }
    }
  }

  /** An allocation adds rows of the operation that hold and cost nothing. */
  ghost predicate AllocateWrote(db: DB, next: DB, o: Id) {
    && next.ledger == db.ledger && next.money.caps == db.money.caps
    && (forall x | x != o :: AllocationsOf(next, x) == AllocationsOf(db, x))
    && var a, b := AllocationsOf(db, o), AllocationsOf(next, o);
       && |a| <= |b| && b[..|a|] == a && (forall i | |a| <= i < |b| :: RowExact(b[i], 0, 0))
  }

  lemma AllocateWrites(db: DB, t: FinanceTx)
    requires t.Allocate? && FinanceStep(db, t).Ok?
    ensures AllocateWrote(db, FinanceStep(db, t).value, t.o)
  {
    hide Finance.Draw, Finance.ListsPools, Finance.SameLevelTwice, Finance.HasLevel;
    if Finance.ListsPools(db, t.listed, t.amount.currency, t.tenant, t.actor, t.now) {
      PoolsListed(db, t);
      var drawn := Finance.Draw(db.money.pools, AllocationsOf(db, t.o), t.listed, t.amount, t.now);
      if drawn.Ok? { DrawnRows(db.money.pools, AllocationsOf(db, t.o), t.listed, t.amount, t.now); }
    }
  }

  lemma PoolsListed(db: DB, t: FinanceTx)
    requires t.Allocate? && Finance.ListsPools(db, t.listed, t.amount.currency, t.tenant, t.actor, t.now)
    ensures forall i | 0 <= i < |t.listed| :: t.listed[i] in db.money.pools
  {
  }

  lemma AllocateBooked(c: Config, db: DB, next: DB, o: Id, s: Book)
    requires Linked(db) && SameBinds(db, next) && AllocateWrote(db, next, o)
    requires Balanced(c, db, s) && (s == OfOperation(o) ==> Unused(c, db, s))
    ensures Balanced(c, next, s)
  {
    SameRow(c, db, next, s, 0, 1);
    SumsMove(c, db, next, s, 0);
    if s.OfOperation? {
      var a, b := AllocationsOf(db, s.o), AllocationsOf(next, s.o);
      if s.o == o {
        UnusedIsZero(c, db, s);
        forall i | 0 <= i < |b|
          ensures RowExact(b[i], 0, 0)
        {
          assert i < |a| ==> b[i] == b[..|a|][i];
        }
      }
      forall x | x in next.ledger.dispatches
        ensures CurrencyAgrees(next, s.o, x)
      {
        assert CurrencyAgrees(db, s.o, x);
        assert HeldRow(next, s.o, x) == HeldRow(db, s.o, x);
      }
    }
  }

  /** Exactly when the hypothesis is needed: an allocation that adds a row keeps the
      operation's book exact if and only if nothing was held or charged in it. */
  lemma AllocateKeepsExactlyWhenUnused(c: Config, db: DB, next: DB, o: Id)
    requires Linked(db) && SameBinds(db, next) && AllocateWrote(db, next, o) && Exact(c, db, OfOperation(o))
    requires |AllocationsOf(next, o)| > |AllocationsOf(db, o)|
    ensures Exact(c, next, OfOperation(o)) <==> Held(db, OfOperation(o)) == 0 && Charged(c, db, OfOperation(o)) == 0
  {
    var s := OfOperation(o);
    SameRow(c, db, next, s, 0, 1);
    SumsMove(c, db, next, s, 0);
    var a, b := AllocationsOf(db, o), AllocationsOf(next, o);
    assert RowExact(b[|a|], 0, 0);
    if Held(db, s) == 0 && Charged(c, db, s) == 0 {
      forall i | 0 <= i < |b|
        ensures RowExact(b[i], 0, 0)
      {
        assert i < |a| ==> b[i] == b[..|a|][i];
      }
    }
  }

  /** A cap that is set moves neither what is held nor what was charged. */
  lemma SetCapSums(c: Config, db: DB, k: CapKey, ceiling: Int64, s: Book)
    requires Linked(db) && Finance.SetCap(db, k, ceiling).Ok?
    ensures var next := Finance.SetCap(db, k, ceiling).value;
            Held(next, s) == Held(db, s) && Charged(c, next, s) == Charged(c, db, s)
  {
    var next := Finance.SetCap(db, k, ceiling).value;
    SameRow(c, db, next, s, 0, 1);
    SumsMove(c, db, next, s, 0);
  }

  lemma SetCapBooked(c: Config, db: DB, k: CapKey, ceiling: Int64, s: Book)
    requires Finance.SetCap(db, k, ceiling).Ok?
    requires Linked(db) && Balanced(c, db, s) && (s == OfCap(k) && k !in db.money.caps ==> Unused(c, db, s))
    ensures Balanced(c, Finance.SetCap(db, k, ceiling).value, s)
  {
    hide Held, Charged, Linked, Unused;
    var next := Finance.SetCap(db, k, ceiling).value;
    SetCapSums(c, db, k, ceiling, s);
    if s.OfOperation? {
      assert AllocationsOf(next, s.o) == AllocationsOf(db, s.o);
      forall x | x in next.ledger.dispatches
        ensures CurrencyAgrees(next, s.o, x)
      {
        assert CurrencyAgrees(db, s.o, x);
      }
    } else if s.k == k && k !in db.money.caps {
      UnusedIsZero(c, db, s);
    }
  }

  /** Likewise a new cap, which starts at zero, has an exact book if and only if nothing
      was held or charged in its scope. */
  lemma SetCapKeepsExactlyWhenUnused(c: Config, db: DB, k: CapKey, ceiling: Int64)
    requires Linked(db) && k.Counted() && k !in db.money.caps && Finance.SetCap(db, k, ceiling).Ok?
    ensures Exact(c, Finance.SetCap(db, k, ceiling).value, OfCap(k))
            <==> Held(db, OfCap(k)) == 0 && Charged(c, db, OfCap(k)) == 0
  {
    hide Held, Charged, Linked;
    SetCapSums(c, db, k, ceiling, OfCap(k));
  }

  /** The other finance transactions leave the books alone. */
  lemma FinanceKeepsBooks(db: DB, t: FinanceTx)
    requires FinanceStep(db, t).Ok? && !t.Allocate? && !t.SetCap?
    ensures var next := FinanceStep(db, t).value;
            next.ledger == db.ledger && next.money.allocations == db.money.allocations
                && next.money.caps == db.money.caps
  {
    hide Finance.ReturnEach, HasUnsettledDispatch;
  }

  lemma SameAmounts(c: Config, db: DB, next: DB, s: Book)
    requires Linked(db) && SameBinds(db, next) && next.ledger == db.ledger
    requires next.money.allocations == db.money.allocations && next.money.caps == db.money.caps
    requires Balanced(c, db, s)
    ensures Balanced(c, next, s)
  {
    hide Linked, SameBinds;
    SameRow(c, db, next, s, 0, 1);
    SumsMove(c, db, next, s, 0);
    if s.OfOperation? {
      assert AllocationsOf(next, s.o) == AllocationsOf(db, s.o);
      forall x | x in next.ledger.dispatches
        ensures CurrencyAgrees(next, s.o, x)
      {
        assert CurrencyAgrees(db, s.o, x);
      }
    }
  }

  lemma FinancingBooked(c: Config, db: DB, t: FinanceTx, s: Book)
    requires FinanceStep(db, t).Ok? && SameBinds(db, FinanceStep(db, t).value)
    requires Linked(db) && Balanced(c, db, s) && (Opens(db, Financing(t), s) ==> Unused(c, db, s))
    ensures Balanced(c, FinanceStep(db, t).value, s)
  {
    hide FinanceStep, Linked, Balanced, Unused;
    if t.Allocate? {
      AllocateWrites(db, t);
      AllocateBooked(c, db, FinanceStep(db, t).value, t.o, s);
    } else if t.SetCap? {
      SetCapStep(db, t);
      SetCapBooked(c, db, t.k, t.ceiling, s);
    } else {
      FinanceKeepsBooks(db, t);
      SameAmounts(c, db, FinanceStep(db, t).value, s);
    }
  }

  lemma SetCapStep(db: DB, t: FinanceTx)
    requires t.SetCap?
    ensures FinanceStep(db, t) == Finance.SetCap(db, t.k, t.ceiling)
  {
  }

  // ---------- every transaction ----------

  lemma BindsKept(c: Config, db: DB, tx: Tx)
    ensures SameBinds(db, Apply(c, db, tx))
  {
    hide Apply, HasOpenAttempt, SendersActing;
    forall o | o in db.work.operations
      ensures o in Apply(c, db, tx).work.operations
          && Apply(c, db, tx).work.operations[o].bind == db.work.operations[o].bind
    {
      WorkSteps.StepOfWork(c, db, tx, o, 0);
    }
  }

  lemma AdmittingBooked(c: Config, db: DB, t: AdmissionTx, s: Book)
    requires InFlight(Admitting(t)) && AdmissionStep(c, db, t).Ok?
    requires Linked(db) && Balanced(c, db, s)
    ensures Balanced(c, AdmissionStep(c, db, t).value, s)
  {
    hide Admission.AdmitPrepare, Admission.AdmitConsume, Admission.Observe, Admission.ConfirmNotSent,
      Admission.MarkDispatchUncertain, Linked, Balanced, ObserveWrote;
    match t
    case AdmitPrepare(_, _, _, _, _, _) => PrepareBooked(c, db, t, s);
    case AdmitConsume(_, _, _) => ConsumeBooked(c, db, t, s);
    case MarkDispatchUncertain(id) => UncertainBooked(c, db, id, s);
    case ConfirmDispatchNotSent(id, evidence) => NotSentBooked(c, db, id, evidence, None, s);
    case ObserveDispatch(_, id, _, _) =>
      ObserveWrites(c, db, t);
      var next := AdmissionStep(c, db, t).value;
      if next != db {
        var meter, delta :| ObserveWrote(c, db, next, id, meter, delta);
        ObserveBooked(c, db, next, id, meter, delta, s);
      }
  }

  lemma BookedStep(c: Config, db: DB, tx: Tx, s: Book)
    requires InFlight(tx) && Linked(db) && Balanced(c, db, s) && (Opens(db, tx, s) ==> Unused(c, db, s))
    ensures Balanced(c, Apply(c, db, tx), s)
  {
    hide AdmissionStep, EffectStep, Releases.Record, GrantStep, ExecutionStep, Execution.CloseAttempt, ControlStep,
      FinanceStep, RunStep, Recovery.Restore, Recovery.Dispose, Linked, Balanced, Unused, SameBinds, CloseDenied;
    BindsKept(c, db, tx);
    if Step(c, db, tx).Ok? {
      var next := Step(c, db, tx).value;
      match tx
      case Admitting(t) => AdmittingBooked(c, db, t, s);
      case Closing(_, _, _, _, _) => CloseDenies(c, db, tx); ClosingBooked(c, db, next, tx, s);
      case Financing(t) => FinancingBooked(c, db, t, s);
      case Restoring(f, body) => RestoringBooked(c, db, f, body, s);
      case Disposing(req, bound) => DisposingBooked(c, db, req, bound, s);
      case _ => SameBooks(c, db, next, s);
    }
  }
}
