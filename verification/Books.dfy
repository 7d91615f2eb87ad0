/** The books an operation's money is kept in: its allocations and the counted caps
    of its tenant and project, each against the dispatches it answers for
    (internal/application/budget.go, internal/domain/finance.go:48-89). */
module Books {
  import opened Values
  import opened Budget
  import opened Records
  import opened Database
  import opened Sums

  /** One book: every allocation of an operation, or one counted cap. */
  datatype Book = OfOperation(o: Id) | OfCap(k: CapKey)

  /** The reservation of a binding counts in the book. */
  predicate Reserves(db: DB, s: Book, b: DispatchBinding) {
    match s
    case OfOperation(o) => b.operation == o
    case OfCap(k) =>
      b.operation in db.work.operations
      && var op := db.work.operations[b.operation].bind; Counts(k, op.tenant, op.project, b.reserved.currency)
  }

  /** The cost of a binding counts in the book; it is in the currency of its price. */
  predicate Charges(c: Config, db: DB, s: Book, b: DispatchBinding) {
    match s
    case OfOperation(o) => b.operation == o
    case OfCap(k) =>
      b.operation in db.work.operations && c.PriceOf(b.meter).Some?
      && var op := db.work.operations[b.operation].bind;
          Counts(k, op.tenant, op.project, c.PriceOf(b.meter).value.currency)
  }

  /** What one dispatch holds of a book, and what it was charged in it. */
  function HeldAt(db: DB, s: Book, d: Id): int {
    if d in db.ledger.dispatches && db.ledger.dispatches[d].state.Held()
        && Reserves(db, s, db.ledger.dispatches[d].bind)
    then db.ledger.dispatches[d].bind.reserved.amount else 0
  }

  function ChargedAt(c: Config, db: DB, s: Book, d: Id): int {
    if d in db.ledger.dispatches && Charges(c, db, s, db.ledger.dispatches[d].bind) then MeterOf(db, d).charged else 0
  }

  function HeldBy(db: DB, s: Book): map<Id, int> {
    map d | d in db.ledger.dispatches :: HeldAt(db, s, d)
  }

  function ChargedBy(c: Config, db: DB, s: Book): map<Id, int> {
    map d | d in db.ledger.dispatches :: ChargedAt(c, db, s, d)
  }

  ghost function Held(db: DB, s: Book): int { Sum(HeldBy(db, s)) }

  ghost function Charged(c: Config, db: DB, s: Book): int { Sum(ChargedBy(c, db, s)) }

  predicate RowExact(a: AllocationRow, held: int, charged: int) {
    a.Sane() && a.reserved == held && a.consumed == charged
  }

  predicate CurrencyAgrees(db: DB, o: Id, d: Id) {
    HeldRow(db, o, d) ==>
      forall i | 0 <= i < |AllocationsOf(db, o)| ::
          AllocationsOf(db, o)[i].currency == db.ledger.dispatches[d].bind.reserved.currency
  }

  /** The book shows exactly what its dispatches hold and were charged. */
  ghost predicate Exact(c: Config, db: DB, s: Book) {
    match s
    case OfOperation(o) =>
      forall i | 0 <= i < |AllocationsOf(db, o)| :: RowExact(AllocationsOf(db, o)[i], Held(db, s), Charged(c, db, s))
    case OfCap(k) =>
      k in db.money.caps && k.Counted() ==>
        db.money.caps[k].reserved == Held(db, s) && db.money.caps[k].consumed == Charged(c, db, s)
  }

  /** Every dispatch belongs to an operation there is, reserves no negative amount while
      it holds and, while it is prepared, to an attempt of that operation; and only
      dispatches are metered. */
  ghost predicate Linked(db: DB) {
    && (forall d | d in db.ledger.dispatches :: LinkedRow(db, d))
    && (forall d | d in db.ledger.meters :: d in db.ledger.dispatches)
  }

  predicate LinkedRow(db: DB, d: Id)
    requires d in db.ledger.dispatches
  {
    && db.ledger.dispatches[d].bind.operation in db.work.operations
    && (db.ledger.dispatches[d].state.Held() ==> db.ledger.dispatches[d].bind.reserved.amount >= 0)
    && (db.ledger.dispatches[d].state == DispatchPrepared ==>
          && db.ledger.dispatches[d].bind.attempt in db.work.attempts
          && db.work.attempts[db.ledger.dispatches[d].bind.attempt].bind.operation
              == db.ledger.dispatches[d].bind.operation)
  }

  /** The operations a dispatch may belong to keep their scope. */
  ghost predicate SameBinds(db: DB, next: DB) {
    forall o | o in db.work.operations ::
        o in next.work.operations && next.work.operations[o].bind == db.work.operations[o].bind
  }

  // ---------- sums ----------

  /** One dispatch changed at most: the sums move by what it moved. */
  lemma SumsMove(c: Config, db: DB, next: DB, s: Book, d: Id)
    requires Linked(db) && SameBinds(db, next)
    requires next.ledger.dispatches - {d} == db.ledger.dispatches - {d}
    requires next.ledger.meters - {d} == db.ledger.meters - {d}
    ensures Held(next, s) - HeldAt(next, s, d) == Held(db, s) - HeldAt(db, s, d)
    ensures Charged(c, next, s) - ChargedAt(c, next, s, d) == Charged(c, db, s) - ChargedAt(c, db, s, d)
  {
    hide HeldAt, ChargedAt, Linked, SameBinds;
    forall x | x != d
      ensures x in HeldBy(db, s) <==> x in HeldBy(next, s)
      ensures x in HeldBy(db, s) ==> HeldBy(db, s)[x] == HeldBy(next, s)[x]
      ensures x in HeldBy(db, s) ==> ChargedBy(c, db, s)[x] == ChargedBy(c, next, s)[x]
    {
      SameRow(c, db, next, s, x, d);
    }
    SumChangeAt(HeldBy(db, s), HeldBy(next, s), d);
    SumChangeAt(ChargedBy(c, db, s), ChargedBy(c, next, s), d);
    OutsideIsZero(c, db, s, d);
    OutsideIsZero(c, next, s, d);
  }

  lemma OutsideIsZero(c: Config, db: DB, s: Book, d: Id)
    ensures d !in db.ledger.dispatches ==> HeldAt(db, s, d) == 0 && ChargedAt(c, db, s, d) == 0
  {
  }

  lemma SameRow(c: Config, db: DB, next: DB, s: Book, x: Id, d: Id)
    requires Linked(db) && SameBinds(db, next) && x != d
    requires next.ledger.dispatches - {d} == db.ledger.dispatches - {d}
    requires next.ledger.meters - {d} == db.ledger.meters - {d}
    ensures (x in next.ledger.dispatches) == (x in db.ledger.dispatches)
    ensures HeldAt(next, s, x) == HeldAt(db, s, x) && ChargedAt(c, next, s, x) == ChargedAt(c, db, s, x)
  {
    assert x in next.ledger.dispatches <==> x in next.ledger.dispatches - {d};
    assert x in db.ledger.dispatches <==> x in db.ledger.dispatches - {d};
    assert x in next.ledger.meters <==> x in next.ledger.meters - {d};
    assert x in db.ledger.meters <==> x in db.ledger.meters - {d};
    if x in db.ledger.dispatches {
      assert next.ledger.dispatches[x] == (next.ledger.dispatches - {d})[x];
      assert db.ledger.dispatches[x] == (db.ledger.dispatches - {d})[x];
      assert LinkedRow(db, x);
    }
    if x in db.ledger.meters {
      assert next.ledger.meters[x] == (next.ledger.meters - {d})[x];
      assert db.ledger.meters[x] == (db.ledger.meters - {d})[x];
    }
  }

  lemma HeldIsAtLeast(db: DB, s: Book, d: Id)
    requires Linked(db)
    ensures 0 <= HeldAt(db, s, d) <= Held(db, s)
  {
    var h := HeldBy(db, s);
    assert forall x | x in h :: LinkedRow(db, x);
    SumNonNegative(h);
    if d in h { SumBounds(h, d); }
  }

  lemma ChargedIsNonNegative(c: Config, db: DB, s: Book)
    ensures Charged(c, db, s) >= 0
  {
    SumNonNegative(ChargedBy(c, db, s));
  }

  // ---------- movements ----------

  function ReservedDelta(what: Movement, m: Money): int {
    match what
    case ToReserve => m.amount
    case ToRestore => m.amount
    case ToRelease => 0 - (m.amount as int)
    case ToCharge => 0
  }

  function ConsumedDelta(what: Movement, m: Money): int {
    if what.ToCharge? then m.amount else 0
  }

  predicate RowMoved(a: AllocationRow, b: AllocationRow, what: Movement, m: Money) {
    && b.pool == a.pool && b.currency == a.currency && b.amount == a.amount && a.currency == m.currency
    && b.reserved == a.reserved + ReservedDelta(what, m) && b.consumed == a.consumed + ConsumedDelta(what, m)
    && b.Sane()
  }

  /** No movement wraps: what it writes is the mathematical sum. */
  lemma MoveIsExact(a: AllocationRow, what: Movement, m: Money)
    requires a.Sane() && m.amount >= 0 && Move(a, what, m).Ok?
    ensures RowMoved(a, Move(a, what, m).value, what, m)
  {
    match what
    case ToReserve => ReserveIsExact(a, m);
    case ToRestore => AddInt64Exact(a.reserved, m.amount);
    case ToRelease =>
    case ToCharge => AddInt64Exact(a.consumed, m.amount);
  }

  /** A release of what a row holds is never refused. */
  lemma {:induction false} ReleaseIsAccepted(rows: seq<AllocationRow>, m: Money)
    requires m.amount >= 0
    requires forall i | 0 <= i < |rows| :: rows[i].currency == m.currency && m.amount <= rows[i].reserved
    ensures MoveAll(rows, ToRelease, m).Ok?
  {
    if rows != [] {
      var rest := rows[1..];
      assert forall i | 0 <= i < |rest| :: rest[i] == rows[i + 1];
      ReleaseIsAccepted(rest, m);
    }
  }

  /** The movement is written in the book. */
  predicate Hits(db: DB, s: Book, o: Id, currency: Name) {
    match s
    case OfOperation(x) => x == o
    case OfCap(k) =>
        o in db.work.operations && Counts(k, db.work.operations[o].bind.tenant, db.work.operations[o].bind.project,
                                          currency)
  }

  lemma RowsMove(db: DB, o: Id, what: Movement, m: Money, x: Id)
    requires o in db.work.operations && m.amount >= 0 && MoveBudget(db, o, what, m).Ok?
    requires forall i | 0 <= i < |AllocationsOf(db, x)| :: AllocationsOf(db, x)[i].Sane()
    ensures var a, b := AllocationsOf(db, x), AllocationsOf(MoveBudget(db, o, what, m).value, x);
            && |b| == |a|
            && (x != o ==> b == a)
            && (x == o ==> forall i | 0 <= i < |a| :: RowMoved(a[i], b[i], what, m))
  {
    var a, b := AllocationsOf(db, x), AllocationsOf(MoveBudget(db, o, what, m).value, x);
    if x == o {
      forall i | 0 <= i < |a|
        ensures RowMoved(a[i], b[i], what, m)
      {
        assert Move(a[i], what, m) == Ok(b[i]);
        MoveIsExact(a[i], what, m);
      }
    }
  }

  /** A counted cap moves by the same amount; a release that is covered never clamps. */
  lemma CapMoves(db: DB, o: Id, what: Movement, m: Money, k: CapKey)
    requires o in db.work.operations && m.amount >= 0 && MoveBudget(db, o, what, m).Ok?
    requires k in db.money.caps && db.money.caps[k].Sane()
    requires what.ToRelease? && Hits(db, OfCap(k), o, m.currency) ==> m.amount <= db.money.caps[k].reserved
    ensures var next := MoveBudget(db, o, what, m).value;
            && k in next.money.caps
            && next.money.caps[k].reserved ==
               db.money.caps[k].reserved + (if Hits(db, OfCap(k), o, m.currency) then ReservedDelta(what, m) else 0)
            && next.money.caps[k].consumed ==
               db.money.caps[k].consumed + (if Hits(db, OfCap(k), o, m.currency) then ConsumedDelta(what, m) else 0)
  {
    AddInt64Exact(db.money.caps[k].reserved, m.amount);
    AddInt64Exact(db.money.caps[k].consumed, m.amount);
  }

  lemma NoNewCaps(db: DB, o: Id, what: Movement, m: Money, k: CapKey)
    requires o in db.work.operations && MoveBudget(db, o, what, m).Ok?
    ensures k in MoveBudget(db, o, what, m).value.money.caps <==> k in db.money.caps
  {
  }

  /** A movement of the money that matches the movement of the sums keeps the book exact. */
  lemma MovedStaysExact(c: Config, db: DB, next: DB, o: Id, what: Movement, m: Money, s: Book)
    requires Linked(db) && o in db.work.operations && m.amount >= 0 && MoveBudget(db, o, what, m).Ok?
    requires next.money == MoveBudget(db, o, what, m).value.money
    requires var hit := Hits(db, s, o, m.currency);
             && Held(next, s) == Held(db, s) + (if hit then ReservedDelta(what, m) else 0)
             && Charged(c, next, s) == Charged(c, db, s) + (if hit then ConsumedDelta(what, m) else 0)
             && (what.ToRelease? && hit ==> m.amount <= Held(db, s))
    requires Exact(c, db, s)
    ensures Exact(c, next, s)
  {
    hide MoveBudget, Linked;
    HeldIsAtLeast(db, s, 0);
    ChargedIsNonNegative(c, db, s);
    match s
    case OfOperation(x) => RowsMove(db, o, what, m, x);
    case OfCap(k) =>
      NoNewCaps(db, o, what, m, k);
      if k in db.money.caps && k.Counted() { CapMoves(db, o, what, m, k); }
  }
}
