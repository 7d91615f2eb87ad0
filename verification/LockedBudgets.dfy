/** The locked accounting state of one operation's dispatches: its cost caps and its
    allocations, changed together in place and saved (internal/application/budget.go). */
module LockedBudgets {
  import opened Values
  import opened Budget
  import opened Records
  import opened Database
  import opened Accounts
  import opened Tables

  lemma {:induction false} AllMoved(s: seq<AllocationRow>, t: seq<AllocationRow>, what: Movement, m: Money)
    requires |s| == |t| && forall i | 0 <= i < |s| :: Move(s[i], what, m) == Ok(t[i])
    ensures MoveAll(s, what, m) == Ok(t)
  {
    if s != [] {
      AllMoved(s[1..], t[1..], what, m);
      assert t == [t[0]] + t[1..];
    }
  }

  /** The first refusal is the answer. */
  lemma {:induction false} FirstRefused(s: seq<AllocationRow>, i: nat, what: Movement, m: Money)
    requires i < |s| && Move(s[i], what, m).Err? && forall j | 0 <= j < i :: Move(s[j], what, m).Ok?
    ensures MoveAll(s, what, m) == Err(Move(s[i], what, m).error)
  {
    if i > 0 { FirstRefused(s[1..], i - 1, what, m); }
  }

  lemma RefusedIs(db: DB, o: Id, what: Movement, m: Money)
    requires o in db.work.operations && MoveAll(AllocationsOf(db, o), what, m).Err?
    ensures MoveBudget(db, o, what, m) == Err(MoveAll(AllocationsOf(db, o), what, m).error)
  {
  }

  lemma CounterRefusedIs(db: DB, o: Id, what: Movement, m: Money, k: CapKey)
    requires o in db.work.operations && MoveAll(AllocationsOf(db, o), what, m).Ok?
    requires k in db.money.caps && LockedBudget.BoundTo(db, o, k) && Shadows(k, m)
        && db.money.caps[k].Move(what, m.amount).Err?
    ensures MoveBudget(db, o, what, m) == Err(Invalid)
  {
    assert Counts(k, db.work.operations[o].bind.tenant, db.work.operations[o].bind.project, m.currency);
  }

  /** What a movement nobody refuses leaves. */
  lemma MovedIs(db: DB, o: Id, what: Movement, m: Money, moved: seq<AllocationRow>)
    requires o in db.work.operations && MoveAll(AllocationsOf(db, o), what, m) == Ok(moved)
    requires forall k | k in db.money.caps && LockedBudget.BoundTo(db, o, k) && Shadows(k, m) ::
        db.money.caps[k].Move(what, m.amount).Ok?
    ensures MoveBudget(db, o, what, m).Ok?
    ensures var next := MoveBudget(db, o, what, m).value;
            && SavesTo(db, next, o) && AllocationsOf(next, o) == moved
            && forall k | k in db.money.caps && LockedBudget.BoundTo(db, o, k) ::
                 next.money.caps[k] == if Shadows(k, m) then db.money.caps[k].Move(what, m.amount).value
                     else db.money.caps[k]
  {
  }

  class LockedBudget {
    const allocs: seq<Allocation>
    const caps: seq<CostCap>

    /** Every row is one object. */
    ghost predicate Valid() {
      && (forall i, j | 0 <= i < j < |allocs| :: allocs[i] != allocs[j])
      && (forall i, j | 0 <= i < j < |caps| :: caps[i] != caps[j] && caps[i].key != caps[j].key)
    }

    function Rows(): seq<AllocationRow>
      reads allocs
    {
      seq(|allocs|, i requires 0 <= i < |allocs| reads allocs => allocs[i].Row())
    }

    /** The objects are the rows the database holds for the operation: its allocations
        and every cap that binds it. */
    ghost predicate Locks(db: DB, o: Id)
      reads allocs, caps
    {
      && o in db.work.operations
      && Rows() == AllocationsOf(db, o)
      && (forall i | 0 <= i < |caps| :: HoldsCap(db, o, caps[i]))
      && (forall k | k in db.money.caps && BoundTo(db, o, k) :: exists i | 0 <= i < |caps| :: caps[i].key == k)
    }

    static ghost predicate BoundTo(db: DB, o: Id, k: CapKey)
      requires o in db.work.operations
    {
      k.Binds(db.work.operations[o].bind.tenant, db.work.operations[o].bind.project)
    }

    static ghost predicate HoldsCap(db: DB, o: Id, c: CostCap)
      requires o in db.work.operations
      reads c
    {
      HoldsCapAt(db, o, c.key, c.Row())
    }

    static ghost predicate HoldsCapAt(db: DB, o: Id, k: CapKey, row: CostCapRow)
      requires o in db.work.operations
    {
      k in db.money.caps && BoundTo(db, o, k) && row == db.money.caps[k]
    }

    constructor (a: seq<Allocation>, k: seq<CostCap>)
      ensures allocs == a && caps == k
    {
      allocs, caps := a, k;
    }

    /** The loops of reserve, restore, release and charge: the allocations first. */
    method MoveAllocations(what: Movement, m: Money) returns (r: Check)
      requires Valid()
      modifies allocs
      ensures match MoveAll(old(Rows()), what, m)
              case Ok(moved) => r == Pass && Rows() == moved
              case Err(e) => r == Fail(e)
    {
      ghost var was := Rows();
      for i := 0 to |allocs|
        invariant forall j | 0 <= j < i :: Budget.Move(was[j], what, m) == Ok(allocs[j].Row())
        invariant forall j | i <= j < |allocs| :: allocs[j].Row() == was[j]
      {
        match what {
          case ToReserve => r := allocs[i].Reserve(m);
          case ToRestore => r := allocs[i].Restore(m);
          case ToRelease => r := allocs[i].Release(m);
          case ToCharge => r := allocs[i].Charge(m, m, false);
        }
        if r.Fail? {
          FirstRefused(was, i, what, m);
          return;
        }
      }
      AllMoved(was, Rows(), what, m);
      r := Pass;
    }

    /** The counted caps of the currency follow. */
    method MoveCounters(what: Movement, m: Money) returns (r: Check)
      requires Valid()
      modifies caps
      ensures r == Pass ==> forall i | 0 <= i < |caps| :: CapMoved(old(caps[i].Row()), caps[i], what, m)
      ensures r.Fail? ==> r == Fail(Invalid) && exists i | 0 <= i < |caps| ::
                Shadows(caps[i].key, m) && old(caps[i].Row()).Move(what, m.amount).Err?
    {
      for i := 0 to |caps|
        invariant forall j | 0 <= j < i :: CapMoved(old(caps[j].Row()), caps[j], what, m)
        invariant forall j | i <= j < |caps| :: caps[j].Row() == old(caps[j].Row())
      {
        if Shadows(caps[i].key, m) {
          r := Pass;
          match what {
            case ToReserve => r := caps[i].Reserve(m.amount);
            case ToRestore => r := caps[i].Reserve(m.amount);
            case ToRelease => caps[i].Release(m.amount);
            case ToCharge => r := caps[i].Charge(m.amount);
          }
          if r.Fail? { return; }
        }
      }
      r := Pass;
    }

    /** reserve, restore, release and charge (internal/application/budget.go:42-97): on a
        refusal the transaction is lost with its objects. */
    method Move(what: Movement, m: Money, ghost db: DB, ghost o: Id) returns (r: Check)
      requires Valid() && Locks(db, o)
      modifies allocs, caps
      ensures match MoveBudget(db, o, what, m)
              case Err(e) => r == Fail(e)
              case Ok(next) => r == Pass && Locks(next, o) && SavesTo(db, next, o)
    {
      hide MoveBudget, MoveAll, AllocationsOf;
      r := MoveAllocations(what, m);
      if r.Fail? {
        RefusedIs(db, o, what, m);
        return;
      }
      ghost var moved := Rows();
      r := MoveCounters(what, m);
      if r.Fail? {
        ghost var i :| 0 <= i < |caps| && Shadows(caps[i].key, m) && old(caps[i].Row()).Move(what, m.amount).Err?;
        CounterRefusedIs(db, o, what, m, caps[i].key);
        return;
      }
      forall k | k in db.money.caps && BoundTo(db, o, k) && Shadows(k, m)
        ensures db.money.caps[k].Move(what, m.amount).Ok?
      {
        var i :| 0 <= i < |caps| && caps[i].key == k;
        assert CapMoved(old(caps[i].Row()), caps[i], what, m);
      }
      MovedIs(db, o, what, m, moved);
      ghost var next := MoveBudget(db, o, what, m).value;
      assert Rows() == moved;
      forall i | 0 <= i < |caps|
        ensures HoldsCap(next, o, caps[i])
      {
        assert CapMoved(old(caps[i].Row()), caps[i], what, m);
        assert HoldsCapAt(db, o, caps[i].key, old(caps[i].Row()));
      }
    }

    /** Writes the objects back: every counted cap, then the allocations
        (internal/application/budget.go:99-113). */
    method Save(store: Store, o: Id, ghost next: DB)
      requires Valid() && SavesTo(store.Snapshot(), next, o) && Locks(next, o)
      modifies store`money
      ensures store.Snapshot() == next
    {
      SaveCounters(store, next.money.caps, o, next);
      store.money := store.money.(allocations := store.money.allocations[o := Rows()]);
    }

    method SaveCounters(store: Store, ghost saved: map<CapKey, CostCapRow>, ghost o: Id, ghost next: DB)
      requires Valid() && SavesTo(store.Snapshot(), next, o) && Locks(next, o) && saved == next.money.caps
      modifies store`money
      ensures store.money == old(store.money).(caps := saved)
    {
      hide MoveBudget, AllocationsOf;
      ghost var before := store.money.caps;
      var counters := store.money.caps;
      ghost var done: set<CapKey> := {};
      assert forall i | 0 <= i < |caps| :: HoldsCapAt(next, o, caps[i].key, caps[i].Row());
      for i := 0 to |caps|
        invariant counters.Keys == before.Keys
        invariant forall j | 0 <= j < i && caps[j].key.Counted() :: caps[j].key in done
        invariant forall k | k in before :: counters[k] == if k in done then saved[k] else before[k]
      {
        if caps[i].key.Counted() {
          counters := counters[caps[i].key := caps[i].Row()];
          done := done + {caps[i].key};
        }
      }
      forall k | k in before
        ensures counters[k] == saved[k]
      {
        if k.Counted() && BoundTo(next, o, k) {
          ghost var i :| 0 <= i < |caps| && caps[i].key == k;
        }
      }
      store.money := store.money.(caps := counters);
    }
  }

  /** The cap counts amounts of the currency. */
  predicate Shadows(k: CapKey, m: Money) { k.Counted() && k.currency == m.currency }

  ghost predicate CapMoved(was: CostCapRow, c: CostCap, what: Movement, m: Money)
    reads c
  {
    if Shadows(c.key, m) then was.Move(what, m.amount) == Ok(c.Row()) else c.Row() == was
  }

  /** The state differs only in the operation's allocations and its counted caps. */
  ghost predicate SavesTo(db: DB, next: DB, o: Id) {
    && o in db.work.operations && o in next.money.allocations
    && next == db.(money := db.money.(allocations := db.money.allocations[o := next.money.allocations[o]],
                                      caps := next.money.caps))
    && next.money.caps.Keys == db.money.caps.Keys
    && forall k | k in db.money.caps && !(k.Counted() && LockedBudget.BoundTo(db, o, k)) ::
        next.money.caps[k] == db.money.caps[k]
  }

  method LockAllocations(rows: seq<AllocationRow>) returns (allocs: seq<Allocation>)
    ensures |allocs| == |rows| && fresh(allocs)
    ensures forall i, j | 0 <= i < j < |allocs| :: allocs[i] != allocs[j]
    ensures forall i | 0 <= i < |rows| :: allocs[i].Row() == rows[i]
  {
    allocs := [];
    for i := 0 to |rows|
      invariant |allocs| == i && fresh(allocs)
      invariant forall j, k | 0 <= j < k < i :: allocs[j] != allocs[k]
      invariant forall j | 0 <= j < i :: allocs[j].Row() == rows[j]
    {
      var a := new Allocation(rows[i]);
      allocs := allocs + [a];
    }
  }

  method LockCaps(table: map<CapKey, CostCapRow>) returns (caps: seq<CostCap>)
    ensures fresh(caps)
    ensures forall i, j | 0 <= i < j < |caps| :: caps[i] != caps[j] && caps[i].key != caps[j].key
    ensures forall i | 0 <= i < |caps| :: caps[i].key in table && caps[i].Row() == table[caps[i].key]
    ensures forall k | k in table :: exists i | 0 <= i < |caps| :: caps[i].key == k
  {
    caps := [];
    var rest := table.Keys;
    while rest != {}
      invariant rest <= table.Keys && fresh(caps)
      invariant forall i, j | 0 <= i < j < |caps| :: caps[i] != caps[j] && caps[i].key != caps[j].key
      invariant forall i | 0 <= i < |caps| ::
          caps[i].key !in rest && caps[i].key in table && caps[i].Row() == table[caps[i].key]
      invariant forall k | k in table :: k in rest || exists i | 0 <= i < |caps| :: caps[i].key == k
      decreases rest
    {
      var k :| k in rest;
      var c := new CostCap(k, table[k]);
      ghost var had := caps;
      caps := caps + [c];
      rest := rest - {k};
      assert caps[|caps| - 1].key == k;
      assert forall i | 0 <= i < |had| :: caps[i] == had[i];
    }
  }

  /** Takes the rows of an operation for one transaction: its caps, then its
      allocations. */
  method Lock(store: Store, o: Id) returns (b: LockedBudget)
    requires o in store.work.operations
    ensures fresh(b) && fresh(b.allocs) && fresh(b.caps) && b.Valid() && b.Locks(store.Snapshot(), o)
  {
    var bind := store.work.operations[o].bind;
    var table := map k | k in store.money.caps && k.Binds(bind.tenant, bind.project) :: store.money.caps[k];
    var caps := LockCaps(table);
    var allocs := LockAllocations(AllocationsOf(store.Snapshot(), o));
    b := new LockedBudget(allocs, caps);
    assert b.Rows() == AllocationsOf(store.Snapshot(), o);
    assert forall k | k in store.money.caps && LockedBudget.BoundTo(store.Snapshot(), o, k) :: k in table;
  }
}
