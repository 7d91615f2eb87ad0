/** Pool conservation: what a pool has allotted is what its allocations still hold of
    it, each allocation returns once, and no return is refused
    (internal/application/dispatch.go:60-139, internal/application/finance.go:372-455,
    internal/domain/finance.go:176-191, internal/domain/budget.go:281-298). */
module PoolShares {
  import opened Values
  import opened Budget
  import opened Records
  import opened Database
  import opened Transactions
  import opened Sums
  import Admission
  import Conservation
  import DispatchSteps
  import Effects
  import Execution
  import Finance
  import Recovery
  import Releases
  import Solvency
  import Termination
  import WorkSteps

  // ---------- shares ----------

  /** What the allocations of one operation hold of a pool: their amounts, less what
      they returned. */
  function ShareOf(rows: seq<AllocationRow>, returned: map<Id, int>, pool: Id): int {
    if rows == [] then 0
    else
      var last := rows[|rows| - 1];
      ShareOf(rows[..|rows| - 1], returned, pool)
      + if last.pool == pool then last.amount - (if pool in returned then returned[pool] else 0) else 0
  }

  /** The operations with allocations, and what each holds of the pool. */
  function SharesOf(db: DB, pool: Id): map<Id, int> {
    map o | o in db.money.allocations :: ShareOf(db.money.allocations[o], ReturnsOf(db, o), pool)
  }

  /** An operation has one allocation per pool, of a pool there is; each returned part is
      of one of its allocations and within it. */
  predicate OneEach(rows: seq<AllocationRow>, returned: map<Id, int>, pools: map<Id, Pool>) {
    && (forall i, j | 0 <= i < j < |rows| :: rows[i].pool != rows[j].pool)
    && (forall i | 0 <= i < |rows| :: rows[i].pool in pools && 0 <= rows[i].amount && 0 <= rows[i].consumed)
    && (forall p | p in returned ::
        exists i | 0 <= i < |rows| :: rows[i].pool == p && 0 <= returned[p] <= rows[i].amount)
  }

  ghost predicate Shared(db: DB) {
    && (forall p | p in db.money.pools :: db.money.pools[p].allotted == Sum(SharesOf(db, p)))
    && (forall o :: OneEach(AllocationsOf(db, o), ReturnsOf(db, o), db.money.pools))
  }

  lemma {:induction false} ShareIsNonNegative(rows: seq<AllocationRow>, returned: map<Id, int>, pools: map<Id, Pool>,
                                              pool: Id)
    requires OneEach(rows, returned, pools)
    ensures ShareOf(rows, returned, pool) >= 0
  {
    ShareOfPool(rows, returned, pool);
  }

  /** With one allocation per pool the share is that allocation's. */
  lemma {:induction false} ShareOfPool(rows: seq<AllocationRow>, returned: map<Id, int>, pool: Id)
    requires forall i, j | 0 <= i < j < |rows| :: rows[i].pool != rows[j].pool
    ensures (forall i | 0 <= i < |rows| :: rows[i].pool != pool) ==> ShareOf(rows, returned, pool) == 0
    ensures forall i | 0 <= i < |rows| && rows[i].pool == pool ::
              ShareOf(rows, returned, pool) == rows[i].amount - (if pool in returned then returned[pool] else 0)
  {
    if rows != [] {
      var n := |rows| - 1;
      var init := rows[..n];
      assert forall i | 0 <= i < n :: init[i] == rows[i];
      ShareOfPool(init, returned, pool);
    }
  }

  lemma {:induction false} SameShare(a: seq<AllocationRow>, b: seq<AllocationRow>, returned: map<Id, int>, pool: Id)
    requires |a| == |b| && forall i | 0 <= i < |a| :: a[i].pool == b[i].pool && a[i].amount == b[i].amount
    ensures ShareOf(a, returned, pool) == ShareOf(b, returned, pool)
  {
    if a != [] {
      SameShare(a[..|a| - 1], b[..|b| - 1], returned, pool);
    }
  }

  // ---------- drawing ----------

  /** Drawing from a pool adds to the pool exactly what it adds to the share. */
  lemma {:induction false} DrawShares(pools: map<Id, Pool>, rows: seq<AllocationRow>, returned: map<Id, int>,
                                      listed: seq<Id>, amount: Money,
                                      now: Time, p: Id)
    requires forall i | 0 <= i < |listed| :: listed[i] in pools
    requires OneEach(rows, returned, pools) && Finance.Draw(pools, rows, listed, amount, now).Ok?
    ensures var share := Finance.Draw(pools, rows, listed, amount, now).value;
            && share.pools.Keys == pools.Keys
            && OneEach(share.rows, returned, share.pools)
            && (p in pools ==>
                share.pools[p].allotted - ShareOf(share.rows, returned, p) == pools[p].allotted - ShareOf(rows,
                returned, p))
    decreases |listed|
  {
    if listed != [] {
      if Finance.Holds(rows, listed[0]) {
        DrawShares(pools, rows, returned, listed[1..], amount, now, p);
      } else {
        var pool := pools[listed[0]];
        var drawn := pool.Allocate(amount, now).value;
        var row := AllocationRow(listed[0], drawn.currency, amount.amount, 0, 0);
        AddInt64Exact(pool.allotted, amount.amount);
        var more := rows + [row];
        assert more[..|rows|] == rows;
        assert listed[0] !in returned;
        assert forall q | q in returned ::
            exists i | 0 <= i < |more| :: more[i].pool == q && 0 <= returned[q] <= more[i].amount by {
          forall q | q in returned
            ensures exists i | 0 <= i < |more| :: more[i].pool == q && 0 <= returned[q] <= more[i].amount
          {
            var i :| 0 <= i < |rows| && rows[i].pool == q && 0 <= returned[q] <= rows[i].amount;
            assert more[i] == rows[i];
          }
        }
        assert ShareOf(more, returned, p) == ShareOf(rows, returned, p) + if listed[0] == p then amount.amount else 0;
        DrawShares(pools[listed[0] := drawn], more, returned, listed[1..], amount, now, p);
      }
    }
  }

  // ---------- returning ----------

  predicate Covered(rows: seq<AllocationRow>, ledger: Finance.Returns) {
    && OneEach(rows, ledger.returned, ledger.pools)
    && forall q | q in ledger.pools :: ShareOf(rows, ledger.returned, q) <= ledger.pools[q].allotted
  }

  /** The gap between a pool and the share of it. */
  function Rest(rows: seq<AllocationRow>, ledger: Finance.Returns, q: Id): int
    requires q in ledger.pools
  {
    ledger.pools[q].allotted - ShareOf(rows, ledger.returned, q)
  }

  /** The ledger after one allocation returned. */
  function ReturnOne(row: AllocationRow, ledger: Finance.Returns): Finance.Returns
    requires row.pool in ledger.pools && ledger.pools[row.pool].Return(Max(0, row.amount - row.consumed)).Ok?
  {
    var unspent := Max(0, row.amount - row.consumed);
    Finance.Returns(ledger.pools[row.pool := ledger.pools[row.pool].Return(unspent).value],
                    ledger.returned[row.pool := unspent])
  }

  lemma OneReturns(rows: seq<AllocationRow>, k: nat, ledger: Finance.Returns)
    requires k < |rows| && Covered(rows, ledger) && rows[k].pool !in ledger.returned && rows[k].reserved == 0
    ensures rows[k].ReturnUnspent() == Ok(Max(0, rows[k].amount - rows[k].consumed))
    ensures rows[k].pool in ledger.pools && ledger.pools[rows[k].pool].Return(Max(0,
        rows[k].amount - rows[k].consumed)).Ok?
    ensures Covered(rows, ReturnOne(rows[k], ledger))
    ensures forall q | q in ledger.pools :: Rest(rows, ReturnOne(rows[k], ledger), q) == Rest(rows, ledger, q)
  {
    var row := rows[k];
    ShareOfPool(rows, ledger.returned, row.pool);
    var after := ReturnOne(row, ledger);
    forall q | q in after.returned
      ensures exists i | 0 <= i < |rows| :: rows[i].pool == q && 0 <= after.returned[q] <= rows[i].amount
    {
      if q == row.pool {
        assert rows[k].pool == q;
      } else {
        var i :| 0 <= i < |rows| && rows[i].pool == q && 0 <= ledger.returned[q] <= rows[i].amount;
      }
    }
    forall q | q in ledger.pools
      ensures Rest(rows, after, q) == Rest(rows, ledger, q)
    {
      OtherShare(rows, ledger.returned, row.pool, after.returned[row.pool], q);
      ShareOfPool(rows, after.returned, row.pool);
    }
    forall q | q in after.pools
      ensures ShareOf(rows, after.returned, q) <= after.pools[q].allotted
    {
      assert Rest(rows, after, q) == Rest(rows, ledger, q);
    }
  }

  lemma {:induction false} OtherShare(rows: seq<AllocationRow>, returned: map<Id, int>, p: Id, amount: int, q: Id)
    ensures q != p ==> ShareOf(rows, returned[p := amount], q) == ShareOf(rows, returned, q)
  {
    if rows != [] { OtherShare(rows[..|rows| - 1], returned, p, amount, q); }
  }

  /** Returning gives back to each pool exactly what it takes from the share, once each,
      and is never refused. */
  lemma {:induction false} ReturnShares(rows: seq<AllocationRow>, k: nat, ledger: Finance.Returns)
    requires k <= |rows| && (forall i | 0 <= i < |rows| :: rows[i].reserved == 0) && Covered(rows, ledger)
    ensures Finance.ReturnEach(rows[k..], ledger).Ok?
    ensures var next := Finance.ReturnEach(rows[k..], ledger).value;
            && next.pools.Keys == ledger.pools.Keys && Covered(rows, next)
            && (forall q | q in ledger.returned :: q in next.returned && next.returned[q] == ledger.returned[q])
            && (forall i | k <= i < |rows| :: rows[i].pool in next.returned)
            && (forall q | q in ledger.pools :: Rest(rows, next, q) == Rest(rows, ledger, q))
    decreases |rows| - k
  {
    hide Covered;
    if k < |rows| {
      assert rows[k..][0] == rows[k] && rows[k..][1..] == rows[k + 1..];
      if rows[k].pool in ledger.returned {
        ReturnShares(rows, k + 1, ledger);
      } else {
        OneReturns(rows, k, ledger);
        ReturnShares(rows, k + 1, ReturnOne(rows[k], ledger));
      }
    }
  }

  // ---------- the transactions ----------

  /** Only a finance transaction moves a pool or records a return. */
  lemma PoolsKept(c: Config, db: DB, tx: Tx)
    requires !tx.Financing?
    ensures Apply(c, db, tx).money.pools == db.money.pools && Apply(c, db, tx).money.returned == db.money.returned
  {
    hide AdmissionStep, EffectStep, Releases.Record, GrantStep, ExecutionStep, Execution.CloseAttempt, ControlStep,
      RunStep, Recovery.Restore, Recovery.Dispose;
  }

  /** The rows of each operation stay what they are but for their counters. */
  lemma SharedKept(db: DB, next: DB)
    requires Shared(db)
    requires next.money.pools.Keys == db.money.pools.Keys && next.money.returned == db.money.returned
    requires forall p | p in db.money.pools :: next.money.pools[p].allotted == db.money.pools[p].allotted
    requires forall o :: Solvency.AmountsKept(db, next, o)
    ensures Shared(next)
  {
    forall o
      ensures OneEach(AllocationsOf(next, o), ReturnsOf(next, o), next.money.pools)
      ensures forall p ::
          ShareOf(AllocationsOf(next, o), ReturnsOf(next, o), p) == ShareOf(AllocationsOf(db, o), ReturnsOf(db, o), p)
    {
      KeptRows(db, next, o);
    }
    forall p | p in next.money.pools
      ensures next.money.pools[p].allotted == Sum(SharesOf(next, p))
    {
      SameShares(db, next, p);
    }
  }

  lemma KeptRows(db: DB, next: DB, o: Id)
    requires Solvency.AmountsKept(db, next, o) && next.money.returned == db.money.returned
        && next.money.pools.Keys == db.money.pools.Keys
    requires OneEach(AllocationsOf(db, o), ReturnsOf(db, o), db.money.pools)
    ensures OneEach(AllocationsOf(next, o), ReturnsOf(next, o), next.money.pools)
    ensures forall p ::
        ShareOf(AllocationsOf(next, o), ReturnsOf(next, o), p) == ShareOf(AllocationsOf(db, o), ReturnsOf(db, o), p)
  {
    var a, b := AllocationsOf(db, o), AllocationsOf(next, o);
    forall p
      ensures ShareOf(b, ReturnsOf(next, o), p) == ShareOf(a, ReturnsOf(db, o), p)
    {
      SameShare(a, b, ReturnsOf(db, o), p);
    }
    forall p | p in ReturnsOf(next, o)
      ensures exists i | 0 <= i < |b| :: b[i].pool == p && 0 <= ReturnsOf(next, o)[p] <= b[i].amount
    {
      var i :| 0 <= i < |a| && a[i].pool == p && 0 <= ReturnsOf(db, o)[p] <= a[i].amount;
      assert b[i].pool == p;
    }
  }

  /** Operations without rows share nothing, so the sums agree when the shares do. */
  lemma SameShares(db: DB, next: DB, p: Id)
    requires forall o ::
        ShareOf(AllocationsOf(next, o), ReturnsOf(next, o), p) == ShareOf(AllocationsOf(db, o), ReturnsOf(db, o), p)
    ensures Sum(SharesOf(next, p)) == Sum(SharesOf(db, p))
  {
    var all := map o | o in db.money.allocations.Keys + next.money.allocations.Keys ::
        ShareOf(AllocationsOf(db, o), ReturnsOf(db, o), p);
    forall o | o in all
      ensures all[o] == if o in SharesOf(db, p) then SharesOf(db, p)[o] else 0
    {
    }
    forall o | o in all
      ensures all[o] == if o in SharesOf(next, p) then SharesOf(next, p)[o] else 0
    {
      assert ShareOf(AllocationsOf(next, o), ReturnsOf(next, o), p) == all[o];
    }
    SumPadded(all, SharesOf(db, p));
    SumPadded(all, SharesOf(next, p));
  }

  /** One operation's rows, returns and pools move together. */
  lemma SharedMoved(db: DB, next: DB, o: Id)
    requires Shared(db)
    requires forall x | x != o ::
        AllocationsOf(next, x) == AllocationsOf(db, x) && ReturnsOf(next, x) == ReturnsOf(db, x)
    requires next.money.pools.Keys == db.money.pools.Keys
    requires OneEach(AllocationsOf(next, o), ReturnsOf(next, o), next.money.pools)
    requires forall p | p in db.money.pools ::
               next.money.pools[p].allotted - ShareOf(AllocationsOf(next, o), ReturnsOf(next, o), p)
               == db.money.pools[p].allotted - ShareOf(AllocationsOf(db, o), ReturnsOf(db, o), p)
    ensures Shared(next)
  {
    hide OneEach, ShareOf, SharesOf, AllocationsOf, ReturnsOf;
    forall x
      ensures OneEach(AllocationsOf(next, x), ReturnsOf(next, x), next.money.pools)
    {
      SameKeys(AllocationsOf(next, x), ReturnsOf(next, x), db.money.pools, next.money.pools);
      assert OneEach(AllocationsOf(db, x), ReturnsOf(db, x), db.money.pools);
    }
    forall p | p in next.money.pools
      ensures next.money.pools[p].allotted == Sum(SharesOf(next, p))
    {
      ShareMoved(db, next, o, p);
    }
  }

  lemma SameKeys(rows: seq<AllocationRow>, recorded: map<Id, int>, pools: map<Id, Pool>, next: map<Id, Pool>)
    requires next.Keys == pools.Keys
    ensures OneEach(rows, recorded, next) == OneEach(rows, recorded, pools)
  {
  }

  lemma ShareMoved(db: DB, next: DB, o: Id, p: Id)
    requires forall x | x != o ::
        AllocationsOf(next, x) == AllocationsOf(db, x) && ReturnsOf(next, x) == ReturnsOf(db, x)
    ensures Sum(SharesOf(next, p)) - ShareOf(AllocationsOf(next, o), ReturnsOf(next, o), p)
            == Sum(SharesOf(db, p)) - ShareOf(AllocationsOf(db, o), ReturnsOf(db, o), p)
  {
    var keys := db.money.allocations.Keys + next.money.allocations.Keys + {o};
    var a := map x | x in keys :: ShareOf(AllocationsOf(db, x), ReturnsOf(db, x), p);
    var b := map x | x in keys :: ShareOf(AllocationsOf(next, x), ReturnsOf(next, x), p);
    SumPadded(a, SharesOf(db, p));
    SumPadded(b, SharesOf(next, p));
    SumChangeAt(a, b, o);
  }

  lemma AllocateShared(db: DB, t: FinanceTx)
    requires t.Allocate? && FinanceStep(db, t).Ok? && Shared(db)
    ensures Shared(FinanceStep(db, t).value)
  {
    hide Finance.Draw, Finance.SameLevelTwice, Finance.HasLevel, Shared;
    var next := FinanceStep(db, t).value;
    if next != db {
      var rows := AllocationsOf(db, t.o);
      SharedOne(db, t.o);
      forall p | p in db.money.pools
        ensures next.money.pools.Keys == db.money.pools.Keys
        ensures OneEach(AllocationsOf(next, t.o), ReturnsOf(next, t.o), next.money.pools)
        ensures next.money.pools[p].allotted - ShareOf(AllocationsOf(next, t.o), ReturnsOf(next, t.o), p)
            == db.money.pools[p].allotted - ShareOf(rows, ReturnsOf(db, t.o), p)
      {
        DrawShares(db.money.pools, rows, ReturnsOf(db, t.o), t.listed, t.amount, t.now, p);
      }
      DrawShares(db.money.pools, rows, ReturnsOf(db, t.o), t.listed, t.amount, t.now, 0);
      SharedMoved(db, next, t.o);
    }
  }

  lemma SharedOne(db: DB, o: Id)
    requires Shared(db)
    ensures OneEach(AllocationsOf(db, o), ReturnsOf(db, o), db.money.pools)
  {
  }

  /** The pool of a settlement covers every share of it, so nothing is refused. */
  lemma CoveredOne(db: DB, o: Id)
    requires Shared(db)
    ensures Covered(AllocationsOf(db, o), Finance.Returns(db.money.pools, ReturnsOf(db, o)))
  {
    forall p | p in db.money.pools
      ensures ShareOf(AllocationsOf(db, o), ReturnsOf(db, o), p) <= db.money.pools[p].allotted
    {
      var shares := SharesOf(db, p);
      forall x | x in shares
        ensures shares[x] >= 0
      {
        SharedOne(db, x);
        ShareIsNonNegative(AllocationsOf(db, x), ReturnsOf(db, x), db.money.pools, p);
      }
      if o in shares { SumBounds(shares, o); } else { SumNonNegative(shares); }
    }
  }

  /** Settling a terminal operation's money is never refused. */
  lemma SettlementIsNeverRefused(db: DB, o: Id)
    requires Shared(db) && o in db.work.operations
    ensures Finance.SettleFinance(db, o).Ok?
  {
    hide Shared, Covered, Finance.ReturnEach, HasUnsettledDispatch;
    var rows := AllocationsOf(db, o);
    CoveredOne(db, o);
    if forall i | 0 <= i < |rows| :: rows[i].reserved == 0 {
      ReturnShares(rows, 0, Finance.Returns(db.money.pools, ReturnsOf(db, o)));
      assert rows[0..] == rows;
    }
  }

  /** What settling writes: every allocation has returned, each exactly once. */
  ghost predicate SettleWrote(db: DB, next: DB, o: Id) {
    && next.money.pools.Keys == db.money.pools.Keys && next.money.allocations == db.money.allocations
    && (forall x | x != o :: ReturnsOf(next, x) == ReturnsOf(db, x))
    && OneEach(AllocationsOf(next, o), ReturnsOf(next, o), next.money.pools)
    && (forall p | p in ReturnsOf(db, o) :: p in ReturnsOf(next, o) && ReturnsOf(next, o)[p] == ReturnsOf(db, o)[p])
    && (forall i | 0 <= i < |AllocationsOf(db, o)| :: AllocationsOf(db, o)[i].pool in ReturnsOf(next, o))
    && (forall p | p in db.money.pools ::
          next.money.pools[p].allotted - ShareOf(AllocationsOf(next, o), ReturnsOf(next, o), p)
          == db.money.pools[p].allotted - ShareOf(AllocationsOf(db, o), ReturnsOf(db, o), p))
  }

  /** The loop over the allocations, as the settlement applies it. */
  predicate SettleLooped(db: DB, next: DB, o: Id) {
    var rows := AllocationsOf(db, o);
    var looped := Finance.ReturnEach(rows, Finance.Returns(db.money.pools, ReturnsOf(db, o)));
    && (forall i | 0 <= i < |rows| :: rows[i].reserved == 0) && looped.Ok?
    && next.money == db.money.(pools := looped.value.pools, returned := db.money.returned[o := looped.value.returned])
  }

  lemma SettleLoops(db: DB, o: Id)
    requires Finance.SettleFinance(db, o).Ok?
    ensures var next := Finance.SettleFinance(db, o).value; next == db || SettleLooped(db, next, o)
  {
    hide Finance.ReturnEach, HasUnsettledDispatch;
  }

  lemma SettleWrites(db: DB, next: DB, o: Id)
    requires Shared(db) && SettleLooped(db, next, o)
    ensures SettleWrote(db, next, o)
  {
    hide Shared, Finance.ReturnEach;
    var rows := AllocationsOf(db, o);
    var ledger := Finance.Returns(db.money.pools, ReturnsOf(db, o));
    CoveredOne(db, o);
    ReturnShares(rows, 0, ledger);
    assert rows[0..] == rows;
    assert ReturnsOf(next, o) == Finance.ReturnEach(rows, ledger).value.returned;
    var after := Finance.ReturnEach(rows, ledger).value;
    forall p | p in db.money.pools
      ensures next.money.pools[p].allotted - ShareOf(rows, ReturnsOf(next, o), p)
          == db.money.pools[p].allotted - ShareOf(rows, ReturnsOf(db, o), p)
    {
      assert Rest(rows, after, p) == Rest(rows, ledger, p);
    }
  }

  /** No allocation draws on a pool there is not. */
  lemma UnusedPool(db: DB, p: Id)
    requires Shared(db) && p !in db.money.pools
    ensures Sum(SharesOf(db, p)) == 0
  {
    forall o | o in SharesOf(db, p)
      ensures SharesOf(db, p)[o] == 0
    {
      SharedOne(db, o);
      ShareOfPool(AllocationsOf(db, o), ReturnsOf(db, o), p);
    }
    SumZero(SharesOf(db, p));
  }

  lemma CreatePoolShared(db: DB, next: DB, id: Id)
    requires Shared(db) && id !in db.money.pools && id in next.money.pools && next.money.pools[id].allotted == 0
    requires next.money == db.money.(pools := db.money.pools[id := next.money.pools[id]])
    ensures Shared(next)
  {
    hide OneEach;
    forall o
      ensures OneEach(AllocationsOf(next, o), ReturnsOf(next, o), next.money.pools)
    {
      SharedOne(db, o);
      MorePools(AllocationsOf(db, o), ReturnsOf(db, o), db.money.pools, next.money.pools);
    }
    UnusedPool(db, id);
    forall p | p in next.money.pools
      ensures next.money.pools[p].allotted == Sum(SharesOf(next, p))
    {
      assert SharesOf(next, p) == SharesOf(db, p);
    }
  }

  lemma MorePools(rows: seq<AllocationRow>, returned: map<Id, int>, pools: map<Id, Pool>, more: map<Id, Pool>)
    requires OneEach(rows, returned, pools) && pools.Keys <= more.Keys
    ensures OneEach(rows, returned, more)
  {
    assert forall p | p in pools :: p in more;
  }

  lemma FinancingShared(db: DB, t: FinanceTx)
    requires Shared(db) && FinanceStep(db, t).Ok?
    ensures Shared(FinanceStep(db, t).value)
  {
    hide Shared, Finance.SettleFinance, Finance.Allocate, SettleWrote, SettleLooped;
    var next := FinanceStep(db, t).value;
    match t
    case Allocate(_, _, _, _, _, _) => AllocateShared(db, t);
    case CreatePool(pool, _) => if next != db { CreatePoolShared(db, next, pool); }
    case SettleFinance(o) =>
      SettleLoops(db, o);
      if next != db {
        SettleWrites(db, next, o);
        SettledShared(db, next, o);
      }
    case _ => SharedKept(db, next);
  }

  lemma SettledShared(db: DB, next: DB, o: Id)
    requires Shared(db) && SettleWrote(db, next, o)
    ensures Shared(next)
  {
    SharedMoved(db, next, o);
  }

  lemma SharedStep(c: Config, db: DB, tx: Tx)
    requires InFlight(tx) && Shared(db)
    ensures Shared(Apply(c, db, tx))
  {
    hide AdmissionStep, EffectStep, Releases.Record, GrantStep, ExecutionStep, Execution.CloseAttempt, ControlStep,
      FinanceStep, RunStep, Recovery.Restore, Recovery.Dispose, Shared, Solvency.AmountsKept;
    if tx.Financing? {
      if FinanceStep(db, tx.finance).Ok? { FinancingShared(db, tx.finance); }
    } else {
      PoolsKept(c, db, tx);
      forall o
        ensures Solvency.AmountsKept(db, Apply(c, db, tx), o)
      {
        Solvency.StepOfAmounts(c, db, tx, o);
      }
      SharedKept(db, Apply(c, db, tx));
    }
  }

  /** In every run, what a pool has allotted is the sum over its allocations of what they
      hold: their amounts, less what each returned. */
  lemma {:induction false} PoolsAreConserved(c: Config, run: Run)
    requires InFlightRun(run)
    ensures Shared(After(c, run))
  {
    hide Apply;
    if run.Then? {
      PoolsAreConserved(c, run.prior);
      SharedStep(c, After(c, run.prior), run.tx);
    } else {
      assert forall p :: SharesOf(Empty, p) == map[];
    }
  }

  // ---------- settled money ----------

  /** Finance is settled only when every allocation has returned. */
  predicate AllReturned(db: DB, o: Id) {
    o in db.work.operations && db.work.operations[o].finance == FinanceSettled ==>
      forall i | 0 <= i < |AllocationsOf(db, o)| :: AllocationsOf(db, o)[i].pool in ReturnsOf(db, o)
  }

  /** A return is recorded once and stays what it was. */
  predicate ReturnedOnce(db: DB, next: DB, o: Id) {
    forall p | p in ReturnsOf(db, o) :: p in ReturnsOf(next, o) && ReturnsOf(next, o)[p] == ReturnsOf(db, o)[p]
  }

  lemma FinancingReturns(db: DB, t: FinanceTx, o: Id)
    requires FinanceStep(db, t).Ok? && Shared(db) && AllReturned(db, o)
    ensures AllReturned(FinanceStep(db, t).value, o) && ReturnedOnce(db, FinanceStep(db, t).value, o)
  {
    hide Shared, Finance.ReturnEach, Finance.Draw, Finance.ListsPools, Finance.SameLevelTwice, Finance.HasLevel,
      HasUnsettledDispatch, SettleLooped;
    var next := FinanceStep(db, t).value;
    if t.SettleFinance? && next != db {
      SettleLoops(db, t.o);
      SettleWrites(db, next, t.o);
      if o == t.o {
        assert AllReturned(next, o) && ReturnedOnce(db, next, o);
      } else {
        assert ReturnsOf(next, o) == ReturnsOf(db, o) && AllocationsOf(next, o) == AllocationsOf(db, o);
      }
    } else {
      assert ReturnsOf(next, o) == ReturnsOf(db, o);
      assert t.Allocate? && t.o == o ==> next == db || next.work.operations[o].finance == FinanceFunded;
      assert !(t.Allocate? && t.o == o) ==> AllocationsOf(next, o) == AllocationsOf(db, o);
    }
  }

  lemma ReturnsStep(c: Config, db: DB, tx: Tx, o: Id)
    requires InFlight(tx) && Shared(db) && AllReturned(db, o)
    ensures AllReturned(Apply(c, db, tx), o) && ReturnedOnce(db, Apply(c, db, tx), o)
  {
    hide AdmissionStep, EffectStep, Releases.Record, GrantStep, ExecutionStep, Execution.CloseAttempt, ControlStep,
      FinanceStep, RunStep, Recovery.Restore, Recovery.Dispose, Shared, SendersActing, HasOpenAttempt;
    if tx.Financing? {
      if FinanceStep(db, tx.finance).Ok? { FinancingReturns(db, tx.finance, o); }
    } else {
      PoolsKept(c, db, tx);
      WorkSteps.StepOfWork(c, db, tx, o, 0);
      Solvency.StepOfAmounts(c, db, tx, o);
    }
  }

  /** In every run: settled finance means every allocation returned its unspent part, and
      what an allocation returned it returns once. */
  lemma {:induction false} SettledMeansReturned(c: Config, earlier: Run, later: Run, o: Id)
    requires Within(earlier, later) && InFlightRun(later)
    ensures AllReturned(After(c, later), o) && ReturnedOnce(After(c, earlier), After(c, later), o)
  {
    hide Apply;
    if later.Then? {
      SettledMeansReturned(c, if earlier == later then later.prior else earlier, later.prior, o);
      PoolsAreConserved(c, later.prior);
      ReturnsStep(c, After(c, later.prior), later.tx, o);
    }
  }

  predicate SettledEnded(db: DB, o: Id) {
    o in db.work.operations && db.work.operations[o].finance == FinanceSettled ==>
        db.work.operations[o].lifecycle.Terminal()
  }

  lemma SettlesEnded(c: Config, db: DB, tx: Tx, o: Id)
    requires WorkSteps.SettlesFinance(tx, o)
    ensures Apply(c, db, tx) == db || (Termination.Terminal(db, o) && Termination.SameLifecycle(db, Apply(c, db, tx),
        o))
  {
    hide AdmissionStep, EffectStep, GrantStep, ExecutionStep, ControlStep, RunStep, Finance.ReturnEach,
      HasUnsettledDispatch;
  }

  lemma {:induction false} SettledIsEnded(c: Config, run: Run, o: Id)
    requires SteadyRun(c, run) && Termination.SeparateCloses(c, run)
    ensures SettledEnded(After(c, run), o)
  {
    hide Apply, SendersActing, HasOpenAttempt;
    if run.Then? {
      var db := After(c, run.prior);
      SettledIsEnded(c, run.prior, o);
      Termination.EndedAlways(c, run.prior);
      WorkSteps.StepOfWork(c, db, run.tx, o, 0);
      if WorkSteps.SettlesFinance(run.tx, o) { SettlesEnded(c, db, run.tx, o); }
      if run.tx.Closing? && run.tx.a in db.work.attempts {
        assert Termination.CleanupNoted(db, run.tx.a);
        assert Termination.Terminal(db, o) ==> !Termination.Live(db, o, run.tx.a);
      }
    }
  }

  // ---------- nothing is reserved again ----------

  /** An allocation that has nothing reserved gets no reservation. */
  predicate ZerosKept(db: DB, next: DB, o: Id) {
    var a, b := AllocationsOf(db, o), AllocationsOf(next, o);
    |b| == |a| && forall i | 0 <= i < |a| :: a[i].reserved == 0 ==> b[i].reserved == 0
  }

  predicate LetsGo(what: Movement) { what.ToRelease? || what.ToCharge? }

  lemma MoveKeepsZeros(db: DB, next: DB, o: Id, what: Movement, m: Money, x: Id)
    requires o in db.work.operations && MoveBudget(db, o, what, m).Ok?
    requires next.money == MoveBudget(db, o, what, m).value.money && (LetsGo(what) || x != o)
    ensures ZerosKept(db, next, x)
  {
    var a, b := AllocationsOf(db, x), AllocationsOf(next, x);
    if x == o {
      forall i | 0 <= i < |a|
        ensures a[i].reserved == 0 ==> b[i].reserved == 0
      {
        assert Move(a[i], what, m) == Ok(b[i]);
      }
    }
  }

  lemma SameMoneyZeros(db: DB, next: DB, x: Id)
    ensures next.money == db.money ==> ZerosKept(db, next, x)
  {
  }

  lemma ZerosChained(db: DB, mid: DB, next: DB, x: Id)
    requires ZerosKept(db, mid, x) && ZerosKept(mid, next, x)
    ensures ZerosKept(db, next, x)
  {
  }

  lemma NotSentZeros(db: DB, id: Id, evidence: Name, guard: Option<nat>, x: Id)
    requires Admission.ConfirmNotSent(db, id, evidence, guard).Ok?
    ensures ZerosKept(db, Admission.ConfirmNotSent(db, id, evidence, guard).value, x)
  {
    hide MoveBudget, Admission.SettleExposure, Admission.Reported, Admission.UpdateDispatch, ZerosKept;
    var next := Admission.ConfirmNotSent(db, id, evidence, guard).value;
    SameMoneyZeros(db, next, x);
    if id in db.ledger.dispatches && db.ledger.dispatches[id].bind.operation in db.work.operations {
      var b := db.ledger.dispatches[id].bind;
      if MoveBudget(db, b.operation, ToRelease, b.reserved).Ok? && next.money != db.money {
        MoveKeepsZeros(db, next, b.operation, ToRelease, b.reserved, x);
      }
    }
  }

  lemma ObservedZeros(c: Config, db: DB, next: DB, id: Id, meter: Meter, delta: Money, x: Id)
    requires Conservation.ObserveWrote(c, db, next, id, meter, delta)
    ensures ZerosKept(db, next, x)
  {
    hide MoveBudget, ZerosKept;
    var b := db.ledger.dispatches[id].bind;
    var moved := if delta.amount > 0 then MoveBudget(db, b.operation, ToCharge, delta).value else db;
    SameMoneyZeros(db, moved, x);
    SameMoneyZeros(moved, next, x);
    if delta.amount > 0 { MoveKeepsZeros(db, moved, b.operation, ToCharge, delta, x); }
    if next.money != moved.money { MoveKeepsZeros(moved, next, b.operation, ToRelease, b.reserved, x); }
    ZerosChained(db, moved, next, x);
  }

  /** What is admitted reserves for an operation that may still send. */
  lemma PrepareZeros(c: Config, db: DB, t: AdmissionTx, x: Id)
    requires t.AdmitPrepare? && AdmissionStep(c, db, t).Ok? && Termination.Terminal(db, x)
    ensures ZerosKept(db, AdmissionStep(c, db, t).value, x)
  {
    hide AdmissionStep, MoveBudget, ZerosKept, DispatchSteps.Admissible;
    var next := AdmissionStep(c, db, t).value;
    SameMoneyZeros(db, next, x);
    Conservation.PrepareWrites(c, db, t);
    if next != db {
      DispatchSteps.PrepareStep(c, db, t, t.id);
      var row := next.ledger.dispatches[t.id];
      Termination.AdmissibleIsOpen(db, row.bind, row.supersedes);
      if row.state == DispatchPrepared { MoveKeepsZeros(db, next, t.req.operation, ToReserve, row.bind.reserved, x); }
    }
  }

  lemma ConsumeZeros(c: Config, db: DB, t: AdmissionTx, x: Id)
    requires t.AdmitConsume? && AdmissionStep(c, db, t).Ok?
    ensures ZerosKept(db, AdmissionStep(c, db, t).value, x)
  {
    hide Admission.CheckAdmission, Admission.LoadContext, MoveBudget, ZerosKept;
    var next := AdmissionStep(c, db, t).value;
    SameMoneyZeros(db, next, x);
    var o := t.call.copy.bind.operation;
    if next.money != db.money {
      ConsumeReads(c, db, t);
      MoveKeepsZeros(db, next, o, ToRelease, db.ledger.dispatches[t.call.id].bind.reserved, x);
    }
  }

  lemma ConsumeReads(c: Config, db: DB, t: AdmissionTx)
    requires t.AdmitConsume? && AdmissionStep(c, db, t).Ok?
    ensures t.call.copy.bind.operation in db.work.operations && t.call.id in db.ledger.dispatches
  {
    hide Admission.CheckAdmission, MoveBudget;
  }

  lemma AdmittingZeros(c: Config, db: DB, t: AdmissionTx, x: Id)
    requires AdmissionStep(c, db, t).Ok? && Termination.Terminal(db, x)
    ensures ZerosKept(db, AdmissionStep(c, db, t).value, x)
  {
    hide Admission.AdmitPrepare, Admission.AdmitConsume, Admission.Observe, Admission.ConfirmNotSent, ZerosKept,
      Conservation.ObserveWrote;
    var next := AdmissionStep(c, db, t).value;
    SameMoneyZeros(db, next, x);
    match t
    case AdmitPrepare(_, _, _, _, _, _) => PrepareZeros(c, db, t, x);
    case AdmitConsume(_, _, _) => ConsumeZeros(c, db, t, x);
    case ObserveDispatch(_, id, _, _) =>
      Conservation.ObserveWrites(c, db, t);
      if next != db {
        var meter, delta :| Conservation.ObserveWrote(c, db, next, id, meter, delta);
        ObservedZeros(c, db, next, id, meter, delta, x);
      }
    case ConfirmDispatchNotSent(id, evidence) => NotSentZeros(db, id, evidence, None, x);
    case MarkDispatchUncertain(_) =>
  }

  lemma {:induction false} DenyEachZeros(db: DB, o: Id, listed: seq<Id>, x: Id)
    requires o in db.work.operations && Execution.DenyEach(db, o, listed).Ok?
    ensures ZerosKept(db, Execution.DenyEach(db, o, listed).value, x)
    decreases |listed|
  {
    hide MoveBudget;
    if listed != [] {
      var reserved := db.ledger.dispatches[listed[0]].bind.reserved;
      var row := Admission.Deny(db.ledger.dispatches[listed[0]], DenyAttemptClosed).value;
      var freed := MoveBudget(db, o, ToRelease, reserved).value;
      MoveKeepsZeros(db, freed, o, ToRelease, reserved, x);
      DenyEachZeros(Admission.UpdateDispatch(freed, listed[0], row), o, listed[1..], x);
    }
  }

  lemma ClosingZeros(c: Config, db: DB, next: DB, tx: Tx, x: Id)
    requires Conservation.CloseDenied(c, db, next, tx)
    ensures ZerosKept(db, next, x)
  {
    hide Execution.DenyEach, Execution.ListsPrepared;
    if next.money != db.money { DenyEachZeros(db, db.work.attempts[tx.a].bind.operation, tx.listed, x); }
  }

  lemma DisposingZeros(db: DB, req: Recovery.DispositionRequest, bound: bool, x: Id)
    requires Recovery.Dispose(db, req, bound).Ok?
    ensures ZerosKept(db, Recovery.Dispose(db, req, bound).value, x)
  {
    hide Admission.ConfirmNotSent, Effects.ObserveOutcome, Effects.ConfirmRecordNotSent;
    if Admission.ConfirmNotSent(db, req.key.id, req.evidence, Some(req.epoch)).Ok? {
      NotSentZeros(db, req.key.id, req.evidence, Some(req.epoch), x);
    }
  }

  lemma FinancingZeros(db: DB, t: FinanceTx, x: Id)
    requires FinanceStep(db, t).Ok? && Termination.Terminal(db, x)
    ensures ZerosKept(db, FinanceStep(db, t).value, x)
  {
    hide Finance.Draw, Finance.ReturnEach, Finance.ListsPools, HasUnsettledDispatch, Finance.SameLevelTwice,
      Finance.HasLevel;
  }

  /** No transaction but a restoration reserves anything for an operation that ended. */
  lemma StepOfZeros(c: Config, db: DB, tx: Tx, x: Id)
    requires !tx.Restoring? && Termination.Terminal(db, x)
    ensures ZerosKept(db, Apply(c, db, tx), x)
  {
    hide AdmissionStep, EffectStep, Releases.Record, GrantStep, ExecutionStep, Execution.CloseAttempt, ControlStep,
      FinanceStep, RunStep, Recovery.Dispose, Conservation.CloseDenied;
    if Step(c, db, tx).Ok? {
      var next := Step(c, db, tx).value;
      match tx
      case Admitting(t) => AdmittingZeros(c, db, t, x);
      case Closing(_, _, _, _, _) => Conservation.CloseDenies(c, db, tx); ClosingZeros(c, db, next, tx, x);
      case Financing(t) => FinancingZeros(db, t, x);
      case Disposing(req, bound) => DisposingZeros(db, req, bound, x);
      case _ =>
    }
  }

  /** Settled finance has nothing reserved on any allocation. */
  predicate NothingReserved(db: DB, o: Id) {
    o in db.work.operations && db.work.operations[o].finance == FinanceSettled ==>
      forall i | 0 <= i < |AllocationsOf(db, o)| :: AllocationsOf(db, o)[i].reserved == 0
  }

  /** The settlement itself looked at every allocation. */
  lemma SettlesReserved(c: Config, db: DB, tx: Tx, o: Id)
    requires WorkSteps.SettlesFinance(tx, o) && NothingReserved(db, o)
    ensures NothingReserved(Apply(c, db, tx), o)
  {
    hide AdmissionStep, EffectStep, GrantStep, ExecutionStep, ControlStep, RunStep, Finance.ReturnEach,
      HasUnsettledDispatch;
  }

  lemma NothingReservedStep(c: Config, db: DB, tx: Tx, o: Id)
    requires Steady(db, tx) && SettledEnded(db, o) && NothingReserved(db, o)
    ensures NothingReserved(Apply(c, db, tx), o)
  {
    hide Apply, SendersActing, HasOpenAttempt;
    if tx.Restoring? {
      NothingRestored(c, db, tx.f, tx.body);
    } else if WorkSteps.SettlesFinance(tx, o) {
      SettlesReserved(c, db, tx, o);
    } else {
      WorkSteps.StepOfWork(c, db, tx, o, 0);
      if Termination.Terminal(db, o) { StepOfZeros(c, db, tx, o); }
    }
  }

  /** While closes never overlap another live attempt and nothing was rolled back,
      settled finance also means that nothing is reserved. */
  lemma {:induction false} SettledMeansNothingReserved(c: Config, run: Run, o: Id)
    requires SteadyRun(c, run) && Termination.SeparateCloses(c, run)
    ensures NothingReserved(After(c, run), o)
  {
    hide Apply;
    if run.Then? {
      SettledMeansNothingReserved(c, run.prior, o);
      SettledIsEnded(c, run.prior, o);
      NothingReservedStep(c, After(c, run.prior), run.tx, o);
    }
  }

  // ---------- one pool per scope and period ----------

  predicate SamePeriod(p: Pool, q: Pool) {
    p.level == q.level && p.tenant == q.tenant && p.actor == q.actor && p.periodStart == q.periodStart
  }

  /** No two pools share a scope and the start of their period. */
  ghost predicate PoolsApart(db: DB) {
    forall p, q | p in db.money.pools && q in db.money.pools && p != q ::
      !SamePeriod(db.money.pools[p], db.money.pools[q])
  }

  /** The pools there are stay what they are for. */
  predicate SamePools(a: map<Id, Pool>, b: map<Id, Pool>) {
    a.Keys == b.Keys && forall p | p in a && p in b :: SamePeriod(a[p], b[p])
  }

  /** A pool that gave a share covers the moment and stays within its cap. */
  predicate Drawn(a: Pool, b: Pool, now: Time) {
    && b.cap == a.cap && b.currency == a.currency && b.periodEnd == a.periodEnd && b.allotted >= a.allotted
    && (b.allotted > a.allotted ==> b.allotted <= b.cap && b.periodStart <= now < b.periodEnd)
  }

  lemma {:induction false} DrawKeepsPools(pools: map<Id, Pool>, rows: seq<AllocationRow>, listed: seq<Id>,
                                          amount: Money, now: Time)
    requires forall i | 0 <= i < |listed| :: listed[i] in pools
    requires Finance.Draw(pools, rows, listed, amount, now).Ok?
    ensures var share := Finance.Draw(pools, rows, listed, amount, now).value;
            && SamePools(pools, share.pools)
            && (forall p | p in pools :: Drawn(pools[p], share.pools[p], now))
            && (forall i | 0 <= i < |rows| :: Finance.Holds(share.rows, rows[i].pool))
            && (forall i | 0 <= i < |listed| :: Finance.Holds(share.rows, listed[i]))
    decreases |listed|
  {
    if listed != [] {
      if Finance.Holds(rows, listed[0]) {
        DrawKeepsPools(pools, rows, listed[1..], amount, now);
      } else {
        var drawn := pools[listed[0]].Allocate(amount, now).value;
        var more := rows + [AllocationRow(listed[0], drawn.currency, amount.amount, 0, 0)];
        DrawKeepsPools(pools[listed[0] := drawn], more, listed[1..], amount, now);
        assert more[|rows|].pool == listed[0];
        assert forall i | 0 <= i < |rows| :: more[i] == rows[i];
      }
    }
  }

  lemma {:induction false} ReturnKeepsPools(rows: seq<AllocationRow>, ledger: Finance.Returns)
    requires Finance.ReturnEach(rows, ledger).Ok?
    ensures SamePools(ledger.pools, Finance.ReturnEach(rows, ledger).value.pools)
    decreases |rows|
  {
    if rows != [] {
      if rows[0].pool in ledger.returned {
        ReturnKeepsPools(rows[1..], ledger);
      } else {
        var unspent := rows[0].ReturnUnspent().value;
        var pool := ledger.pools[rows[0].pool].Return(unspent).value;
        ReturnKeepsPools(rows[1..], Finance.Returns(ledger.pools[rows[0].pool := pool],
                                                    ledger.returned[rows[0].pool := unspent]));
      }
    }
  }

  lemma SamePoolsApart(db: DB, next: DB)
    requires PoolsApart(db) && SamePools(db.money.pools, next.money.pools)
    ensures PoolsApart(next)
  {
  }

  lemma FinancingApart(db: DB, t: FinanceTx)
    requires FinanceStep(db, t).Ok? && PoolsApart(db)
    ensures PoolsApart(FinanceStep(db, t).value)
  {
    hide Finance.Draw, Finance.ReturnEach, Finance.ListsPools, Finance.SameLevelTwice, Finance.HasLevel,
      HasUnsettledDispatch;
    match t
    case Allocate(o, _, _, amount, listed, now) =>
      if Finance.ListsPools(db, listed, amount.currency, t.tenant, t.actor, now) {
        ListedThere(db, t);
        if Finance.Draw(db.money.pools, AllocationsOf(db, o), listed, amount, now).Ok? {
          DrawKeepsPools(db.money.pools, AllocationsOf(db, o), listed, amount, now);
        }
      }
    case SettleFinance(o) =>
      var ledger := Finance.Returns(db.money.pools, ReturnsOf(db, o));
      if Finance.ReturnEach(AllocationsOf(db, o), ledger).Ok? { ReturnKeepsPools(AllocationsOf(db, o), ledger); }
    case _ =>
  }

  lemma ListedThere(db: DB, t: FinanceTx)
    requires t.Allocate? && Finance.ListsPools(db, t.listed, t.amount.currency, t.tenant, t.actor, t.now)
    ensures forall i | 0 <= i < |t.listed| :: t.listed[i] in db.money.pools
  {
  }

  /** In every run, no two pools share a scope and the start of their period. */
  lemma {:induction false} PoolsStayApart(c: Config, run: Run)
    ensures PoolsApart(After(c, run))
  {
    hide Apply, PoolsApart;
    if run.Then? {
      var db := After(c, run.prior);
      PoolsStayApart(c, run.prior);
      if run.tx.Financing? {
        FinancingCommits(c, db, run.tx.finance);
        if FinanceStep(db, run.tx.finance).Ok? { FinancingApart(db, run.tx.finance); }
      } else {
        PoolsKept(c, db, run.tx);
        SamePoolsApart(db, Apply(c, db, run.tx));
      }
    } else {
      NoPools();
    }
  }

  lemma NoPools()
    ensures PoolsApart(Empty)
  {
  }

  lemma FinancingCommits(c: Config, db: DB, t: FinanceTx)
    ensures Apply(c, db, Financing(t)) == match FinanceStep(db, t) case Ok(next) => next case Err(_) => db
  {
    hide AdmissionStep, EffectStep, Releases.Record, GrantStep, ExecutionStep, Execution.CloseAttempt, ControlStep,
      FinanceStep, RunStep, Recovery.Restore, Recovery.Dispose;
  }

  // ---------- funding ----------

  /** The operation has an allocation of a current pool of the level. */
  predicate FundedAt(db: DB, rows: seq<AllocationRow>, level: BudgetLevel, tenant: Name, actor: Name, currency: Name,
                     now: Time)
  {
    exists p | p in db.money.pools ::
      && db.money.pools[p].level == level && db.money.pools[p].currency == currency
      && db.money.pools[p].periodStart <= now < db.money.pools[p].periodEnd
      && db.money.pools[p].tenant == (if level == LevelPlatform then None else Some(tenant))
      && db.money.pools[p].actor == (if level == LevelActor then Some(actor) else None)
      && exists i | 0 <= i < |rows| :: rows[i].pool == p
  }

  /** And every pool that gave a share is within its cap. */
  lemma AllocationFitsPools(db: DB, t: FinanceTx, p: Id)
    requires t.Allocate? && FinanceStep(db, t).Ok? && p in db.money.pools
    ensures var next := FinanceStep(db, t).value;
            p in next.money.pools && Drawn(db.money.pools[p], next.money.pools[p], t.now)
  {
    hide Finance.Draw, Finance.ListsPools, Finance.SameLevelTwice, Finance.HasLevel;
    if Finance.ListsPools(db, t.listed, t.amount.currency, t.tenant, t.actor, t.now) {
      ListedThere(db, t);
      if Finance.Draw(db.money.pools, AllocationsOf(db, t.o), t.listed, t.amount, t.now).Ok? {
        DrawKeepsPools(db.money.pools, AllocationsOf(db, t.o), t.listed, t.amount, t.now);
      }
    }
  }

  // ---------- the commands of the treasury ----------

  predicate SameTerms(p: Pool, q: Pool) { p.currency == q.currency && p.cap == q.cap && p.periodEnd == q.periodEnd }

  /** A pool is created empty for a scope and period that has none; the same terms find the
      one there is, other terms are refused. */
  lemma CreatesExactly(db: DB, id: Id, p: Pool)
    requires id !in db.money.pools
    ensures var r := Finance.CreatePool(db, id, p);
            var taken := exists q | q in db.money.pools :: SamePeriod(db.money.pools[q], p);
            var agreed := forall q | q in db.money.pools && SamePeriod(db.money.pools[q], p) ::
                SameTerms(db.money.pools[q], p);
            && (r.Ok? <==> p.cap >= 0 && p.periodStart < p.periodEnd && agreed)
            && (r.Ok? && taken ==> r.value == db)
            && (r.Ok? && !taken ==> r.value.money.pools == db.money.pools[id := p.(allotted := 0)])
  {
    assert forall q | q in db.money.pools ::
        Finance.SameScope(db.money.pools[q], p) == SamePeriod(db.money.pools[q], p)
        && Finance.SameTerms(db.money.pools[q], p) == SameTerms(db.money.pools[q], p);
  }

  /** The cap of a pool and the ceiling of a cost cap are what was asked for last; what was
      allotted, reserved and consumed stays. */
  lemma CeilingsExactly(db: DB, id: Id, cap: Money, k: CapKey, ceiling: Int64)
    ensures var adjusted := Finance.AdjustPool(db, id, cap);
            && (adjusted.Ok? <==>
                  cap.amount >= 0 && id in db.money.pools && db.money.pools[id].currency == cap.currency)
            && (adjusted.Ok? ==>
                  adjusted.value.money.pools == db.money.pools[id := db.money.pools[id].(cap := cap.amount)])
    ensures var capped := Finance.SetCap(db, k, ceiling);
            && (capped.Ok? <==> ceiling >= 0 && (k.level == CapTenant ==> k.project.None?))
            && (capped.Ok? ==>
                  capped.value.money.caps == db.money.caps[k :=
                      if k in db.money.caps then db.money.caps[k].(cap := ceiling) else CostCapRow(ceiling, 0, 0)])
  {
  }

  /** An allocation that is accepted leaves the operation funded at every level, from
      pools that cover the moment. */
  lemma AllocationFundsEveryLevel(db: DB, t: FinanceTx, level: BudgetLevel)
    requires t.Allocate? && FinanceStep(db, t).Ok?
    ensures FundedAt(db, AllocationsOf(FinanceStep(db, t).value, t.o), level, t.tenant, t.actor, t.amount.currency,
                     t.now)
  {
    hide Finance.Draw, Finance.ListsPools, FundedAt;
    if Finance.ListsPools(db, t.listed, t.amount.currency, t.tenant, t.actor, t.now) {
      ListedThere(db, t);
      var rows := AllocationsOf(db, t.o);
      if Finance.Draw(db.money.pools, rows, t.listed, t.amount, t.now).Ok? {
        DrawKeepsPools(db.money.pools, rows, t.listed, t.amount, t.now);
        var share := Finance.Draw(db.money.pools, rows, t.listed, t.amount, t.now).value;
        assert Finance.HasLevel(db, t.listed, level);
        ListedFunds(db, t, share.rows, level);
      }
    }
  }

  lemma ListedFunds(db: DB, t: FinanceTx, rows: seq<AllocationRow>, level: BudgetLevel)
    requires t.Allocate? && Finance.ListsPools(db, t.listed, t.amount.currency, t.tenant, t.actor, t.now)
    requires Finance.HasLevel(db, t.listed, level)
    requires forall i | 0 <= i < |t.listed| :: Finance.Holds(rows, t.listed[i])
    ensures FundedAt(db, rows, level, t.tenant, t.actor, t.amount.currency, t.now)
  {
    var i :| 0 <= i < |t.listed| && db.money.pools[t.listed[i]].level == level;
    assert Finance.CurrentPool(db.money.pools[t.listed[i]], t.amount.currency, t.tenant, t.actor, t.now);
    assert Finance.Holds(rows, t.listed[i]);
  }
}
