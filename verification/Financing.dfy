/** Pools, caps and the financial settlement, changed in place
    (internal/application/dispatch.go:60-139, internal/application/finance.go). */
module Financing {
  import opened Values
  import opened Budget
  import opened Records
  import opened Database
  import opened Accounts
  import opened Entities
  import opened Tables
  import Finance

  class Accountant {
    const store: Store

    constructor (s: Store)
      ensures store == s
    {
      store := s;
    }

    /** The pool of each level among the current ones, or two of one level
        (internal/application/dispatch.go:63-81). */
    method CheckLevels(listed: seq<Id>) returns (r: Check)
      requires forall i | 0 <= i < |listed| :: listed[i] in store.money.pools
      ensures r == if Finance.SameLevelTwice(store.Snapshot(), listed) then Fail(Invalid)
                   else if !Finance.HasLevel(store.Snapshot(), listed, LevelPlatform)
                           || !Finance.HasLevel(store.Snapshot(), listed, LevelTenant)
                           || !Finance.HasLevel(store.Snapshot(), listed, LevelActor) then Fail(BudgetExhausted)
                   else Pass
    {
      var byLevel: set<BudgetLevel> := {};
      for i := 0 to |listed|
        invariant forall level ::
            level in byLevel <==> exists j | 0 <= j < i :: store.money.pools[listed[j]].level == level
        invariant forall j, k | 0 <= j < k < i ::
            store.money.pools[listed[j]].level != store.money.pools[listed[k]].level
      {
        if store.money.pools[listed[i]].level in byLevel { return Fail(Invalid); }
        byLevel := byLevel + {store.money.pools[listed[i]].level};
      }
      var levels := [LevelPlatform, LevelTenant, LevelActor];
      for i := 0 to |levels|
        invariant forall j | 0 <= j < i :: levels[j] in byLevel
      {
        if levels[i] !in byLevel {
          assert !Finance.HasLevel(store.Snapshot(), listed, levels[i]);
          return Fail(BudgetExhausted);
        }
      }
      assert levels[0] in byLevel && levels[1] in byLevel && levels[2] in byLevel;
      return Pass;
    }

    /** One allocation from the current pool of each level, drawn once per pool
        (internal/application/dispatch.go:60-139); listed is the answer of the query. */
    method Allocate(o: Id, tenant: Name, actor: Name, amount: Money, listed: seq<Id>, now: Time) returns (r: Check)
      requires Finance.ListsPools(store.Snapshot(), listed, amount.currency, tenant, actor, now)
      modifies store
      ensures Committed(Finance.Allocate(old(store.Snapshot()), o, tenant, actor, amount, listed, now), r,
                        old(store.Snapshot()), store.Snapshot())
    {
      hide Finance.ListsPools, Finance.SameLevelTwice, Finance.HasLevel, Finance.Draw;
      ListedPools(store.Snapshot(), listed, amount.currency, tenant, actor, now);
      r := CheckLevels(listed);
      if r.Fail? { return; }
      if o !in store.work.operations || store.work.operations[o].bind.tenant != tenant { return Fail(NotFound); }
      if store.work.operations[o].FencedForNewDispatch() { return Fail(StaleExecution); }
      var rows := AllocationsOf(store.Snapshot(), o);
      var share := DrawEach(rows, listed, amount, now);
      if share.Err? { return Fail(share.error); }
      if share.value.rows == rows { return Pass; }
      store.money := store.money.(pools := share.value.pools,
                                  allocations := store.money.allocations[o := share.value.rows]);
      var op := new OperationEntity(store.work.operations[o]);
      op.finance := FinanceFunded;
      op.Transition();
      store.UpdateOperation(o, op.Row());
      return Pass;
    }

    /** The loop over the locked pools: a pool that already holds a share is passed over,
        every other one is drawn from (internal/application/dispatch.go:97-118). */
    method DrawEach(rows: seq<AllocationRow>, listed: seq<Id>, amount: Money,
                    now: Time) returns (r: Result<Finance.Share>)
      requires forall i | 0 <= i < |listed| :: listed[i] in store.money.pools
      requires forall i, j | 0 <= i < j < |listed| :: listed[i] != listed[j]
      ensures r == Finance.Draw(store.money.pools, rows, listed, amount, now)
    {
      var pools := store.money.pools;
      var held := rows;
      for i := 0 to |listed|
        invariant pools.Keys == store.money.pools.Keys
        invariant Finance.Draw(pools, held, listed[i..], amount, now) == Finance.Draw(store.money.pools, rows, listed,
            amount, now)
      {
        assert listed[i..][0] == listed[i] && listed[i..][1..] == listed[i + 1..];
        if !Finance.Holds(held, listed[i]) {
          var pool := new BudgetPool(listed[i], pools[listed[i]]);
          var drawn := pool.Allocate(amount, now);
          if drawn.Fail? { return Err(drawn.error); }
          pools := pools[pool.id := pool.Row()];
          held := held + [AllocationRow(pool.id, pool.terms.currency, amount.amount, 0, 0)];
        }
      }
      return Ok(Finance.Share(pools, held));
    }

    /** internal/application/finance.go:219-249. */
    method CreatePool(id: Id, p: Pool) returns (r: Check)
      modifies store
      ensures Committed(Finance.CreatePool(old(store.Snapshot()), id, p), r, old(store.Snapshot()), store.Snapshot())
    {
      hide Finance.SameScope, Finance.SameTerms;
      if p.cap < 0 || p.periodEnd <= p.periodStart { return Fail(Invalid); }
      if exists q | q in store.money.pools ::
          Finance.SameScope(store.money.pools[q], p) && !Finance.SameTerms(store.money.pools[q], p) {
        return Fail(IdempotencyConflict);
      }
      if exists q | q in store.money.pools :: Finance.SameScope(store.money.pools[q], p) { return Pass; }
      if id in store.money.pools { return Fail(DuplicateKey); }
      store.money := store.money.(pools := store.money.pools[id := p.(allotted := 0)]);
      return Pass;
    }

    /** internal/application/finance.go:254-282. */
    method AdjustPool(id: Id, cap: Money) returns (r: Check)
      modifies store
      ensures Committed(Finance.AdjustPool(old(store.Snapshot()), id, cap), r, old(store.Snapshot()), store.Snapshot())
    {
      if cap.amount < 0 { return Fail(Invalid); }
      if id !in store.money.pools { return Fail(NotFound); }
      if store.money.pools[id].currency != cap.currency { return Fail(Invalid); }
      store.money := store.money.(pools := store.money.pools[id := store.money.pools[id].(cap := cap.amount)]);
      return Pass;
    }

    /** internal/application/finance.go:303-350. */
    method SetCap(k: CapKey, amount: Int64) returns (r: Check)
      modifies store
      ensures Committed(Finance.SetCap(old(store.Snapshot()), k, amount), r, old(store.Snapshot()), store.Snapshot())
    {
      if amount < 0 || (k.level == CapTenant && k.project.Some?) { return Fail(Invalid); }
      var row := if k in store.money.caps then store.money.caps[k].(cap := amount) else CostCapRow(amount, 0, 0);
      store.money := store.money.(caps := store.money.caps[k := row]);
      return Pass;
    }

    /** The unspent part of every allocation goes back to its pool, once, and the return
        ledger records it (internal/application/finance.go:372-455). */
    method SettleFinance(o: Id) returns (r: Check)
      modifies store
      ensures Committed(Finance.SettleFinance(old(store.Snapshot()), o), r, old(store.Snapshot()), store.Snapshot())
    {
      hide Finance.FinanceSettleable, HasUnsettledDispatch, Finance.ReturnEach;
      if o !in store.work.operations { return Fail(NotFound); }
      if !Finance.FinanceSettleable(store.work.operations[o])
          || HasUnsettledDispatch(store.Snapshot(), o) { return Pass; }
      var rows := AllocationsOf(store.Snapshot(), o);
      for i := 0 to |rows|
        invariant forall j | 0 <= j < i :: rows[j].reserved == 0
      {
        if rows[i].reserved != 0 { return Pass; }
      }
      var ledger := ReturnEach(rows, ReturnsOf(store.Snapshot(), o));
      if ledger.Err? { return Fail(ledger.error); }
      store.money := store.money.(pools := ledger.value.pools,
                                  returned := store.money.returned[o := ledger.value.returned]);
      var op := new OperationEntity(store.work.operations[o]);
      op.finance := FinanceSettled;
      op.Transition();
      store.UpdateOperation(o, op.Row());
      return Pass;
    }

    /** internal/application/finance.go:421-445. */
    method ReturnEach(rows: seq<AllocationRow>, recorded: map<Id, int>) returns (r: Result<Finance.Returns>)
      ensures r == Finance.ReturnEach(rows, Finance.Returns(store.money.pools, recorded))
    {
      var pools: map<Id, Pool>, returned: map<Id, int> := store.money.pools, recorded;
      for i := 0 to |rows|
        invariant Finance.ReturnEach(rows[i..], Finance.Returns(pools, returned))
                  == Finance.ReturnEach(rows, Finance.Returns(store.money.pools, recorded))
      {
        assert rows[i..][0] == rows[i] && rows[i..][1..] == rows[i + 1..];
        if rows[i].pool !in returned {
          if rows[i].pool !in pools { return Err(Integrity); }
          var allocation := new Allocation(rows[i]);
          var unspent := allocation.ReturnUnspent();
          if unspent.Err? { return Err(unspent.error); }
          var pool := new BudgetPool(rows[i].pool, pools[rows[i].pool]);
          var back := pool.Return(unspent.value);
          if back.Fail? { return Err(back.error); }
          pools, returned := pools[pool.id := pool.Row()], returned[pool.id := unspent.value];
        }
      }
      return Ok(Finance.Returns(pools, returned));
    }
  }

  lemma ListedPools(db: DB, listed: seq<Id>, currency: Name, tenant: Name, actor: Name, now: Time)
    requires Finance.ListsPools(db, listed, currency, tenant, actor, now)
    ensures forall i | 0 <= i < |listed| :: listed[i] in db.money.pools
    ensures forall i, j | 0 <= i < j < |listed| :: listed[i] != listed[j]
  {
  }
}
