/** Pools, allocations, cost caps and the settlement of a terminal operation's
    money (internal/application/dispatch.go:60-139, internal/application/finance.go). */
module Finance {
  import opened Values
  import opened Budget
  import opened Records
  import opened Database

  // ---------- allocation ----------

  predicate CurrentPool(p: Pool, currency: Name, tenant: Name, actor: Name, now: Time) {
    && p.currency == currency && p.Covers(now)
    && match p.level
       case LevelPlatform => p.tenant == None && p.actor == None
       case LevelTenant => p.tenant == Some(tenant) && p.actor == None
       case LevelActor => p.tenant == Some(tenant) && p.actor == Some(actor)
  }

  /** The answer of ListCurrentPools, in the order of the pool ids
      (internal/adapters/postgres/queries/dispatch.sql:7-13). */
  predicate ListsPools(db: DB, listed: seq<Id>, currency: Name, tenant: Name, actor: Name, now: Time) {
    && (forall i, j | 0 <= i < j < |listed| :: listed[i] < listed[j])
    && (forall p | p in db.money.pools :: CurrentPool(db.money.pools[p], currency, tenant, actor, now) <==> p in listed)
    && (forall i | 0 <= i < |listed| :: listed[i] in db.money.pools)
  }

  predicate SameLevelTwice(db: DB, listed: seq<Id>)
    requires forall i | 0 <= i < |listed| :: listed[i] in db.money.pools
  {
    exists i, j | 0 <= i < j < |listed| :: db.money.pools[listed[i]].level == db.money.pools[listed[j]].level
  }

  predicate HasLevel(db: DB, listed: seq<Id>, level: BudgetLevel)
    requires forall i | 0 <= i < |listed| :: listed[i] in db.money.pools
  {
    exists i | 0 <= i < |listed| :: db.money.pools[listed[i]].level == level
  }

  predicate Holds(allocs: seq<AllocationRow>, pool: Id) {
    exists i | 0 <= i < |allocs| :: allocs[i].pool == pool
  }

  datatype Share = Share(pools: map<Id, Pool>, rows: seq<AllocationRow>)

  /** One allocation per listed pool that has none yet, in turn
      (internal/application/dispatch.go:97-115). */
  function Draw(pools: map<Id, Pool>, rows: seq<AllocationRow>, listed: seq<Id>, amount: Money,
                now: Time): Result<Share>
    requires forall i | 0 <= i < |listed| :: listed[i] in pools
    decreases |listed|
  {
    if listed == [] then Ok(Share(pools, rows))
    else if Holds(rows, listed[0]) then Draw(pools, rows, listed[1..], amount, now)
    else
      var drawn :- pools[listed[0]].Allocate(amount, now);
      Draw(pools[listed[0] := drawn], rows + [AllocationRow(listed[0], drawn.currency, amount.amount, 0, 0)],
           listed[1..], amount, now)
  }

  /** internal/application/dispatch.go:60-139. */
  function Allocate(db: DB, o: Id, tenant: Name, actor: Name, amount: Money, listed: seq<Id>,
                    now: Time): (r: Result<DB>)
    ensures r.Ok? ==> r.value == db.(money := r.value.money, work := db.work.(operations := r.value.work.operations))
  {
    if !ListsPools(db, listed, amount.currency, tenant, actor, now) then Err(Invalid)
    else if SameLevelTwice(db, listed) then Err(Invalid)
    else if !HasLevel(db, listed, LevelPlatform) || !HasLevel(db, listed, LevelTenant)
        || !HasLevel(db, listed, LevelActor)
    then Err(BudgetExhausted)
    else if o !in db.work.operations || db.work.operations[o].bind.tenant != tenant then Err(NotFound)
    else if db.work.operations[o].FencedForNewDispatch() then Err(StaleExecution)
    else
      var rows := AllocationsOf(db, o);
      var share :- Draw(db.money.pools, rows, listed, amount, now);
      if share.rows == rows then Ok(db)
      else
        Ok(PutOperation(db.(money := db.money.(pools := share.pools,
                                               allocations := db.money.allocations[o := share.rows])), o,
                        db.work.operations[o].(finance := FinanceFunded).Transition()))
  }

  predicate SameScope(p: Pool, q: Pool) {
    p.level == q.level && p.tenant == q.tenant && p.actor == q.actor && p.periodStart == q.periodStart
  }

  predicate SameTerms(p: Pool, q: Pool) {
    p.currency == q.currency && p.cap == q.cap && p.periodEnd == q.periodEnd
  }

  /** internal/application/finance.go:219-249: a pool starts with nothing allocated;
      its scope and period are unique. */
  function CreatePool(db: DB, id: Id, p: Pool): (r: Result<DB>)
    ensures r.Ok? ==> r.value == db.(money := r.value.money)
  {
    if p.cap < 0 || p.periodEnd <= p.periodStart then Err(Invalid)
    else if exists q | q in db.money.pools ::
        SameScope(db.money.pools[q], p) && !SameTerms(db.money.pools[q], p) then Err(IdempotencyConflict)
    else if exists q | q in db.money.pools :: SameScope(db.money.pools[q], p) then Ok(db)
    else if id in db.money.pools then Err(DuplicateKey)
    else Ok(db.(money := db.money.(pools := db.money.pools[id := p.(allotted := 0)])))
  }

  /** internal/application/finance.go:254-282: a lower cap takes nothing back. */
  function AdjustPool(db: DB, id: Id, cap: Money): (r: Result<DB>)
    ensures r.Ok? ==> r.value == db.(money := r.value.money)
  {
    if cap.amount < 0 then Err(Invalid)
    else if id !in db.money.pools then Err(NotFound)
    else if db.money.pools[id].currency != cap.currency then Err(Invalid)
    else Ok(db.(money := db.money.(pools := db.money.pools[id := db.money.pools[id].(cap := cap.amount)])))
  }

  // ---------- caps ----------

  /** internal/application/finance.go:303-350: a cap that does not exist yet starts
      with zero counters. */
  function SetCap(db: DB, k: CapKey, amount: Int64): (r: Result<DB>)
    ensures r.Ok? ==> r.value == db.(money := r.value.money)
  {
    if amount < 0 || (k.level == CapTenant && k.project.Some?) then Err(Invalid)
    else if k in db.money.caps
        then Ok(db.(money := db.money.(caps := db.money.caps[k := db.money.caps[k].(cap := amount)])))
    else Ok(db.(money := db.money.(caps := db.money.caps[k := CostCapRow(amount, 0, 0)])))
  }

  // ---------- settlement ----------

  /** The return ledger of an operation after every allocation that has no entry yet
      returned its unspent part, and the pools it went back to
      (internal/application/finance.go:421-445). */
  datatype Returns = Returns(pools: map<Id, Pool>, returned: map<Id, int>)

  function ReturnEach(rows: seq<AllocationRow>, ledger: Returns): Result<Returns> {
    if rows == [] then Ok(ledger)
    else if rows[0].pool in ledger.returned then ReturnEach(rows[1..], ledger)
    else if rows[0].pool !in ledger.pools then Err(Integrity)
    else
      var unspent :- rows[0].ReturnUnspent();
      var pool :- ledger.pools[rows[0].pool].Return(unspent);
      ReturnEach(rows[1..], Returns(ledger.pools[rows[0].pool := pool], ledger.returned[rows[0].pool := unspent]))
  }

  predicate FinanceSettleable(op: Operation) {
    op.lifecycle.Terminal() && (op.finance == FinanceFunded || op.finance == FinanceNotFunded)
  }

  /** internal/application/finance.go:372-455. */
  function SettleFinance(db: DB, o: Id): (r: Result<DB>)
    ensures r.Ok? ==> r.value == db.(money := r.value.money, work := db.work.(operations := r.value.work.operations))
  {
    if o !in db.work.operations then Err(NotFound)
    else if !FinanceSettleable(db.work.operations[o]) || HasUnsettledDispatch(db, o) then Ok(db)
    else
      var rows := AllocationsOf(db, o);
      if exists i | 0 <= i < |rows| :: rows[i].reserved != 0 then Ok(db)
      else
        var ledger :- ReturnEach(rows, Returns(db.money.pools, ReturnsOf(db, o)));
        Ok(PutOperation(db.(money := db.money.(pools := ledger.pools,
                                               returned := db.money.returned[o := ledger.returned])), o,
                        db.work.operations[o].(finance := FinanceSettled).Transition()))
  }
}
