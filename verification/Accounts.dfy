/** The ledger's objects, whose counters are changed in place: allocations, cost caps
    and pools (internal/domain/budget.go, internal/domain/finance.go), and the loops
    that change them together (internal/application/budget.go). */
module Accounts {
  import opened Values
  import opened Budget

  class Allocation {
    const pool: Id
    const currency: Name
    const amount: Int64
    var reserved: Int64
    var consumed: Int64

    constructor (row: AllocationRow)
      ensures Row() == row
    {
      pool, currency, amount, reserved, consumed := row.pool, row.currency, row.amount, row.reserved, row.consumed;
    }

    function Row(): AllocationRow
      reads this
    {
      AllocationRow(pool, currency, amount, reserved, consumed)
    }

    /** internal/domain/budget.go:322-337. */
    method Reserve(exposure: Money) returns (r: Check)
      modifies this
      ensures Applied(old(Row()).Reserve(exposure), r, old(Row()), Row())
    {
      if exposure.currency != currency { return Fail(Invalid); }
      var held := AddInt64(reserved, consumed);
      if held.None? { return Fail(Invalid); }
      var next := AddInt64(held.value, exposure.amount);
      if next.None? || next.value > amount { return Fail(BudgetExhausted); }
      reserved := Wrap64(reserved + exposure.amount);
      return Pass;
    }

    /** internal/domain/budget.go:344-355. */
    method Restore(exposure: Money) returns (r: Check)
      modifies this
      ensures Applied(old(Row()).Restore(exposure), r, old(Row()), Row())
    {
      if exposure.currency != currency || exposure.amount < 0 { return Fail(Invalid); }
      var next := AddInt64(reserved, exposure.amount);
      if next.None? { return Fail(Invalid); }
      reserved := next.value;
      return Pass;
    }

    /** internal/domain/budget.go:359-366. */
    method Release(exposure: Money) returns (r: Check)
      modifies this
      ensures Applied(old(Row()).Release(exposure), r, old(Row()), Row())
    {
      if exposure.currency != currency || exposure.amount > reserved || exposure.amount < 0 { return Fail(Invalid); }
      reserved := reserved - exposure.amount;
      return Pass;
    }

    /** internal/domain/budget.go:372-388: a refused release leaves the cost charged. */
    method Charge(delta: Money, reservation: Money, releaseReservation: bool) returns (r: Check)
      modifies this
      ensures !releaseReservation ==> Applied(old(Row()).Charge(delta), r, old(Row()), Row())
      ensures releaseReservation ==>
                match old(Row()).Charge(delta)
                case Err(_) => Applied(old(Row()).Charge(delta), r, old(Row()), Row())
                case Ok(charged) => Applied(charged.Release(reservation), r, charged, Row())
    {
      if delta.currency != currency || delta.amount < 0 { return Fail(Invalid); }
      var next := AddInt64(consumed, delta.amount);
      if next.None? { return Fail(Invalid); }
      consumed := next.value;
      if releaseReservation {
        r := Release(reservation);
        return;
      }
      return Pass;
    }

    /** internal/domain/finance.go:176-181. */
    method ReturnUnspent() returns (r: Result<int>)
      ensures r == Row().ReturnUnspent()
    {
      if reserved != 0 { return Err(Invalid); }
      return Ok(Max(0, amount - consumed));
    }
  }

  class CostCap {
    const key: CapKey
    const cap: Int64
    var reserved: Int64
    var consumed: Int64

    constructor (k: CapKey, row: CostCapRow)
      ensures key == k && Row() == row
    {
      key, cap, reserved, consumed := k, row.cap, row.reserved, row.consumed;
    }

    function Row(): CostCapRow
      reads this
    {
      CostCapRow(cap, reserved, consumed)
    }

    /** internal/domain/finance.go:66-74. */
    method Reserve(amount: Int64) returns (r: Check)
      modifies this
      ensures Applied(old(Row()).Move(ToReserve, amount), r, old(Row()), Row())
      ensures Applied(old(Row()).Move(ToRestore, amount), r, old(Row()), Row())
    {
      var next := AddInt64(reserved, amount);
      if next.None? || amount < 0 { return Fail(Invalid); }
      reserved := next.value;
      return Pass;
    }

    /** internal/domain/finance.go:76-79: it never goes negative and never refuses. */
    method Release(amount: Int64)
      modifies this
      ensures Applied(old(Row()).Move(ToRelease, amount), Pass, old(Row()), Row())
    {
      reserved := Max(0, Wrap64(reserved - amount));
    }

    /** internal/domain/finance.go:81-89. */
    method Charge(delta: Int64) returns (r: Check)
      modifies this
      ensures Applied(old(Row()).Move(ToCharge, delta), r, old(Row()), Row())
    {
      var next := AddInt64(consumed, delta);
      if next.None? || delta < 0 { return Fail(Invalid); }
      consumed := next.value;
      return Pass;
    }
  }

  class BudgetPool {
    const id: Id
    const terms: Pool
    var allotted: Int64

    constructor (p: Id, row: Pool)
      ensures id == p && Row() == row
    {
      id, terms, allotted := p, row, row.allotted;
    }

    function Row(): Pool
      reads this
    {
      terms.(allotted := allotted)
    }

    /** internal/domain/budget.go:281-298. */
    method Allocate(amount: Money, now: Time) returns (r: Check)
      modifies this
      ensures Applied(old(Row()).Allocate(amount, now), r, old(Row()), Row())
    {
      if amount.currency != terms.currency || amount.amount <= 0 { return Fail(Invalid); }
      if !terms.Covers(now) { return Fail(BudgetExhausted); }
      var next := AddInt64(allotted, amount.amount);
      if next.None? || next.value > terms.cap { return Fail(BudgetExhausted); }
      allotted := next.value;
      return Pass;
    }

    /** internal/domain/finance.go:184-191. */
    method Return(amount: int) returns (r: Check)
      modifies this
      ensures Applied(old(Row()).Return(amount), r, old(Row()), Row())
    {
      if amount < 0 || amount > allotted { return Fail(Invalid); }
      allotted := allotted - amount;
      return Pass;
    }
  }

  // ---------- loops that compute ----------

  /** internal/domain/budget.go:218-246: every category is rounded up in turn. */
  method Priced(price: Price, usage: Usage) returns (r: Result<Money>)
    ensures r == price.Cost(usage)
  {
    hide Rounded, CeilMillion;
    var u := usage;
    if price.inputIncludesCached {
      if u.cached > u.input { return Err(Invalid); }
      u := u.(input := u.input - u.cached);
    }
    if price.outputIncludesReasoning {
      if u.reasoning > u.output { return Err(Invalid); }
      u := u.(output := u.output - u.reasoning);
    }
    var categories := [(u.input, price.perInput), (u.output, price.perOutput), (u.reasoning, price.perReasoning),
                       (u.cached, price.perCached)];
    var total := 0;
    for i := 0 to |categories|
      invariant i == 0 ==> total == 0
      invariant i == 1 ==> total == Rounded(u.input, price.perInput)
      invariant i == 2 ==> total == Rounded(u.input, price.perInput) + Rounded(u.output, price.perOutput)
      invariant i == 3 ==>
          total == Rounded(u.input, price.perInput) + Rounded(u.output, price.perOutput) + Rounded(u.reasoning,
          price.perReasoning)
      invariant i == 4 ==> total == price.Total(u)
    {
      total := total + Rounded(categories[i].0, categories[i].1);
    }
    if !InInt64(total) { return Err(Invalid); }
    return Ok(Money(price.currency, total));
  }

  /** The rows of the caps that bind an operation, in any order
      (internal/adapters/postgres/queries/finance.sql:43-53); a tenant cap names no
      project (internal/application/finance.go:303-320). */
  predicate ListsCaps(table: map<CapKey, CostCapRow>, listed: seq<CapKey>, tenant: Name, project: Option<Name>) {
    && (forall i | 0 <= i < |listed| :: listed[i] in table && listed[i].Binds(tenant, project))
    && (forall k | k in table && k.Binds(tenant, project) :: k in listed)
    && (forall k | k in table && k.level == CapTenant :: k.project.None?)
  }

  /** The cap a level is bound by among those seen. */
  predicate Chosen(seen: seq<CapKey>, byLevel: map<CapLevel, CapKey>, level: CapLevel, tenant: Name,
                   project: Option<Name>, currency: Name) {
    var own := CapKey(level, tenant, if level == CapTenant then None else project, currency);
    var wide := CapKey(level, tenant, None, currency);
    if own in seen then level in byLevel && byLevel[level] == own
    else if level == CapOperation && wide in seen then level in byLevel && byLevel[level] == wide
    else level !in byLevel
  }

  /** internal/domain/finance.go:97-109: the operation cap of the operation's own project
      wins over the tenant-wide one, whichever comes first. */
  method ChooseCaps(ghost table: map<CapKey, CostCapRow>, listed: seq<CapKey>, tenant: Name, project: Option<Name>,
                    currency: Name)
    returns (byLevel: map<CapLevel, CapKey>)
    requires ListsCaps(table, listed, tenant, project)
    ensures forall level :: Chosen(listed, byLevel, level, tenant, project, currency)
  {
    byLevel := map[];
    for i := 0 to |listed|
      invariant forall level :: Chosen(listed[..i], byLevel, level, tenant, project, currency)
    {
      var k := listed[i];
      ghost var seen, had := listed[..i + 1], byLevel;
      assert seen == listed[..i] + [k];
      assert forall x :: x in seen <==> x in listed[..i] || x == k;
      assert Chosen(listed[..i], had, k.level, tenant, project, currency);
      if k.currency == currency
         && !(k.level == CapOperation && k.level in byLevel && byLevel[k.level].project.Some?)
      {
        byLevel := byLevel[k.level := k];
      }
      forall level
        ensures Chosen(seen, byLevel, level, tenant, project, currency)
      {
        assert Chosen(listed[..i], had, level, tenant, project, currency);
      }
    }
    assert listed[..|listed|] == listed;
  }

  /** internal/domain/finance.go:110-137. */
  method CheckListedCaps(table: map<CapKey, CostCapRow>, listed: seq<CapKey>, allocs: seq<AllocationRow>, tenant: Name,
                         project: Option<Name>, currency: Name, exposure: Int64, required: bool)
    returns (r: Check)
    requires ListsCaps(table, listed, tenant, project)
    ensures r == CheckCaps(table, allocs, tenant, project, currency, exposure, required)
  {
    hide LevelCheck;
    var byLevel := ChooseCaps(table, listed, tenant, project, currency);
    var spend := MaxHeld(allocs);
    var levels := [CapTenant, CapProject, CapOperation];
    for i := 0 to |levels|
      invariant i > 0 ==> CheckCap(table, allocs, tenant, project, currency, exposure, required, CapTenant).Pass?
      invariant i > 1 ==> CheckCap(table, allocs, tenant, project, currency, exposure, required, CapProject).Pass?
      invariant i > 2 ==> CheckCap(table, allocs, tenant, project, currency, exposure, required, CapOperation).Pass?
    {
      var level := levels[i];
      assert Chosen(listed, byLevel, level, tenant, project, currency);
      r := CheckLevel(table, if level in byLevel then Some(byLevel[level]) else None, spend, exposure, required);
      ChosenBinds(table, listed, byLevel, level, tenant, project, currency);
      if r.Fail? { return; }
    }
    r := Pass;
  }

  /** One level: a missing cap refuses a paid route where caps are required. */
  method CheckLevel(table: map<CapKey, CostCapRow>, k: Option<CapKey>, spend: Int64, exposure: Int64,
                    required: bool) returns (r: Check)
    requires k.Some? ==> k.value in table
    ensures r == LevelCheck(table, k, spend, exposure, required)
  {
    if k.None? { return if required then Fail(Denied(DenyCapExceeded)) else Pass; }
    var held := spend;
    if k.value.Counted() {
      var counted := AddInt64(table[k.value].reserved, table[k.value].consumed);
      if counted.None? { return Fail(Invalid); }
      held := counted.value;
    }
    var next := AddInt64(held, exposure);
    if next.None? || next.value > table[k.value].cap { return Fail(Denied(DenyCapExceeded)); }
    return Pass;
  }

  lemma ChosenBinds(table: map<CapKey, CostCapRow>, listed: seq<CapKey>, byLevel: map<CapLevel, CapKey>,
                    level: CapLevel, tenant: Name,
                    project: Option<Name>, currency: Name)
    requires ListsCaps(table, listed, tenant, project) && Chosen(listed, byLevel, level, tenant, project, currency)
    ensures BindingCap(table, tenant, project, currency, level) == if level in byLevel then Some(byLevel[level])
        else None
  {
  }

  /** internal/domain/finance.go:110-115. */
  method MaxHeld(allocs: seq<AllocationRow>) returns (spend: Int64)
    ensures spend == OperationSpend(allocs)
  {
    spend := 0;
    for i := 0 to |allocs|
      invariant spend == OperationSpend(allocs[..i])
    {
      assert allocs[..i + 1][..i] == allocs[..i];
      var held := AddInt64(allocs[i].reserved, allocs[i].consumed);
      if held.Some? && held.value > spend { spend := held.value; }
    }
    assert allocs[..|allocs|] == allocs;
  }
}
