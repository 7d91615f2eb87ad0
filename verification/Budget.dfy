/** Money, prices, pools, allocations and cost caps: the rows and the changes the
    domain makes to them (internal/domain/budget.go, internal/domain/finance.go). */
module Budget {
  import opened Values

  /** A fixed-scale amount in one currency. */
  datatype Money = Money(currency: Name, amount: Int64)

  datatype DispatchKind = DispatchModel | DispatchTool

  // ---------- metering ----------

  /** Cumulative counters of one report. */
  datatype Usage = Usage(input: nat, output: nat, reasoning: nat, cached: nat)

  const NoUsage := Usage(0, 0, 0, 0)

  function Max(a: int, b: int): int { if a >= b then a else b }

  function MaxUsage(a: Usage, b: Usage): Usage {
    Usage(Max(a.input, b.input), Max(a.output, b.output), Max(a.reasoning, b.reasoning), Max(a.cached, b.cached))
  }

  /** Unit prices per million of the four metering categories. */
  datatype Price = Price(
    kind: DispatchKind, provider: Option<Name>, model: Option<Name>, currency: Name,
    effectiveFrom: Time, effectiveUntil: Time,
    perInput: nat, perOutput: nat, perReasoning: nat, perCached: nat,
    inputIncludesCached: bool, outputIncludesReasoning: bool, maxExposure: Int64)
  {
    predicate EffectiveAt(t: Time) { effectiveFrom <= t < effectiveUntil }

    predicate Free() { perInput == 0 && perOutput == 0 && perReasoning == 0 && perCached == 0 }

    /** The counters each category is charged for: a subset reported inside another
        counter is separated when the price says so. */
    predicate Admits(u: Usage) {
      && (inputIncludesCached ==> u.cached <= u.input)
      && (outputIncludesReasoning ==> u.reasoning <= u.output)
    }

    function Charged(u: Usage): Usage
      requires Admits(u)
    {
      Usage(if inputIncludesCached then u.input - u.cached else u.input,
            if outputIncludesReasoning then u.output - u.reasoning else u.output,
            u.reasoning, u.cached)
    }

    /** Every category rounded up to the ledger's scale, summed. */
    function Total(u: Usage): int {
      Rounded(u.input, perInput) + Rounded(u.output, perOutput) + Rounded(u.reasoning,
          perReasoning) + Rounded(u.cached, perCached)
    }

    /** internal/domain/budget.go:218-246. */
    function Cost(u: Usage): Result<Money> {
      if !Admits(u) then Err(Invalid)
      else
        var total := Total(Charged(u));
        if !InInt64(total) then Err(Invalid) else Ok(Money(currency, total))
    }
  }

  /** The cost of one category. */
  function Rounded(units: nat, perMillion: nat): nat { CeilMillion(units * perMillion) }

  /** Quotient and remainder of a non-negative product, rounded up. */
  function CeilMillion(x: nat): nat {
    if x % 1_000_000 > 0 then x / 1_000_000 + 1 else x / 1_000_000
  }

  // ---------- pools ----------

  datatype BudgetLevel = LevelPlatform | LevelTenant | LevelActor

  datatype Pool = Pool(level: BudgetLevel, tenant: Option<Name>, actor: Option<Name>,
                       periodStart: Time, periodEnd: Time, currency: Name, cap: Int64, allotted: Int64)
  {
    predicate Covers(now: Time) { periodStart <= now < periodEnd }

    /** internal/domain/budget.go:281-298. */
    function Allocate(amount: Money, now: Time): Result<Pool> {
      if amount.currency != currency then Err(Invalid)
      else if amount.amount <= 0 then Err(Invalid)
      else if !Covers(now) then Err(BudgetExhausted)
      else
        match AddInt64(allotted, amount.amount)
        case None => Err(BudgetExhausted)
        case Some(next) => if next > cap then Err(BudgetExhausted) else Ok(this.(allotted := next))
    }

    /** internal/domain/finance.go:184-191. */
    function Return(amount: int): Result<Pool> {
      if amount < 0 || amount > allotted then Err(Invalid) else Ok(this.(allotted := allotted - amount))
    }
  }

  // ---------- allocations ----------

  datatype AllocationRow = AllocationRow(pool: Id, currency: Name, amount: Int64, reserved: Int64, consumed: Int64)
  {
    /** internal/domain/budget.go:322-337. */
    function Reserve(m: Money): Result<AllocationRow> {
      if m.currency != currency then Err(Invalid)
      else
        match AddInt64(reserved, consumed)
        case None => Err(Invalid)
        case Some(held) =>
          match AddInt64(held, m.amount)
          case None => Err(BudgetExhausted)
          case Some(next) =>
            if next > amount then Err(BudgetExhausted)
            else Ok(this.(reserved := Wrap64(reserved + m.amount)))
    }

    /** internal/domain/budget.go:344-355. */
    function Restore(m: Money): Result<AllocationRow> {
      if m.currency != currency || m.amount < 0 then Err(Invalid)
      else
        match AddInt64(reserved, m.amount)
        case None => Err(Invalid)
        case Some(next) => Ok(this.(reserved := next))
    }

    /** internal/domain/budget.go:359-366. */
    function Release(m: Money): Result<AllocationRow> {
      if m.currency != currency || m.amount > reserved || m.amount < 0 then Err(Invalid)
      else Ok(this.(reserved := reserved - m.amount))
    }

    /** internal/domain/budget.go:372-388, as every caller uses it: the reservation
        is released separately. */
    function Charge(m: Money): Result<AllocationRow> {
      if m.currency != currency || m.amount < 0 then Err(Invalid)
      else
        match AddInt64(consumed, m.amount)
        case None => Err(Invalid)
        case Some(next) => Ok(this.(consumed := next))
    }

    /** internal/domain/finance.go:176-181. */
    function ReturnUnspent(): Result<int> {
      if reserved != 0 then Err(Invalid) else Ok(Max(0, amount - consumed))
    }

    /** The column checks of the allocations table
        (internal/migrate/sql/00001_init.sql:175-186). */
    predicate Sane() { 0 <= amount && 0 <= reserved && 0 <= consumed }
  }

  /** What an operation does to each of its allocations. */
  datatype Movement = ToReserve | ToRestore | ToRelease | ToCharge

  function Move(a: AllocationRow, what: Movement, m: Money): Result<AllocationRow> {
    match what
    case ToReserve => a.Reserve(m)
    case ToRestore => a.Restore(m)
    case ToRelease => a.Release(m)
    case ToCharge => a.Charge(m)
  }

  /** The loops of internal/application/budget.go: every allocation in turn; the
      first refusal is the answer. */
  function MoveAll(s: seq<AllocationRow>, what: Movement, m: Money): (r: Result<seq<AllocationRow>>)
    ensures r.Ok? ==> |r.value| == |s|
    ensures r.Ok? ==> forall i | 0 <= i < |s| :: Move(s[i], what, m) == Ok(r.value[i])
    ensures r.Err? ==> exists i | 0 <= i < |s| :: Move(s[i], what, m) == Err(r.error)
  {
    if s == [] then Ok([])
    else
      match Move(s[0], what, m)
      case Err(e) => Err(e)
      case Ok(first) =>
        match MoveAll(s[1..], what, m)
        case Err(e) => Err(e)
        case Ok(rest) => Ok([first] + rest)
  }

  // ---------- actual-cost caps ----------

  datatype CapLevel = CapTenant | CapProject | CapOperation

  /** The unique scope of a cap (internal/application/finance.go:320). */
  datatype CapKey = CapKey(level: CapLevel, tenant: Name, project: Option<Name>, currency: Name)
  {
    /** An operation cap keeps no counters (internal/domain/finance.go:48). */
    predicate Counted() { level != CapOperation }

    /** The join of LockOperationCostCaps
        (internal/adapters/postgres/queries/finance.sql:43-53). */
    predicate Binds(opTenant: Name, opProject: Option<Name>) {
      && tenant == opTenant
      && match level
         case CapTenant => true
         case CapProject => project == opProject
         case CapOperation => project == opProject || project == None
    }
  }

  datatype CostCapRow = CostCapRow(cap: Int64, reserved: Int64, consumed: Int64)
  {
    /** internal/domain/finance.go:66-89. Release never goes negative. */
    function Move(what: Movement, amount: Int64): Result<CostCapRow> {
      match what
      case ToRelease => Ok(this.(reserved := Max(0, Wrap64(reserved - amount))))
      case ToCharge =>
        (match AddInt64(consumed, amount)
         case None => Err(Invalid)
         case Some(next) => if amount < 0 then Err(Invalid) else Ok(this.(consumed := next)))
      case _ =>
        (match AddInt64(reserved, amount)
         case None => Err(Invalid)
         case Some(next) => if amount < 0 then Err(Invalid) else Ok(this.(reserved := next)))
    }

    predicate Sane() { 0 <= reserved && 0 <= consumed }
  }

  predicate Counts(k: CapKey, tenant: Name, project: Option<Name>, currency: Name) {
    k.Counted() && k.Binds(tenant, project) && k.currency == currency
  }

  /** The counted caps of an operation move together with its allocations
      (internal/application/budget.go:32-97); every other cap stays. */
  function MoveCaps(caps: map<CapKey, CostCapRow>, tenant: Name, project: Option<Name>, what: Movement, m: Money)
    : (r: Result<map<CapKey, CostCapRow>>)
  {
    if exists k | k in caps ::
        Counts(k, tenant, project, m.currency) && caps[k].Move(what, m.amount).Err? then Err(Invalid)
    else
      Ok(map k | k in caps ::
           if Counts(k, tenant, project, m.currency) then caps[k].Move(what, m.amount).value else caps[k])
  }

  /** The largest reserved-plus-consumed of the operation's allocations
      (internal/domain/finance.go:110-115). */
  function OperationSpend(s: seq<AllocationRow>): Int64 {
    if s == [] then 0
    else
      var rest := OperationSpend(s[..|s| - 1]);
      var last := s[|s| - 1];
      match AddInt64(last.reserved, last.consumed)
      case None => rest
      case Some(held) => Max(held, rest)
  }

  /** The cap that binds a level: an operation cap of the operation's own project
      wins over the tenant-wide one (internal/domain/finance.go:97-109). */
  function BindingCap(caps: map<CapKey, CostCapRow>, tenant: Name, project: Option<Name>, currency: Name,
                      level: CapLevel)
    : Option<CapKey>
  {
    match level
    case CapTenant =>
      var k := CapKey(CapTenant, tenant, None, currency);
      if k in caps then Some(k) else None
    case CapProject =>
      var k := CapKey(CapProject, tenant, project, currency);
      if k in caps then Some(k) else None
    case CapOperation =>
      var own := CapKey(CapOperation, tenant, project, currency);
      var wide := CapKey(CapOperation, tenant, None, currency);
      if own in caps then Some(own) else if wide in caps then Some(wide) else None
  }

  /** One level: a counted cap keeps its own spend, an operation cap shares the
      operation's; a missing cap refuses where caps are required. */
  function LevelCheck(caps: map<CapKey, CostCapRow>, k: Option<CapKey>, spend: Int64, exposure: Int64,
                      required: bool): Check
    requires k.Some? ==> k.value in caps
  {
    if k.None? then if required then Fail(Denied(DenyCapExceeded)) else Pass
    else
      var held := if k.value.Counted() then AddInt64(caps[k.value].reserved, caps[k.value].consumed) else Some(spend);
      if held.None? then Fail(Invalid)
      else
        match AddInt64(held.value, exposure)
        case None => Fail(Denied(DenyCapExceeded))
        case Some(next) => if next > caps[k.value].cap then Fail(Denied(DenyCapExceeded)) else Pass
  }

  function CheckCap(caps: map<CapKey, CostCapRow>, allocs: seq<AllocationRow>, tenant: Name, project: Option<Name>,
                    currency: Name, exposure: Int64, required: bool, level: CapLevel): Check
  {
    LevelCheck(caps, BindingCap(caps, tenant, project, currency, level), OperationSpend(allocs), exposure, required)
  }

  /** internal/domain/finance.go:97-137, level by level. */
  function CheckCaps(caps: map<CapKey, CostCapRow>, allocs: seq<AllocationRow>, tenant: Name, project: Option<Name>,
                     currency: Name, exposure: Int64, required: bool): Check
  {
    var atTenant := CheckCap(caps, allocs, tenant, project, currency, exposure, required, CapTenant);
    if atTenant.Fail? then atTenant
    else
      var atProject := CheckCap(caps, allocs, tenant, project, currency, exposure, required, CapProject);
      if atProject.Fail? then atProject
      else CheckCap(caps, allocs, tenant, project, currency, exposure, required, CapOperation)
  }

  // ---------- facts the transactions rely on ----------

  /** A reservation that passed cannot wrap the counter it is added to. */
  lemma ReserveIsExact(a: AllocationRow, m: Money)
    requires a.Sane() && m.amount >= 0
    requires a.Reserve(m).Ok?
    ensures a.Reserve(m).value == a.(reserved := a.reserved + m.amount)
    ensures a.reserved + a.consumed + m.amount <= a.amount
  {
    AddInt64Exact(a.reserved, a.consumed);
    AddInt64Exact(a.reserved + a.consumed, m.amount);
  }
}
