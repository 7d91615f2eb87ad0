/** What a dispatch is charged for its usage reports, whatever their order and however often
    they are sent; the outcome it is recorded with; and, as long as that is unknown, the
    exposure of its operation (internal/application/dispatch.go:509-630,670-716,
    internal/domain/budget.go:218-246, internal/domain/dispatch.go:429-448). */
module Metering {
  import opened Values
  import opened Budget
  import opened Records
  import opened Database
  import opened Transactions
  import Admission
  import DispatchSteps
  import Effects
  import Execution
  import Finance
  import Recovery
  import Releases
  import Replacements

  /** The meter after a dispatch's accepted reports. */
  function Metered(price: Price, reports: seq<Report>): Result<Meter> {
    if reports == [] then Ok(NoMeter)
    else
      var before :- Metered(price, reports[..|reports| - 1]);
      var (meter, _) :- Admission.MeterReport(price, before, reports[|reports| - 1]);
      Ok(meter)
  }

  predicate Below(u: Usage, v: Usage) {
    u.input <= v.input && u.output <= v.output && u.reasoning <= v.reasoning && u.cached <= v.cached
  }

  const MILLION: nat := 1_000_000

  /** Moving a unit of one counter into the other never makes the usage cheaper, however
      the categories round. */
  predicate Gradual(p: Price) {
    && (p.inputIncludesCached ==> CeilMillion(p.perInput) <= p.perCached / MILLION)
    && (p.outputIncludesReasoning ==> CeilMillion(p.perOutput) <= p.perReasoning / MILLION)
  }

  // ---------- rounding ----------

  /** The exact price of a usage, in millionths of the ledger's unit. */
  function Exact(p: Price, u: Usage): nat {
    u.input * p.perInput + u.output * p.perOutput + u.reasoning * p.perReasoning + u.cached * p.perCached
  }

  lemma CeilBounds(x: nat)
    ensures x <= 1_000_000 * CeilMillion(x) < x + 1_000_000
  {
  }

  /** Each category rounds up once: the charge is never below the exact price and
      within four units of it. */
  lemma WithinFourUnits(p: Price, u: Usage)
    requires p.Cost(u).Ok?
    ensures Exact(p, p.Charged(u)) <= 1_000_000 * p.Cost(u).value.amount < Exact(p, p.Charged(u)) + 4_000_000
  {
    var v := p.Charged(u);
    CeilBounds(v.input * p.perInput);
    CeilBounds(v.output * p.perOutput);
    CeilBounds(v.reasoning * p.perReasoning);
    CeilBounds(v.cached * p.perCached);
  }

  lemma CeilMonotone(x: nat, y: nat)
    requires x <= y
    ensures CeilMillion(x) <= CeilMillion(y)
  {
    CeilBounds(x);
    CeilBounds(y);
  }

  lemma ProductMonotone(a: nat, b: nat, k: nat)
    requires a <= b
    ensures a * k <= b * k
  {
  }

  lemma CeilLeast(x: nat, k: nat)
    ensures CeilMillion(x) <= k <==> x <= MILLION * k
  {
    CeilBounds(x);
  }

  lemma CeilAdds(x: nat, y: nat)
    ensures CeilMillion(x + y) <= CeilMillion(x) + CeilMillion(y)
  {
    CeilBounds(x);
    CeilBounds(y);
    CeilLeast(x + y, CeilMillion(x) + CeilMillion(y));
  }

  lemma CeilScales(units: nat, perMillion: nat)
    ensures Rounded(units, perMillion) <= units * CeilMillion(perMillion)
  {
    CeilBounds(perMillion);
    ProductMonotone(perMillion, MILLION * CeilMillion(perMillion), units);
    assert MILLION * CeilMillion(perMillion) * units == MILLION * (units * CeilMillion(perMillion));
    CeilLeast(units * perMillion, units * CeilMillion(perMillion));
  }

  lemma CeilShifts(x: nat, k: nat)
    ensures CeilMillion(x + MILLION * k) == CeilMillion(x) + k
  {
    CeilBounds(x);
    CeilBounds(x + MILLION * k);
  }

  /** A counter and the part of it that is charged apart: with more of both the cost
      does not fall. */
  lemma SplitMonotone(perWhole: nat, perPart: nat, whole: nat, part: nat, more: nat, moved: nat)
    requires part <= whole <= more && part <= moved <= more
    requires CeilMillion(perWhole) <= perPart / MILLION
    ensures Rounded(whole - part, perWhole) + Rounded(part, perPart)
         <= Rounded(more - moved, perWhole) + Rounded(moved, perPart)
  {
    hide CeilMillion;
    var d, step := moved - part, perPart / MILLION;
    ProductMonotone(whole - part, more - part, perWhole);
    CeilMonotone((whole - part) * perWhole, (more - part) * perWhole);
    assert (more - part) * perWhole == (more - moved) * perWhole + d * perWhole;
    CeilAdds((more - moved) * perWhole, d * perWhole);
    CeilScales(d, perWhole);
    ProductMonotone(CeilMillion(perWhole), step, d);
    assert step * d == d * step && CeilMillion(perWhole) * d == d * CeilMillion(perWhole);
    ProductMonotone(MILLION * step, perPart, d);
    assert moved * perPart == part * perPart + d * perPart;
    assert MILLION * step * d == MILLION * (d * step) && perPart * d == d * perPart;
    CeilMonotone(part * perPart + MILLION * (d * step), moved * perPart);
    CeilShifts(part * perPart, d * step);
  }

  /** Under a gradual price a larger usage is never cheaper. */
  lemma CostMonotone(p: Price, u: Usage, v: Usage)
    requires Gradual(p) && p.Admits(u) && p.Admits(v) && Below(u, v)
    ensures 0 <= p.Total(p.Charged(u)) <= p.Total(p.Charged(v))
  {
    hide CeilMillion, Rounded;
    if p.inputIncludesCached {
      SplitMonotone(p.perInput, p.perCached, u.input, u.cached, v.input, v.cached);
    } else {
      RoundedMonotone(u.input, v.input, p.perInput);
      RoundedMonotone(u.cached, v.cached, p.perCached);
    }
    if p.outputIncludesReasoning {
      SplitMonotone(p.perOutput, p.perReasoning, u.output, u.reasoning, v.output, v.reasoning);
    } else {
      RoundedMonotone(u.output, v.output, p.perOutput);
      RoundedMonotone(u.reasoning, v.reasoning, p.perReasoning);
    }
  }

  lemma RoundedMonotone(a: nat, b: nat, perMillion: nat)
    requires a <= b
    ensures Rounded(a, perMillion) <= Rounded(b, perMillion)
  {
    ProductMonotone(a, b, perMillion);
    CeilMonotone(a * perMillion, b * perMillion);
  }

  // ---------- merging reports ----------

  /** Merging reports never breaks what a price requires of the counters. */
  lemma MergeAdmits(p: Price, u: Usage, v: Usage)
    ensures p.Admits(u) && p.Admits(v) ==> p.Admits(MaxUsage(u, v))
  {
  }

  /** So when every report satisfies the rules, their merger does. */
  lemma {:induction false} CumulativeAdmits(p: Price, reports: seq<Report>)
    requires forall i | 0 <= i < |reports| :: reports[i].usage.Some? ==> p.Admits(reports[i].usage.value)
    ensures p.Admits(Admission.Cumulative(reports))
  {
    if reports != [] {
      var init := reports[..|reports| - 1];
      assert forall i | 0 <= i < |init| :: init[i] == reports[i];
      CumulativeAdmits(p, init);
      var last := reports[|reports| - 1].usage;
      if last.Some? { MergeAdmits(p, Admission.Cumulative(init), last.value); }
    }
  }

  /** The merger is the least usage above every report. */
  lemma {:induction false} CumulativeIsLeast(reports: seq<Report>, bound: Usage)
    ensures forall i | 0 <= i < |reports| && reports[i].usage.Some? ::
        Below(reports[i].usage.value, Admission.Cumulative(reports))
    ensures (forall i | 0 <= i < |reports| && reports[i].usage.Some? :: Below(reports[i].usage.value, bound))
            ==> Below(Admission.Cumulative(reports), bound)
  {
    if reports != [] {
      var init := reports[..|reports| - 1];
      CumulativeIsLeast(init, bound);
      assert forall i | 0 <= i < |init| :: init[i] == reports[i];
    }
  }

  /** Every usage of the one is a usage of the other. */
  predicate Covered(a: seq<Report>, b: seq<Report>) {
    forall i | 0 <= i < |a| && a[i].usage.Some? :: exists j | 0 <= j < |b| :: b[j].usage == a[i].usage
  }

  lemma CoveredIsBelow(a: seq<Report>, b: seq<Report>)
    requires Covered(a, b)
    ensures Below(Admission.Cumulative(a), Admission.Cumulative(b))
  {
    CumulativeIsLeast(b, NoUsage);
    CumulativeIsLeast(a, Admission.Cumulative(b));
    forall i | 0 <= i < |a| && a[i].usage.Some?
      ensures Below(a[i].usage.value, Admission.Cumulative(b))
    {
      var j :| 0 <= j < |b| && b[j].usage == a[i].usage;
    }
  }

  // ---------- the charge ----------

  /** The cost of the merger of a prefix of the reports. */
  function PrefixCost(price: Price, reports: seq<Report>, k: nat): int
    requires k <= |reports|
  {
    if k == 0 then 0
    else match price.Cost(Admission.Cumulative(reports[..k])) case Ok(m) => m.amount case Err(_) => 0
  }

  predicate IsLargestPrefix(price: Price, reports: seq<Report>, charged: int) {
    && (exists k | 0 <= k <= |reports| :: PrefixCost(price, reports, k) == charged)
    && (forall k | 0 <= k <= |reports| :: PrefixCost(price, reports, k) <= charged)
  }

  lemma PrefixOfPrefix(price: Price, reports: seq<Report>, n: nat, k: nat)
    requires k <= n <= |reports|
    ensures PrefixCost(price, reports[..n], k) == PrefixCost(price, reports, k)
  {
    assert reports[..n][..k] == reports[..k];
  }

  lemma OneMorePrefix(price: Price, reports: seq<Report>, before: int)
    requires reports != [] && IsLargestPrefix(price, reports[..|reports| - 1], before)
    ensures IsLargestPrefix(price, reports, Max(before, PrefixCost(price, reports, |reports|)))
  {
    hide PrefixCost;
    var n := |reports| - 1;
    forall k | 0 <= k <= n
      ensures PrefixCost(price, reports[..n], k) == PrefixCost(price, reports, k)
    {
      PrefixOfPrefix(price, reports, n, k);
    }
    var k :| 0 <= k <= n && PrefixCost(price, reports[..n], k) == before;
    assert PrefixCost(price, reports, k) == before;
  }

  /** A meter keeps every accepted report in order of arrival. */
  lemma {:induction false} MeteredReports(price: Price, reports: seq<Report>)
    requires Metered(price, reports).Ok?
    ensures Metered(price, reports).value.reports == reports
  {
    hide Price.Cost;
    if reports != [] {
      MeteredReports(price, reports[..|reports| - 1]);
      assert reports[..|reports| - 1] + [reports[|reports| - 1]] == reports;
    }
  }

  /** The last report charges what the merger costs beyond what was charged. */
  lemma LastCharged(price: Price, reports: seq<Report>)
    requires reports != [] && Metered(price, reports).Ok?
    ensures var before, cost := Metered(price, reports[..|reports| - 1]), price.Cost(Admission.Cumulative(reports));
            before.Ok? && cost.Ok?
            && Metered(price, reports).value.charged == Max(before.value.charged, cost.value.amount)
  {
    hide Price.Cost, Admission.Cumulative;
    MeteredReports(price, reports[..|reports| - 1]);
    assert reports[..|reports| - 1] + [reports[|reports| - 1]] == reports;
  }

  /** Under any price the charge is the largest cost any prefix of the reports had. */
  lemma {:induction false} ChargedIsLargestPrefix(price: Price, reports: seq<Report>)
    requires Metered(price, reports).Ok?
    ensures Metered(price, reports).value.reports == reports
    ensures IsLargestPrefix(price, reports, Metered(price, reports).value.charged)
  {
    hide IsLargestPrefix, Price.Cost, Metered, Admission.Cumulative;
    MeteredReports(price, reports);
    if reports == [] {
      EmptyMetered(price);
      EmptyPrefix(price);
    } else {
      LastCharged(price, reports);
      ChargedIsLargestPrefix(price, reports[..|reports| - 1]);
      assert reports[..|reports|] == reports;
      OneMorePrefix(price, reports, Metered(price, reports[..|reports| - 1]).value.charged);
    }
  }

  lemma EmptyMetered(price: Price)
    ensures Metered(price, []) == Ok(NoMeter)
  {
  }

  lemma EmptyPrefix(price: Price)
    ensures IsLargestPrefix(price, [], 0)
  {
    assert PrefixCost(price, [], 0) == 0;
  }

  predicate Costs(price: Price, u: Usage, amount: int) { price.Cost(u).Ok? && price.Cost(u).value.amount == amount }

  lemma CostsMonotone(price: Price, u: Usage, v: Usage, low: int)
    requires Gradual(price) && Costs(price, u, low) && price.Cost(v).Ok? && Below(u, v)
    ensures 0 <= low <= price.Cost(v).value.amount
  {
    hide Gradual, Price.Total;
    CostMonotone(price, u, v);
  }

  lemma CumulativeGrows(reports: seq<Report>)
    requires reports != []
    ensures Below(Admission.Cumulative(reports[..|reports| - 1]), Admission.Cumulative(reports))
  {
  }

  /** Under a gradual price the charge is the cost of the merger. */
  lemma {:induction false} ChargedIsCostOfMaximum(price: Price, reports: seq<Report>)
    requires Gradual(price) && Metered(price, reports).Ok?
    ensures Costs(price, Admission.Cumulative(reports), Metered(price, reports).value.charged)
  {
    if reports == [] {
      EmptyMetered(price);
      NothingIsFree(price);
    } else {
      hide Gradual, Price.Cost, Metered, Admission.Cumulative, Below;
      var init := reports[..|reports| - 1];
      LastCharged(price, reports);
      ChargedIsCostOfMaximum(price, init);
      CumulativeGrows(reports);
      CostsMonotone(price, Admission.Cumulative(init), Admission.Cumulative(reports),
                    Metered(price, init).value.charged);
    }
  }

  lemma NothingIsFree(price: Price)
    ensures Costs(price, NoUsage, 0)
  {
  }

  /** The two carry the same usages, and both are accepted. */
  predicate SameUsages(price: Price, a: seq<Report>, b: seq<Report>) {
    Metered(price, a).Ok? && Metered(price, b).Ok? && Covered(a, b) && Covered(b, a)
  }

  /** So order and duplication do not matter: two accepted sequences that carry the
      same usages are charged the same. */
  lemma ChargedIgnoresOrderAndDuplicates(price: Price, a: seq<Report>, b: seq<Report>)
    requires Gradual(price) && SameUsages(price, a, b)
    ensures Metered(price, a).value.charged == Metered(price, b).value.charged
  {
    hide Gradual, Price.Cost, Metered;
    ChargedIsCostOfMaximum(price, a);
    ChargedIsCostOfMaximum(price, b);
    CoveredIsBelow(a, b);
    CoveredIsBelow(b, a);
  }

  lemma MeteredTwo(price: Price, a: Report, b: Report)
    requires a.usage.Some? && b.usage.Some?
    ensures Metered(price, [a, b]) ==
              match price.Cost(MaxUsage(NoUsage, a.usage.value))
              case Err(e) => Err(e)
              case Ok(first) =>
                var charged := Max(0, first.amount);
                match price.Cost(MaxUsage(MaxUsage(NoUsage, a.usage.value), b.usage.value))
                case Err(e) => Err(e)
                case Ok(second) => Ok(Meter([a, b], charged + Max(0, second.amount - charged)))
  {
    hide Price.Cost;
    assert [a, b][..1] == [a] && [a][..0] == [] && [a] + [b] == [a, b] && [] + [a] == [a];
    assert Admission.Cumulative([a]) == MaxUsage(NoUsage, a.usage.value);
    assert Metered(price, []) == Ok(NoMeter);
    assert Metered(price, [a]) ==
           match price.Cost(MaxUsage(NoUsage, a.usage.value)) case Err(e) =>
               Err(e) case Ok(first) => Ok(Meter([a], Max(0, first.amount)));
    assert Admission.Cumulative([a, b]) == MaxUsage(Admission.Cumulative([a]), b.usage.value);
  }

  // ---------- exactly when order does not matter ----------

  ghost predicate IgnoresOrder(price: Price) {
    forall a, b :: SameUsages(price, a, b) ==> Metered(price, a).value.charged == Metered(price, b).value.charged
  }

  /** The cost of a million units of which all but one were charged apart. */
  function AlmostMoved(perWhole: nat, perPart: nat): int { CeilMillion(perWhole) + perPart - perPart / MILLION }

  /** The ledger can hold the cost of a million units of a counter, however they are
      divided. */
  predicate Representable(p: Price) {
    && InInt64(AlmostMoved(p.perInput, p.perCached)) && InInt64(p.perCached)
    && InInt64(AlmostMoved(p.perOutput, p.perReasoning)) && InInt64(p.perReasoning)
  }

  lemma AlmostAllMoved(perWhole: nat, perPart: nat)
    ensures Rounded(1, perWhole) + Rounded(MILLION - 1, perPart) == AlmostMoved(perWhole, perPart)
    ensures Rounded(0, perWhole) + Rounded(MILLION, perPart) == perPart
  {
    var x := (MILLION - 1) * perPart;
    assert x == MILLION * perPart - perPart;
    CeilBounds(x);
    CeilLeast(x, perPart - perPart / MILLION);
    if perPart > 0 { CeilLeast(x, perPart - perPart / MILLION - 1); }
    CeilShifts(0, perPart);
  }

  /** Two reports of which the second is larger and cheaper. */
  lemma CheaperMatters(price: Price, u: Usage, v: Usage, high: int, low: int)
    requires Below(u, v) && Costs(price, u, high) && Costs(price, v, low) && high > low >= 0
    ensures !IgnoresOrder(price)
  {
    hide Price.Cost, Metered;
    var a, b := Report(1, 1, Some(u)), Report(1, 2, Some(v));
    assert MaxUsage(NoUsage, u) == u && MaxUsage(NoUsage, v) == v && MaxUsage(u, v) == v && MaxUsage(v, u) == v;
    MeteredTwo(price, a, b);
    MeteredTwo(price, b, a);
    Swapped(a, b);
    Swapped(b, a);
    assert SameUsages(price, [a, b], [b, a]);
    assert Metered(price, [a, b]).value.charged != Metered(price, [b, a]).value.charged;
  }

  lemma Swapped(a: Report, b: Report)
    ensures Covered([a, b], [b, a])
  {
    assert [b, a][0] == b && [b, a][1] == a;
  }

  lemma NothingRounds(perMillion: nat)
    ensures Rounded(0, perMillion) == 0
  {
  }

  lemma CachedMatters(p: Price)
    requires p.inputIncludesCached && CeilMillion(p.perInput) > p.perCached / MILLION && Representable(p)
    ensures !IgnoresOrder(p)
  {
    hide Rounded, CeilMillion, IgnoresOrder;
    AlmostAllMoved(p.perInput, p.perCached);
    NothingRounds(p.perOutput);
    NothingRounds(p.perReasoning);
    CheaperMatters(p, Usage(MILLION, 0, 0, MILLION - 1), Usage(MILLION, 0, 0, MILLION),
                   AlmostMoved(p.perInput, p.perCached), p.perCached);
  }

  lemma ReasoningMatters(p: Price)
    requires p.outputIncludesReasoning && CeilMillion(p.perOutput) > p.perReasoning / MILLION && Representable(p)
    ensures !IgnoresOrder(p)
  {
    hide Rounded, CeilMillion, IgnoresOrder;
    AlmostAllMoved(p.perOutput, p.perReasoning);
    NothingRounds(p.perInput);
    NothingRounds(p.perCached);
    CheaperMatters(p, Usage(0, MILLION, MILLION - 1, 0), Usage(0, MILLION, MILLION, 0),
                   AlmostMoved(p.perOutput, p.perReasoning), p.perReasoning);
  }

  /** What is charged ignores order and duplication if and only if, for each inclusion
      rule, a unit of the whole rounded up costs no more than the part rounded down. */
  lemma OrderIgnoredExactly(p: Price)
    requires Representable(p)
    ensures IgnoresOrder(p) <==> Gradual(p)
  {
    hide Representable, Metered, Covered;
    if Gradual(p) {
      forall a, b | SameUsages(p, a, b)
        ensures Metered(p, a).value.charged == Metered(p, b).value.charged
      {
        ChargedIgnoresOrderAndDuplicates(p, a, b);
      }
    } else if p.inputIncludesCached && CeilMillion(p.perInput) > p.perCached / MILLION {
      CachedMatters(p);
    } else {
      ReasoningMatters(p);
    }
  }

  const Cached := Report(1, 1, Some(Usage(100, 0, 0, 100)))

  const Uncached := Report(1, 2, Some(Usage(100, 0, 0, 0)))

  /** Cached input is free and part of the input. */
  const FreeCache := Price(DispatchModel, Some(1), Some(1), 0, 0, 1, 1, 0, 0, 0, true, false, 1)

  lemma InputOnly(p: Price, u: Usage)
    requires p.perInput == 1 && p.perOutput == 0 && p.perReasoning == 0 && p.perCached == 0
    ensures p.Total(u) == CeilMillion(u.input)
  {
  }

  lemma FreeCacheCosts()
    ensures FreeCache.Cost(Usage(100, 0, 0, 100)) == Ok(Money(0, 0))
    ensures FreeCache.Cost(Usage(100, 0, 0, 0)) == Ok(Money(0, 1))
  {
    hide Price.Total, CeilMillion;
    InputOnly(FreeCache, Usage(0, 0, 0, 100));
    InputOnly(FreeCache, Usage(100, 0, 0, 0));
    OneMillionth();
  }

  lemma OneMillionth()
    ensures CeilMillion(0) == 0 && CeilMillion(100) == 1
  {
  }

  /** For one such price: uncached input is charged when it is reported first and free
      when a cached report came before it. */
  lemma OrderMattersUnderInclusion()
    ensures !Gradual(FreeCache) && Representable(FreeCache)
    ensures Metered(FreeCache, [Cached, Uncached]) == Ok(Meter([Cached, Uncached], 0))
    ensures Metered(FreeCache, [Uncached, Cached]) == Ok(Meter([Uncached, Cached], 1))
  {
    hide Price.Cost, Metered;
    FreeCacheCosts();
    MeteredTwo(FreeCache, Cached, Uncached);
    MeteredTwo(FreeCache, Uncached, Cached);
  }

  // ---------- the meters of the database ----------

  /** Every meter is what its own accepted reports charge under the frozen price. */
  predicate MeterSound(c: Config, db: DB, d: Id) {
    d in db.ledger.meters ==>
      && d in db.ledger.dispatches
      && var price := c.PriceOf(db.ledger.dispatches[d].bind.meter);
         price.Some? && Metered(price.value, db.ledger.meters[d].reports) == Ok(db.ledger.meters[d])
  }

  lemma MeteredOnce(price: Price, before: Meter, report: Report)
    requires Metered(price, before.reports) == Ok(before) && Admission.MeterReport(price, before, report).Ok?
    ensures var meter := Admission.MeterReport(price, before, report).value.0;
        Metered(price, meter.reports) == Ok(meter)
  {
    var reports := before.reports + [report];
    assert reports[..|reports| - 1] == before.reports;
  }

  lemma ObservedSound(c: Config, db: DB, t: AdmissionTx, d: Id)
    requires t.ObserveDispatch? && AdmissionStep(c, db, t).Ok? && MeterSound(c, db, d)
    ensures MeterSound(c, AdmissionStep(c, db, t).value, d)
  {
    hide Admission.SettleMoney, Admission.MeterReport, Admission.SettleExposure, Admission.Reported, Metered;
    if t.id in db.ledger.dispatches && c.PriceOf(db.ledger.dispatches[t.id].bind.meter).Some? && t.id == d {
      var price := c.PriceOf(db.ledger.dispatches[t.id].bind.meter).value;
      EmptyMetered(price);
      if Admission.MeterReport(price, MeterOf(db, t.id), t.report).Ok? {
        MeteredOnce(price, MeterOf(db, t.id), t.report);
      }
    }
  }

  lemma SoundStep(c: Config, db: DB, tx: Tx, d: Id)
    requires InFlight(tx) && MeterSound(c, db, d)
    ensures MeterSound(c, Apply(c, db, tx), d)
  {
    hide AdmissionStep, EffectStep, Releases.Record, GrantStep, ExecutionStep, Execution.CloseAttempt, ControlStep,
      FinanceStep, RunStep, Recovery.Restore, Recovery.Dispose, Metered, DispatchSteps.Admissible;
    Replacements.StepOfLedger(c, db, tx, CallKey(0, 0, 0), d);
    DispatchSteps.StepOfRow(c, db, tx, d);
    if Replacements.Observes(tx) && AdmissionStep(c, db, tx.admission).Ok? {
      ObservedSound(c, db, tx.admission, d);
    }
  }

  lemma {:induction false} MetersFold(c: Config, run: Run, d: Id)
    requires InFlightRun(run)
    ensures MeterSound(c, After(c, run), d)
  {
    hide Apply, Metered;
    if run.Then? {
      MetersFold(c, run.prior, d);
      SoundStep(c, After(c, run.prior), run.tx, d);
    }
  }

  /** The dispatch was charged the largest cost of a prefix of its reports and, under a
      gradual price, the cost of their maximum. */
  predicate ChargedExactly(c: Config, db: DB, d: Id) {
    hide Costs, Gradual, IsLargestPrefix;
    d in db.ledger.meters ==>
      && d in db.ledger.dispatches
      && var price, meter := c.PriceOf(db.ledger.dispatches[d].bind.meter), db.ledger.meters[d];
         && price.Some? && IsLargestPrefix(price.value, meter.reports, meter.charged)
         && (Gradual(price.value) ==> Costs(price.value, Admission.Cumulative(meter.reports), meter.charged))
  }

  /** In every run, what a dispatch was charged is the largest cost of a prefix of its
      accepted reports and, under a gradual price, the cost of their maximum. */
  lemma MetersAreSound(c: Config, run: Run, d: Id)
    requires InFlightRun(run)
    ensures ChargedExactly(c, After(c, run), d)
  {
    hide After, Metered, Costs, Gradual, IsLargestPrefix;
    MetersFold(c, run, d);
    var db := After(c, run);
    if d in db.ledger.meters {
      var price := c.PriceOf(db.ledger.dispatches[d].bind.meter).value;
      ChargedIsLargestPrefix(price, db.ledger.meters[d].reports);
      if Gradual(price) { ChargedIsCostOfMaximum(price, db.ledger.meters[d].reports); }
    }
  }


  // ---------- the outcome ----------

  predicate Observed(db: DB, d: Id) {
    d in db.ledger.dispatches && db.ledger.dispatches[d].state == DispatchObserved
  }

  predicate Outcome(db: DB, d: Id, outcome: DispatchOutcome) {
    Observed(db, d) && db.ledger.dispatches[d].outcome == Some(outcome)
  }

  /** The transaction reports the outcome, with the usage of the call. */
  predicate Reports(tx: Tx, d: Id, outcome: DispatchOutcome) {
    match tx
    case Admitting(ObserveDispatch(_, id, report, reported)) =>
      id == d && reported == outcome && reported != DispatchOutcomeUnknown && report.usage.Some?
    case _ => false
  }

  predicate NotSent(db: DB, d: Id) {
    d in db.ledger.dispatches && db.ledger.dispatches[d].state == DispatchConfirmedNotSent
  }

  /** The transaction confirms on the evidence that the call was never sent. */
  predicate Confirms(tx: Tx, d: Id, evidence: Name) {
    match tx
    case Admitting(ConfirmDispatchNotSent(id, named)) => id == d && named == evidence
    case Disposing(req, _) =>
      && req.key.id == d && req.key.category in {ClassModelDispatch, ClassToolDispatch}
      && req.decision == DisposeConfirmNotSent && req.evidence == evidence
    case _ => false
  }

  /** An observed call stays as it is; a call becomes observed by a report, and confirmed
      not sent by a confirmation. */
  predicate OutcomeStep(db: DB, next: DB, tx: Tx, d: Id) {
    && (Observed(db, d) ==>
          d in next.ledger.dispatches && d in db.ledger.dispatches
          && next.ledger.dispatches[d] == db.ledger.dispatches[d])
    && (!Observed(db, d) && Observed(next, d) ==>
          next.ledger.dispatches[d].outcome.Some? && Reports(tx, d, next.ledger.dispatches[d].outcome.value))
    && (!NotSent(db, d) && NotSent(next, d) ==>
          next.ledger.dispatches[d].evidence.Some? && Confirms(tx, d, next.ledger.dispatches[d].evidence.value))
  }

  lemma ObserveOutcomes(c: Config, db: DB, t: AdmissionTx, d: Id)
    requires t.ObserveDispatch? && AdmissionStep(c, db, t).Ok?
    ensures OutcomeStep(db, AdmissionStep(c, db, t).value, Admitting(t), d)
  {
    hide Admission.SettleMoney, Admission.MeterReport, Admission.SettleExposure;
  }

  lemma NotSentOutcomes(db: DB, id: Id, evidence: Name, guard: Option<nat>, tx: Tx, d: Id)
    requires Admission.ConfirmNotSent(db, id, evidence, guard).Ok? && Confirms(tx, id, evidence)
    ensures OutcomeStep(db, Admission.ConfirmNotSent(db, id, evidence, guard).value, tx, d)
  {
    hide MoveBudget, Admission.SettleExposure, Admission.Reported;
  }

  lemma PreparingOutcomes(c: Config, db: DB, t: AdmissionTx, d: Id)
    requires (t.AdmitPrepare? || t.AdmitConsume?) && AdmissionStep(c, db, t).Ok?
    ensures OutcomeStep(db, AdmissionStep(c, db, t).value, Admitting(t), d)
  {
    hide Admission.CheckAdmission, Admission.LoadContext, Admission.Binds, MoveBudget, Reports, Confirms;
  }

  lemma AdmittingOutcomes(c: Config, db: DB, t: AdmissionTx, d: Id)
    requires AdmissionStep(c, db, t).Ok?
    ensures OutcomeStep(db, AdmissionStep(c, db, t).value, Admitting(t), d)
  {
    hide Admission.Observe, Admission.ConfirmNotSent, Admission.AdmitPrepare, Admission.AdmitConsume;
    match t
    case ObserveDispatch(_, _, _, _) => ObserveOutcomes(c, db, t, d);
    case ConfirmDispatchNotSent(id, evidence) => NotSentOutcomes(db, id, evidence, None, Admitting(t), d);
    case MarkDispatchUncertain(_) =>
    case _ => PreparingOutcomes(c, db, t, d);
  }

  lemma ClosingOutcomes(c: Config, db: DB, tx: Tx, d: Id)
    requires tx.Closing? && Execution.CloseAttempt(c, db, tx.a, tx.tenant, tx.outcome, tx.cleanup, tx.listed).Ok?
    ensures OutcomeStep(db, Execution.CloseAttempt(c, db, tx.a, tx.tenant, tx.outcome, tx.cleanup, tx.listed).value,
                        tx, d)
  {
    hide Execution.DenyEach, Execution.SettleTerminal, Execution.LeftByClose, SendersActing, HasUnknownAttempt,
      Execution.ListsPrepared;
    var o := db.work.attempts[tx.a].bind.operation;
    if Execution.DenyEach(db, o, tx.listed).Ok? { DispatchSteps.DenyEachRow(db, o, tx.listed, d); }
  }

  lemma RestoringOutcomes(c: Config, db: DB, f: FindingKey, body: Body, d: Id)
    requires Recovery.Restore(c, db, f, body).Ok?
    ensures OutcomeStep(db, Recovery.Restore(c, db, f, body).value, Restoring(f, body), d)
  {
    hide Recovery.RestoreOperation, Recovery.RestoreAttempt, Recovery.RestoreLaunch, Recovery.RestoreEffect,
      MoveBudget, Recovery.ExposeOperation;
  }

  lemma DisposingOutcomes(db: DB, req: Recovery.DispositionRequest, bound: bool, d: Id)
    requires Recovery.Dispose(db, req, bound).Ok?
    ensures OutcomeStep(db, Recovery.Dispose(db, req, bound).value, Disposing(req, bound), d)
  {
    hide Admission.ConfirmNotSent, Recovery.OperationFor, Recovery.Unrestorable, Effects.ObserveOutcome,
      Effects.ConfirmRecordNotSent;
    if Confirms(Disposing(req, bound), req.key.id, req.evidence)
       && Admission.ConfirmNotSent(db, req.key.id, req.evidence, Some(req.epoch)).Ok? {
      NotSentOutcomes(db, req.key.id, req.evidence, Some(req.epoch), Disposing(req, bound), d);
    }
  }

  lemma StepOfOutcome(c: Config, db: DB, tx: Tx, d: Id)
    ensures OutcomeStep(db, Apply(c, db, tx), tx, d)
  {
    hide AdmissionStep, EffectStep, Releases.Record, GrantStep, ExecutionStep, Execution.CloseAttempt, ControlStep,
      FinanceStep, RunStep, Recovery.Restore, Recovery.Dispose;
    if Step(c, db, tx).Ok? {
      match tx
      case Admitting(t) => AdmittingOutcomes(c, db, t, d);
      case Closing(_, _, _, _, _) => ClosingOutcomes(c, db, tx, d);
      case Restoring(f, body) => RestoringOutcomes(c, db, f, body, d);
      case Disposing(req, bound) => DisposingOutcomes(db, req, bound, d);
      case _ =>
    }
  }

  predicate ReportedAt(c: Config, run: Run, d: Id, outcome: DispatchOutcome) {
    hide Apply;
    run.Then? && !Observed(After(c, run.prior), d) && Outcome(After(c, run), d, outcome)
    && Reports(run.tx, d, outcome)
  }

  /** In every run, the outcome of an observed call was reported with its usage when the
      call was observed, and no later report changed it. */
  lemma {:induction false} OutcomeWasReported(c: Config, run: Run, d: Id) returns (at: Run, outcome: DispatchOutcome)
    requires Observed(After(c, run), d)
    ensures Within(at, run) && ReportedAt(c, at, d, outcome) && Outcome(After(c, run), d, outcome)
  {
    hide Apply, Reports;
    if run.Then? {
      var db := After(c, run.prior);
      StepOfOutcome(c, db, run.tx, d);
      if Observed(db, d) {
        at, outcome := OutcomeWasReported(c, run.prior, d);
      } else {
        at, outcome := run, After(c, run).ledger.dispatches[d].outcome.value;
      }
    } else {
      assert false;
    }
  }

  /** And a call confirmed not sent was confirmed so on the evidence its record names. */
  lemma {:induction false} NotSentWasConfirmed(c: Config, run: Run, d: Id) returns (at: Run)
    requires InFlightRun(run) && NotSent(After(c, run), d)
    ensures Within(at, run) && ConfirmedAt(c, at, d) && SameEvidence(After(c, at), After(c, run), d)
  {
    hide Apply, Confirms, DispatchSteps.Admissible;
    if run.Then? {
      var db := After(c, run.prior);
      StepOfOutcome(c, db, run.tx, d);
      DispatchSteps.StepOfRow(c, db, run.tx, d);
      if NotSent(db, d) { at := NotSentWasConfirmed(c, run.prior, d); } else { at := run; }
    } else {
      assert false;
    }
  }

  predicate ConfirmedAt(c: Config, run: Run, d: Id) {
    hide Apply;
    && run.Then? && !NotSent(After(c, run.prior), d) && NotSent(After(c, run), d)
    && After(c, run).ledger.dispatches[d].evidence.Some?
    && Confirms(run.tx, d, After(c, run).ledger.dispatches[d].evidence.value)
  }

  predicate SameEvidence(db: DB, next: DB, d: Id) {
    && d in db.ledger.dispatches && d in next.ledger.dispatches
    && next.ledger.dispatches[d].evidence == db.ledger.dispatches[d].evidence
  }

  /** The report is new and its call is one the reader sees, priced and under way. */
  predicate Hears(c: Config, db: DB, t: AdmissionTx) {
    && t.ObserveDispatch? && t.id in db.ledger.dispatches && t.reader.Sees(db.ledger.dispatches[t.id])
    && db.ledger.dispatches[t.id].state in {DispatchAuthorized, DispatchUnknown}
    && forall i | 0 <= i < |MeterOf(db, t.id).reports| ::
         || MeterOf(db, t.id).reports[i].source != t.report.source
         || MeterOf(db, t.id).reports[i].sequence != t.report.sequence
  }

  /** A report is applied once. */
  lemma RepeatIsIgnored(c: Config, db: DB, t: AdmissionTx, i: nat)
    requires t.ObserveDispatch? && AdmissionStep(c, db, t).Ok? && i < |MeterOf(db, t.id).reports|
    requires MeterOf(db, t.id).reports[i].source == t.report.source
    requires MeterOf(db, t.id).reports[i].sequence == t.report.sequence
    ensures AdmissionStep(c, db, t).value == db
  {
    hide Admission.ObserveOutcome, Admission.SettleMoney, Admission.MeterReport, Admission.SettleExposure;
  }

  /** Conversely the first definite report of a call under way, with its usage, is recorded
      as it says; without usage it is refused; and an unknown outcome leaves it unknown. */
  lemma ReportIsRecorded(c: Config, db: DB, t: AdmissionTx)
    requires Hears(c, db, t)
    ensures t.outcome != DispatchOutcomeUnknown && t.report.usage.None? ==> AdmissionStep(c, db, t).Err?
    ensures AdmissionStep(c, db, t).Ok? ==>
              var next := AdmissionStep(c, db, t).value;
              if t.outcome == DispatchOutcomeUnknown then DispatchSteps.InState(next, t.id, DispatchUnknown)
              else Outcome(next, t.id, t.outcome)
  {
    hide Admission.SettleMoney, Admission.MeterReport, Admission.SettleExposure;
  }

  // ---------- the exposure ----------

  /** An unknown call of the operation. */
  predicate UnknownRow(db: DB, o: Id, d: Id) {
    d in db.ledger.dispatches && db.ledger.dispatches[d].bind.operation == o
    && db.ledger.dispatches[d].state == DispatchUnknown
  }

  predicate Unknown(db: DB, o: Id) { exists d | d in db.ledger.dispatches :: UnknownRow(db, o, d) }

  predicate Exposed(db: DB, o: Id) {
    o in db.work.operations && db.work.operations[o].finance == FinanceExposureUnknown
  }

  /** While a call is unknown the operation's exposure is. */
  predicate Truthful(db: DB, o: Id) { Unknown(db, o) ==> Exposed(db, o) }

  /** The allocation of another share to an operation, which then counts as funded. */
  predicate Allots(db: DB, next: DB, tx: Tx, o: Id) {
    tx.Financing? && tx.finance.Allocate? && tx.finance.o == o && AllocationsOf(next, o) != AllocationsOf(db, o)
  }

  /** The operation's finance state stays. */
  predicate FinanceKept(db: DB, next: DB, o: Id) {
    o in db.work.operations ==>
      o in next.work.operations && next.work.operations[o].finance == db.work.operations[o].finance
  }

  /** No call becomes unknown, and none leaves the ledger. */
  ghost predicate NoneUnknown(db: DB, next: DB, o: Id) { forall d :: UnknownRow(next, o, d) ==> UnknownRow(db, o, d) }

  lemma KeptIsTruthful(db: DB, next: DB, o: Id)
    requires Truthful(db, o) && FinanceKept(db, next, o) && NoneUnknown(db, next, o)
    ensures Truthful(next, o)
  {
    if Unknown(next, o) {
      var d :| d in next.ledger.dispatches && UnknownRow(next, o, d);
      assert UnknownRow(db, o, d);
    }
  }

  lemma ExecutingFinance(c: Config, db: DB, t: ExecutionTx, o: Id)
    requires ExecutionStep(c, db, t).Ok?
    ensures FinanceKept(db, ExecutionStep(c, db, t).value, o)
  {
    hide Execution.BootstrapGate, SendersActing, AdmissionClosed;
  }

  lemma ControllingFinance(c: Config, db: DB, t: ControlTx, o: Id)
    requires ControlStep(c, db, t).Ok?
    ensures FinanceKept(db, ControlStep(c, db, t).value, o)
  {
    hide Execution.SettleTerminal, SendersActing, HasOpenAttempt, HasUnknownAttempt, ActivePermits, HoldsPermit,
      AdmissionClosed, Execution.ReportLease, Execution.DecideControl;
  }

  lemma ClosingFinance(c: Config, db: DB, tx: Tx, o: Id)
    requires tx.Closing? && Execution.CloseAttempt(c, db, tx.a, tx.tenant, tx.outcome, tx.cleanup, tx.listed).Ok?
    ensures FinanceKept(db, Execution.CloseAttempt(c, db, tx.a, tx.tenant, tx.outcome, tx.cleanup, tx.listed).value, o)
  {
    hide Execution.SettleTerminal, SendersActing, HasUnknownAttempt, Execution.DenyEach, Execution.ListsPrepared;
  }

  lemma RunningFinance(db: DB, t: RunTx, o: Id)
    requires RunStep(db, t).Ok?
    ensures FinanceKept(db, RunStep(db, t).value, o)
  {
    hide Recovery.RecordEach, Recovery.AllComplete, Recovery.HasUnsettled, Recovery.Reopened,
      Recovery.RecoveryInProgress;
  }

  /** What settles the exposure after one row changed keeps it truthful. */
  lemma SettledIsTruthful(db: DB, o: Id, id: Id, settled: bool, x: Id)
    requires o in db.work.operations && id in db.ledger.dispatches && db.ledger.dispatches[id].bind.operation == o
    requires forall d :: UnknownRow(db, x, d) && d != id ==> Exposed(db, x)
    ensures Truthful(Admission.SettleExposure(db, o, db.ledger.dispatches[id], settled), x)
  {
    var next := Admission.SettleExposure(db, o, db.ledger.dispatches[id], settled);
    if Unknown(next, x) {
      var d :| d in next.ledger.dispatches && UnknownRow(next, x, d);
      assert UnknownRow(db, x, d);
      assert x == o ==> HasUnknownDispatch(db, o);
    }
  }

  lemma ObserveIsTruthful(c: Config, db: DB, t: AdmissionTx, x: Id)
    requires t.ObserveDispatch? && AdmissionStep(c, db, t).Ok? && Truthful(db, x)
    ensures Truthful(AdmissionStep(c, db, t).value, x)
  {
    hide Admission.SettleMoney, Admission.MeterReport, Admission.SettleExposure, Truthful;
    var next := AdmissionStep(c, db, t).value;
    if next != db {
      var d := db.ledger.dispatches[t.id];
      var o := d.bind.operation;
      var observed := Admission.ObserveOutcome(d, t.outcome, t.report.usage.Some?).value;
      var metered := Admission.MeterReport(c.PriceOf(d.bind.meter).value, MeterOf(db, t.id), t.report).value;
      var moved := Admission.SettleMoney(db, o, metered.1, observed.1, d.bind.reserved).value;
      var mid := Admission.UpdateDispatch(
        moved.(ledger := moved.ledger.(meters := moved.ledger.meters[t.id := metered.0])), t.id, observed.0);
      assert next == Admission.SettleExposure(mid, o, observed.0, observed.1);
      OthersUnknown(db, mid, t.id, x);
      SettledIsTruthful(mid, o, t.id, observed.1, x);
    }
  }

  lemma NotSentIsTruthful(db: DB, id: Id, evidence: Name, guard: Option<nat>, x: Id)
    requires Admission.ConfirmNotSent(db, id, evidence, guard).Ok? && Truthful(db, x)
    ensures Truthful(Admission.ConfirmNotSent(db, id, evidence, guard).value, x)
  {
    hide MoveBudget, Admission.SettleExposure, Admission.Reported, Truthful;
    var next := Admission.ConfirmNotSent(db, id, evidence, guard).value;
    if next != db {
      var d := db.ledger.dispatches[id];
      var o := d.bind.operation;
      var meter := MeterOf(db, id);
      var reported := Admission.Reported(meter.reports);
      var confirmed := Admission.ConfirmRecordNotSent(d, evidence, meter.charged, reported).value;
      var mid := Admission.UpdateDispatch(MoveBudget(db, o, ToRelease, d.bind.reserved).value, id, confirmed);
      assert next == Admission.SettleExposure(mid, o, confirmed, true);
      OthersUnknown(db, mid, id, x);
      SettledIsTruthful(mid, o, id, true, x);
    }
  }

  lemma OthersUnknown(db: DB, mid: DB, id: Id, x: Id)
    requires Truthful(db, x) && mid.work == db.work && mid.ledger.dispatches - {id} == db.ledger.dispatches - {id}
    ensures forall d :: UnknownRow(mid, x, d) && d != id ==> Exposed(mid, x)
  {
    forall d | UnknownRow(mid, x, d) && d != id
      ensures Exposed(mid, x)
    {
      assert d in mid.ledger.dispatches - {id};
      assert (mid.ledger.dispatches - {id})[d] == (db.ledger.dispatches - {id})[d];
      assert UnknownRow(db, x, d);
    }
  }

  lemma PreparingIsTruthful(c: Config, db: DB, t: AdmissionTx, x: Id)
    requires (t.AdmitPrepare? || t.AdmitConsume? || t.MarkDispatchUncertain?) && AdmissionStep(c, db, t).Ok?
    ensures NoneUnknown(db, AdmissionStep(c, db, t).value, x) && FinanceKept(db, AdmissionStep(c, db, t).value, x)
  {
    hide Admission.CheckAdmission, Admission.LoadContext, Admission.Binds, MoveBudget;
  }

  lemma AdmittingIsTruthful(c: Config, db: DB, t: AdmissionTx, x: Id)
    requires AdmissionStep(c, db, t).Ok? && Truthful(db, x)
    ensures Truthful(AdmissionStep(c, db, t).value, x)
  {
    hide Admission.Observe, Admission.ConfirmNotSent, Admission.AdmitPrepare, Admission.AdmitConsume, Truthful,
      NoneUnknown, FinanceKept;
    match t
    case ObserveDispatch(_, _, _, _) => ObserveIsTruthful(c, db, t, x);
    case ConfirmDispatchNotSent(id, evidence) => NotSentIsTruthful(db, id, evidence, None, x);
    case _ => PreparingIsTruthful(c, db, t, x); KeptIsTruthful(db, AdmissionStep(c, db, t).value, x);
  }

  lemma ClosingUnknown(c: Config, db: DB, tx: Tx, x: Id)
    requires tx.Closing? && Execution.CloseAttempt(c, db, tx.a, tx.tenant, tx.outcome, tx.cleanup, tx.listed).Ok?
    ensures NoneUnknown(db, Execution.CloseAttempt(c, db, tx.a, tx.tenant, tx.outcome, tx.cleanup, tx.listed).value, x)
  {
    hide Execution.DenyEach, Execution.SettleTerminal, Execution.LeftByClose, SendersActing, HasUnknownAttempt,
      Execution.ListsPrepared;
    var next := Execution.CloseAttempt(c, db, tx.a, tx.tenant, tx.outcome, tx.cleanup, tx.listed).value;
    var o := db.work.attempts[tx.a].bind.operation;
    forall d
      ensures UnknownRow(next, x, d) ==> UnknownRow(db, x, d)
    {
      if Execution.DenyEach(db, o, tx.listed).Ok? { DispatchSteps.DenyEachRow(db, o, tx.listed, d); }
    }
  }

  /** A restored call is unknown, and so is the exposure of its operation. */
  lemma RestoredDispatchIsTruthful(c: Config, db: DB, id: Id, b: DispatchBinding, epoch: nat, x: Id)
    requires Recovery.RestoreDispatch(c, db, id, b, epoch).Ok? && Truthful(db, x)
    ensures Truthful(Recovery.RestoreDispatch(c, db, id, b, epoch).value, x)
  {
    hide MoveBudget, Recovery.RestoreAttempt;
    var next := Recovery.RestoreDispatch(c, db, id, b, epoch).value;
    if Unknown(next, x) {
      var d :| d in next.ledger.dispatches && UnknownRow(next, x, d);
      assert d in db.ledger.dispatches ==> UnknownRow(db, x, d);
    }
  }

  lemma RestoredBodyIsTruthful(c: Config, db: DB, id: Id, body: Body, epoch: nat, x: Id)
    requires Recovery.RestoreBody(c, db, id, body, epoch).Ok? && Truthful(db, x)
    ensures Truthful(Recovery.RestoreBody(c, db, id, body, epoch).value, x)
  {
    hide Recovery.RestoreDispatch, Recovery.RestoreAttempt, Truthful;
    if body.DispatchBody? {
      RestoredDispatchIsTruthful(c, db, id, body.dispatch, epoch, x);
    } else {
      SameLedgerIsTruthful(db, Recovery.RestoreBody(c, db, id, body, epoch).value, x);
    }
  }

  lemma SameLedgerIsTruthful(db: DB, next: DB, x: Id)
    requires Truthful(db, x) && FinanceKept(db, next, x) && next.ledger == db.ledger
    ensures Truthful(next, x)
  {
    assert forall d :: UnknownRow(next, x, d) == UnknownRow(db, x, d);
  }

  lemma RestoringIsTruthful(c: Config, db: DB, f: FindingKey, body: Body, x: Id)
    requires Recovery.Restore(c, db, f, body).Ok? && Truthful(db, x)
    ensures Truthful(Recovery.Restore(c, db, f, body).value, x)
  {
    hide Recovery.RestoreBody, Truthful;
    if f.run in db.recovery.runs {
      var restored := Recovery.RestoreBody(c, db, f.key.id, body, db.recovery.runs[f.run].epoch);
      if restored.Ok? {
        RestoredBodyIsTruthful(c, db, f.key.id, body, db.recovery.runs[f.run].epoch, x);
        var found := Recovery.Restore(c, db, f, body).value.recovery;
        SameLedgerIsTruthful(restored.value, restored.value.(recovery := found), x);
      }
    }
  }

  lemma DisposingIsTruthful(db: DB, req: Recovery.DispositionRequest, bound: bool, x: Id)
    requires Recovery.Dispose(db, req, bound).Ok? && Truthful(db, x)
    ensures Truthful(Recovery.Dispose(db, req, bound).value, x)
  {
    hide Admission.ConfirmNotSent, Recovery.OperationFor, Recovery.Unrestorable, Effects.ObserveOutcome,
      Effects.ConfirmRecordNotSent;
    if Admission.ConfirmNotSent(db, req.key.id, req.evidence, Some(req.epoch)).Ok? {
      NotSentIsTruthful(db, req.key.id, req.evidence, Some(req.epoch), x);
    }
  }

  /** Another share makes the operation count as funded, whatever is unknown. */
  lemma FinancingIsTruthful(db: DB, t: FinanceTx, x: Id)
    requires FinanceStep(db, t).Ok? && Truthful(db, x)
    ensures var next := FinanceStep(db, t).value;
            Truthful(next, x) <==> !(Allots(db, next, Financing(t), x) && Unknown(db, x))
  {
    hide Finance.Draw, Finance.ReturnEach, Finance.ListsPools;
    var next := FinanceStep(db, t).value;
    assert forall d :: UnknownRow(next, x, d) == UnknownRow(db, x, d);
    if Unknown(db, x) {
      var d :| d in db.ledger.dispatches && UnknownRow(db, x, d);
      assert HeldRow(db, x, d);
    }
  }

  /** Exactly when the exposure stays truthful: unless an allocation gives an operation with
      an unknown call another share. */
  lemma ExposureStep(c: Config, db: DB, tx: Tx, x: Id)
    requires Truthful(db, x)
    ensures Truthful(Apply(c, db, tx), x) <==> !(Allots(db, Apply(c, db, tx), tx, x) && Unknown(db, x))
  {
    hide AdmissionStep, EffectStep, Releases.Record, GrantStep, ExecutionStep, Execution.CloseAttempt, ControlStep,
      FinanceStep, RunStep, Recovery.Restore, Recovery.Dispose, Truthful, NoneUnknown, FinanceKept, Unknown;
    if Step(c, db, tx).Ok? {
      var next := Step(c, db, tx).value;
      match tx
      case Admitting(t) => AdmittingIsTruthful(c, db, t, x);
      case Closing(_, _, _, _, _) =>
        ClosingFinance(c, db, tx, x); ClosingUnknown(c, db, tx, x); KeptIsTruthful(db, next, x);
      case Restoring(f, body) => RestoringIsTruthful(c, db, f, body, x);
      case Disposing(req, bound) => DisposingIsTruthful(db, req, bound, x);
      case Financing(t) => FinancingIsTruthful(db, t, x);
      case Executing(t) => ExecutingFinance(c, db, t, x); SameLedgerIsTruthful(db, next, x);
      case Controlling(t) => ControllingFinance(c, db, t, x); SameLedgerIsTruthful(db, next, x);
      case Recovering(t) => RunningFinance(db, t, x); SameLedgerIsTruthful(db, next, x);
      case _ => SameFinance(db, next, x); SameLedgerIsTruthful(db, next, x);
    }
  }

  lemma SameFinance(db: DB, next: DB, x: Id)
    requires next.work == db.work
    ensures FinanceKept(db, next, x)
  {
  }

  /** The operation is given no share while a call of it is unknown. */
  predicate Unhidden(c: Config, run: Run, x: Id) {
    hide Apply;
    run.Then? ==>
      Unhidden(c, run.prior, x)
      && !(Allots(After(c, run.prior), After(c, run), run.tx, x) && Unknown(After(c, run.prior), x))
  }

  /** In every such run, restorations included, an operation with an unknown call has its
      exposure marked unknown, so it settles neither its lifecycle nor its money. */
  lemma {:induction false} ExposureIsTruthful(c: Config, run: Run, x: Id)
    requires Unhidden(c, run, x)
    ensures Truthful(After(c, run), x)
  {
    hide Apply, Truthful, Allots;
    if run.Then? {
      ExposureIsTruthful(c, run.prior, x);
      ExposureStep(c, After(c, run.prior), run.tx, x);
    } else {
      NothingUnknown(x);
    }
  }

  lemma NothingUnknown(x: Id)
    ensures Truthful(Empty, x)
  {
  }

  /** Conversely a definite outcome or a confirmation leaves the exposure unknown only while
      another call is. */
  lemma SettlingEndsExposure(db: DB, o: Id, id: Id)
    requires o in db.work.operations && id in db.ledger.dispatches && db.ledger.dispatches[id].state != DispatchUnknown
    ensures Exposed(Admission.SettleExposure(db, o, db.ledger.dispatches[id], true), o) ==> Unknown(db, o)
  {
    if HasUnknownDispatch(db, o) {
      var d :| d in db.ledger.dispatches
               && db.ledger.dispatches[d].bind.operation == o && db.ledger.dispatches[d].state == DispatchUnknown;
      assert UnknownRow(db, o, d);
    }
  }
}
