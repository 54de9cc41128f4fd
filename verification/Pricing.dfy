/** Exact prices rounded once to nano-USD, and their decimal text. */
module Pricing {
  import opened Wrappers
  import opened Json
  import opened Decimals
  import opened Config

  /** The largest decimal the service computes with, 2^96 - 1; larger magnitudes are range errors. */
  const DECIMAL_MAX: real := 79228162514264337593543950335.0
  const NANO := 1_000_000_000

  datatype BillableUsage = BillableUsage(inputTokens: nat, cachedInputTokens: nat, outputTokens: nat, rates: Rates)
  datatype PriceError = InvalidUsage | CostOutOfRange

  function Checked(x: real): Option<real> {
    if -DECIMAL_MAX <= x <= DECIMAL_MAX then Some(x) else None
  }

  function RoundMidpointAwayFromZero(x: real): int {
    if x >= 0.0 then (x + 0.5).Floor else -(0.5 - x).Floor
  }

  function InRange(x: real): Result<real, PriceError> {
    if Checked(x).Some? then Success(x) else Failure(CostOutOfRange)
  }

  /** Adds three products and scales them, checking the range at every step, then rounds once. */
  function Weighed(uncachedCost: real, cachedCost: real, outputCost: real): Result<int, PriceError> {
    var value :- InRange(uncachedCost);
    var cached :- InRange(cachedCost);
    var inputs :- InRange(value + cached);
    var output :- InRange(outputCost);
    var all :- InRange(inputs + output);
    var weighted :- InRange(all * 1000.0);
    var rounded := RoundMidpointAwayFromZero(weighted);
    if -I64_MAX - 1 <= rounded <= I64_MAX then Success(rounded) else Failure(CostOutOfRange)
  }

  function UncachedCost(usage: BillableUsage): real
    requires usage.cachedInputTokens <= usage.inputTokens
  {
    (usage.inputTokens - usage.cachedInputTokens) as real * usage.rates.inputUsdPerMillion
  }

  function CachedCost(usage: BillableUsage): real {
    usage.cachedInputTokens as real * usage.rates.cachedInputUsdPerMillion
  }

  function OutputCost(usage: BillableUsage): real {
    usage.outputTokens as real * usage.rates.outputUsdPerMillion
  }

  function CalculateCostNanoUsd(usage: BillableUsage): Result<int, PriceError> {
    if usage.cachedInputTokens > usage.inputTokens then Failure(InvalidUsage)
    else Weighed(UncachedCost(usage), CachedCost(usage), OutputCost(usage))
  }

  /** The price in nano-USD before rounding: rates are USD per million tokens. */
  function ExactNanoUsd(usage: BillableUsage): real
    requires usage.cachedInputTokens <= usage.inputTokens
  {
    var uncached := (usage.inputTokens - usage.cachedInputTokens) as real;
    var inputs := uncached * usage.rates.inputUsdPerMillion
                + usage.cachedInputTokens as real * usage.rates.cachedInputUsdPerMillion;
    (inputs + usage.outputTokens as real * usage.rates.outputUsdPerMillion) * 1000.0
  }

  lemma CostsAreNonnegative(usage: BillableUsage)
    requires usage.cachedInputTokens <= usage.inputTokens && ValidRates(usage.rates)
    ensures UncachedCost(usage) >= 0.0 && CachedCost(usage) >= 0.0 && OutputCost(usage) >= 0.0
  {
  }

  lemma RoundingIsNearest(x: real)
    ensures x >= 0.0 ==> RoundMidpointAwayFromZero(x) >= 0
    ensures x >= 0.0 ==> var r := RoundMidpointAwayFromZero(x); x - 0.5 < r as real <= x + 0.5
    ensures x <= 0.0 ==> var r := RoundMidpointAwayFromZero(x); x - 0.5 <= r as real < x + 0.5
  {
  }

  lemma WeighedIsExact(a: real, b: real, c: real)
    requires a >= 0.0 && b >= 0.0 && c >= 0.0
    ensures var exact, r := (a + b + c) * 1000.0, Weighed(a, b, c);
      && (r.Success? <==> exact + 0.5 < 9223372036854775808.0)
      && (r.Failure? ==> r.error == CostOutOfRange)
      && (r.Success? ==> 0 <= r.value <= I64_MAX && exact - 0.5 < r.value as real <= exact + 0.5)
  {
    hide RoundMidpointAwayFromZero;
    var exact := (a + b + c) * 1000.0;
    RoundingIsNearest(exact);
    if exact <= DECIMAL_MAX {
      assert Checked(a).Some? && Checked(b).Some? && Checked(c).Some? && Checked(a + b).Some?
        && Checked(a + b + c).Some? && Checked(exact).Some?;
    } else {
      assert RoundMidpointAwayFromZero(exact) as real > I64_MAX as real;
      assert Checked(exact).None?;
    }
  }

  /**
   * With cached input within the input and nonnegative rates, pricing fails only when the price does not fit 64
   * bits, and otherwise it is nonnegative and the whole nano-USD nearest to exact, the greater of two; the exact
   * price is that of the uncached input, the cached input and the output, each at its own rate.
   */
  lemma PriceIsExactToHalfANano(usage: BillableUsage)
    requires usage.cachedInputTokens <= usage.inputTokens && ValidRates(usage.rates)
    ensures var uncached := (usage.inputTokens - usage.cachedInputTokens) as real;
      var cached, output, rates := usage.cachedInputTokens as real, usage.outputTokens as real, usage.rates;
      var exact := (uncached * rates.inputUsdPerMillion + cached * rates.cachedInputUsdPerMillion
                    + output * rates.outputUsdPerMillion) * 1000.0;
      var r := CalculateCostNanoUsd(usage);
      && exact == ExactNanoUsd(usage)
      && (r.Success? <==> exact + 0.5 < 9223372036854775808.0)
      && (r.Failure? ==> r.error == CostOutOfRange)
      && (r.Success? ==> 0 <= r.value && exact - 0.5 < r.value as real <= exact + 0.5)
  {
    hide Weighed, RoundMidpointAwayFromZero;
    CostsAreNonnegative(usage);
    ExactIsTheSum(usage);
    hide UncachedCost, CachedCost, OutputCost;
    WeighedIsExact(UncachedCost(usage), CachedCost(usage), OutputCost(usage));
  }

  lemma ExactIsTheSum(usage: BillableUsage)
    requires usage.cachedInputTokens <= usage.inputTokens
    ensures ExactNanoUsd(usage) == (UncachedCost(usage) + CachedCost(usage) + OutputCost(usage)) * 1000.0
  {
  }

  /** More cached input than input is never priced. */
  lemma ExcessCacheIsRefused(usage: BillableUsage)
    ensures CalculateCostNanoUsd(usage) == Failure(InvalidUsage) <==> usage.cachedInputTokens > usage.inputTokens
  {
    hide UncachedCost, CachedCost, OutputCost, RoundMidpointAwayFromZero;
  }

  function Total(costs: seq<int>): int {
    if costs == [] then 0 else Total(costs[..|costs| - 1]) + costs[|costs| - 1]
  }

  function TotalExact(usages: seq<BillableUsage>): real
    requires forall u | u in usages :: u.cachedInputTokens <= u.inputTokens
  {
    if usages == [] then 0.0 else TotalExact(usages[..|usages| - 1]) + ExactNanoUsd(usages[|usages| - 1])
  }

  /** Billing n requests is off by at most n/2 nano-USD in all. */
  lemma {:induction false} BillIsExactToHalfANanoEach(usages: seq<BillableUsage>, costs: seq<int>)
    requires |costs| == |usages| && forall u | u in usages ::
      u.cachedInputTokens <= u.inputTokens && ValidRates(u.rates)
    requires forall i | 0 <= i < |usages| :: CalculateCostNanoUsd(usages[i]) == Success(costs[i])
    ensures var exact, half := TotalExact(usages), |costs| as real / 2.0;
      exact - half <= Total(costs) as real <= exact + half
  {
    hide CalculateCostNanoUsd, ExactNanoUsd, RoundMidpointAwayFromZero;
    if costs != [] {
      var last := |costs| - 1;
      BillIsExactToHalfANanoEach(usages[..last], costs[..last]);
      PriceIsExactToHalfANano(usages[last]);
    }
  }

  // ----- decimal text -----

  function Pow10(n: nat): (p: nat)
    ensures p > 0
  {
    if n == 0 then 1 else 10 * Pow10(n - 1)
  }

  function Digit(d: nat): char
    requires d < 10
  {
    ('0' as int + d) as char
  }

  /** `%d` of a nonnegative number. */
  function DecimalText(n: nat): (s: string)
    ensures s != ""
  {
    if n < 10 then [Digit(n)] else DecimalText(n / 10) + [Digit(n % 10)]
  }

  /** `%0{width}d` of a number that fits the width. */
  function Padded(n: nat, width: nat): (s: string)
    ensures |s| == width
  {
    if width == 0 then "" else Padded(n / 10, width - 1) + [Digit(n % 10)]
  }

  /** The `cost_usd` column of a nonnegative cost. */
  function CostText(cost: nat): string {
    DecimalText(cost / NANO) + "." + Padded(cost % NANO, 9)
  }

  /** The position of the first decimal point, or the length of a text without one. */
  function PointAt(s: string): (i: nat)
    ensures i <= |s| && (i < |s| ==> s[i] == '.') && '.' !in s[..i]
  {
    if s == "" || s[0] == '.' then 0 else 1 + PointAt(s[1..])
  }

  /** Digits, a point and digits, read as a decimal number. */
  function ParseDecimal(s: string): Option<real> {
    var point := PointAt(s);
    if point >= |s| || !AllDigits(s[..point]) || !AllDigits(s[point + 1..]) then None
    else
      var fraction := s[point + 1..];
      Some(DigitsValue(s[..point]) as real + DigitsValue(fraction) as real / Pow10(|fraction|) as real)
  }

  lemma {:induction false} DecimalTextReads(n: nat)
    ensures AllDigits(DecimalText(n)) && DigitsValue(DecimalText(n)) == n
  {
    if n < 10 {
      assert [Digit(n)][..0] == "";
    } else {
      DecimalTextReads(n / 10);
      var s := DecimalText(n);
      assert s[..|s| - 1] == DecimalText(n / 10);
    }
  }

  lemma {:induction false} PaddedReads(n: nat, width: nat)
    requires n < Pow10(width)
    ensures AllDigits(Padded(n, width)) && DigitsValue(Padded(n, width)) == n
  {
    if width > 0 {
      PaddedReads(n / 10, width - 1);
      var s := Padded(n, width);
      assert s[..|s| - 1] == Padded(n / 10, width - 1);
    }
  }

  lemma {:induction false} NoPointInDigits(s: string, rest: string)
    requires AllDigits(s)
    ensures PointAt(s + "." + rest) == |s|
  {
    if s != "" {
      assert (s + "." + rest)[1..] == s[1..] + "." + rest;
      NoPointInDigits(s[1..], rest);
    }
  }

  lemma NineDigits()
    ensures Pow10(9) == NANO
  {
    assert Pow10(3) == 1000;
    assert Pow10(6) == 1000 * Pow10(3);
    assert Pow10(9) == 1000 * Pow10(6);
  }

  /** Printing a cost with nine digits and parsing it back gives the cost in USD exactly. */
  lemma CostTextRoundTrip(cost: nat)
    ensures ParseDecimal(CostText(cost)) == Some(cost as real / NANO as real)
  {
    hide DecimalText, Padded, Pow10, DigitsValue, AllDigits, PointAt;
    var whole, rest := DecimalText(cost / NANO), Padded(cost % NANO, 9);
    NineDigits();
    DecimalTextReads(cost / NANO);
    PaddedReads(cost % NANO, 9);
    NoPointInDigits(whole, rest);
    var text := CostText(cost);
    assert text[..|whole|] == whole && text[|whole| + 1..] == rest;
    assert ParseDecimal(text) == Some((cost / NANO) as real + (cost % NANO) as real / NANO as real);
    assert cost as real == (cost / NANO) as real * 1000000000.0 + (cost % NANO) as real;
  }

  function TotalParsed(texts: seq<string>): Option<real> {
    if texts == [] then Some(0.0)
    else
      var before, last := TotalParsed(texts[..|texts| - 1]), ParseDecimal(texts[|texts| - 1]);
      if before.Some? && last.Some? then Some(before.value + last.value) else None
  }

  /** Summing the printed costs gives the ledger's sum exactly. */
  lemma {:induction false} PrintedCostsSumExactly(costs: seq<nat>)
    ensures TotalParsed(seq(|costs|, i requires 0 <= i < |costs| => CostText(costs[i]))) ==
      Some(Total(costs) as real / NANO as real)
  {
    hide CostText, ParseDecimal;
    if costs != [] {
      var last := |costs| - 1;
      var texts := seq(|costs|, i requires 0 <= i < |costs| => CostText(costs[i]));
      PrintedCostsSumExactly(costs[..last]);
      CostTextRoundTrip(costs[last]);
      assert texts[..last] == seq(last, i requires 0 <= i < last => CostText(costs[..last][i]));
    }
  }
}

/** Weekly windows start on Monday 00:00 UTC. Instants are nanoseconds since the epoch, of either sign. */
module Weeks {
  const NANOS_PER_MS := 1_000_000
  const NANOS_PER_DAY := 86_400_000_000_000
  const WEEK_MS := 604_800_000

  /** Days since Monday; day 0 of the epoch was a Thursday. */
  function DaysFromMonday(day: int): nat {
    (day + 3) % 7
  }

  function MondayStart(now: int): int {
    var day := now / NANOS_PER_DAY;
    (day - DaysFromMonday(day)) * NANOS_PER_DAY
  }

  function TimestampMs(now: int): int {
    now / NANOS_PER_MS
  }

  function WeekStartMs(now: int): int {
    TimestampMs(MondayStart(now))
  }

  predicate InWeekOf(ms: int, now: int) {
    WeekStartMs(now) <= ms < WeekStartMs(now) + WEEK_MS
  }

  /** The number of the week: weeks are counted from the Monday before the epoch. */
  function Week(now: int): int {
    (now / NANOS_PER_DAY + 3) / 7
  }

  lemma WeekStartsOnMonday(now: int)
    ensures MondayStart(now) == (7 * Week(now) - 3) * NANOS_PER_DAY
    ensures WeekStartMs(now) == Week(now) * WEEK_MS - 3 * 86_400_000
    ensures MondayStart(now) <= now < MondayStart(now) + 7 * NANOS_PER_DAY
  {
    var day := now / NANOS_PER_DAY;
    assert day + 3 == 7 * Week(now) + DaysFromMonday(day);
    assert MondayStart(now) == (7 * Week(now) - 3) * 86_400_000 * NANOS_PER_MS;
  }

  lemma WeekOfMillisecond(ms: int)
    ensures Week(ms * NANOS_PER_MS) == (ms + 3 * 86_400_000) / WEEK_MS
  {
    assert ms * NANOS_PER_MS / NANOS_PER_DAY == ms / 86_400_000;
    var day := ms / 86_400_000;
    assert ms + 3 * 86_400_000 - (day + 3) / 7 * WEEK_MS == (day + 3) % 7 * 86_400_000 + ms % 86_400_000;
    assert 0 <= (day + 3) % 7 * 86_400_000 + ms % 86_400_000 < WEEK_MS;
  }

  /** The window computed at an instant contains that instant's own timestamp, before 1970 too. */
  lemma WindowContainsNow(now: int)
    ensures InWeekOf(TimestampMs(now), now)
  {
    WeekStartsOnMonday(now);
    assert MondayStart(now) == WeekStartMs(now) * NANOS_PER_MS;
    assert now < (WeekStartMs(now) + WEEK_MS) * NANOS_PER_MS;
  }

  /** Every stored time is in the window of an instant exactly when both have the same Monday. */
  lemma WindowsPartitionTime(ms: int, now: int)
    ensures InWeekOf(ms, now) <==> MondayStart(ms * NANOS_PER_MS) == MondayStart(now)
    ensures exists n :: InWeekOf(ms, n)
    ensures (WeekStartMs(now) - WeekStartMs(ms * NANOS_PER_MS)) % WEEK_MS == 0
  {
    WeekStartsOnMonday(now);
    WeekStartsOnMonday(ms * NANOS_PER_MS);
    WeekOfMillisecond(ms);
    WindowContainsNow(ms * NANOS_PER_MS);
    assert InWeekOf(ms, ms * NANOS_PER_MS);
    var w, v := Week(now), Week(ms * NANOS_PER_MS);
    assert WeekStartMs(now) - WeekStartMs(ms * NANOS_PER_MS) == (w - v) * WEEK_MS;
    assert (w - v) * WEEK_MS % WEEK_MS == 0;
    if w < v { assert w + 1 <= v; }
    if w > v { assert v + 1 <= w; }
  }

  /** Two windows are the same or do not meet. */
  lemma WindowsDoNotOverlap(ms: int, a: int, b: int)
    requires InWeekOf(ms, a) && InWeekOf(ms, b)
    ensures WeekStartMs(a) == WeekStartMs(b)
  {
    WindowsPartitionTime(ms, a);
    WindowsPartitionTime(ms, b);
  }
}
