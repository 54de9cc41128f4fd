/** The usage report: printed costs and token counts of a date range, added up per key. */
module Stat {
  import opened Wrappers
  import opened Json
  import opened Config
  import opened Pricing
  import opened Weeks
  import Ledger

  const SECOND_MS := 1000

  /** A row as the log view shows it: whole seconds, and the cost as text. */
  datatype LogRow = LogRow(requestedAt: int, apiKeyId: string, inputTokens: Option<nat>, cachedInputTokens: Option<nat>,
    costUsd: Option<string>)

  datatype Tokens = Tokens(input: nat, cached: nat)
  datatype Usage = Usage(spent: map<string, real>, tokens: map<string, Tokens>)
  datatype Fault = InvalidCost | SpendOutOfRange | TokensOutOfRange

  function LogRowOf(row: Ledger.Row): LogRow {
    match row.charge
    case None => LogRow(row.requestedAtMs / SECOND_MS, row.apiKeyId, None, None, None)
    case Some(charge) =>
      LogRow(row.requestedAtMs / SECOND_MS, row.apiKeyId, Some(charge.inputTokens), Some(charge.cachedInputTokens),
        Some(CostText(charge.costNanoUsd)))
  }

  function Selected(rows: seq<Ledger.Row>, startMs: int, endMs: int): seq<LogRow> {
    if rows == [] then []
    else
      var shown := LogRowOf(rows[|rows| - 1]);
      Selected(rows[..|rows| - 1], startMs, endMs) + if startMs <= shown.requestedAt * SECOND_MS < endMs then [shown]
        else []
  }

  /** Zero for a cost that is missing or cannot be read. */
  function CostOf(row: LogRow): (cost: real)
    ensures cost >= 0.0
  {
    if row.costUsd.None? then 0.0 else ParsedCost(row.costUsd.value)
  }

  function ParsedCost(text: string): (cost: real)
    ensures cost >= 0.0
  {
    ParseDecimal(text).GetOr(0.0)
  }

  function SpentBy(rows: seq<LogRow>, key: string): (sum: real)
    ensures sum >= 0.0
  {
    if rows == [] then 0.0
    else SpentBy(rows[..|rows| - 1], key) + if rows[|rows| - 1].apiKeyId == key then CostOf(rows[|rows| - 1]) else 0.0
  }

  /** The cached count of a row without an input count is not looked at. */
  function TokensBy(rows: seq<LogRow>, key: string): Tokens {
    if rows == [] then Tokens(0, 0)
    else
      var sum, row := TokensBy(rows[..|rows| - 1], key), rows[|rows| - 1];
      if row.apiKeyId == key && row.inputTokens.Some?
        then Tokens(sum.input + row.inputTokens.value, sum.cached + row.cachedInputTokens.GetOr(0)) else sum
  }

  predicate Readable(row: LogRow) { row.costUsd.Some? ==> ParseDecimal(row.costUsd.value).Some? }

  predicate Fits(rows: seq<LogRow>, key: string) {
    SpentBy(rows, key) <= DECIMAL_MAX && TokensBy(rows, key).input <= I64_MAX && TokensBy(rows, key).cached <= I64_MAX
  }

  function SpentOf(usage: Usage, key: string): real { if key in usage.spent then usage.spent[key] else 0.0 }

  function TokensOf(usage: Usage, key: string)
    : Tokens { if key in usage.tokens then usage.tokens[key] else Tokens(0, 0) }

  ghost predicate Summed(usage: Usage, rows: seq<LogRow>) {
    forall key :: SpentOf(usage, key) == SpentBy(rows, key) && TokensOf(usage, key) == TokensBy(rows, key)
  }

  function WithCost(usage: Usage, row: LogRow): Result<Usage, Fault> {
    if row.costUsd.None? then Success(usage)
    else if ParseDecimal(row.costUsd.value).None? then Failure(InvalidCost)
    else
      var spent := SpentOf(usage, row.apiKeyId) + ParseDecimal(row.costUsd.value).value;
      if spent > DECIMAL_MAX then Failure(SpendOutOfRange)
        else Success(usage.(spent := usage.spent[row.apiKeyId := spent]))
  }

  function WithTokens(usage: Usage, row: LogRow): Result<Usage, Fault> {
    if row.inputTokens.None? then Success(usage)
    else
      var before := TokensOf(usage, row.apiKeyId);
      var sum := Tokens(before.input + row.inputTokens.value, before.cached + row.cachedInputTokens.GetOr(0));
      if sum.input > I64_MAX || sum.cached > I64_MAX then Failure(TokensOutOfRange)
      else Success(usage.(tokens := usage.tokens[row.apiKeyId := sum]))
  }

  /**
   * Adds up every key's printed costs and tokens; fails exactly when a cost cannot be read or a key's sum does not
   * fit.
   */
  method Aggregate(rows: seq<LogRow>) returns (r: Result<Usage, Fault>)
    ensures r.Success? ==> Summed(r.value, rows)
    ensures r.Success? <==> forall row | row in rows :: Readable(row) && Fits(rows, row.apiKeyId)
  {
    hide WithCost, WithTokens, Summed, SpentBy, TokensBy, Readable, Fits;
    var usage := Usage(map[], map[]);
    NothingSummed(usage);
    assert rows[..0] == [];
    for i := 0 to |rows|
      invariant Summed(usage, rows[..i])
      invariant forall row | row in rows[..i] :: Readable(row)
      invariant i > 0 ==> forall row | row in rows[..i] :: Fits(rows[..i], row.apiKeyId)
    {
      RowAdded(rows[..i], rows[i], usage);
      assert rows[..i + 1] == rows[..i] + [rows[i]];
      assert rows[i] in rows;
      FitsShorter(rows, i + 1, rows[i].apiKeyId);
      var spent := WithCost(usage, rows[i]);
      if spent.Failure? { return Failure(spent.error); }
      var counted := WithTokens(spent.value, rows[i]);
      if counted.Failure? { return Failure(counted.error); }
      usage := counted.value;
      forall row | row in rows[..i + 1] ensures Readable(row) && Fits(rows[..i + 1], row.apiKeyId) {
        if row.apiKeyId != rows[i].apiKeyId { OtherKeys(rows[..i], rows[i], row.apiKeyId); }
      }
    }
    assert rows[..|rows|] == rows;
    r := Success(usage);
  }

  lemma NothingSummed(usage: Usage)
    requires usage == Usage(map[], map[])
    ensures Summed(usage, [])
  {
  }

  lemma OtherKeys(rows: seq<LogRow>, row: LogRow, key: string)
    requires key != row.apiKeyId
    ensures SpentBy(rows + [row], key) == SpentBy(rows, key) && TokensBy(rows + [row], key) == TokensBy(rows, key)
    ensures Fits(rows + [row], key) <==> Fits(rows, key)
  {
    assert (rows + [row])[..|rows|] == rows;
  }

  /** One row is added without a fault exactly when it can be read and its key's sums still fit. */
  lemma RowAdded(rows: seq<LogRow>, row: LogRow, usage: Usage)
    requires Summed(usage, rows) && (forall other | other in rows :: Fits(rows, other.apiKeyId))
    ensures var spent := WithCost(usage, row);
      (spent.Success? && WithTokens(spent.value, row).Success? <==> Readable(row) && Fits(rows + [row], row.apiKeyId))
    ensures var spent := WithCost(usage, row);
      spent.Success? && WithTokens(spent.value, row).Success? ==>
        Summed(WithTokens(spent.value, row).value, rows + [row])
  {
    assert (rows + [row])[..|rows|] == rows;
    if forall other | other in rows :: other.apiKeyId != row.apiKeyId { UnseenKey(rows, row.apiKeyId); }
    forall key | key != row.apiKeyId { OtherKeys(rows, row, key); }
  }

  lemma {:induction false} UnseenKey(rows: seq<LogRow>, key: string)
    requires forall row | row in rows :: row.apiKeyId != key
    ensures SpentBy(rows, key) == 0.0 && TokensBy(rows, key) == Tokens(0, 0)
  {
    if rows != [] { UnseenKey(rows[..|rows| - 1], key); }
  }

  /** Sums only grow: what fits in the end fitted all along. */
  lemma {:induction false} FitsShorter(rows: seq<LogRow>, i: nat, key: string)
    requires i <= |rows|
    ensures Fits(rows, key) ==> Fits(rows[..i], key)
    decreases |rows|
  {
    if i == |rows| {
      assert rows[..i] == rows;
    } else {
      FitsShorter(rows[..|rows| - 1], i, key);
      assert rows[..|rows| - 1][..i] == rows[..i];
    }
  }

  /** Over the log of a whole number of seconds, every cost can be read, and sums are the ledger's, exactly. */
  lemma {:induction false} SelectedSpend(rows: seq<Ledger.Row>, key: string, startMs: int)
    requires startMs % SECOND_MS == 0
    ensures var shown := Selected(rows, startMs, startMs + WEEK_MS);
      && (forall row | row in shown :: Readable(row))
      && SpentBy(shown, key) == Ledger.Spend(rows, key, startMs, Ledger.EVERY_MODEL) as real / NANO as real
  {
    hide LogRowOf, SpentBy, Readable, CostOf;
    if rows == [] {
      UnseenKey([], key);
    } else {
      var last := rows[|rows| - 1];
      SelectedSpend(rows[..|rows| - 1], key, startMs);
      var before := Selected(rows[..|rows| - 1], startMs, startMs + WEEK_MS);
      LoggedRow(last);
      SameWindowInSeconds(last.requestedAtMs, startMs);
      SpentAppended(before, LogRowOf(last), key);
      assert before + [] == before;
      AddedNanos(Ledger.Spend(rows[..|rows| - 1], key, startMs, Ledger.EVERY_MODEL), Ledger.Cost(last));
    }
  }

  lemma LoggedRow(row: Ledger.Row)
    ensures var shown := LogRowOf(row);
      && Readable(shown) && CostOf(shown) == Ledger.Cost(row) as real / NANO as real
      && shown.apiKeyId == row.apiKeyId && shown.requestedAt == row.requestedAtMs / SECOND_MS
  {
    hide CostText, ParseDecimal;
    if row.charge.Some? { CostTextRoundTrip(row.charge.value.costNanoUsd); }
  }

  lemma SpentAppended(rows: seq<LogRow>, row: LogRow, key: string)
    ensures SpentBy(rows + [row], key) == SpentBy(rows, key) + if row.apiKeyId == key then CostOf(row) else 0.0
  {
    assert (rows + [row])[..|rows|] == rows;
  }

  /** The ledger's tokens of a key in a window. */
  function LedgerTokens(rows: seq<Ledger.Row>, key: string, startMs: int): Tokens {
    if rows == [] then Tokens(0, 0)
    else
      var sum, row := LedgerTokens(rows[..|rows| - 1], key, startMs), rows[|rows| - 1];
      if row.apiKeyId == key && startMs <= row.requestedAtMs < startMs + 604800000 && row.charge.Some?
      then Tokens(sum.input + row.charge.value.inputTokens, sum.cached + row.charge.value.cachedInputTokens) else sum
  }

  /** The token sums of a week are the ledger's, input and cached input alike. */
  lemma {:induction false} SelectedTokens(rows: seq<Ledger.Row>, key: string, startMs: int)
    requires startMs % SECOND_MS == 0
    ensures TokensBy(Selected(rows, startMs, startMs + WEEK_MS), key) == LedgerTokens(rows, key, startMs)
  {
    hide TokensBy, LogRowOf;
    if rows == [] {
      UnseenKey([], key);
    } else {
      var last := rows[|rows| - 1];
      SelectedTokens(rows[..|rows| - 1], key, startMs);
      var before := Selected(rows[..|rows| - 1], startMs, startMs + WEEK_MS);
      SameWindowInSeconds(last.requestedAtMs, startMs);
      LoggedTokens(before, last, key);
      assert before + [] == before;
    }
  }

  lemma LoggedTokens(rows: seq<LogRow>, row: Ledger.Row, key: string)
    ensures LogRowOf(row).requestedAt == row.requestedAtMs / SECOND_MS
    ensures var sum := TokensBy(rows, key);
      TokensBy(rows + [LogRowOf(row)], key) ==
        if row.apiKeyId == key && row.charge.Some?
        then Tokens(sum.input + row.charge.value.inputTokens, sum.cached + row.charge.value.cachedInputTokens) else sum
  {
    assert (rows + [LogRowOf(row)])[..|rows|] == rows;
  }

  lemma SameWindowInSeconds(ms: int, startMs: int)
    requires startMs % SECOND_MS == 0
    ensures startMs <= ms / SECOND_MS * SECOND_MS < startMs + WEEK_MS <==> startMs <= ms < startMs + WEEK_MS
  {
  }

  lemma AddedNanos(a: nat, b: nat)
    ensures (a + b) as real / NANO as real == a as real / NANO as real + b as real / NANO as real
  {
  }

  lemma WeekStartIsWholeSeconds(now: int)
    ensures WeekStartMs(now) % SECOND_MS == 0
  {
  }

  /**
   * For the current week the report's spend is the ledger's, and its status is what the listing offers whenever the
   * listing succeeds, and what admission decides whenever admission succeeds.
   */
  lemma ReportAgreesWithAdmission(rows: seq<Ledger.Row>, usage: Usage, key: ApiKey, hasFallback: bool, now: int)
    requires Ledger.ConfiguredQuota(key.quota, hasFallback)
    requires Summed(usage, Selected(rows, WeekStartMs(now), WeekStartMs(now) + WEEK_MS))
    ensures var spent := Ledger.Spend(rows, key.id, WeekStartMs(now), Ledger.EVERY_MODEL);
      var decision := Ledger.Decided(rows, key.id, key.quota, hasFallback, now);
      var listed := Ledger.Listed(rows, key.id, key.quota, hasFallback, now);
      var status := Ledger.StatStatusOf(SpentOf(usage, key.id), key.quota, hasFallback);
      && SpentOf(usage, key.id) == spent as real / NANO as real
      && (decision.Failure? <==> spent > I64_MAX || !Ledger.Convertible(key.quota.hardLimitUsd))
      && (listed.Failure? <==> decision.Failure? && key.quota.weeklyLimitUsd.Some?)
      && (listed.Success? ==>
            && (listed.value.All? <==> status.Available? || status.Unlimited?)
            && (listed.value.FallbackOnly? <==> status.OnFallback?)
            && (listed.value.Blocked? <==> status.OutOfQuota?))
      && (decision.Success? ==>
            && (decision.value.UsePrimary? <==> status.Available? || status.Unlimited?)
            && (decision.value.UseFallback? <==> status.OnFallback?)
            && (decision.value.Reject? <==> status.OutOfQuota?))
  {
    hide Ledger.Decided, Ledger.Listed, Ledger.StatStatusOf, Ledger.Convertible, WeekStartMs;
    WeekStartIsWholeSeconds(now);
    SelectedSpend(rows, key.id, WeekStartMs(now));
    Ledger.AdmissionListingAndReportAgree(rows, key.id, key.quota, hasFallback, now);
  }
}
