/** The request ledger: admission against weekly spend, and the one move of a row from started to final. */
module Ledger {
  import opened Wrappers
  import opened Json
  import opened Config
  import opened Pricing
  import opened Weeks

  datatype ApiProtocol = Responses | ChatCompletions
  datatype Transport = HttpSse | WebSocket
  datatype Status = Started | Completed | Incomplete | Rejected | UpstreamError | Canceled | InternalError
  datatype RequestContext = RequestContext(apiKeyId: string, protocol: ApiProtocol, transport: Transport)
  datatype Charge = Charge(inputTokens: nat, cachedInputTokens: nat, outputTokens: nat, costNanoUsd: nat)

  /** A row's number is its position; `charge` holds the columns that are null together. */
  datatype Row = Row(requestedAtMs: int, finishedAtMs: Option<int>, apiKeyId: string, model: string,
    reasoningEffort: Option<string>, protocol: ApiProtocol, transport: Transport, charge: Option<Charge>,
    durationMs: Option<nat>, status: Status, httpStatus: Option<int>)

  datatype StoreError = Database | RequestNotStarted | UsageOutOfRange | Price(error: PriceError)

  // ----- spend and limits -----

  function Cost(row: Row): nat {
    if row.charge.Some? then row.charge.value.costNanoUsd else 0
  }

  /** The committed spend of a key in a window, over the rows whose model is counted. */
  function Spend(rows: seq<Row>, key: string, startMs: int, counted: string -> bool): nat {
    if rows == [] then 0
    else
      var row := rows[|rows| - 1];
      Spend(rows[..|rows| - 1], key, startMs, counted)
      + if row.apiKeyId == key && startMs <= row.requestedAtMs < startMs + WEEK_MS && counted(row.model) then Cost(row)
        else 0
  }

  const EVERY_MODEL: string -> bool := (model: string) => true

  function CurrentWeekSpend(rows: seq<Row>, key: string, now: int): Result<int, StoreError> {
    var spent := Spend(rows, key, WeekStartMs(now), EVERY_MODEL);
    if spent <= I64_MAX then Success(spent) else Failure(Database)
  }

  function SpendMeetsLimit(spent: int, limitUsd: Option<real>): Result<bool, StoreError> {
    if limitUsd.None? then Success(false)
    else if Checked(limitUsd.value * 1000000000.0).None? then Failure(Price(CostOutOfRange))
    else Success(spent as real >= limitUsd.value * 1000000000.0)
  }

  /** A spend in nano-USD lies below a limit in USD; no limit is never reached. */
  predicate Below(spent: int, limitUsd: Option<real>) {
    limitUsd.Some? ==> (spent as real) / 1000000000.0 < limitUsd.value
  }

  predicate Convertible(limitUsd: Option<real>) {
    limitUsd.Some? ==> Checked(limitUsd.value * 1000000000.0).Some?
  }

  datatype Decision = UsePrimary | UseFallback | Reject

  function Decide(spent: int, quota: Quota, hasFallback: bool): Result<Decision, StoreError> {
    var soft :- SpendMeetsLimit(spent, quota.weeklyLimitUsd);
    var hard :- SpendMeetsLimit(spent, quota.hardLimitUsd);
    Success(if hard || (soft && !hasFallback) then Reject else if soft then UseFallback else UsePrimary)
  }

  /** What admission decides on the spend committed so far. */
  function Decided(rows: seq<Row>, key: string, quota: Quota, hasFallback: bool, now: int)
    : (r: Result<Decision, StoreError>)
    ensures r.Success? && r.value.UseFallback? ==> hasFallback
  {
    var spent :- CurrentWeekSpend(rows, key, now);
    Decide(spent, quota, hasFallback)
  }

  /** Nothing is admitted at or above the hard limit, and the primary model only below the weekly limit. */
  ghost predicate DecisionRespectsLimits(rows: seq<Row>, key: string, quota: Quota, hasFallback: bool, now: int,
      r: Result<Decision, StoreError>)
  {
    var spent := Spend(rows, key, WeekStartMs(now), EVERY_MODEL);
    && (r.Failure? <==> spent > I64_MAX || !Convertible(quota.weeklyLimitUsd) || !Convertible(quota.hardLimitUsd))
    && (r.Success? ==>
          && (r.value.UsePrimary? <==> Below(spent, quota.hardLimitUsd) && Below(spent, quota.weeklyLimitUsd))
          && (r.value.UseFallback? <==>
                Below(spent, quota.hardLimitUsd) && !Below(spent, quota.weeklyLimitUsd) && hasFallback))
  }

  lemma DecidedRespectsLimits(rows: seq<Row>, key: string, quota: Quota, hasFallback: bool, now: int)
    ensures DecisionRespectsLimits(rows, key, quota, hasFallback, now, Decided(rows, key, quota, hasFallback, now))
  {
    hide Spend, WeekStartMs;
  }

  datatype ModelAccess = All | FallbackOnly | Blocked

  function Access(spent: int, quota: Quota, hasFallback: bool): Result<ModelAccess, StoreError> {
    if quota.weeklyLimitUsd.None? then Success(All)
    else
      var hard :- SpendMeetsLimit(spent, quota.hardLimitUsd);
      if hard then Success(Blocked)
      else
        var soft :- SpendMeetsLimit(spent, quota.weeklyLimitUsd);
        Success(if !soft then All else if hasFallback then FallbackOnly else Blocked)
  }

  /** What the model listing offers; the spend of a key without limits is not read. */
  function Listed(rows: seq<Row>, key: string, quota: Quota, hasFallback: bool, now: int)
    : Result<ModelAccess, StoreError>
  {
    if quota.weeklyLimitUsd.None? then Success(All)
    else
      var spent :- CurrentWeekSpend(rows, key, now);
      Access(spent, quota, hasFallback)
  }

  // ----- rows -----

  function Chosen(candidates: ModelCandidates, decision: Decision): EffectiveModel
    requires decision.UseFallback? ==> candidates.fallback.Some?
  {
    if decision.UseFallback? then candidates.fallback.value else candidates.primary
  }

  function AdmittedRow(context: RequestContext, effective: EffectiveModel, decision: Decision, now: int): Row {
    var at := TimestampMs(now);
    if decision.Reject? then
      Row(at, Some(at), context.apiKeyId, effective.model, effective.reasoningEffort, context.protocol,
        context.transport, None, Some(0), Rejected,
          if context.transport.HttpSse? then Some(429) else None)
    else
      Row(at, None, context.apiKeyId, effective.model, effective.reasoningEffort, context.protocol, context.transport,
        None, None, Started, None)
  }

  function RejectedRow(context: RequestContext, model: string, effort: Option<string>, httpStatus: Option<int>,
      now: int): Row
  {
    var at := TimestampMs(now);
    Row(at, Some(at), context.apiKeyId, model, effort, context.protocol, context.transport, None, Some(0), Rejected,
      httpStatus)
  }

  function Charged(usage: BillableUsage): Result<Charge, StoreError> {
    if usage.inputTokens > I64_MAX || usage.cachedInputTokens > I64_MAX || usage.outputTokens > I64_MAX
      then Failure(UsageOutOfRange)
    else match CalculateCostNanoUsd(usage)
      case Failure(error) => Failure(Price(error))
      case Success(cost) =>
        // A negative cost breaks a constraint of the table.
        if cost < 0 then Failure(Database)
        else Success(Charge(usage.inputTokens, usage.cachedInputTokens, usage.outputTokens, cost))
  }

  /** The final form of a started row. */
  function FinalRow(row: Row, status: Status, httpStatus: Option<int>, usage: Option<BillableUsage>, now: int)
    : Result<Row, StoreError>
  {
    var finished := TimestampMs(now);
    var duration: nat := if finished > row.requestedAtMs then finished - row.requestedAtMs else 0;
    var done := row.(finishedAtMs := Some(finished), durationMs := Some(duration), status := status,
      httpStatus := httpStatus);
    if row.status != Started then Failure(RequestNotStarted)
    else if usage.None? then Success(done.(charge := None))
    else
      var charge :- Charged(usage.value);
      Success(done.(charge := Some(charge)))
  }

  /** One write to the ledger: the clock it reads and whether SQLite carries it out. */
  datatype Write = Write(now: int, io: bool)

  predicate CanFinalize(rows: seq<Row>, id: nat, status: Status, httpStatus: Option<int>, usage: Option<BillableUsage>,
      write: Write)
  {
    write.io && id < |rows| && FinalRow(rows[id], status, httpStatus, usage, write.now).Success?
  }

  /** The ledger after an attempt to finalize one row. */
  function Finalized(rows: seq<Row>, id: nat, status: Status, httpStatus: Option<int>, usage: Option<BillableUsage>,
      write: Write): seq<Row>
  {
    if CanFinalize(rows, id, status, httpStatus, usage, write)
    then rows[id := FinalRow(rows[id], status, httpStatus, usage, write.now).value] else rows
  }

  lemma FinalizedFollows(rows: seq<Row>, id: nat, status: Status, httpStatus: Option<int>, usage: Option<BillableUsage>,
      write: Write)
    ensures var after := Finalized(rows, id, status, httpStatus, usage, write);
      Follows(rows, after) && |after| == |rows| && forall i | 0 <= i < |rows| && i != id :: after[i] == rows[i]
  {
  }

  /** A row keeps what it was admitted with, and once final it never changes. */
  predicate RowFollows(before: Row, after: Row) {
    && after.requestedAtMs == before.requestedAtMs && after.apiKeyId == before.apiKeyId && after.model == before.model
    && after.reasoningEffort == before.reasoningEffort && after.protocol == before.protocol
      && after.transport == before.transport
    && (before.status != Started ==> after == before)
  }

  predicate Follows(before: seq<Row>, after: seq<Row>) {
    |before| <= |after| && forall i | 0 <= i < |before| :: RowFollows(before[i], after[i])
  }

  lemma FollowsTransitively(a: seq<Row>, b: seq<Row>, c: seq<Row>)
    requires Follows(a, b) && Follows(b, c)
    ensures Follows(a, c)
  {
    forall i | 0 <= i < |a| ensures RowFollows(a[i], c[i]) {
      assert RowFollows(a[i], b[i]) && RowFollows(b[i], c[i]);
    }
  }

  /** The row holds exactly this usage and its price. */
  predicate RecordsUsage(row: Row, usage: Option<BillableUsage>) {
    && (row.charge.Some? <==> usage.Some?)
    && (usage.Some? ==>
          && row.charge.value.inputTokens == usage.value.inputTokens
          && row.charge.value.cachedInputTokens == usage.value.cachedInputTokens
          && row.charge.value.outputTokens == usage.value.outputTokens
          && CalculateCostNanoUsd(usage.value) == Success(row.charge.value.costNanoUsd))
  }

  /** Whatever a row costs is the price of its tokens at the configured rates of its own model. */
  predicate PricedAt(settings: Settings, row: Row) {
    row.charge.Some? ==>
      && row.model in settings.modelPrices
      && var charge := row.charge.value;
         var rates := settings.modelPrices[row.model].rates;
         RecordsUsage(row,
           Some(BillableUsage(charge.inputTokens, charge.cachedInputTokens, charge.outputTokens, rates)))
  }

  /** Finalizing with the rates configured for the row's model keeps it priced by them. */
  lemma FinalizingIsPriced(settings: Settings, rows: seq<Row>, id: nat, status: Status, httpStatus: Option<int>,
      usage: Option<BillableUsage>, write: Write)
    requires id < |rows| && PricedAt(settings, rows[id])
    requires usage.Some? ==>
      rows[id].model in settings.modelPrices && usage.value.rates == settings.modelPrices[rows[id].model].rates
    ensures PricedAt(settings, Finalized(rows, id, status, httpStatus, usage, write)[id])
  {
    hide CalculateCostNanoUsd;
  }

  /** How a row is finalized depends on that row alone, so writes to other rows in between change nothing. */
  lemma OnlyOwnRowMatters(rows: seq<Row>, others: seq<Row>, id: nat, status: Status, httpStatus: Option<int>,
      usage: Option<BillableUsage>, write: Write)
    requires id < |rows| && id < |others| && others[id] == rows[id]
    ensures CanFinalize(others, id, status, httpStatus, usage, write) == CanFinalize(rows, id, status, httpStatus,
      usage, write)
    ensures Finalized(others, id, status, httpStatus, usage, write)[id] == Finalized(rows, id, status, httpStatus,
      usage, write)[id]
  {
  }

  // ----- admission -----

  /** What an admission writes: started, or rejected on the spot, with HTTP status 429 where there is one. */
  lemma AdmittedRowSays(context: RequestContext, effective: EffectiveModel, decision: Decision, now: int)
    ensures var row := AdmittedRow(context, effective, decision, now);
      && row.requestedAtMs == now / 1000000 && row.apiKeyId == context.apiKeyId && row.charge == None
      && row.model == effective.model && row.reasoningEffort == effective.reasoningEffort
      && row.protocol == context.protocol && row.transport == context.transport
      && (decision != Reject ==>
            row.status == Started && row.finishedAtMs == None && row.durationMs == None && row.httpStatus == None)
      && (decision == Reject ==>
            && row.status == Rejected && row.finishedAtMs == Some(row.requestedAtMs) && row.durationMs == Some(0)
            && row.httpStatus == if context.transport == HttpSse then Some(429) else None)
  {
  }

  /** What a refused request leaves: one final row under the model and effort it asked for. */
  lemma RejectedRowSays(context: RequestContext, model: string, effort: Option<string>, httpStatus: Option<int>,
      now: int)
    ensures var row := RejectedRow(context, model, effort, httpStatus, now);
      && row.requestedAtMs == now / 1000000 && row.finishedAtMs == Some(row.requestedAtMs) && row.durationMs == Some(0)
      && row.apiKeyId == context.apiKeyId && row.model == model && row.reasoningEffort == effort
      && row.protocol == context.protocol && row.transport == context.transport
      && row.charge == None && row.status == Rejected && row.httpStatus == httpStatus
  {
  }

  /**
   * A row is finalized exactly when it is started and its usage, if any, fits 64 bits and has a price that is not
   * negative. It then has the status, the time and the usage given, and a duration that never runs backwards.
   */
  lemma FinalRowSays(row: Row, status: Status, httpStatus: Option<int>, usage: Option<BillableUsage>, now: int)
    ensures var r := FinalRow(row, status, httpStatus, usage, now);
      && (r.Success? <==>
            && row.status == Started
            && (usage.Some? ==>
                  && usage.value.inputTokens <= 9223372036854775807
                  && usage.value.cachedInputTokens <= 9223372036854775807
                  && usage.value.outputTokens <= 9223372036854775807
                  && CalculateCostNanoUsd(usage.value).Success? && CalculateCostNanoUsd(usage.value).value >= 0))
      && (r.Success? ==>
            && r.value.status == status && r.value.httpStatus == httpStatus
              && r.value.finishedAtMs == Some(now / 1000000)
            && r.value.durationMs == Some(if now / 1000000 > row.requestedAtMs then now / 1000000 - row.requestedAtMs
              else 0)
            && RecordsUsage(r.value, usage) && RowFollows(row, r.value))
      && (r.Failure? ==> (r.error == RequestNotStarted <==> row.status != Started))
  {
    hide CalculateCostNanoUsd;
  }

  /**
   * Every request counts with its cost when it is the key's, in the window and on a counted model, and no other
   * does.
   */
  lemma {:induction false} SpendAddsUp(rows: seq<Row>, row: Row, key: string, startMs: int, counted: string -> bool)
    ensures Spend([], key, startMs, counted) == 0
    ensures Spend(rows + [row], key, startMs, counted) ==
      Spend(rows, key, startMs, counted)
      + if row.apiKeyId == key && startMs <= row.requestedAtMs && row.requestedAtMs < startMs + 604800000
           && counted(row.model) && row.charge.Some?
        then row.charge.value.costNanoUsd else 0
  {
    assert (rows + [row])[..|rows|] == rows;
  }

  /** What respects the limits is what is decided. */
  lemma OneDecision(rows: seq<Row>, key: string, quota: Quota, hasFallback: bool, now: int,
      r: Result<Decision, StoreError>)
    requires DecisionRespectsLimits(rows, key, quota, hasFallback, now, r)
    ensures var decided := Decided(rows, key, quota, hasFallback, now);
      && (r.Failure? <==> decided.Failure?) && (r.Success? ==> r.value == decided.value)
      && (r.Success? && r.value.UseFallback? ==> hasFallback)
  {
    hide Spend, Decided, WeekStartMs, Below, Convertible;
    DecidedRespectsLimits(rows, key, quota, hasFallback, now);
  }

  /** One admission: its clock, what other requests write between its read and its insert, and whether that works. */
  datatype Begin = Begin(now: int, others: seq<Row>, inserted: bool)

  datatype Admission = Admitted(id: nat, effective: EffectiveModel) | WeeklyQuotaExceeded | Failed

  function Begun(rows: seq<Row>, context: RequestContext, quota: Quota, candidates: ModelCandidates, begin: Begin)
    : (seq<Row>, Admission)
  {
    var decision := Decided(rows, context.apiKeyId, quota, candidates.fallback.Some?, begin.now);
    var later := if Follows(rows, begin.others) then begin.others else rows;
    if decision.Failure? || !begin.inserted then (later, Failed)
    else
      var effective := Chosen(candidates, decision.value);
      (later + [AdmittedRow(context, effective, decision.value, begin.now)],
       if decision.value.Reject? then WeeklyQuotaExceeded else Admitted(|later|, effective))
  }

  /** An admission adds one row at most: started with the model it names, or rejected; no other row is touched by it. */
  lemma AdmissionAddsItsRow(rows: seq<Row>, context: RequestContext, quota: Quota, candidates: ModelCandidates,
      begin: Begin)
    ensures var (after, admission) := Begun(rows, context, quota, candidates, begin);
      var later := if Follows(rows, begin.others) then begin.others else rows;
      && Follows(rows, after)
      && (after == later || (|after| == |later| + 1 && after[..|later|] == later && after[|later|].charge.None?))
      && (admission.Admitted? <==> |after| == |later| + 1 && after[|later|].status == Started)
      && (admission.Admitted? ==>
            && admission.id == |later|
              && admission.effective in {candidates.primary, candidates.fallback.GetOr(candidates.primary)}
            && after[|later|].model == admission.effective.model
            && after[|later|].reasoningEffort == admission.effective.reasoningEffort)
  {
    hide Decided;
    var (after, _) := Begun(rows, context, quota, candidates, begin);
    var later := if Follows(rows, begin.others) then begin.others else rows;
    assert Follows(rows, later);
    assert Follows(later, after);
    FollowsTransitively(rows, later, after);
  }

  /** The SQLite ledger. */
  class Store {
    var rows: seq<Row>

    constructor ()
      ensures rows == []
    {
      rows := [];
    }

    /**
     * The read half of an admission; other requests may be served before its row is inserted. Nothing is admitted
     * at or above the hard limit, and the primary model only below the weekly limit.
     */
    method ReadAdmission(key: string, quota: Quota, hasFallback: bool, now: int)
      returns (r: Result<Decision, StoreError>)
      ensures DecisionRespectsLimits(rows, key, quota, hasFallback, now, r)
    {
      hide Spend, WeekStartMs;
      var spent := CurrentWeekSpend(rows, key, now);
      if spent.Failure? { return Failure(spent.error); }
      r := Decide(spent.value, quota, hasFallback);
    }

    method InsertRequest(context: RequestContext, candidates: ModelCandidates, decision: Decision, write: Write)
      returns (r: Result<nat, StoreError>)
      requires decision.UseFallback? ==> candidates.fallback.Some?
      modifies this
      ensures r == if write.io then Success(|old(rows)|) else Failure(Database)
      ensures rows == old(rows) + if write.io
        then [AdmittedRow(context, Chosen(candidates, decision), decision, write.now)] else []
      ensures Follows(old(rows), rows)
    {
      if !write.io {
        assert rows + [] == rows;
        return Failure(Database);
      }
      var id := |rows|;
      rows := rows + [AdmittedRow(context, Chosen(candidates, decision), decision, write.now)];
      r := Success(id);
    }

    /** Reads, then inserts: not one transaction. */
    method BeginRequest(context: RequestContext, quota: Quota, candidates: ModelCandidates, begin: Begin)
      returns (r: Admission)
      modifies this
      ensures (rows, r) == Begun(old(rows), context, quota, candidates, begin)
    {
      hide Decided, DecisionRespectsLimits, AdmittedRow, Follows;
      var decision := ReadAdmission(context.apiKeyId, quota, candidates.fallback.Some?, begin.now);
      OneDecision(rows, context.apiKeyId, quota, candidates.fallback.Some?, begin.now, decision);
      if Follows(rows, begin.others) { rows := begin.others; }
      if decision.Failure? { return Failed; }
      assert rows + [] == rows;
      var inserted := InsertRequest(context, candidates, decision.value, Write(begin.now, begin.inserted));
      if inserted.Failure? { return Failed; }
      r := if decision.value.Reject? then WeeklyQuotaExceeded
        else Admitted(inserted.value, Chosen(candidates, decision.value));
    }

    method FinalizeRequest(id: nat, status: Status, httpStatus: Option<int>, usage: Option<BillableUsage>, write: Write)
      returns (r: Result<(), StoreError>)
      modifies this
      ensures rows == Finalized(old(rows), id, status, httpStatus, usage, write)
      ensures r.Success? <==> CanFinalize(old(rows), id, status, httpStatus, usage, write)
      ensures write.io && (id >= |rows| || old(rows)[id].status != Started) ==> r == Failure(RequestNotStarted)
    {
      if !write.io { return Failure(Database); }
      if id >= |rows| { return Failure(RequestNotStarted); }
      var row := FinalRow(rows[id], status, httpStatus, usage, write.now);
      if row.Failure? { return Failure(row.error); }
      rows := rows[id := row.value];
      r := Success(());
    }

    method RecordRejection(context: RequestContext, model: string, effort: Option<string>, httpStatus: Option<int>,
        write: Write) returns (r: Result<(), StoreError>)
      modifies this
      ensures rows == old(rows) + (if write.io then [RejectedRow(context, model, effort, httpStatus, write.now)]
        else [])
      ensures r.Success? <==> write.io
    {
      if !write.io {
        assert rows + [] == rows;
        return Failure(Database);
      }
      rows := rows + [RejectedRow(context, model, effort, httpStatus, write.now)];
      r := Success(());
    }
  }

  // ----- admission, model listing and the report agree -----

  datatype StatStatus = Unlimited | Available | OnFallback | OutOfQuota

  /** The report works in USD and tests the limits in another order. */
  function StatStatusOf(spentUsd: real, quota: Quota, hasFallback: bool): StatStatus
    requires quota.weeklyLimitUsd.Some? ==> quota.hardLimitUsd.Some?
  {
    if quota.weeklyLimitUsd.None? then Unlimited
    else
      var soft, hard := quota.weeklyLimitUsd.value, quota.hardLimitUsd.value;
      if spentUsd >= hard || (spentUsd >= soft && !hasFallback) then OutOfQuota
      else if spentUsd >= soft then OnFallback
      else Available
  }

  /** A quota a validated configuration can hold. */
  predicate ConfiguredQuota(quota: Quota, hasFallback: bool) {
    ValidLimits(quota, hasFallback) && (quota.hardLimitUsd.Some? <==> quota.weeklyLimitUsd.Some?)
  }

  lemma LimitsAgree(spent: int, quota: Quota, hasFallback: bool)
    requires ConfiguredQuota(quota, hasFallback)
    ensures var decision, access := Decide(spent, quota, hasFallback), Access(spent, quota, hasFallback);
      var status := StatStatusOf(spent as real / 1000000000.0, quota, hasFallback);
      && (decision.Failure? <==> access.Failure?) && (decision.Failure? <==> !Convertible(quota.hardLimitUsd))
      && (decision.Success? ==>
            && (decision.value.UsePrimary? <==> access.value.All?)
            && (access.value.All? <==> status.Available? || status.Unlimited?)
            && (decision.value.UseFallback? <==> access.value.FallbackOnly?)
            && (access.value.FallbackOnly? <==> status.OnFallback?)
            && (decision.value.Reject? <==> access.value.Blocked?)
            && (access.value.Blocked? <==> status.OutOfQuota?))
  {
    if quota.weeklyLimitUsd.Some? {
      var soft, hard := quota.weeklyLimitUsd.value, quota.hardLimitUsd.value;
      assert soft * 1000000000.0 <= hard * 1000000000.0;
      assert spent as real / 1000000000.0 >= hard <==> spent as real >= hard * 1000000000.0;
      assert spent as real / 1000000000.0 >= soft <==> spent as real >= soft * 1000000000.0;
    }
  }

  /**
   * For every validated quota and every ledger, admission, the model listing and the report tell the same story.
   * Admission fails exactly when the week's sum does not fit 64 bits or the hard limit cannot be converted; the
   * listing fails in the same cases, but never for a key without limits, whose spend it does not read.
   */
  lemma AdmissionListingAndReportAgree(rows: seq<Row>, key: string, quota: Quota, hasFallback: bool, now: int)
    requires ConfiguredQuota(quota, hasFallback)
    ensures var spent := Spend(rows, key, WeekStartMs(now), EVERY_MODEL);
      var decision, listed := Decided(rows, key, quota, hasFallback, now), Listed(rows, key, quota, hasFallback, now);
      var status := StatStatusOf(spent as real / 1000000000.0, quota, hasFallback);
      && (decision.Failure? <==> spent > I64_MAX || !Convertible(quota.hardLimitUsd))
      && (listed.Failure? <==> quota.weeklyLimitUsd.Some? && (spent > I64_MAX || !Convertible(quota.hardLimitUsd)))
      && (listed.Success? ==>
            && (listed.value.All? <==> status.Available? || status.Unlimited?)
            && (listed.value.FallbackOnly? <==> status.OnFallback?)
            && (listed.value.Blocked? <==> status.OutOfQuota?))
      && (decision.Success? ==>
            && listed.Success?
            && (decision.value.UsePrimary? <==> listed.value.All?)
            && (decision.value.UseFallback? <==> listed.value.FallbackOnly?)
            && (decision.value.Reject? <==> listed.value.Blocked?))
  {
    hide Spend, WeekStartMs, Decide, Access, StatStatusOf, Convertible;
    var spent := Spend(rows, key, WeekStartMs(now), EVERY_MODEL);
    LimitsAgree(spent, quota, hasFallback);
    NoLimitsNoQuestions(spent, quota, hasFallback);
  }

  lemma NoLimitsNoQuestions(spent: int, quota: Quota, hasFallback: bool)
    requires ConfiguredQuota(quota, hasFallback)
    ensures quota.weeklyLimitUsd.None? ==>
      && Access(spent, quota, hasFallback) == Success(All) && Convertible(quota.hardLimitUsd)
      && StatStatusOf(spent as real / 1000000000.0, quota, hasFallback) == Unlimited
  {
  }

  function Ceiling(x: real): int {
    -(-x).Floor
  }

  lemma CeilingIsLeast(x: real, n: int)
    ensures x <= Ceiling(x) as real
    ensures x <= n as real ==> Ceiling(x) <= n
  {
  }

  lemma FallbackServes(spent: int, quota: Quota)
    requires ConfiguredQuota(quota, true) && quota.weeklyLimitUsd.Some?
    ensures Decide(spent, quota, true) == Success(UseFallback) <==>
      && Convertible(quota.hardLimitUsd)
      && quota.weeklyLimitUsd.value * 1000000000.0 <= spent as real < quota.hardLimitUsd.value * 1000000000.0
  {
    assert quota.weeklyLimitUsd.value * 1000000000.0 <= quota.hardLimitUsd.value * 1000000000.0;
  }

  /** A ledger that has spent an amount in the week of an instant: one finished request of that cost. */
  function Spent(key: string, cost: nat, now: int): seq<Row> {
    [Row(TimestampMs(now), Some(TimestampMs(now)), key, "", None, Responses, HttpSse, Some(Charge(0, 0, 0, cost)),
      Some(0), Completed, None)]
  }

  lemma SpentIsSpend(key: string, cost: nat, now: int)
    ensures Spend(Spent(key, cost, now), key, WeekStartMs(now), EVERY_MODEL) == cost
  {
    hide WeekStartMs, TimestampMs;
    WindowContainsNow(now);
    var rows := Spent(key, cost, now);
    assert rows[..0] == [];
    assert Spend(rows[..0], key, WeekStartMs(now), EVERY_MODEL) == 0;
  }

  /**
   * With a fallback some ledger is served by it exactly when the hard limit can be converted and the least whole
   * nano-USD not below the weekly limit is below the hard one and fits 64 bits.
   */
  lemma FallbackWindow(quota: Quota, key: string, now: int)
    requires ConfiguredQuota(quota, true) && quota.weeklyLimitUsd.Some?
    ensures var soft, hard := quota.weeklyLimitUsd.value * 1000000000.0, quota.hardLimitUsd.value * 1000000000.0;
      (exists rows :: Decided(rows, key, quota, true, now) == Success(UseFallback)) <==>
        Convertible(quota.hardLimitUsd) && Ceiling(soft) as real < hard && Ceiling(soft) <= I64_MAX
  {
    hide Decide, Convertible, Ceiling, Spend, WeekStartMs, Spent;
    var soft := quota.weeklyLimitUsd.value * 1000000000.0;
    CeilingIsLeast(soft, 0);
    assert 0.0 <= soft <= Ceiling(soft) as real;
    FallbackServes(Ceiling(soft), quota);
    SpentIsSpend(key, Ceiling(soft), now);
    if Convertible(quota.hardLimitUsd) && Ceiling(soft) as real < quota.hardLimitUsd.value * 1000000000.0
       && Ceiling(soft) <= I64_MAX {
      assert Decided(Spent(key, Ceiling(soft), now), key, quota, true, now) == Success(UseFallback);
    }
    if rows :| Decided(rows, key, quota, true, now) == Success(UseFallback) {
      var spent := Spend(rows, key, WeekStartMs(now), EVERY_MODEL);
      FallbackServes(spent, quota);
      CeilingIsLeast(soft, spent);
    }
  }

  /**
   * A fallback window can be empty in two ways: limits of 0.1 and 0.2 nano-USD hold no whole nano-USD, and limits
   * of ten and twenty billion USD lie beyond 64 bits.
   */
  lemma FallbackWindowCanBeEmpty(rows: seq<Row>, key: string, now: int)
    ensures var narrow := Quota(Some(0.0000000001), Some(0.0000000002));
      ConfiguredQuota(narrow, true) && Decided(rows, key, narrow, true, now) != Success(UseFallback)
    ensures var far := Quota(Some(10000000000.0), Some(20000000000.0));
      ConfiguredQuota(far, true) && Decided(rows, key, far, true, now) != Success(UseFallback)
  {
    FallbackWindow(Quota(Some(0.0000000001), Some(0.0000000002)), key, now);
    FallbackWindow(Quota(Some(10000000000.0), Some(20000000000.0)), key, now);
  }

  /** Summing a window is summing the rows that share its Monday. */
  function SpendByMonday(rows: seq<Row>, key: string, monday: int): nat {
    if rows == [] then 0
    else
      var row := rows[|rows| - 1];
      SpendByMonday(rows[..|rows| - 1], key, monday)
      + if row.apiKeyId == key && MondayStart(row.requestedAtMs * NANOS_PER_MS) == monday then Cost(row) else 0
  }

  lemma {:induction false} WindowSpendGroupsByMonday(rows: seq<Row>, key: string, now: int)
    ensures Spend(rows, key, WeekStartMs(now), EVERY_MODEL) == SpendByMonday(rows, key, MondayStart(now))
  {
    if rows != [] {
      var last := |rows| - 1;
      WindowSpendGroupsByMonday(rows[..last], key, now);
      WindowsPartitionTime(rows[last].requestedAtMs, now);
    }
  }
}

/** Admission reads the committed spend and inserts later; this bounds what concurrent requests can overshoot. */
module QuotaRuns {
  import opened Wrappers
  import opened Config
  import opened Pricing
  import opened Weeks
  import opened Ledger

  /** A request between its read and its insert. */
  datatype Reading = Reading(context: RequestContext, effective: EffectiveModel, decision: Decision, now: int)

  /** Nobody holds a lost row any more: its client left during the insert, or its process ended. It stays started. */
  datatype State = State(rows: seq<Row>, readings: map<nat, Reading>, lost: set<nat>)

  /** An abandoned admission never inserts its row: its client left, or the insert failed. */
  datatype Event =
    | Read(request: nat, context: RequestContext, candidates: ModelCandidates, now: int)
    | Abandon(request: nat)
    | Insert(request: nat)
    | Lose(id: nat)
    | Finalize(id: nat, status: Status, httpStatus: Option<int>, usage: Option<BillableUsage>, now: int)
    | RecordRejected(row: Row)

  datatype Policy = Policy(quotas: string -> Quota, fallbackModel: Option<string>)

  const EMPTY := State([], map[], {})

  function Step(policy: Policy, s: State, event: Event): State {
    match event
    case Read(request, context, candidates, now) =>
      var spent := CurrentWeekSpend(s.rows, context.apiKeyId, now);
      var hasFallback := candidates.fallback.Some?;
      if request in s.readings || spent.Failure?
        || Decide(spent.value, policy.quotas(context.apiKeyId), hasFallback).Failure? then s
      else
        var decision := Decide(spent.value, policy.quotas(context.apiKeyId), hasFallback).value;
        s.(readings := s.readings[request := Reading(context, Chosen(candidates, decision), decision, now)])
    case Abandon(request) => s.(readings := s.readings - {request})
    case Insert(request) =>
      if request !in s.readings then s
      else
        var r := s.readings[request];
        s.(rows := s.rows + [AdmittedRow(r.context, r.effective, r.decision, r.now)],
          readings := s.readings - {request})
    case Lose(id) => if id < |s.rows| then s.(lost := s.lost + {id}) else s
    case Finalize(id, status, httpStatus, usage, now) =>
      if id >= |s.rows| || id in s.lost || FinalRow(s.rows[id], status, httpStatus, usage, now).Failure? then s
      else s.(rows := s.rows[id := FinalRow(s.rows[id], status, httpStatus, usage, now).value])
    case RecordRejected(row) =>
      if row.status == Rejected && row.charge.None? then s.(rows := s.rows + [row]) else s
  }

  function Run(policy: Policy, events: seq<Event>): State
    decreases |events|
  {
    if events == [] then EMPTY else Step(policy, Run(policy, events[..|events| - 1]), events[|events| - 1])
  }

  /** What is being bounded: a key's spend in one week, on the models counted. */
  datatype Scope = Scope(key: string, startMs: int, counted: string -> bool)

  predicate InScope(scope: Scope, key: string, ms: int, model: string) {
    key == scope.key && scope.startMs <= ms < scope.startMs + WEEK_MS && scope.counted(model)
  }

  function StartedIn(rows: seq<Row>, lost: set<nat>, scope: Scope): nat {
    if rows == [] then 0
    else
      var last := |rows| - 1;
      var row := rows[last];
      StartedIn(rows[..last], lost, scope)
      + if row.status == Started && last !in lost && InScope(scope, row.apiKeyId, row.requestedAtMs, row.model) then 1
        else 0
  }

  predicate Pending(scope: Scope, r: Reading) {
    r.decision != Reject && InScope(scope, r.context.apiKeyId, TimestampMs(r.now), r.effective.model)
  }

  function ReadingsIn(readings: map<nat, Reading>, scope: Scope): set<nat> {
    set request | request in readings && Pending(scope, readings[request])
  }

  /** The requests in flight: admitted but not finalized, abandoned or lost. */
  function InFlight(s: State, scope: Scope): nat {
    |ReadingsIn(s.readings, scope)| + StartedIn(s.rows, s.lost, scope)
  }

  function SpendIn(rows: seq<Row>, scope: Scope): nat {
    Spend(rows, scope.key, scope.startMs, scope.counted)
  }

  /** Spend so far plus everything the requests in flight may still cost. */
  function Exposure(s: State, scope: Scope, most: nat): nat {
    SpendIn(s.rows, scope) + most * InFlight(s, scope)
  }

  lemma {:induction false} UpdatedRow(rows: seq<Row>, lost: set<nat>, id: nat, row: Row, scope: Scope)
    requires id < |rows| && id !in lost && RowFollows(rows[id], row) && rows[id].status == Started
      && row.status != Started && Cost(rows[id]) == 0
    ensures var inside := InScope(scope, row.apiKeyId, row.requestedAtMs, row.model);
      && SpendIn(rows[id := row], scope) == SpendIn(rows, scope) + (if inside then Cost(row) else 0)
      && StartedIn(rows[id := row], lost, scope) == StartedIn(rows, lost, scope) - (if inside then 1 else 0)
  {
    var last := |rows| - 1;
    var changed := rows[id := row];
    if id == last {
      assert changed[..last] == rows[..last];
    } else {
      UpdatedRow(rows[..last], lost, id, row, scope);
      assert changed[..last] == rows[..last][id := row];
    }
  }

  lemma {:induction false} CountedSpendIsSpend(rows: seq<Row>, scope: Scope)
    ensures SpendIn(rows, scope) <= Spend(rows, scope.key, scope.startMs, EVERY_MODEL)
  {
    if rows != [] { CountedSpendIsSpend(rows[..|rows| - 1], scope); }
  }

  /** Started rows carry no cost yet. */
  predicate Sound(s: State) {
    (forall row | row in s.rows :: row.status == Started ==> row.charge.None?) && forall id | id in s.lost ::
      id < |s.rows|
  }

  /**
   * Premises on one event: no finalization in the scope costs more than `most`, rows leave the started state, no
   * more than `limit` requests are in flight afterwards, and every admission is offered the configured fallback.
   */
  predicate Allowed(policy: Policy, s: State, event: Event, scope: Scope, most: nat, limit: nat) {
    && (event.Finalize? && event.id < |s.rows| ==>
          event.status != Started &&
          var row := FinalRow(s.rows[event.id], event.status, event.httpStatus, event.usage, event.now);
          row.Success? && InScope(scope, row.value.apiKeyId, row.value.requestedAtMs, row.value.model) ==>
            Cost(row.value) <= most)
    && InFlight(Step(policy, s, event), scope) <= limit
    && (event.Read? ==> OffersFallback(policy, event.candidates))
  }

  /** Every request is offered the configured fallback model, if there is one. */
  predicate OffersFallback(policy: Policy, candidates: ModelCandidates) {
    if candidates.fallback.Some? then policy.fallbackModel == Some(candidates.fallback.value.model)
      else policy.fallbackModel.None?
  }

  predicate AdmitsOnCounted(policy: Policy, scope: Scope, spent: int, candidates: ModelCandidates) {
    var decision := Decide(spent, policy.quotas(scope.key), candidates.fallback.Some?);
    decision.Success? && !decision.value.Reject? && scope.counted(Chosen(candidates, decision.value).model)
  }

  /** Admissions on counted models happen below the cap. */
  ghost predicate Capped(policy: Policy, scope: Scope, cap: real) {
    forall spent: int, candidates: ModelCandidates ::
      OffersFallback(policy, candidates) && AdmitsOnCounted(policy, scope, spent, candidates) ==> (spent as real) < cap
  }

  ghost predicate Bounded(s: State, scope: Scope, cap: real, most: nat, limit: nat) {
    Sound(s) && (Exposure(s, scope, most) == 0 || (Exposure(s, scope, most) as real) < cap + (most * limit) as real)
  }

  /** An admission into the scope saw a counted spend below the cap. */
  lemma ReadBelowCap(policy: Policy, s: State, event: Event, scope: Scope, cap: real)
    requires event.Read? && event.request !in s.readings && OffersFallback(policy, event.candidates)
      && Capped(policy, scope, cap)
    requires event.request in Step(policy, s, event).readings
      && Pending(scope, Step(policy, s, event).readings[event.request])
    requires exists n :: scope.startMs == WeekStartMs(n)
    ensures (SpendIn(s.rows, scope) as real) < cap
  {
    hide Decide, Spend, WeekStartMs;
    var n :| scope.startMs == WeekStartMs(n);
    WindowContainsNow(event.now);
    WindowsDoNotOverlap(TimestampMs(event.now), event.now, n);
    CountedSpendIsSpend(s.rows, scope);
    assert AdmitsOnCounted(policy, scope, CurrentWeekSpend(s.rows, scope.key, event.now).value, event.candidates);
  }

  lemma Times(most: nat, a: nat, b: nat)
    requires a <= b
    ensures most * a <= most * b
  {
  }

  lemma ReadStep(policy: Policy, s: State, event: Event, scope: Scope, cap: real, most: nat, limit: nat)
    requires event.Read? && Bounded(s, scope, cap, most, limit) && Allowed(policy, s, event, scope, most, limit)
      && Capped(policy, scope, cap)
    requires exists n :: scope.startMs == WeekStartMs(n)
    ensures Bounded(Step(policy, s, event), scope, cap, most, limit)
  {
    hide Decide, Spend, StartedIn, WeekStartMs, Capped, CurrentWeekSpend, Chosen;
    var after := Step(policy, s, event);
    if after != s {
      var r := after.readings[event.request];
      if Pending(scope, r) {
        assert ReadingsIn(after.readings, scope) == ReadingsIn(s.readings, scope) + {event.request};
        ReadBelowCap(policy, s, event, scope, cap);
        Times(most, InFlight(after, scope), limit);
        assert (Exposure(after, scope, most) as real) ==
          (SpendIn(s.rows, scope) as real) + ((most * InFlight(after, scope)) as real);
      } else {
        assert ReadingsIn(after.readings, scope) == ReadingsIn(s.readings, scope);
      }
    }
  }

  lemma {:induction false} LostRow(rows: seq<Row>, lost: set<nat>, id: nat, scope: Scope)
    ensures StartedIn(rows, lost + {id}, scope) <= StartedIn(rows, lost, scope)
  {
    if rows != [] { LostRow(rows[..|rows| - 1], lost, id, scope); }
  }

  /** An admission or a row that goes away only takes its possible cost with it. */
  lemma GoneStep(policy: Policy, s: State, event: Event, scope: Scope, cap: real, most: nat, limit: nat)
    requires (event.Abandon? || event.Lose?) && Bounded(s, scope, cap, most, limit)
    ensures Bounded(Step(policy, s, event), scope, cap, most, limit)
  {
    hide Spend, StartedIn, InScope, Bounded, ReadingsIn;
    var after := Step(policy, s, event);
    if event.Lose? {
      LostRow(s.rows, s.lost, event.id, scope);
    } else {
      FewerReadings(s.readings, event.request, scope);
    }
    LessInFlight(s, after, scope, cap, most, limit);
  }

  lemma FewerReadings(readings: map<nat, Reading>, request: nat, scope: Scope)
    ensures |ReadingsIn(readings - {request}, scope)| <= |ReadingsIn(readings, scope)|
  {
    hide InScope;
    var before := ReadingsIn(readings, scope);
    assert ReadingsIn(readings - {request}, scope) == before - {request};
    assert |before - {request}| <= |before|;
  }

  lemma LessInFlight(s: State, after: State, scope: Scope, cap: real, most: nat, limit: nat)
    requires after.rows == s.rows && (forall id | id in after.lost :: id in s.lost || id < |s.rows|)
    requires Bounded(s, scope, cap, most, limit) && InFlight(after, scope) <= InFlight(s, scope)
    ensures Bounded(after, scope, cap, most, limit)
  {
    hide Spend, InFlight;
    Times(most, InFlight(after, scope), InFlight(s, scope));
  }

  lemma AppendedRow(rows: seq<Row>, lost: set<nat>, row: Row, scope: Scope)
    requires row.charge.None? && |rows| !in lost
    ensures SpendIn(rows + [row], scope) == SpendIn(rows, scope)
    ensures StartedIn(rows + [row], lost, scope) ==
      StartedIn(rows, lost, scope) + if row.status == Started
        && InScope(scope, row.apiKeyId, row.requestedAtMs, row.model) then 1 else 0
  {
    assert (rows + [row])[..|rows|] == rows;
  }

  lemma AdmittedRowIsUncharged(r: Reading)
    ensures var row := AdmittedRow(r.context, r.effective, r.decision, r.now);
      && row.charge.None? && (row.status == Started <==> r.decision != Reject)
      && row.apiKeyId == r.context.apiKeyId && row.requestedAtMs == TimestampMs(r.now) && row.model == r.effective.model
  {
  }

  lemma InsertStep(policy: Policy, s: State, event: Event, scope: Scope, cap: real, most: nat, limit: nat)
    requires event.Insert? && Bounded(s, scope, cap, most, limit)
    ensures Bounded(Step(policy, s, event), scope, cap, most, limit)
  {
    hide Spend, StartedIn, AdmittedRow, InScope;
    if event.request in s.readings {
      var after := Step(policy, s, event);
      var r := s.readings[event.request];
      AdmittedRowIsUncharged(r);
      AppendedRow(s.rows, s.lost, AdmittedRow(r.context, r.effective, r.decision, r.now), scope);
      if Pending(scope, r) {
        assert ReadingsIn(s.readings, scope) == ReadingsIn(after.readings, scope) + {event.request};
      } else {
        assert ReadingsIn(s.readings, scope) == ReadingsIn(after.readings, scope);
      }
      assert InFlight(after, scope) == InFlight(s, scope);
    }
  }

  lemma FinalRowFollows(row: Row, status: Status, httpStatus: Option<int>, usage: Option<BillableUsage>, now: int)
    requires FinalRow(row, status, httpStatus, usage, now).Success?
    ensures var done := FinalRow(row, status, httpStatus, usage, now).value;
      row.status == Started && RowFollows(row, done) && done.status == status && done.httpStatus == httpStatus
  {
  }

  lemma ReplacedRowIsSound(s: State, id: nat, row: Row)
    requires Sound(s) && id < |s.rows| && row.status != Started
    ensures Sound(s.(rows := s.rows[id := row]))
  {
    var rows := s.rows[id := row];
    forall other | other in rows && other.status == Started ensures other.charge.None? {
      var i :| 0 <= i < |rows| && rows[i] == other;
      assert s.rows[i] in s.rows;
    }
  }

  lemma FinalizeStep(policy: Policy, s: State, event: Event, scope: Scope, cap: real, most: nat, limit: nat)
    requires event.Finalize? && Bounded(s, scope, cap, most, limit) && Allowed(policy, s, event, scope, most, limit)
    ensures Bounded(Step(policy, s, event), scope, cap, most, limit)
  {
    hide Spend, StartedIn, FinalRow, InScope, RowFollows;
    var after := Step(policy, s, event);
    if after != s {
      var row := after.rows[event.id];
      assert s.rows[event.id] in s.rows;
      FinalRowFollows(s.rows[event.id], event.status, event.httpStatus, event.usage, event.now);
      UpdatedRow(s.rows, s.lost, event.id, row, scope);
      ReplacedRowIsSound(s, event.id, row);
      assert ReadingsIn(after.readings, scope) == ReadingsIn(s.readings, scope);
      if InScope(scope, row.apiKeyId, row.requestedAtMs, row.model) {
        assert InFlight(after, scope) == InFlight(s, scope) - 1;
        assert most * (InFlight(s, scope) - 1) == most * InFlight(s, scope) - most;
      }
    }
  }

  lemma StepKeepsBound(policy: Policy, s: State, event: Event, scope: Scope, cap: real, most: nat, limit: nat)
    requires Bounded(s, scope, cap, most, limit) && Allowed(policy, s, event, scope, most, limit)
      && Capped(policy, scope, cap)
    requires exists n :: scope.startMs == WeekStartMs(n)
    ensures Bounded(Step(policy, s, event), scope, cap, most, limit)
  {
    match event
    case Read(_, _, _, _) => ReadStep(policy, s, event, scope, cap, most, limit);
    case Abandon(_) => GoneStep(policy, s, event, scope, cap, most, limit);
    case Insert(_) => InsertStep(policy, s, event, scope, cap, most, limit);
    case Lose(_) => GoneStep(policy, s, event, scope, cap, most, limit);
    case Finalize(_, _, _, _, _) => FinalizeStep(policy, s, event, scope, cap, most, limit);
    case RecordRejected(row) =>
      if row.status == Rejected && row.charge.None? { AppendedRow(s.rows, s.lost, row, scope); }
  }

  /** Every event of a run meets the premises when it happens. */
  predicate RunAllowed(policy: Policy, events: seq<Event>, scope: Scope, most: nat, limit: nat) {
    forall i | 0 <= i < |events| :: Allowed(policy, Run(policy, events[..i]), events[i], scope, most, limit)
  }

  lemma EmptyIsBounded(scope: Scope, cap: real, most: nat, limit: nat)
    ensures Bounded(EMPTY, scope, cap, most, limit)
  {
    assert ReadingsIn(map[], scope) == {};
  }

  lemma {:induction false} RunsStayBounded(policy: Policy, events: seq<Event>, scope: Scope, cap: real, most: nat,
      limit: nat)
    requires RunAllowed(policy, events, scope, most, limit) && Capped(policy, scope, cap)
    requires exists n :: scope.startMs == WeekStartMs(n)
    ensures Bounded(Run(policy, events), scope, cap, most, limit)
    decreases |events|
  {
    hide Step, Allowed, Capped, Bounded, InFlight;
    if events == [] {
      EmptyIsBounded(scope, cap, most, limit);
    } else {
      var last := |events| - 1;
      assert forall i | 0 <= i < last :: events[..last][..i] == events[..i];
      RunsStayBounded(policy, events[..last], scope, cap, most, limit);
      StepKeepsBound(policy, Run(policy, events[..last]), events[last], scope, cap, most, limit);
    }
  }

  /** An admitted request saw a spend below every limit that applies to it. */
  lemma AdmissionIsBelow(spent: int, quota: Quota, hasFallback: bool)
    requires Decide(spent, quota, hasFallback).Success?
    ensures var decision := Decide(spent, quota, hasFallback).value;
      && (!decision.Reject? && quota.hardLimitUsd.Some? ==> (spent as real) < quota.hardLimitUsd.value * 1000000000.0)
      && (decision.UsePrimary? && quota.weeklyLimitUsd.Some? ==>
        (spent as real) < quota.weeklyLimitUsd.value * 1000000000.0)
      && (decision.UseFallback? ==> hasFallback)
  {
  }

  lemma AdmissionsAreCapped(policy: Policy, scope: Scope, hard: bool)
    requires hard ==> policy.quotas(scope.key).hardLimitUsd.Some?
    requires !hard ==> policy.quotas(scope.key).weeklyLimitUsd.Some?
    requires !hard && policy.fallbackModel.Some? ==> !scope.counted(policy.fallbackModel.value)
    ensures var quota := policy.quotas(scope.key);
      Capped(policy, scope, (if hard then quota.hardLimitUsd.value else quota.weeklyLimitUsd.value) * 1000000000.0)
  {
    hide Decide;
    var quota := policy.quotas(scope.key);
    forall spent: int, candidates: ModelCandidates
      | OffersFallback(policy, candidates) && AdmitsOnCounted(policy, scope, spent, candidates)
      ensures (spent as real) < (if hard then quota.hardLimitUsd.value else quota.weeklyLimitUsd.value) * 1000000000.0
    {
      AdmissionIsBelow(spent, quota, candidates.fallback.Some?);
    }
  }

  /**
   * With at most `limit` requests of a key in flight at a time, each costing at most `most`, a week's spend stays
   * below the hard limit plus their product, whatever the clock does and however reads and inserts interleave.
   */
  lemma HardLimitOvershoot(policy: Policy, events: seq<Event>, key: string, week: int, most: nat, limit: nat)
    requires policy.quotas(key).hardLimitUsd.Some?
    requires RunAllowed(policy, events, Scope(key, WeekStartMs(week), EVERY_MODEL), most, limit)
    ensures var spent := Spend(Run(policy, events).rows, key, WeekStartMs(week), EVERY_MODEL);
      spent == 0 || (spent as real) < policy.quotas(key).hardLimitUsd.value * 1000000000.0 + (most * limit) as real
  {
    hide Run, Capped, RunAllowed, WeekStartMs;
    var scope := Scope(key, WeekStartMs(week), EVERY_MODEL);
    AdmissionsAreCapped(policy, scope, true);
    RunsStayBounded(policy, events, scope, policy.quotas(key).hardLimitUsd.value * 1000000000.0, most, limit);
  }

  function OtherThan(fallback: Option<string>): string -> bool {
    (model: string) => Some(model) != fallback
  }

  /**
   * In the same way what a week spends on models other than the fallback stays below the soft limit plus the
   * product; without a fallback that is the whole spend.
   */
  lemma SoftLimitOvershoot(policy: Policy, events: seq<Event>, key: string, week: int, most: nat, limit: nat)
    requires policy.quotas(key).weeklyLimitUsd.Some?
    requires RunAllowed(policy, events, Scope(key, WeekStartMs(week), OtherThan(policy.fallbackModel)), most, limit)
    ensures var spent := Spend(Run(policy, events).rows, key, WeekStartMs(week), OtherThan(policy.fallbackModel));
      spent == 0 || (spent as real) < policy.quotas(key).weeklyLimitUsd.value * 1000000000.0 + (most * limit) as real
  {
    hide Run, Capped, RunAllowed, WeekStartMs;
    var scope := Scope(key, WeekStartMs(week), OtherThan(policy.fallbackModel));
    AdmissionsAreCapped(policy, scope, false);
    RunsStayBounded(policy, events, scope, policy.quotas(key).weeklyLimitUsd.value * 1000000000.0, most, limit);
  }
}
