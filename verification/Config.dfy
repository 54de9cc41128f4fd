/** Limits, prices and the model a request really runs on. Amounts are exact decimals. */
module Config {
  import opened Wrappers
  import opened Json

  const REASONING_EFFORTS := ["none", "minimal", "low", "medium", "high", "xhigh", "max", "ultra"]
  const DEFAULT_HARD_LIMIT_USD := 600.0

  datatype Quota = Quota(weeklyLimitUsd: Option<real>, hardLimitUsd: Option<real>)
  datatype ApiKey = ApiKey(id: string, secret: string, quota: Quota)
  datatype Rates = Rates(inputUsdPerMillion: real, cachedInputUsdPerMillion: real, outputUsdPerMillion: real)
  datatype ModelPrice = ModelPrice(rates: Rates, maxReasoningEffort: Option<string>)

  /** Of the two upstream URLs only the scheme is looked at. */
  datatype Settings = Settings(enableWebsockets: bool, supportsWebsockets: bool, statePath: string, authFile: string,
    baseUrlScheme: string, oauthUrlScheme: string, fallbackModel: Option<string>, apiKeys: seq<ApiKey>,
    modelPrices: map<string, ModelPrice>)

  datatype EffectiveModel = EffectiveModel(model: string, reasoningEffort: Option<string>, rates: Rates)
  datatype ModelCandidates = ModelCandidates(primary: EffectiveModel, fallback: Option<EffectiveModel>)

  /** A hard limit needs a weekly limit, and a weekly limit always comes with a hard one. */
  function KeyQuota(weekly: Option<real>, hard: Option<real>): (r: Result<Quota, string>)
    ensures r.Failure? <==> weekly.None? && hard.Some?
    ensures r.Success? ==> r.value.weeklyLimitUsd == weekly && (r.value.hardLimitUsd.Some? <==> weekly.Some?)
    ensures r.Success? && weekly.Some? ==> r.value.hardLimitUsd == if hard.Some? then hard else Some(600.0)
  {
    if weekly.None? && hard.Some? then Failure("API key hard_limit_usd requires weekly_limit_usd")
    else if weekly.None? then Success(Quota(None, None))
    else Success(Quota(weekly, Some(hard.GetOr(DEFAULT_HARD_LIMIT_USD))))
  }

  // ----- validation -----

  predicate IsAsciiWhitespace(c: char) {
    c == ' ' || c == '\t' || c == '\n' || c == '\r' || c == '\U{0C}'
  }

  predicate ValidLimits(quota: Quota, hasFallback: bool) {
    && (quota.weeklyLimitUsd.Some? ==> quota.weeklyLimitUsd.value >= 0.0)
    && (quota.hardLimitUsd.Some? ==> quota.hardLimitUsd.value >= 0.0)
    && (quota.weeklyLimitUsd.Some? && quota.hardLimitUsd.Some? ==>
          var soft, hard := quota.weeklyLimitUsd.value, quota.hardLimitUsd.value;
          soft <= hard && (hasFallback ==> soft < hard))
  }

  predicate ValidKey(key: ApiKey, hasFallback: bool) {
    key.id != "" && key.secret != "" && (forall c | c in key.secret :: !IsAsciiWhitespace(c))
      && ValidLimits(key.quota, hasFallback)
  }

  predicate ValidRates(rates: Rates) {
    rates.inputUsdPerMillion >= 0.0 && rates.cachedInputUsdPerMillion >= 0.0 && rates.outputUsdPerMillion >= 0.0
  }

  predicate ValidPrice(model: string, price: ModelPrice) {
    model != "" && ValidRates(price.rates)
    && (price.maxReasoningEffort.Some? ==> price.maxReasoningEffort.value in REASONING_EFFORTS)
  }

  predicate ValidScheme(scheme: string) {
    scheme == "http" || scheme == "https"
  }

  predicate ValidServer(settings: Settings) {
    && settings.statePath != "" && settings.authFile != ""
    && ValidScheme(settings.baseUrlScheme) && ValidScheme(settings.oauthUrlScheme)
    && (settings.enableWebsockets ==> settings.supportsWebsockets)
  }

  predicate Valid(settings: Settings) {
    && ValidServer(settings)
    && settings.apiKeys != []
    && (forall key | key in settings.apiKeys :: ValidKey(key, settings.fallbackModel.Some?))
    && (forall i, j | 0 <= i < j < |settings.apiKeys| ::
          settings.apiKeys[i].id != settings.apiKeys[j].id && settings.apiKeys[i].secret != settings.apiKeys[j].secret)
    && settings.modelPrices != map[]
    && (forall model | model in settings.modelPrices :: ValidPrice(model, settings.modelPrices[model]))
    && (settings.fallbackModel.Some? ==> settings.fallbackModel.value in settings.modelPrices)
  }

  /** A configuration is valid key by key and price by price, with distinct keys and something of each. */
  lemma ConfigurationsAreValidWhen(settings: Settings)
    ensures Valid(settings) <==>
      && ValidServer(settings) && |settings.apiKeys| > 0 && |settings.modelPrices| > 0
      && (forall i | 0 <= i < |settings.apiKeys| :: ValidKey(settings.apiKeys[i], settings.fallbackModel != None))
      && (forall i, j | 0 <= i < |settings.apiKeys| && 0 <= j < |settings.apiKeys| && i != j ::
            settings.apiKeys[i].id != settings.apiKeys[j].id
              && settings.apiKeys[i].secret != settings.apiKeys[j].secret)
      && (forall model | model in settings.modelPrices.Keys :: ValidPrice(model, settings.modelPrices[model]))
      && (settings.fallbackModel == None || settings.fallbackModel.value in settings.modelPrices)
  {
    hide ValidServer, ValidKey, ValidPrice;
    assert |settings.modelPrices| == 0 <==> settings.modelPrices == map[];
  }

  /** The rules for the server, spelled out. */
  lemma ServersAreValidWhen(settings: Settings)
    ensures ValidServer(settings) <==>
      && settings.statePath != "" && settings.authFile != ""
      && (settings.baseUrlScheme == "http" || settings.baseUrlScheme == "https")
      && (settings.oauthUrlScheme == "http" || settings.oauthUrlScheme == "https")
      && (settings.enableWebsockets ==> settings.supportsWebsockets)
  {
  }

  /** The rules for a key, spelled out. */
  lemma KeysAreValidWhen(key: ApiKey, hasFallback: bool)
    ensures ValidKey(key, hasFallback) <==>
      && key.id != "" && key.secret != ""
      && (forall c | c in key.secret :: c != ' ' && c != '\t' && c != '\n' && c != '\r' && c != '\U{0C}')
      && (key.quota.weeklyLimitUsd.Some? ==> key.quota.weeklyLimitUsd.value >= 0.0)
      && (key.quota.hardLimitUsd.Some? ==> key.quota.hardLimitUsd.value >= 0.0)
      && (key.quota.weeklyLimitUsd.Some? && key.quota.hardLimitUsd.Some? ==>
            && key.quota.weeklyLimitUsd.value <= key.quota.hardLimitUsd.value
            && (hasFallback ==> key.quota.weeklyLimitUsd.value < key.quota.hardLimitUsd.value))
  {
  }

  /** The rules for a price, spelled out. */
  lemma PricesAreValidWhen(model: string, price: ModelPrice)
    ensures ValidPrice(model, price) <==>
      && model != "" && price.rates.inputUsdPerMillion >= 0.0 && price.rates.cachedInputUsdPerMillion >= 0.0
      && price.rates.outputUsdPerMillion >= 0.0
      && (price.maxReasoningEffort.Some? ==>
            price.maxReasoningEffort.value in ["none", "minimal", "low", "medium", "high", "xhigh", "max", "ultra"])
  {
  }

  method Validate(settings: Settings) returns (valid: bool)
    ensures valid <==> Valid(settings)
  {
    if settings.statePath == "" || settings.authFile == "" { return false; }
    if !ValidScheme(settings.baseUrlScheme) || !ValidScheme(settings.oauthUrlScheme) { return false; }
    if settings.enableWebsockets && !settings.supportsWebsockets { return false; }
    var keys := settings.apiKeys;
    if keys == [] { return false; }
    var ids, secrets := {}, {};
    for i := 0 to |keys|
      invariant ids == (set j | 0 <= j < i :: keys[j].id) && secrets == (set j | 0 <= j < i :: keys[j].secret)
      invariant forall j | 0 <= j < i :: ValidKey(keys[j], settings.fallbackModel.Some?)
      invariant forall j, k | 0 <= j < k < i :: keys[j].id != keys[k].id && keys[j].secret != keys[k].secret
    {
      assert keys[i] in keys;
      if keys[i].id in ids || keys[i].secret in secrets
        || !ValidKey(keys[i], settings.fallbackModel.Some?) { return false; }
      ids, secrets := ids + {keys[i].id}, secrets + {keys[i].secret};
    }
    if settings.modelPrices == map[] { return false; }
    var models := settings.modelPrices.Keys;
    while models != {}
      invariant models <= settings.modelPrices.Keys
      invariant forall model | model in settings.modelPrices
        && model !in models :: ValidPrice(model, settings.modelPrices[model])
    {
      var model :| model in models;
      if !ValidPrice(model, settings.modelPrices[model]) { return false; }
      models := models - {model};
    }
    valid := settings.fallbackModel.None? || settings.fallbackModel.value in settings.modelPrices;
  }

  // ----- effective models -----

  /** The position of an effort among the known ones. */
  function RankFrom(efforts: seq<string>, value: string): (r: Option<nat>)
    ensures r.Some? <==> value in efforts
    ensures r.Some? ==> r.value < |efforts| && efforts[r.value] == value && value !in efforts[..r.value]
  {
    if efforts == [] then None
    else if efforts[0] == value then Some(0)
    else match RankFrom(efforts[1..], value)
      case None => None
      case Some(rank) => Some(rank + 1)
  }

  function ReasoningEffortRank(value: string): Option<nat> {
    RankFrom(REASONING_EFFORTS, value)
  }

  function CappedEffort(price: ModelPrice, requested: string): string {
    if price.maxReasoningEffort.None? then requested
    else
      var rank, limit := ReasoningEffortRank(requested), ReasoningEffortRank(price.maxReasoningEffort.value);
      if rank.Some? && limit.Some? && rank.value > limit.value then price.maxReasoningEffort.value else requested
  }

  function EffectiveModelOf(settings: Settings, model: string, effort: Option<string>): Option<EffectiveModel> {
    if model !in settings.modelPrices then None
    else
      var price := settings.modelPrices[model];
      Some(EffectiveModel(model, if effort.Some? then Some(CappedEffort(price, effort.value)) else None, price.rates))
  }

  function Candidates(settings: Settings, model: string, effort: Option<string>): Option<ModelCandidates>
    requires Valid(settings)
  {
    match EffectiveModelOf(settings, model, effort)
    case None => None
    case Some(primary) =>
      Some(ModelCandidates(primary,
        if settings.fallbackModel.Some? then EffectiveModelOf(settings, settings.fallbackModel.value, effort)
          else None))
  }

  /** Where a request names its effort. */
  function RequestedEffort(body: map<string, Value>): Option<string> {
    GetString(At(Object(body), "reasoning"), "effort")
  }

  function ApplyEffectiveRequest(body: map<string, Value>, effective: EffectiveModel): map<string, Value>
    requires effective.reasoningEffort.Some? ==> RequestedEffort(body).Some?
  {
    var named := body["model" := String(effective.model)];
    if effective.reasoningEffort.None? then named
    else named["reasoning" := Object(body["reasoning"].fields["effort" := String(effective.reasoningEffort.value)])]
  }

  /** The applied request asks for exactly the model and the effort that the ledger logs. */
  lemma AppliedIsLogged(body: map<string, Value>, effective: EffectiveModel)
    requires effective.reasoningEffort.Some? <==> RequestedEffort(body).Some?
    ensures var applied := ApplyEffectiveRequest(body, effective);
      && GetString(Object(applied), "model") == Some(effective.model)
      && RequestedEffort(applied) == effective.reasoningEffort
      && (forall name | name !in {"model", "reasoning"} :: Get(Object(applied), name) == Get(Object(body), name))
      && (forall name | name != "effort" ::
            Get(At(Object(applied), "reasoning"), name) == Get(At(Object(body), "reasoning"), name))
  {
  }

  /** Candidates are priced from the configuration, and a configured fallback is always offered. */
  lemma CandidatesArePriced(settings: Settings, model: string, effort: Option<string>)
    requires Valid(settings) && Candidates(settings, model, effort).Some?
    ensures var c := Candidates(settings, model, effort).value;
      && c.primary.model == model && model in settings.modelPrices
        && c.primary.rates == settings.modelPrices[model].rates
      && (c.fallback.Some? <==> settings.fallbackModel.Some?)
      && (c.fallback.Some? ==> c.fallback.value.model == settings.fallbackModel.value
                               && settings.fallbackModel.value in settings.modelPrices
                               && c.fallback.value.rates == settings.modelPrices[settings.fallbackModel.value].rates)
      && (c.primary.reasoningEffort.Some? <==> effort.Some?)
      && (c.fallback.Some? ==> (c.fallback.value.reasoningEffort.Some? <==> effort.Some?))
  {
  }

  /** Unless both are known efforts and the limit comes first in their order, the requested effort is sent. */
  ghost predicate SentUnder(limit: Option<string>, requested: string, sent: string) {
    var known := ["none", "minimal", "low", "medium", "high", "xhigh", "max", "ultra"];
    if limit.Some? && exists i, j :: 0 <= i < j < |known| && known[i] == limit.value && known[j] == requested
    then sent == limit.value else sent == requested
  }

  /**
   * A model can be asked for exactly when it is priced; it and the fallback are each asked for the requested effort
   * capped by their own maximum, and for none when none was requested.
   */
  lemma CandidatesAreCapped(settings: Settings, model: string, effort: Option<string>)
    requires Valid(settings)
    ensures Candidates(settings, model, effort).Some? <==> model in settings.modelPrices
    ensures Candidates(settings, model, effort).Some? ==>
      var c := Candidates(settings, model, effort).value;
      && (effort.None? ==> c.primary.reasoningEffort == None)
      && (effort.Some? ==>
            && c.primary.reasoningEffort.Some?
            && SentUnder(settings.modelPrices[model].maxReasoningEffort, effort.value, c.primary.reasoningEffort.value))
      && (c.fallback.Some? ==>
            && c.fallback.value.model in settings.modelPrices
            && (effort.None? ==> c.fallback.value.reasoningEffort == None)
            && (effort.Some? ==>
                  && c.fallback.value.reasoningEffort.Some?
                  && var limit := settings.modelPrices[c.fallback.value.model].maxReasoningEffort;
                     SentUnder(limit, effort.value, c.fallback.value.reasoningEffort.value)))
  {
    hide CappedEffort, Valid, SentUnder;
    if effort.Some? {
      if model in settings.modelPrices { CappedIsSentUnder(settings.modelPrices[model], effort.value); }
      CandidatesFallback(settings, model, effort);
    }
  }

  lemma CandidatesFallback(settings: Settings, model: string, effort: Option<string>)
    requires Valid(settings) && effort.Some?
    ensures var c := Candidates(settings, model, effort);
      c.Some? && c.value.fallback.Some? ==>
        var fallback := c.value.fallback.value;
        && fallback.model in settings.modelPrices && fallback.reasoningEffort.Some?
        && SentUnder(settings.modelPrices[fallback.model].maxReasoningEffort, effort.value,
          fallback.reasoningEffort.value)
  {
    hide CappedEffort, SentUnder;
    if settings.fallbackModel.Some? {
      CappedIsSentUnder(settings.modelPrices[settings.fallbackModel.value], effort.value);
    }
  }

  lemma CappedIsSentUnder(price: ModelPrice, requested: string)
    ensures SentUnder(price.maxReasoningEffort, requested, CappedEffort(price, requested))
  {
    hide RankFrom;
    EffortsAreDistinct();
    var known := REASONING_EFFORTS;
    if price.maxReasoningEffort.Some? {
      var rank, limit := ReasoningEffortRank(requested), ReasoningEffortRank(price.maxReasoningEffort.value);
      assert rank.Some? ==> known[rank.value] == requested;
      assert limit.Some? ==> known[limit.value] == price.maxReasoningEffort.value;
    }
  }

  lemma EffortsAreDistinct()
    ensures REASONING_EFFORTS == ["none", "minimal", "low", "medium", "high", "xhigh", "max", "ultra"]
    ensures forall i, j | 0 <= i < j < |REASONING_EFFORTS| :: REASONING_EFFORTS[i] != REASONING_EFFORTS[j]
  {
  }

  /** A known effort leaves as the lower of itself and the model's maximum; an unknown one leaves as it came. */
  lemma EffortIsCapped(settings: Settings, model: string, requested: string)
    requires Valid(settings) && model in settings.modelPrices
    ensures var price := settings.modelPrices[model];
      var sent := CappedEffort(price, requested);
      var rank := ReasoningEffortRank(requested);
      && (rank.None? || price.maxReasoningEffort.None? ==> sent == requested)
      && (rank.Some? && price.maxReasoningEffort.Some? ==>
            var limit := ReasoningEffortRank(price.maxReasoningEffort.value);
            limit.Some? && ReasoningEffortRank(sent) == Some(if rank.value <= limit.value then rank.value
              else limit.value))
      && CappedEffort(price, sent) == sent
  {
    var price := settings.modelPrices[model];
    assert ValidPrice(model, price);
  }
}
