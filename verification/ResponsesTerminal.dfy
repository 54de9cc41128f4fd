/** Terminal Responses events: validation, token usage and the capacity rewrite. */
module ResponsesTerminal {
  import opened Wrappers
  import opened Json
  import opened Decimals

  datatype TerminalKind = Completed | Incomplete | Failed | Error

  datatype Usage = Usage(inputTokens: nat, cachedInputTokens: nat, outputTokens: nat, reasoningTokens: nat,
    totalTokens: nat)

  datatype TerminalEvent = TerminalEvent(kind: TerminalKind, payload: Value, usage: Option<Usage>)

  datatype ProtocolError =
    | InvalidTerminalField(event: TerminalKind, field: string)
    | TerminalStatusMismatch(event: TerminalKind, actual: string)
    | CachedInputExceedsInput(event: TerminalKind)
    | ReasoningExceedsOutput(event: TerminalKind)

  function FromName(name: string): Option<TerminalKind> {
    if name == "response.completed" then Some(Completed)
    else if name == "response.incomplete" then Some(Incomplete)
    else if name == "response.failed" then Some(Failed)
    else if name == "error" then Some(Error)
    else None
  }

  function ResponseStatus(kind: TerminalKind): Option<string> {
    match kind
    case Completed => Some("completed")
    case Incomplete => Some("incomplete")
    case Failed => Some("failed")
    case Error => None
  }

  function RequiredU64(usage: Value, field: string, kind: TerminalKind): Result<nat, ProtocolError> {
    match AsU64(At(usage, field))
    case Some(n) => Success(n)
    case None => Failure(InvalidTerminalField(kind, field))
  }

  function OptionalDetailU64(usage: Value, details: string, field: string, kind: TerminalKind)
    : Result<nat, ProtocolError>
  {
    var value := At(usage, details);
    if value.Null? then Success(0)
    else if !value.Object? then Failure(InvalidTerminalField(kind, details))
    else if field !in value.fields then Success(0)
    else match AsU64(value.fields[field])
      case Some(n) => Success(n)
      case None => Failure(InvalidTerminalField(kind, field))
  }

  /** A count inside an optional object of details; zero when either is missing. */
  function DetailCount(usage: Value, details: string, field: string): nat {
    AsU64(At(At(usage, details), field)).GetOr(0)
  }

  predicate DetailReads(usage: Value, details: string, field: string) {
    var value := At(usage, details);
    value.Null? || (value.Object? && (field in value.fields ==> AsU64(value.fields[field]).Some?))
  }

  predicate UsageReads(usage: Value) {
    && usage.Object?
    && AsU64(At(usage, "input_tokens")).Some? && AsU64(At(usage, "output_tokens")).Some?
    && AsU64(At(usage, "total_tokens")).Some?
    && DetailReads(usage, "input_tokens_details", "cached_tokens")
    && DetailReads(usage, "output_tokens_details", "reasoning_tokens")
    && DetailCount(usage, "input_tokens_details", "cached_tokens") <= AsU64(At(usage, "input_tokens")).value
    && DetailCount(usage, "output_tokens_details", "reasoning_tokens") <= AsU64(At(usage, "output_tokens")).value
  }

  function ParseUsage(usage: Value, kind: TerminalKind): (r: Result<Option<Usage>, ProtocolError>)
    requires !kind.Error?
    // Accepted exactly when every count reads and the details are parts of their totals.
    ensures r.Success? && r.value.Some? <==> UsageReads(usage)
    ensures r.Success? && r.value.Some? ==>
      r.value.value == Usage(AsU64(At(usage, "input_tokens")).value,
                             DetailCount(usage, "input_tokens_details", "cached_tokens"),
                             AsU64(At(usage, "output_tokens")).value,
                             DetailCount(usage, "output_tokens_details", "reasoning_tokens"),
                             AsU64(At(usage, "total_tokens")).value)
    // Whatever is accepted can be priced: cached input is part of the input.
    ensures r.Success? && r.value.Some? ==>
      var u := r.value.value;
      && u.cachedInputTokens <= u.inputTokens <= U64_MAX && u.reasoningTokens <= u.outputTokens <= U64_MAX
      && u.totalTokens <= U64_MAX
    // Only a failed response may leave its usage out.
    ensures r.Success? && r.value.None? <==> kind.Failed? && usage.Null?
  {
    if usage.Null? then
      if kind.Failed? then Success(None) else Failure(InvalidTerminalField(kind, "response.usage"))
    else if !usage.Object? then Failure(InvalidTerminalField(kind, "response.usage"))
    else
      var input :- RequiredU64(usage, "input_tokens", kind);
      var output :- RequiredU64(usage, "output_tokens", kind);
      var total :- RequiredU64(usage, "total_tokens", kind);
      var cached :- OptionalDetailU64(usage, "input_tokens_details", "cached_tokens", kind);
      var reasoning :- OptionalDetailU64(usage, "output_tokens_details", "reasoning_tokens", kind);
      if cached > input then Failure(CachedInputExceedsInput(kind))
      else if reasoning > output then Failure(ReasoningExceedsOutput(kind))
      else Success(Some(Usage(input, cached, output, reasoning, total)))
  }

  /** `Success(None)` is an event that does not end its response. */
  function ParseTerminalPayload(payload: Value): Result<Option<TerminalEvent>, ProtocolError> {
    var name := GetString(payload, "type");
    if name.None? || FromName(name.value).None? then Success(None)
    else
      var kind := FromName(name.value).value;
      if kind.Error? then Success(Some(TerminalEvent(kind, payload, None)))
      else
        var response := At(payload, "response");
        if !response.Object? then Failure(InvalidTerminalField(kind, "response"))
        else if GetString(response, "status").None? then Failure(InvalidTerminalField(kind, "response.status"))
        else if GetString(response, "status") != ResponseStatus(kind) then
          Failure(TerminalStatusMismatch(kind, GetString(response, "status").value))
        else
          var usage :- ParseUsage(At(response, "usage"), kind);
          Success(Some(TerminalEvent(kind, payload, usage)))
  }

  /** Where the upstream put its error object. */
  function UpstreamError(t: TerminalEvent): Option<map<string, Value>> {
    var error := match t.kind
      case Error => At(t.payload, "error")
      case Failed => At(At(t.payload, "response"), "error")
      case _ => Null;
    if error.Object? then Some(error.fields) else None
  }

  // ----- retry advice -----

  function Lower(c: char): char {
    if 'A' <= c <= 'Z' then (c as int + 32) as char else c
  }

  predicate EqIgnoreAsciiCase(a: string, b: string) {
    |a| == |b| && forall i | 0 <= i < |a| :: Lower(a[i]) == Lower(b[i])
  }

  predicate IsRetryAfter(name: string) {
    EqIgnoreAsciiCase(name, "retry-after")
  }

  predicate IsWhite(c: char) {
    '\t' <= c <= '\r' || c == ' ' || c == '\U{85}' || c == '\U{A0}' || c == '\U{1680}' || '\U{2000}' <= c <= '\U{200A}'
    || c == '\U{2028}' || c == '\U{2029}' || c == '\U{202F}' || c == '\U{205F}' || c == '\U{3000}'
  }

  function TrimLeft(s: string): string {
    if s != "" && IsWhite(s[0]) then TrimLeft(s[1..]) else s
  }

  function TrimRight(s: string): string {
    if s != "" && IsWhite(s[|s| - 1]) then TrimRight(s[..|s| - 1]) else s
  }

  /** Delay seconds or, as `isDate` decides, an HTTP date: section 10.2.3 of RFC 9110. */
  predicate ValidAdvice(value: Value, isDate: string -> bool) {
    match value
    case String(s) =>
      var text := TrimRight(TrimLeft(s));
      (text != "" && AllDigits(text) && DigitsValue(text) <= U64_MAX) || isDate(text)
    case Number(n) => 0 <= n <= U64_MAX
    case _ => false
  }

  function FieldsOf(v: Value): map<string, Value> {
    if v.Object? then v.fields else map[]
  }

  /** The first valid advice met when the headers are visited in the order `names`. */
  function FirstAdvice(headers: map<string, Value>, names: seq<string>, isDate: string -> bool): Option<Value> {
    if names == [] then None
    else if names[0] in headers && IsRetryAfter(names[0]) && ValidAdvice(headers[names[0]], isDate)
      then Some(headers[names[0]])
    else FirstAdvice(headers, names[1..], isDate)
  }

  /** The orders in which the two header objects are visited. */
  datatype Visit = Visit(error: seq<string>, payload: seq<string>)

  ghost predicate Visits(v: Visit, t: TerminalEvent) {
    UpstreamError(t).Some? ==>
      && (forall name :: name in v.error <==> name in FieldsOf(At(Object(UpstreamError(t).value), "headers")))
      && (forall name :: name in v.payload <==> name in FieldsOf(At(t.payload, "headers")))
  }

  predicate CapacityCode(error: map<string, Value>) {
    GetString(Object(error), "code") in {Some("server_is_overloaded"), Some("slow_down")}
  }

  function RetryAdvice(error: map<string, Value>, payload: Value, visit: Visit, isDate: string -> bool): Value {
    var nested := FirstAdvice(FieldsOf(At(Object(error), "headers")), visit.error, isDate);
    var outer := FirstAdvice(FieldsOf(At(payload, "headers")), visit.payload, isDate);
    if nested.Some? then nested.value else outer.GetOr(String("30"))
  }

  function AdvisedError(error: map<string, Value>, advice: Value): map<string, Value> {
    var headers := FieldsOf(At(Object(error), "headers"));
    var kept := map name | name in headers && !IsRetryAfter(name) :: headers[name];
    error["headers" := Object(kept["Retry-After" := advice])]
  }

  function RetryableCapacityPayload(t: TerminalEvent, visit: Visit, isDate: string -> bool): Option<Value> {
    match UpstreamError(t)
    case None => None
    case Some(error) =>
      if !CapacityCode(error) || !t.payload.Object? then None
      else
        var advised := Object(AdvisedError(error, RetryAdvice(error, t.payload, visit, isDate)));
        if t.kind.Error? then
          Some(Object((t.payload.fields - {"error"})
            ["type" := String("response.failed")]
            ["response" := Object(map["status" := String("failed"), "error" := advised])]))
        else
          Some(Object(t.payload.fields["response" := Object(FieldsOf(At(t.payload, "response"))["error" := advised])]))
  }

  // ----- what is a terminal -----

  /** The name of the event and the status of its response that belong to a kind. */
  predicate Announces(kind: TerminalKind, name: string) {
    || (kind.Completed? && name == "response.completed") || (kind.Incomplete? && name == "response.incomplete")
    || (kind.Failed? && name == "response.failed") || (kind.Error? && name == "error")
  }

  predicate Concludes(kind: TerminalKind, status: string) {
    || (kind.Completed? && status == "completed") || (kind.Incomplete? && status == "incomplete")
    || (kind.Failed? && status == "failed")
  }

  /**
   * Exactly the four terminal events end a response. Each is of the kind it is named for and keeps its payload; but
   * for a bare error it needs a response of that kind's status, and has that response's usage.
   */
  lemma TerminalsAreNamed(payload: Value)
    ensures var r, name, response := ParseTerminalPayload(payload), GetString(payload, "type"), At(payload, "response");
      && (r == Success(None) <==> name.None? || forall kind :: !Announces(kind, name.value))
      && (r.Success? && r.value.Some? ==>
            var t := r.value.value;
            && name.Some? && Announces(t.kind, name.value) && t.payload == payload
            && (t.kind.Error? ==> t.usage == None)
            && (!t.kind.Error? ==>
                  && response.Object? && GetString(response, "status").Some?
                  && Concludes(t.kind, GetString(response, "status").value)
                  && (t.usage.Some? <==> UsageReads(At(response, "usage")))
                  && (t.usage.None? ==> t.kind.Failed? && At(response, "usage") == Null)))
      && (r.Failure? ==> name.Some? && name != Some("error"))
  {
    hide UsageReads;
    NamesAnnounce();
  }

  lemma NamesAnnounce()
    ensures forall name, kind :: FromName(name) == Some(kind) <==> Announces(kind, name)
    ensures forall kind, status :: ResponseStatus(kind) == Some(status) <==> Concludes(kind, status)
  {
  }

  /** Every well-formed terminal is accepted: the right status, and usage that reads, or none in a failed response. */
  lemma WellFormedTerminalsAreAccepted(payload: Value, kind: TerminalKind)
    requires GetString(payload, "type").Some? && Announces(kind, GetString(payload, "type").value)
    requires !kind.Error? ==>
      var response := At(payload, "response");
      && response.Object? && GetString(response, "status").Some? && Concludes(kind, GetString(response, "status").value)
      && (UsageReads(At(response, "usage")) || (kind.Failed? && At(response, "usage") == Null))
    ensures ParseTerminalPayload(payload).Success? && ParseTerminalPayload(payload).value.Some?
    ensures ParseTerminalPayload(payload).value.value.kind == kind
  {
    hide UsageReads;
    NamesAnnounce();
    assert FromName(GetString(payload, "type").value) == Some(kind);
  }

  /** An upstream error is the object under the event's error, or under its response's for a failed response. */
  lemma ErrorsAreFound(t: TerminalEvent, visit: Visit, isDate: string -> bool)
    ensures var error := if t.kind.Error? then At(t.payload, "error")
        else if t.kind.Failed? then At(At(t.payload, "response"), "error") else Null;
      && (UpstreamError(t).Some? <==> error.Object?) && (error.Object? ==> UpstreamError(t).value == error.fields)
      && (RetryableCapacityPayload(t, visit, isDate).Some? <==>
            error.Object? && (GetString(error, "code") == Some("server_is_overloaded")
              || GetString(error, "code") == Some("slow_down")))
  {
    hide AdvisedError, RetryAdvice;
  }

  /** Retry advice is a 64-bit number of seconds, zero included, as a number or as text between spaces, or a date. */
  lemma AdviceForms(n: int, digits: string, before: string, after: string, isDate: string -> bool)
    requires digits != "" && AllDigits(digits)
    requires (forall c | c in before :: IsWhite(c)) && forall c | c in after :: IsWhite(c)
    ensures ValidAdvice(Number(n), isDate) <==> 0 <= n <= 18446744073709551615
    ensures ValidAdvice(String(before + digits + after), isDate) <==>
      DigitsValue(digits) <= 18446744073709551615 || isDate(digits)
    ensures !ValidAdvice(Null, isDate) && !ValidAdvice(Bool(true), isDate) && !ValidAdvice(Array([]), isDate)
    ensures ValidAdvice(String(before + after), isDate) <==> isDate("")
  {
    hide IsWhite, DigitsValue;
    DigitsAreNotWhite(digits);
    SpacesTrim(before, digits + after);
    assert before + digits + after == before + (digits + after);
    assert TrimLeft(digits + after) == digits + after;
    SpacesTrimRight(digits, after);
    assert TrimRight(digits) == digits;
    SpacesTrim(before, after);
    SpacesTrim(after, "");
    assert after + "" == after;
    SpacesTrimRight("", after);
    assert "" + after == after;
  }

  /** Names are compared letter by letter, each as itself or in the other case. */
  lemma NamesMatchInAnyCase(a: string, b: string)
    ensures EqIgnoreAsciiCase(a, b) <==>
      |a| == |b| && forall i | 0 <= i < |a| ::
        || a[i] == b[i]
        || ('A' <= a[i] <= 'Z' && b[i] as int == a[i] as int + 32)
        || ('A' <= b[i] <= 'Z' && a[i] as int == b[i] as int + 32)
    ensures IsRetryAfter(a) <==> EqIgnoreAsciiCase(a, "RETRY-AFTER")
  {
    assert |"RETRY-AFTER"| == |"retry-after"|;
    assert forall i | 0 <= i < 11 :: Lower("RETRY-AFTER"[i]) == Lower("retry-after"[i]);
  }

  lemma SpacesAreWhite(c: char)
    ensures c == ' ' || c == '\t' || c == '\n' || c == '\r' || c == '\U{0B}' || c == '\U{0C}' ==> IsWhite(c)
    ensures '!' <= c <= '~' ==> !IsWhite(c)
  {
  }

  lemma DigitsAreNotWhite(digits: string)
    requires AllDigits(digits)
    ensures forall i | 0 <= i < |digits| :: !IsWhite(digits[i])
  {
  }

  lemma {:induction false} SpacesTrim(spaces: string, text: string)
    requires forall c | c in spaces :: IsWhite(c)
    ensures TrimLeft(spaces + text) == TrimLeft(text)
  {
    if spaces == "" {
      assert spaces + text == text;
    } else {
      assert (spaces + text)[1..] == spaces[1..] + text;
      SpacesTrim(spaces[1..], text);
    }
  }

  lemma {:induction false} SpacesTrimRight(text: string, spaces: string)
    requires forall c | c in spaces :: IsWhite(c)
    ensures TrimRight(text + spaces) == TrimRight(text)
  {
    if spaces == "" {
      assert text + spaces == text;
    } else {
      var last := |spaces| - 1;
      assert (text + spaces)[..|text| + last] == text + spaces[..last];
      assert spaces[last] in spaces;
      SpacesTrimRight(text, spaces[..last]);
    }
  }

  // ----- what the rewrite keeps and adds -----

  lemma {:induction false} FirstAdviceIsValid(headers: map<string, Value>, names: seq<string>, isDate: string -> bool)
    ensures FirstAdvice(headers, names, isDate).Some? ==>
      var advice := FirstAdvice(headers, names, isDate).value;
      ValidAdvice(advice, isDate) && exists n :: n in names && n in headers && IsRetryAfter(n) && headers[n] == advice
    ensures FirstAdvice(headers, names, isDate).None? ==>
      forall n | n in names && n in headers && IsRetryAfter(n) :: !ValidAdvice(headers[n], isDate)
  {
    if names != [] {
      FirstAdviceIsValid(headers, names[1..], isDate);
      assert forall n :: n in names <==> n == names[0] || n in names[1..];
    }
  }

  /** Valid upstream advice is kept, the error's own headers first; otherwise the delay is 30 seconds. */
  lemma AdviceIsUpstreamsOrThirty(error: map<string, Value>, payload: Value, visit: Visit, isDate: string -> bool)
    requires forall n :: n in visit.error <==> n in FieldsOf(At(Object(error), "headers"))
    requires forall n :: n in visit.payload <==> n in FieldsOf(At(payload, "headers"))
    ensures var advice := RetryAdvice(error, payload, visit, isDate);
      var nested, outer := FieldsOf(At(Object(error), "headers")), FieldsOf(At(payload, "headers"));
      && ValidAdvice(advice, isDate)
      && ((exists n :: n in nested && IsRetryAfter(n) && ValidAdvice(nested[n], isDate)) ==>
            exists n :: n in nested && IsRetryAfter(n) && nested[n] == advice)
      && ((forall n | n in nested && IsRetryAfter(n) :: !ValidAdvice(nested[n], isDate)) ==>
            if exists n :: n in outer && IsRetryAfter(n) && ValidAdvice(outer[n], isDate)
            then exists n :: n in outer && IsRetryAfter(n) && outer[n] == advice
            else advice == String("30"))
  {
    FirstAdviceIsValid(FieldsOf(At(Object(error), "headers")), visit.error, isDate);
    FirstAdviceIsValid(FieldsOf(At(payload, "headers")), visit.payload, isDate);
    assert AllDigits("30") && DigitsValue("30") == 30 by {
      assert "30"[..1] == "3";
      assert "3"[..0] == "";
      assert DigitsValue("3") == 3;
    }
    assert TrimRight(TrimLeft("30")) == "30";
  }

  /** The headers of a rewritten error carry exactly one Retry-After, and it is the advice. */
  lemma OneRetryAfter(error: map<string, Value>, advice: Value)
    ensures var headers := FieldsOf(At(Object(AdvisedError(error, advice)), "headers"));
      && "Retry-After" in headers && headers["Retry-After"] == advice && IsRetryAfter("Retry-After")
      && (forall n | n in headers && IsRetryAfter(n) :: n == "Retry-After")
      && (forall n | !IsRetryAfter(n) :: Get(Object(headers), n) == Get(At(Object(error), "headers"), n))
    ensures forall n | n != "headers" :: Get(Object(AdvisedError(error, advice)), n) == Get(Object(error), n)
  {
    var name := "Retry-After";
    assert forall i | 0 <= i < |name| :: Lower(name[i]) == Lower("retry-after"[i]);
  }

  lemma {:induction false} OnlyAdvice(headers: map<string, Value>, names: seq<string>, isDate: string -> bool)
    requires forall n | n in headers && IsRetryAfter(n) :: n == "Retry-After"
    requires "Retry-After" in headers && IsRetryAfter("Retry-After") && ValidAdvice(headers["Retry-After"], isDate)
    requires "Retry-After" in names
    ensures FirstAdvice(headers, names, isDate) == Some(headers["Retry-After"])
  {
    if names[0] != "Retry-After" {
      OnlyAdvice(headers, names[1..], isDate);
    }
  }

  /** Advising an advised error again, in any visiting order, changes nothing. */
  lemma AdvisingTwice(error: map<string, Value>, advice: Value, payload: Value, again: Visit, isDate: string -> bool)
    requires ValidAdvice(advice, isDate)
    requires forall n :: n in again.error <==> n in FieldsOf(At(Object(AdvisedError(error, advice)), "headers"))
    ensures RetryAdvice(AdvisedError(error, advice), payload, again, isDate) == advice
    ensures AdvisedError(AdvisedError(error, advice), advice) == AdvisedError(error, advice)
  {
    var advised := AdvisedError(error, advice);
    var headers := FieldsOf(At(Object(advised), "headers"));
    OneRetryAfter(error, advice);
    OnlyAdvice(headers, again.error, isDate);
    var kept := map name | name in headers && !IsRetryAfter(name) :: headers[name];
    assert kept["Retry-After" := advice] == headers;
  }

  lemma RewrittenErrorEvent(t: TerminalEvent, visit: Visit, isDate: string -> bool)
    requires t.kind.Error? && RetryableCapacityPayload(t, visit, isDate).Some?
    ensures var payload := RetryableCapacityPayload(t, visit, isDate).value;
      && At(payload, "type") == String("response.failed")
      && At(payload, "response") == Object(map["status" := String("failed"),
           "error" := Object(AdvisedError(UpstreamError(t).value, RetryAdvice(UpstreamError(t).value, t.payload, visit,
             isDate)))])
      && At(payload, "headers") == At(t.payload, "headers")
  {
  }

  lemma RewrittenFailedEvent(t: TerminalEvent, visit: Visit, isDate: string -> bool)
    requires t.kind.Failed? && RetryableCapacityPayload(t, visit, isDate).Some?
    ensures var payload := RetryableCapacityPayload(t, visit, isDate).value;
      var response := At(payload, "response");
      && At(payload, "type") == At(t.payload, "type")
      && response.Object?
      && At(response, "usage") == At(At(t.payload, "response"), "usage")
      && At(response, "status") == At(At(t.payload, "response"), "status")
      && At(response, "error") ==
        Object(AdvisedError(UpstreamError(t).value, RetryAdvice(UpstreamError(t).value, t.payload, visit, isDate)))
      && At(payload, "headers") == At(t.payload, "headers")
  {
  }

  /** The rewritten payload parses as a failed terminal that carries the advised error. */
  lemma RewrittenReparses(raw: Value, t: TerminalEvent, visit: Visit, isDate: string -> bool)
    requires ParseTerminalPayload(raw) == Success(Some(t))
    requires RetryableCapacityPayload(t, visit, isDate).Some?
    ensures var payload := RetryableCapacityPayload(t, visit, isDate).value;
      var error := UpstreamError(t).value;
      var again := TerminalEvent(Failed, payload, t.usage);
      && ParseTerminalPayload(payload) == Success(Some(again))
      && UpstreamError(again) == Some(AdvisedError(error, RetryAdvice(error, t.payload, visit, isDate)))
      && At(payload, "headers") == At(t.payload, "headers")
  {
    var payload := RetryableCapacityPayload(t, visit, isDate).value;
    assert FromName("response.failed") == Some(Failed);
    if t.kind.Error? {
      RewrittenErrorEvent(t, visit, isDate);
      assert At(At(payload, "response"), "usage") == Null;
    } else {
      RewrittenFailedEvent(t, visit, isDate);
    }
  }

  /** A failed terminal whose error already carries its advice is left alone. */
  lemma AdvisedIsUnchanged(t: TerminalEvent, advice: Value, visit: Visit, isDate: string -> bool)
    requires t.kind.Failed? && UpstreamError(t).Some? && CapacityCode(UpstreamError(t).value)
    requires RetryAdvice(UpstreamError(t).value, t.payload, visit, isDate) == advice
    requires AdvisedError(UpstreamError(t).value, advice) == UpstreamError(t).value
    ensures RetryableCapacityPayload(t, visit, isDate) == Some(t.payload)
  {
    var response := FieldsOf(At(t.payload, "response"));
    assert response["error" := Object(UpstreamError(t).value)] == response;
    assert t.payload.fields["response" := Object(response)] == t.payload.fields;
  }

  /** Parsing a rewritten terminal and rewriting it again is the identity, whatever the order of its headers. */
  lemma CapacityRewriteIsIdempotent(raw: Value, t: TerminalEvent, visit: Visit, again: Visit, isDate: string -> bool)
    requires ParseTerminalPayload(raw) == Success(Some(t)) && Visits(visit, t)
    requires RetryableCapacityPayload(t, visit, isDate).Some?
    ensures var payload := RetryableCapacityPayload(t, visit, isDate).value;
      var reparsed := TerminalEvent(Failed, payload, t.usage);
      && ParseTerminalPayload(payload) == Success(Some(reparsed))
      && (Visits(again, reparsed) ==> RetryableCapacityPayload(reparsed, again, isDate) == Some(payload))
  {
    var payload := RetryableCapacityPayload(t, visit, isDate).value;
    var reparsed := TerminalEvent(Failed, payload, t.usage);
    var error := UpstreamError(t).value;
    var advice := RetryAdvice(error, t.payload, visit, isDate);
    RewrittenReparses(raw, t, visit, isDate);
    if Visits(again, reparsed) {
      AdviceIsUpstreamsOrThirty(error, t.payload, visit, isDate);
      AdvisingTwice(error, advice, payload, again, isDate);
      assert CapacityCode(AdvisedError(error, advice)) by {
        OneRetryAfter(error, advice);
        assert Get(Object(AdvisedError(error, advice)), "code") == Get(Object(error), "code");
      }
      AdvisedIsUnchanged(reparsed, advice, again, isDate);
    }
  }

  /** Exactly the capacity failures are rewritten; the rest of the payload survives. */
  lemma OnlyCapacityFailuresAreRewritten(raw: Value, t: TerminalEvent, visit: Visit, isDate: string -> bool)
    requires ParseTerminalPayload(raw) == Success(Some(t))
    ensures RetryableCapacityPayload(t, visit, isDate).Some? <==>
      UpstreamError(t).Some? && CapacityCode(UpstreamError(t).value)
    ensures RetryableCapacityPayload(t, visit, isDate).Some? ==>
      var payload := RetryableCapacityPayload(t, visit, isDate).value;
      && (forall n | n !in {"type", "error", "response"} :: Get(payload, n) == Get(t.payload, n))
      && (t.kind.Failed? ==>
            forall n | n != "error" :: Get(At(payload, "response"), n) == Get(At(t.payload, "response"), n))
      && (t.kind.Failed? ==> Get(payload, "error") == Get(t.payload, "error"))
      && (t.kind.Error? ==> Get(payload, "error") == None)
  {
    if UpstreamError(t).Some? {
      assert t.payload.Object?;
    }
  }
}
