/**
 * A client WebSocket relayed over its own upstream WebSocket: at most one response in progress, each a row of the
 * ledger.
 */
module WsProtocol {
  import opened Wrappers
  import opened Json
  import opened Config
  import opened UpstreamWs
  import opened Ledger
  import HttpApi
  import Terminal = ResponsesTerminal

  datatype InFlight = InFlight(id: nat, rates: Rates)

  /** The upstream's closing frame is normal when it has no code, or the code for normal closure or going away. */
  datatype End =
    | ShuttingDown | ClientDisconnect | ClientProtocolError | UpstreamFailure | UpstreamClosed(normal: bool)
    | InternalFailure | AccountingFailure

  // ----- what a client may ask -----

  datatype Prepared = Prepared(body: Body, candidates: ModelCandidates)

  function PreparedBody(body: Body): Body {
    var spelled := if "input" in body && body["input"].String?
      then body["input" := HttpApi.UserMessage(body["input"].s)] else body;
    spelled["store" := Bool(false)]["stream" := Bool(true)]
  }

  /** The parameter at fault, if any. */
  function RequestFault(settings: Settings, value: Value): Option<string>
    requires Valid(settings)
  {
    if GetString(value, "type") != Some("response.create") then Some("type")
    else
      var model := GetString(value, "model");
      if model.None? then Some("model")
      else if Candidates(settings, model.value, GetString(At(value, "reasoning"), "effort")).None? then Some("model")
      else if Get(value, "stream").Some? && At(value, "stream") != Bool(true) then Some("stream")
      else if Get(value, "background").Some? then Some("background")
      else if Get(value, "max_output_tokens").Some? then Some("max_output_tokens")
      else if Get(value, "store").Some? && At(value, "store") != Null && At(value, "store") != Bool(false)
        then Some("store")
      else None
  }

  /** The edited request and its candidates, or the parameter at fault. */
  function PrepareRequest(settings: Settings, value: Value): (r: Result<Prepared, string>)
    requires Valid(settings)
    ensures r.Success? ==>
      var model := GetString(Object(r.value.body), "model");
      model.Some? && Candidates(settings, model.value, RequestedEffort(r.value.body)) == Some(r.value.candidates)
  {
    var fault := RequestFault(settings, value);
    if fault.Some? then Failure(fault.value)
    else
      PreparedKeeps(value.fields, "model");
      PreparedKeeps(value.fields, "reasoning");
      Success(Prepared(PreparedBody(value.fields), Candidates(settings, GetString(value, "model").value,
        RequestedEffort(value.fields)).value))
  }

  /** A prepared request is accepted again as it is, with the same candidates; nothing but three members was touched. */
  lemma PreparingAgainChangesNothing(settings: Settings, value: Value)
    requires Valid(settings) && PrepareRequest(settings, value).Success?
    ensures var prepared := PrepareRequest(settings, value).value;
      && PrepareRequest(settings, Object(prepared.body)) == Success(prepared)
      && value.fields.Keys <= prepared.body.Keys <= value.fields.Keys + {"store", "stream"}
      && forall name | name in value.fields && name !in {"input", "store", "stream"} ::
        prepared.body[name] == value.fields[name]
  {
    hide Valid, Candidates;
    var body, prepared := value.fields, PrepareRequest(settings, value).value;
    PreparedKeeps(body, "type");
    PreparedKeeps(body, "model");
    PreparedKeeps(body, "reasoning");
    PreparedKeeps(body, "background");
    PreparedKeeps(body, "max_output_tokens");
    PreparedTwice(body);
    hide PreparedBody;
    assert RequestedEffort(prepared.body) == RequestedEffort(body);
  }

  lemma PreparedKeeps(body: Body, name: string)
    requires name != "input" && name != "store" && name != "stream"
    ensures Get(Object(PreparedBody(body)), name) == Get(Object(body), name)
    ensures name in PreparedBody(body) <==> name in body
  {
  }

  lemma PreparedTwice(body: Body)
    ensures var prepared := PreparedBody(body);
      && PreparedBody(prepared) == prepared
      && "stream" in prepared && prepared["stream"] == Bool(true) && "store" in prepared
        && prepared["store"] == Bool(false)
      && body.Keys <= prepared.Keys <= body.Keys + {"store", "stream"}
      && forall name | name in body && name !in {"input", "store", "stream"} :: prepared[name] == body[name]
  {
  }

  /** Exactly the creates for a configured model that are accepted; text input becomes a user's message. */
  lemma CreatesAreAccepted(settings: Settings, value: Value)
    requires Valid(settings)
    ensures PrepareRequest(settings, value).Success? <==>
      && value.Object? && GetString(value, "type") == Some("response.create")
      && GetString(value, "model").Some? && GetString(value, "model").value in settings.modelPrices
      && ("stream" in value.fields ==> value.fields["stream"] == Bool(true))
      && "background" !in value.fields && "max_output_tokens" !in value.fields
      && ("store" in value.fields ==> value.fields["store"] == Null || value.fields["store"] == Bool(false))
    ensures PrepareRequest(settings, value).Success? ==>
      var body, own := Object(PrepareRequest(settings, value).value.body), At(value, "input");
      && At(body, "stream") == Bool(true) && At(body, "store") == Bool(false)
      && (!own.String? ==> Get(body, "input") == Get(value, "input"))
      && (own.String? ==> At(body, "input") == HttpApi.UserMessage(own.s))
  {
    hide Valid, Candidates, HttpApi.UserMessage;
    if GetString(value, "model").Some? {
      CandidatesAreCapped(settings, GetString(value, "model").value, GetString(At(value, "reasoning"), "effort"));
    }
    if value.Object? {
      PreparedTwice(value.fields);
      PreparedInput(value.fields);
    }
    hide PreparedBody;
  }

  lemma PreparedInput(body: Body)
    ensures var own := At(Object(body), "input");
      && (!own.String? ==> Get(Object(PreparedBody(body)), "input") == Get(Object(body), "input"))
      && (own.String? ==> At(Object(PreparedBody(body)), "input") == HttpApi.UserMessage(own.s))
  {
  }

  // ----- one connection -----

  datatype Env = Env(settings: Settings, identity: ApiKey, requestKey: nat -> string, visit: Terminal.Visit,
    isDate: string -> bool)

  /** `reasoned` tells whether the request had a reasoning member. */
  datatype Sent = Sent(id: nat, reasoned: bool, frame: Body)
  datatype Delivered = Delivered(id: nat, event: Terminal.TerminalEvent, payload: Value)

  /**
   * `mine`, `sent` and `delivered` record the connection's admitted rows, generation frames and terminals, in
   * order.
   */
  datatype State = State(rows: seq<Row>, active: Option<InFlight>, mine: seq<nat>, sent: seq<Sent>,
    delivered: seq<Delivered>)

  /**
   * How a create fares: admission reads at `readAt`, other connections write, the row is inserted with that time,
   * other connections write while the upstream is prepared, and the upstream answers or fails.
   */
  datatype Create = Create(readAt: int, others: seq<Row>, inserted: bool, waiting: seq<Row>, final: Write,
    model: Option<Value>, prewarm: Option<string>, frameSent: bool, answered: bool)

  datatype Event =
    | Shutdown
    | ClientGone
    | UpstreamGone
    | ClientText(value: Option<Value>, create: Create)
    | ClientBinary
    | ClientPing(forwarded: bool)
    | ClientPong(forwarded: bool)
    | ClientClose
    | UpstreamText(payload: Option<Value>, first: Write, between: seq<Row>, second: Write, forwarded: bool)
    | UpstreamBinary
    | UpstreamPing(relayed: bool)
    | UpstreamPong(relayed: bool)
    | UpstreamClose(normal: bool)

  /** One turn of the loop; before it and before the connection is finished other connections may write the ledger. */
  datatype Input = Input(others: seq<Row>, event: Event, closing: seq<Row>, last: Write)

  /** Other connections append rows and finalize their own; this connection's rows are out of their reach. */
  predicate Apart(rows: seq<Row>, mine: seq<nat>, after: seq<Row>) {
    Follows(rows, after) && forall id | id in mine && id < |rows| :: after[id] == rows[id]
  }

  predicate Elsewhere(s: State, rows: seq<Row>) { Apart(s.rows, s.mine, rows) }

  function Others(s: State, rows: seq<Row>): State {
    if Elsewhere(s, rows) then s.(rows := rows) else s
  }

  function Context(env: Env): RequestContext { RequestContext(env.identity.id, Responses, WebSocket) }

  function Forwarded(done: bool, otherwise: End): Option<End> { if done then None else Some(otherwise) }

  function Rejection(env: Env, s: State, value: Value, create: Create): (State, Option<End>) {
    if !create.final.io then (s, Some(InternalFailure))
    else
      var row := RejectedRow(Context(env), GetString(value, "model").GetOr(""),
        GetString(At(value, "reasoning"), "effort"), None, create.final.now);
      (s.(rows := s.rows + [row]), Forwarded(create.answered, ClientDisconnect))
  }

  function Closed(s: State, id: nat, status: Status, write: Write): State {
    s.(rows := Finalized(s.rows, id, status, None, None, write))
  }

  /** The frame a request becomes, continuing its prewarm; none when any step towards it fails. */
  function FrameOf(env: Env, prepared: Prepared, effective: EffectiveModel, id: nat, create: Create): Option<Body>
    requires effective.reasoningEffort.Some? ==> RequestedEffort(prepared.body).Some?
  {
    if create.model.None? || GetString(create.model.value, "base_instructions").None? || create.prewarm.None?
      || !create.frameSent then None
    else Some(LiteBody(ApplyEffectiveRequest(prepared.body, effective),
      env.requestKey(id))["previous_response_id" := String(create.prewarm.value)])
  }

  function Admitted(env: Env, s: State, prepared: Prepared, decision: Decision, create: Create): (State, Option<End>)
    requires Valid(env.settings)
    requires GetString(Object(prepared.body), "model").Some?
    requires Candidates(env.settings, GetString(Object(prepared.body), "model").value,
      RequestedEffort(prepared.body)) == Some(prepared.candidates)
    requires decision.UseFallback? ==> prepared.candidates.fallback.Some?
  {
    CandidatesArePriced(env.settings, GetString(Object(prepared.body), "model").value, RequestedEffort(prepared.body));
    var effective, id := Chosen(prepared.candidates, decision), |s.rows|;
    var inserted := s.(rows := s.rows + [AdmittedRow(Context(env), effective, decision, create.readAt)]);
    if decision.Reject? then (inserted, Forwarded(create.answered, ClientDisconnect))
    else
      Continued(env, Others(inserted.(mine := s.mine + [id]), create.waiting), prepared, effective, id, create)
  }

  /** What becomes of an inserted create: refused beside another, failed on the way, or sent. */
  function Continued(env: Env, s: State, prepared: Prepared, effective: EffectiveModel, id: nat, create: Create)
    : (State, Option<End>)
    requires effective.reasoningEffort.Some? ==> RequestedEffort(prepared.body).Some?
  {
    if s.active.Some? then
      (Closed(s, id, Rejected, create.final),
       if create.final.io then Forwarded(create.answered, ClientDisconnect) else Some(InternalFailure))
    else
      var frame := FrameOf(env, prepared, effective, id, create);
      if frame.None? then (Closed(s, id, UpstreamError, create.final), Some(UpstreamFailure))
      else
        var sent := Sent(id, "reasoning" in prepared.body, frame.value);
        (s.(active := Some(InFlight(id, effective.rates)), sent := s.sent + [sent]), None)
  }

  function Created(env: Env, s: State, value: Option<Value>, create: Create): (State, Option<End>)
    requires Valid(env.settings)
  {
    if value.None? then Rejection(env, s, Null, create)
    else match PrepareRequest(env.settings, value.value)
      case Failure(_) => Rejection(env, s, value.value, create)
      case Success(prepared) =>
        var decision := Decided(s.rows, env.identity.id, env.identity.quota, prepared.candidates.fallback.Some?,
          create.readAt);
        var later := Others(s, create.others);
        if decision.Failure? || !create.inserted then (later, Some(InternalFailure))
        else Admitted(env, later, prepared, decision.value, create)
  }

  function Relayed(env: Env, s: State, payload: Option<Value>, first: Write, between: seq<Row>, second: Write,
      forwarded: bool): (State, Option<End>)
  {
    if payload.None? || GetString(payload.value, "type").None? then (s, Some(UpstreamFailure))
    else match Terminal.ParseTerminalPayload(payload.value)
      case Failure(_) => (s, Some(UpstreamFailure))
      case Success(None) => (s, Forwarded(forwarded, ClientDisconnect))
      case Success(Some(event)) =>
        if s.active.None? then (s, Some(UpstreamFailure))
        else
          var id, usage := s.active.value.id, HttpApi.Billable(event.usage, s.active.value.rates);
          var status, taken := HttpApi.StatusOf(event.kind), s.(active := None);
          if CanFinalize(s.rows, id, status, None, usage, first) then
            var out := Terminal.RetryableCapacityPayload(event, env.visit, env.isDate).GetOr(payload.value);
            (taken.(rows := Finalized(s.rows, id, status, None, usage, first),
              delivered := s.delivered + [Delivered(id, event, out)]),
             Forwarded(forwarded, ClientDisconnect))
          else (Closed(Others(taken, between), id, UpstreamError, second), Some(AccountingFailure))
  }

  function Handled(env: Env, s: State, event: Event): (State, Option<End>)
    requires Valid(env.settings)
  {
    match event
    case Shutdown => (s, Some(ShuttingDown))
    case ClientGone => (s, Some(ClientDisconnect))
    case UpstreamGone => (s, Some(UpstreamFailure))
    case ClientText(value, create) => Created(env, s, value, create)
    case ClientBinary => (s, Some(ClientProtocolError))
    case ClientPing(forwarded) => (s, Forwarded(forwarded, UpstreamFailure))
    case ClientPong(forwarded) => (s, Forwarded(forwarded, UpstreamFailure))
    case ClientClose => (s, Some(ClientDisconnect))
    case UpstreamText(payload, first, between, second, forwarded) =>
      Relayed(env, s, payload, first, between, second, forwarded)
    case UpstreamBinary => (s, Some(UpstreamFailure))
    case UpstreamPing(relayed) => (s, Forwarded(relayed, ClientDisconnect))
    case UpstreamPong(relayed) => (s, Forwarded(relayed, ClientDisconnect))
    case UpstreamClose(normal) => (s, Some(UpstreamClosed(normal)))
  }

  function FinalizedActive(s: State, status: Status, write: Write): State {
    if s.active.None? then s else Closed(s, s.active.value.id, status, write).(active := None)
  }

  function Finished(s: State, end: End, write: Write): State {
    match end
    case ShuttingDown => FinalizedActive(s, Canceled, write)
    case ClientDisconnect => FinalizedActive(s, Canceled, write)
    case ClientProtocolError => FinalizedActive(s, Canceled, write)
    case UpstreamFailure => FinalizedActive(s, UpstreamError, write)
    case UpstreamClosed(normal) => if s.active.Some? || !normal then FinalizedActive(s, UpstreamError, write) else s
    case InternalFailure => FinalizedActive(s, InternalError, write)
    case AccountingFailure => s
  }

  /** A connection fed a script: where it is, and whether it has ended. */
  function Ran(env: Env, s: State, script: seq<Input>): (State, bool)
    requires Valid(env.settings)
    decreases |script|
  {
    if script == [] then (s, false)
    else
      var (next, end) := Handled(env, Others(s, script[0].others), script[0].event);
      if end.Some? then (Finished(Others(next, script[0].closing), end.value, script[0].last), true)
      else Ran(env, next, script[1..])
  }

  // ----- how requests on a connection end -----

  /** A request in progress when its client leaves, breaks the protocol or the service stops. */
  predicate LeavesTheClient(event: Event) {
    event == Shutdown || event == ClientGone || event == ClientBinary || event == ClientClose
    || event == UpstreamPing(false) || event == UpstreamPong(false)
  }

  /** A request in progress when the upstream leaves or breaks the protocol. */
  predicate LosesTheUpstream(event: Event) {
    || event == UpstreamGone || event == UpstreamBinary || event.UpstreamClose?
    || event == ClientPing(false) || event == ClientPong(false)
    || (event.UpstreamText?
        && (event.payload.None? || GetString(event.payload.value, "type").None?
            || Terminal.ParseTerminalPayload(event.payload.value).Failure?))
  }

  /** A request in progress is canceled when its client is lost and an upstream error when its upstream is. */
  lemma EndingsFinalize(env: Env, s: State, event: Event, write: Write)
    requires Valid(env.settings) && Inv(env, s) && s.active.Some? && write.io
    requires LeavesTheClient(event) || LosesTheUpstream(event)
    ensures var (next, end) := Handled(env, s, event);
      && next == s && end.Some?
      && (LeavesTheClient(event) ==> EndsAs(s, Finished(s, end.value, write), Canceled))
      && (LosesTheUpstream(event) ==> EndsAs(s, Finished(s, end.value, write), UpstreamError))
  {
    hide Terminal.ParseTerminalPayload, Inv, Valid, Created, EndsAs, Finished;
    EndsFinalize(env, s, write);
  }

  /** The row in progress is final as given, without HTTP status or charge. */
  predicate EndsAs(s: State, after: State, status: Status)
    requires s.active.Some?
  {
    var id := s.active.value.id;
    && id < |after.rows| && after.active.None?
    && after.rows[id].status == status && after.rows[id].httpStatus == None && after.rows[id].charge == None
  }

  /** Each way a connection ends finalizes the request in progress as its own. */
  lemma EndsFinalize(env: Env, s: State, write: Write)
    requires Inv(env, s) && s.active.Some? && write.io
    ensures EndsAs(s, Finished(s, ShuttingDown, write), Canceled)
    ensures EndsAs(s, Finished(s, ClientDisconnect, write), Canceled)
    ensures EndsAs(s, Finished(s, ClientProtocolError, write), Canceled)
    ensures EndsAs(s, Finished(s, UpstreamFailure, write), UpstreamError)
    ensures forall normal :: EndsAs(s, Finished(s, UpstreamClosed(normal), write), UpstreamError)
    ensures EndsAs(s, Finished(s, InternalFailure, write), InternalError)
  {
    hide SentOk, DeliveredOk, PricedOk, Finalized;
    var id := s.active.value.id;
    HttpApi.FinalizedWithStatus(s.rows, id, Canceled, None, write);
    HttpApi.FinalizedWithStatus(s.rows, id, UpstreamError, None, write);
    HttpApi.FinalizedWithStatus(s.rows, id, InternalError, None, write);
  }

  /** Keep-alives that arrive end nothing. */
  lemma KeepAlivesPass(env: Env, s: State, event: Event)
    requires Valid(env.settings)
    requires event in {ClientPing(true), ClientPong(true), UpstreamPing(true), UpstreamPong(true)}
    ensures Handled(env, s, event) == (s, None)
  {
  }

  /**
   * A create beside another is rejected, one that cannot be sent is an upstream error, and a refused message leaves a
   * rejected row under the model and effort it named.
   */
  lemma CreatesEnd(env: Env, s: State, prepared: Prepared, effective: EffectiveModel, id: nat, value: Value,
      create: Create)
    requires effective.reasoningEffort.Some? ==> RequestedEffort(prepared.body).Some?
    requires id < |s.rows| && s.rows[id].status == Started && create.final.io
    ensures var (r, end) := Continued(env, s, prepared, effective, id, create);
      && (s.active.Some? ==>
            r.rows[id].status == Rejected && end == if create.answered then None else Some(ClientDisconnect))
      && (s.active.None? && end.Some? ==> r.rows[id].status == UpstreamError && end == Some(UpstreamFailure))
      && (s.active.None? && end.None? ==>
            && r.rows == s.rows && r.active == Some(InFlight(id, effective.rates)) && |r.sent| == |s.sent| + 1
            && r.sent[..|s.sent|] == s.sent && r.sent[|s.sent|].id == id
            && create.prewarm.Some? && create.frameSent
            && GetString(Object(r.sent[|s.sent|].frame), "previous_response_id") == create.prewarm)
      && (s.active.None? && create.frameSent && create.prewarm.Some? && create.model.Some? ==>
            GetString(create.model.value, "base_instructions").Some? ==> end.None?)
    ensures var (r, end) := Rejection(env, s, value, create);
      && |r.rows| == |s.rows| + 1 && r.rows[..|s.rows|] == s.rows
      && r.rows[|s.rows|].status == Rejected && r.rows[|s.rows|].transport == WebSocket
      && r.rows[|s.rows|].apiKeyId == env.identity.id && r.rows[|s.rows|].httpStatus == None
      && r.rows[|s.rows|].model == GetString(value, "model").GetOr("")
      && r.rows[|s.rows|].reasoningEffort == GetString(At(value, "reasoning"), "effort")
      && end == if create.answered then None else Some(ClientDisconnect)
  {
    hide LiteBody, ApplyEffectiveRequest;
  }

  /**
   * A terminal for the request in progress is delivered once it is recorded, as it came or rewritten; one that cannot
   * be recorded is not, and ends the connection; one nobody waits for is an upstream failure.
   */
  lemma TerminalsAreRelayed(env: Env, s: State, payload: Value, first: Write, between: seq<Row>, second: Write,
      forwarded: bool)
    requires Terminal.ParseTerminalPayload(payload).Success? && Terminal.ParseTerminalPayload(payload).value.Some?
    ensures var (r, end) := Relayed(env, s, Some(payload), first, between, second, forwarded);
      var event := Terminal.ParseTerminalPayload(payload).value.value;
      && (s.active.None? ==> r == s && end == Some(UpstreamFailure))
      && (s.active.Some? ==>
            && r.active.None?
            && (r.delivered == s.delivered ==> end == Some(AccountingFailure))
            && (r.delivered != s.delivered ==>
                  && |r.delivered| == |s.delivered| + 1 && r.delivered[..|s.delivered|] == s.delivered
                  && r.delivered[|s.delivered|].id == s.active.value.id && r.delivered[|s.delivered|].event == event
                  && r.delivered[|s.delivered|].payload ==
                       Terminal.RetryableCapacityPayload(event, env.visit, env.isDate).GetOr(payload)
                  && end == if forwarded then None else Some(ClientDisconnect)))
  {
    hide Terminal.ParseTerminalPayload, Terminal.RetryableCapacityPayload, CanFinalize, Finalized;
    Terminal.TerminalsAreNamed(payload);
  }

  // ----- what every connection keeps -----

  predicate Increasing(ids: seq<nat>) { forall i, j | 0 <= i < j < |ids| :: ids[i] < ids[j] }

  predicate RowsOk(s: State) {
    && Increasing(s.mine) && (forall id | id in s.mine :: id < |s.rows|)
    && (s.active.Some? ==> s.active.value.id in s.mine && s.rows[s.active.value.id].status == Started)
  }

  /**
   * A frame asks for what its row logs; without a reasoning member the row logs no effort and the frame asks for
   * medium.
   */
  predicate AsksFor(sent: Sent, row: Row) {
    && GetString(Object(sent.frame), "model") == Some(row.model)
    && RequestedEffort(sent.frame) == (if sent.reasoned then row.reasoningEffort else Some("medium"))
    && (!sent.reasoned ==> row.reasoningEffort == None)
  }

  /** Each frame went out for an admitted row and asks for what it logs; the active request's frame is the last. */
  predicate SentOk(s: State)
    requires RowsOk(s)
  {
    && (forall i, j | 0 <= i < j < |s.sent| :: s.sent[i].id < s.sent[j].id)
    && (forall i | 0 <= i < |s.sent| :: s.sent[i].id in s.mine && AsksFor(s.sent[i], s.rows[s.sent[i].id]))
    && (s.active.Some? ==> s.sent != [] && s.active.value.id == s.sent[|s.sent| - 1].id)
  }

  /** The row of a delivered terminal holds that terminal's status, all its tokens and their configured price. */
  predicate Recorded(env: Env, row: Row, event: Terminal.TerminalEvent) {
    && row.status == HttpApi.StatusOf(event.kind)
    && (event.usage.Some? ==> row.model in env.settings.modelPrices)
    && (event.usage.None? ==> row.charge.None?)
    && (event.usage.Some? ==>
      RecordsUsage(row, HttpApi.Billable(event.usage, env.settings.modelPrices[row.model].rates)))
  }

  predicate WasSent(sent: seq<Sent>, id: nat) { exists i :: 0 <= i < |sent| && sent[i].id == id }

  predicate DeliveredOk(env: Env, s: State)
    requires RowsOk(s)
  {
    && (forall i, j | 0 <= i < j < |s.delivered| :: s.delivered[i].id < s.delivered[j].id)
    && (forall i | 0 <= i < |s.delivered| ::
          && s.delivered[i].id in s.mine && WasSent(s.sent, s.delivered[i].id)
          && Recorded(env, s.rows[s.delivered[i].id], s.delivered[i].event)
          && (s.active.Some? ==> s.delivered[i].id < s.active.value.id))
  }

  predicate PricedOk(env: Env, s: State)
    requires RowsOk(s)
  {
    s.active.Some? ==>
      var model := s.rows[s.active.value.id].model;
      model in env.settings.modelPrices && s.active.value.rates == env.settings.modelPrices[model].rates
  }

  predicate Inv(env: Env, s: State) { RowsOk(s) && SentOk(s) && DeliveredOk(env, s) && PricedOk(env, s) }

  /** No row of this connection is started but the active one. */
  predicate OnlyActiveStarted(s: State)
    requires RowsOk(s)
  {
    forall id | id in s.mine && s.rows[id].status == Started :: s.active.Some? && s.active.value.id == id
  }

  /** Rows may grow and finish elsewhere: nothing this connection relies on moves. */
  lemma LaterRowsKeep(env: Env, s: State, rows: seq<Row>)
    requires Inv(env, s) && Elsewhere(s, rows)
    ensures Inv(env, s.(rows := rows))
    ensures OnlyActiveStarted(s) ==> OnlyActiveStarted(s.(rows := rows))
  {
    hide Recorded;
    var r := s.(rows := rows);
  }

  /** The admitted request is the only one of this connection that may be started beside the active one. */
  predicate OthersSettled(s: State, id: nat)
    requires RowsOk(s)
  {
    forall other | other in s.mine && other != id && s.rows[other].status == Started ::
      s.active.Some? && s.active.value.id == other
  }

  lemma OthersKeepSettled(env: Env, s: State, id: nat, rows: seq<Row>)
    requires Inv(env, s) && id in s.mine
    ensures var r := Others(s, rows);
      && Inv(env, r) && r.mine == s.mine && r.sent == s.sent && r.active == s.active && r.delivered == s.delivered
      && r.rows[id] == s.rows[id] && (OthersSettled(s, id) ==> OthersSettled(r, id))
  {
    if Elsewhere(s, rows) { LaterRowsKeep(env, s, rows); }
  }

  lemma AppendedIsElsewhere(s: State, row: Row)
    ensures Elsewhere(s, s.rows + [row])
  {
  }

  lemma StartedRowCloses(rows: seq<Row>, id: nat, write: Write)
    requires id < |rows| && rows[id].status == Started
    ensures CanFinalize(rows, id, Rejected, None, None, write) <==> write.io
  {
  }

  /** Finalizing a row that is not the active one keeps every row already delivered. */
  lemma ClosedKeeps(env: Env, s: State, id: nat, status: Status, write: Write)
    requires Inv(env, s) && id in s.mine && (s.active.Some? ==> s.active.value.id != id)
    ensures Inv(env, Closed(s, id, status, write))
    ensures status != Started && write.io && OthersSettled(s, id) ==> OnlyActiveStarted(Closed(s, id, status, write))
  {
    hide Recorded, AsksFor, Finalized, Follows;
    var r := Closed(s, id, status, write);
    FinalizedFollows(s.rows, id, status, None, None, write);
    ClosedRow(s, id, status, write);
    DeliveredRowsAreFinal(env, s);
    assert forall i | 0 <= i < |s.delivered| :: r.rows[s.delivered[i].id] == s.rows[s.delivered[i].id];
  }

  lemma ClosedRow(s: State, id: nat, status: Status, write: Write)
    requires id < |s.rows|
    ensures var row := Finalized(s.rows, id, status, None, None, write)[id];
      && row.model == s.rows[id].model && (s.rows[id].status != Started ==> row == s.rows[id])
      && (forall sent: Sent | AsksFor(sent, s.rows[id]) :: AsksFor(sent, row))
      && (status != Started && write.io ==> row.status != Started)
  {
  }

  lemma DeliveredRowsAreFinal(env: Env, s: State)
    requires RowsOk(s) && DeliveredOk(env, s)
    ensures forall i | 0 <= i < |s.delivered| :: s.rows[s.delivered[i].id].status != Started
  {
  }

  lemma ActiveGone(env: Env, s: State)
    requires Inv(env, s)
    ensures Inv(env, s.(active := None))
  {
    hide Recorded;
    var r := s.(active := None);
  }

  lemma AdmittedKeeps(env: Env, s: State, row: Row)
    requires Inv(env, s) && row.status == Started
    ensures var r := s.(rows := s.rows + [row], mine := s.mine + [|s.rows|]);
      && Inv(env, r) && r.rows[|s.rows|] == row
      && (OnlyActiveStarted(s) ==> OthersSettled(r, |s.rows|))
  {
    AppendedIsElsewhere(s, row);
    LaterRowsKeep(env, s, s.rows + [row]);
    hide Elsewhere, OnlyActiveStarted;
    OneMoreOfMine(env, s.(rows := s.rows + [row]), |s.rows|);
    if OnlyActiveStarted(s) { OthersOfMine(s, row); }
  }

  lemma OthersOfMine(s: State, row: Row)
    requires RowsOk(s) && OnlyActiveStarted(s)
    ensures forall other | other in s.mine && (s.rows + [row])[other].status == Started ::
      s.active.Some? && s.active.value.id == other
  {
    forall other | other in s.mine && (s.rows + [row])[other].status == Started ensures s.active.Some?
      && s.active.value.id == other
    {
      assert (s.rows + [row])[other] == s.rows[other];
    }
  }

  lemma OneMoreOfMine(env: Env, s: State, id: nat)
    requires Inv(env, s) && id < |s.rows| && forall other | other in s.mine :: other < id
    ensures Inv(env, s.(mine := s.mine + [id]))
  {
    hide Recorded;
    var r := s.(mine := s.mine + [id]);
    assert forall i | 0 <= i < |s.mine| :: s.mine[i] in s.mine && r.mine[i] == s.mine[i];
    assert Increasing(r.mine);
  }

  lemma ActivatedKeeps(env: Env, s: State, id: nat, rates: Rates, reasoned: bool, frame: Body)
    requires Inv(env, s) && s.active.None? && id in s.mine && s.rows[id].status == Started
    requires forall other | other in s.mine && other != id :: other < id
    requires forall i | 0 <= i < |s.sent| :: s.sent[i].id != id
    requires AsksFor(Sent(id, reasoned, frame), s.rows[id])
    requires s.rows[id].model in env.settings.modelPrices && rates == env.settings.modelPrices[s.rows[id].model].rates
    ensures Inv(env, s.(active := Some(InFlight(id, rates)), sent := s.sent + [Sent(id, reasoned, frame)]))
  {
    hide Recorded;
    var r := s.(active := Some(InFlight(id, rates)), sent := s.sent + [Sent(id, reasoned, frame)]);
    DeliveredRowsAreFinal(env, s);
    forall i | 0 <= i < |s.delivered| ensures WasSent(r.sent, s.delivered[i].id) {
      assert WasSent(s.sent, s.delivered[i].id);
      var j :| 0 <= j < |s.sent| && s.sent[j].id == s.delivered[i].id;
      assert r.sent[j] == s.sent[j];
    }
  }

  predicate Sound(event: Event) {
    match event
    case ClientText(_, create) => create.final.io
    case UpstreamText(_, first, _, second, _) => first.io && second.io
    case _ => true
  }

  lemma FrameAsksForItsRow(env: Env, prepared: Prepared, effective: EffectiveModel, id: nat, create: Create, row: Row)
    requires effective.reasoningEffort.Some? <==> RequestedEffort(prepared.body).Some?
    requires FrameOf(env, prepared, effective, id, create).Some?
    requires row.model == effective.model && row.reasoningEffort == effective.reasoningEffort
    ensures AsksFor(Sent(id, "reasoning" in prepared.body, FrameOf(env, prepared, effective, id, create).value), row)
  {
    hide LiteBody;
    var applied := ApplyEffectiveRequest(prepared.body, effective);
    var lite := LiteBody(applied, env.requestKey(id));
    AppliedIsLogged(prepared.body, effective);
    assert "reasoning" in applied <==> "reasoning" in prepared.body;
    LiteBodyKeeps(applied, env.requestKey(id), "model");
    FrameEffort(applied, env.requestKey(id));
    var frame := FrameOf(env, prepared, effective, id, create).value;
    assert Get(Object(frame), "model") == Get(Object(lite), "model");
    assert Get(Object(frame), "reasoning") == Get(Object(lite), "reasoning");
  }

  lemma AdmissionKeeps(env: Env, s: State, prepared: Prepared, decision: Decision, create: Create)
    requires Valid(env.settings) && Inv(env, s)
    requires GetString(Object(prepared.body), "model").Some?
    requires Candidates(env.settings, GetString(Object(prepared.body), "model").value,
      RequestedEffort(prepared.body)) == Some(prepared.candidates)
    requires decision.UseFallback? ==> prepared.candidates.fallback.Some?
    ensures var (r, end) := Admitted(env, s, prepared, decision, create);
      && Inv(env, r)
      && (create.final.io && OnlyActiveStarted(s) ==> OnlyActiveStarted(r))
      && end != Some(AccountingFailure)
      && (s.active.Some? ==> r.active == s.active && r.sent == s.sent)
  {
    CandidatesArePriced(env.settings, GetString(Object(prepared.body), "model").value, RequestedEffort(prepared.body));
    hide Recorded, Candidates, Valid, Inv, OnlyActiveStarted, AdmittedRow, Continued, Others;
    var effective, id := Chosen(prepared.candidates, decision), |s.rows|;
    var row := AdmittedRow(Context(env), effective, decision, create.readAt);
    if decision.Reject? {
      AppendedIsElsewhere(s, row);
      LaterRowsKeep(env, s, s.rows + [row]);
    } else {
      AdmittedRowIsStarted(env, effective, decision, create.readAt);
      InsertedKeeps(env, s, row, create);
      ContinuedKeeps(env, Inserted(s, row, create), prepared, effective, id, create);
    }
  }

  lemma AdmittedRowIsStarted(env: Env, effective: EffectiveModel, decision: Decision, now: int)
    requires !decision.Reject?
    ensures var row := AdmittedRow(Context(env), effective, decision, now);
      row.status == Started && row.model == effective.model && row.reasoningEffort == effective.reasoningEffort
  {
  }

  /** After the insert of its row and what others wrote meanwhile. */
  function Inserted(s: State, row: Row, create: Create): State {
    Others(s.(rows := s.rows + [row], mine := s.mine + [|s.rows|]), create.waiting)
  }

  lemma InsertedKeeps(env: Env, s: State, row: Row, create: Create)
    requires Inv(env, s) && row.status == Started
    ensures var id, r := |s.rows|, Inserted(s, row, create);
      && Inv(env, r) && id in r.mine && id < |r.rows| && r.rows[id] == row
      && r.active == s.active && r.sent == s.sent && (forall other | other in r.mine && other != id :: other < id)
      && (forall i | 0 <= i < |r.sent| :: r.sent[i].id != id) && (r.active.Some? ==> r.active.value.id != id)
      && (OnlyActiveStarted(s) ==> OthersSettled(r, id))
  {
    hide Recorded, AsksFor, Others, OthersSettled, OnlyActiveStarted, DeliveredOk, PricedOk;
    AdmittedKeeps(env, s, row);
    OthersKeepSettled(env, s.(rows := s.rows + [row], mine := s.mine + [|s.rows|]), |s.rows|, create.waiting);
  }

  lemma ContinuedKeeps(env: Env, s: State, prepared: Prepared, effective: EffectiveModel, id: nat, create: Create)
    requires effective.reasoningEffort.Some? <==> RequestedEffort(prepared.body).Some?
    requires effective.model in env.settings.modelPrices
    requires effective.rates == env.settings.modelPrices[effective.model].rates
    requires Inv(env, s) && id in s.mine && id < |s.rows| && s.rows[id].status == Started
    requires s.rows[id].model == effective.model && s.rows[id].reasoningEffort == effective.reasoningEffort
    requires forall other | other in s.mine && other != id :: other < id
    requires (forall i | 0 <= i < |s.sent| :: s.sent[i].id != id) && (s.active.Some? ==> s.active.value.id != id)
    ensures var (r, end) := Continued(env, s, prepared, effective, id, create);
      && Inv(env, r) && end != Some(AccountingFailure)
      && (create.final.io && OthersSettled(s, id) ==> OnlyActiveStarted(r))
      && (s.active.Some? ==> r.active == s.active && r.sent == s.sent)
  {
    hide Inv, FrameOf, Finalized, AsksFor;
    if s.active.Some? {
      ClosedKeeps(env, s, id, Rejected, create.final);
    } else {
      var frame := FrameOf(env, prepared, effective, id, create);
      if frame.None? {
        ClosedKeeps(env, s, id, UpstreamError, create.final);
      } else {
        FrameAsksForItsRow(env, prepared, effective, id, create, s.rows[id]);
        ActivatedKeeps(env, s, id, effective.rates, "reasoning" in prepared.body, frame.value);
        SentIsSettled(env, s, id, effective.rates, "reasoning" in prepared.body, frame.value);
      }
    }
  }

  lemma SentIsSettled(env: Env, s: State, id: nat, rates: Rates, reasoned: bool, frame: Body)
    requires Inv(env, s) && s.active.None?
    requires Inv(env, s.(active := Some(InFlight(id, rates)), sent := s.sent + [Sent(id, reasoned, frame)]))
    ensures OthersSettled(s, id) ==>
      OnlyActiveStarted(s.(active := Some(InFlight(id, rates)), sent := s.sent + [Sent(id, reasoned, frame)]))
  {
    hide SentOk, DeliveredOk, PricedOk;
  }

  lemma CreateKeeps(env: Env, s: State, value: Option<Value>, create: Create)
    requires Valid(env.settings) && Inv(env, s)
    ensures var (r, end) := Created(env, s, value, create);
      && Inv(env, r)
      && (create.final.io && OnlyActiveStarted(s) ==> OnlyActiveStarted(r))
      && end != Some(AccountingFailure)
      && (s.active.Some? ==> r.active == s.active && r.sent == s.sent)
  {
    hide Recorded, Candidates, Valid, RequestFault, AdmittedRow, Decided, Admitted, Inv;
    if value.Some? && PrepareRequest(env.settings, value.value).Success? {
      var prepared := PrepareRequest(env.settings, value.value).value;
      hide PrepareRequest;
      OthersKeep(env, s, create.others);
      var later := Others(s, create.others);
      var decision := Decided(s.rows, env.identity.id, env.identity.quota, prepared.candidates.fallback.Some?,
        create.readAt);
      if decision.Success? { AdmissionKeeps(env, later, prepared, decision.value, create); }
    } else {
      var asked := if value.Some? then value.value else Null;
      RejectionKeeps(env, s, asked, create);
    }
  }

  lemma OthersKeep(env: Env, s: State, rows: seq<Row>)
    requires Inv(env, s)
    ensures Inv(env, Others(s, rows)) && (OnlyActiveStarted(s) ==> OnlyActiveStarted(Others(s, rows)))
    ensures Others(s, rows).active == s.active
  {
    if Elsewhere(s, rows) { LaterRowsKeep(env, s, rows); }
  }

  lemma RejectionKeeps(env: Env, s: State, value: Value, create: Create)
    requires Inv(env, s)
    ensures var (r, end) := Rejection(env, s, value, create);
      && Inv(env, r) && r.active == s.active && r.sent == s.sent
      && (OnlyActiveStarted(s) ==> OnlyActiveStarted(r)) && end != Some(AccountingFailure)
  {
    if create.final.io {
      var row := RejectedRow(Context(env), GetString(value, "model").GetOr(""),
        GetString(At(value, "reasoning"), "effort"), None, create.final.now);
      AppendedIsElsewhere(s, row);
      LaterRowsKeep(env, s, s.rows + [row]);
    }
  }

  lemma DeliveredRow(env: Env, s: State, event: Terminal.TerminalEvent, write: Write)
    requires Inv(env, s) && s.active.Some?
    requires CanFinalize(s.rows, s.active.value.id, HttpApi.StatusOf(event.kind), None,
      HttpApi.Billable(event.usage, s.active.value.rates), write)
    ensures var id, usage := s.active.value.id, HttpApi.Billable(event.usage, s.active.value.rates);
      var row := Finalized(s.rows, id, HttpApi.StatusOf(event.kind), None, usage, write)[id];
      && RowFollows(s.rows[id], row) && row.status != Started && Recorded(env, row, event)
      && (forall sent: Sent | AsksFor(sent, s.rows[id]) :: AsksFor(sent, row))
  {
    hide DeliveredOk, SentOk;
  }

  /** A terminal is delivered after its row is final, and never before the terminals of earlier creates. */
  lemma DeliveryKeeps(env: Env, s: State, event: Terminal.TerminalEvent, payload: Value, write: Write)
    requires Inv(env, s) && s.active.Some?
    requires CanFinalize(s.rows, s.active.value.id, HttpApi.StatusOf(event.kind), None,
      HttpApi.Billable(event.usage, s.active.value.rates), write)
    ensures var id, usage := s.active.value.id, HttpApi.Billable(event.usage, s.active.value.rates);
      var r := s.(active := None, rows := Finalized(s.rows, id, HttpApi.StatusOf(event.kind), None, usage, write),
                  delivered := s.delivered + [Delivered(id, event, payload)]);
      Inv(env, r) && (OnlyActiveStarted(s) ==> OnlyActiveStarted(r))
  {
    var id, usage := s.active.value.id, HttpApi.Billable(event.usage, s.active.value.rates);
    var r := s.(active := None, rows := Finalized(s.rows, id, HttpApi.StatusOf(event.kind), None, usage, write),
                delivered := s.delivered + [Delivered(id, event, payload)]);
    hide AsksFor;
    FinalizedFollows(s.rows, id, HttpApi.StatusOf(event.kind), None, usage, write);
    DeliveredRow(env, s, event, write);
    hide Recorded, CanFinalize, Finalized;
    DeliveredRowsAreFinal(env, s);
    assert s.sent[|s.sent| - 1].id == id;
    assert WasSent(s.sent, id);
    assert forall i | 0 <= i < |s.delivered| :: r.delivered[i] == s.delivered[i];
  }

  lemma RelayKeeps(env: Env, s: State, payload: Option<Value>, first: Write, between: seq<Row>, second: Write,
      forwarded: bool)
    requires Inv(env, s)
    ensures var (r, end) := Relayed(env, s, payload, first, between, second, forwarded);
      && Inv(env, r)
      && (first.io && second.io && OnlyActiveStarted(s) ==> OnlyActiveStarted(r))
      && (end == Some(AccountingFailure) ==> r.active.None?)
  {
    hide Inv, OnlyActiveStarted, Others, CanFinalize, Finalized;
    hide Terminal.ParseTerminalPayload, Terminal.RetryableCapacityPayload;
    if payload.Some? && s.active.Some? {
      var parsed := Terminal.ParseTerminalPayload(payload.value);
      if parsed.Success? && parsed.value.Some? {
        var event := parsed.value.value;
        var id, usage := s.active.value.id, HttpApi.Billable(event.usage, s.active.value.rates);
        if CanFinalize(s.rows, id, HttpApi.StatusOf(event.kind), None, usage, first) {
          var out := Terminal.RetryableCapacityPayload(event, env.visit, env.isDate).GetOr(payload.value);
          DeliveryKeeps(env, s, event, out, first);
        } else {
          ActiveClosedKeeps(env, s, UpstreamError, between, second);
        }
      }
    }
  }

  lemma ActiveClosedKeeps(env: Env, s: State, status: Status, rows: seq<Row>, write: Write)
    requires Inv(env, s) && s.active.Some? && status != Started
    ensures var r := Closed(Others(s.(active := None), rows), s.active.value.id, status, write);
      Inv(env, r) && r.active.None? && (write.io && OnlyActiveStarted(s) ==> OnlyActiveStarted(r))
  {
    hide Recorded, Others;
    var taken := s.(active := None);
    ActiveGone(env, s);
    OthersKeepSettled(env, taken, s.active.value.id, rows);
    ClosedKeeps(env, Others(taken, rows), s.active.value.id, status, write);
  }

  lemma NothingElsewhere(s: State)
    ensures Others(s, s.rows) == s
  {
  }

  lemma FinishKeeps(env: Env, s: State, end: End, write: Write)
    requires Inv(env, s) && (end.AccountingFailure? ==> s.active.None?)
    ensures var r := Finished(s, end, write);
      Inv(env, r) && r.active.None? && (write.io && OnlyActiveStarted(s) ==> OnlyActiveStarted(r))
  {
    hide Inv, OnlyActiveStarted, Finalized, Follows;
    if s.active.Some? {
      NothingElsewhere(s.(active := None));
      ActiveClosedKeeps(env, s, Canceled, s.rows, write);
      ActiveClosedKeeps(env, s, UpstreamError, s.rows, write);
      ActiveClosedKeeps(env, s, InternalError, s.rows, write);
    }
  }

  lemma HandledKeeps(env: Env, s: State, event: Event)
    requires Valid(env.settings) && Inv(env, s)
    ensures var (r, end) := Handled(env, s, event);
      && Inv(env, r)
      && (Sound(event) && OnlyActiveStarted(s) ==> OnlyActiveStarted(r))
      && (end == Some(AccountingFailure) ==> r.active.None?)
  {
    hide Inv, OnlyActiveStarted, Created, Relayed;
    match event
    case ClientText(value, create) => CreateKeeps(env, s, value, create);
    case UpstreamText(payload, first, between, second, forwarded) =>
      RelayKeeps(env, s, payload, first, between, second, forwarded);
    case _ =>
  }

  predicate WritesSucceed(script: seq<Input>) {
    forall i | 0 <= i < |script| :: Sound(script[i].event) && script[i].last.io
  }

  function Opened(rows: seq<Row>): State { State(rows, None, [], [], []) }

  lemma {:induction false} RunKeeps(env: Env, s: State, script: seq<Input>)
    requires Valid(env.settings) && Inv(env, s)
    ensures var (r, ended) := Ran(env, s, script);
      && Inv(env, r) && (ended ==> r.active.None?)
      && (WritesSucceed(script) && OnlyActiveStarted(s) ==> OnlyActiveStarted(r))
    decreases |script|
  {
    hide Inv, OnlyActiveStarted, Handled, Finished, Others, Sound;
    if script != [] {
      OthersKeep(env, s, script[0].others);
      var before := Others(s, script[0].others);
      HandledKeeps(env, before, script[0].event);
      var (next, end) := Handled(env, before, script[0].event);
      if end.Some? {
        OthersKeep(env, next, script[0].closing);
        FinishKeeps(env, Others(next, script[0].closing), end.value, script[0].last);
      } else {
        RunKeeps(env, next, script[1..]);
      }
    }
  }

  // ----- rows are finalized once -----

  lemma OthersFollow(s: State, rows: seq<Row>)
    ensures Follows(s.rows, Others(s, rows).rows)
  {
  }

  lemma ClosedFollows(s: State, id: nat, status: Status, write: Write)
    ensures Follows(s.rows, Closed(s, id, status, write).rows)
  {
    FinalizedFollows(s.rows, id, status, None, None, write);
  }

  lemma AdmittedFollows(env: Env, s: State, prepared: Prepared, decision: Decision, create: Create)
    requires Valid(env.settings)
    requires GetString(Object(prepared.body), "model").Some?
    requires Candidates(env.settings, GetString(Object(prepared.body), "model").value, RequestedEffort(prepared.body))
      == Some(prepared.candidates)
    requires decision.UseFallback? ==> prepared.candidates.fallback.Some?
    ensures Follows(s.rows, Admitted(env, s, prepared, decision, create).0.rows)
  {
    hide Candidates, Valid, FrameOf, Finalized, Others, RowFollows;
    var id := |s.rows|;
    var row := AdmittedRow(Context(env), Chosen(prepared.candidates, decision), decision, create.readAt);
    AppendedIsElsewhere(s, row);
    var inserted := s.(rows := s.rows + [row], mine := s.mine + [id]);
    OthersFollow(inserted, create.waiting);
    var admitted := Others(inserted, create.waiting);
    FollowsTransitively(s.rows, inserted.rows, admitted.rows);
    ClosedFollows(admitted, id, Rejected, create.final);
    ClosedFollows(admitted, id, UpstreamError, create.final);
    FollowsTransitively(s.rows, admitted.rows, Closed(admitted, id, Rejected, create.final).rows);
    FollowsTransitively(s.rows, admitted.rows, Closed(admitted, id, UpstreamError, create.final).rows);
  }

  lemma CreatedFollows(env: Env, s: State, value: Option<Value>, create: Create)
    requires Valid(env.settings)
    ensures Follows(s.rows, Created(env, s, value, create).0.rows)
  {
    hide Candidates, Valid, RequestFault, Decided, Admitted, Others, AdmittedRow, RejectedRow;
    if value.Some? && PrepareRequest(env.settings, value.value).Success? {
      var prepared := PrepareRequest(env.settings, value.value).value;
      hide PrepareRequest;
      var hasFallback := prepared.candidates.fallback.Some?;
      var decision := Decided(s.rows, env.identity.id, env.identity.quota, hasFallback, create.readAt);
      OthersFollow(s, create.others);
      var later := Others(s, create.others);
      if decision.Success? && create.inserted {
        AdmittedFollows(env, later, prepared, decision.value, create);
        FollowsTransitively(s.rows, later.rows, Admitted(env, later, prepared, decision.value, create).0.rows);
      }
    }
  }

  lemma RelayedFollows(env: Env, s: State, payload: Option<Value>, first: Write, between: seq<Row>, second: Write,
      forwarded: bool)
    ensures Follows(s.rows, Relayed(env, s, payload, first, between, second, forwarded).0.rows)
  {
    hide Terminal.ParseTerminalPayload, Terminal.RetryableCapacityPayload, CanFinalize, Finalized, Others, RowFollows;
    NothingFollows(s.rows);
    if payload.Some? && s.active.Some? {
      var parsed := Terminal.ParseTerminalPayload(payload.value);
      if parsed.Success? && parsed.value.Some? {
        var event, id := parsed.value.value, s.active.value.id;
        var usage := HttpApi.Billable(event.usage, s.active.value.rates);
        FinalizedFollows(s.rows, id, HttpApi.StatusOf(event.kind), None, usage, first);
        var taken := s.(active := None);
        OthersFollow(taken, between);
        var later := Others(taken, between);
        ClosedFollows(later, id, UpstreamError, second);
        FollowsTransitively(s.rows, later.rows, Closed(later, id, UpstreamError, second).rows);
      }
    }
  }

  lemma FinishedFollows(s: State, end: End, write: Write)
    ensures Follows(s.rows, Finished(s, end, write).rows)
  {
    hide Finalized;
    if s.active.Some? {
      ClosedFollows(s, s.active.value.id, Canceled, write);
      ClosedFollows(s, s.active.value.id, UpstreamError, write);
      ClosedFollows(s, s.active.value.id, InternalError, write);
    }
  }

  lemma HandledFollows(env: Env, s: State, event: Event)
    requires Valid(env.settings)
    ensures Follows(s.rows, Handled(env, s, event).0.rows)
  {
    hide Created, Relayed, Valid;
    match event
    case ClientText(value, create) => CreatedFollows(env, s, value, create);
    case UpstreamText(payload, first, between, second, forwarded) =>
      RelayedFollows(env, s, payload, first, between, second, forwarded);
    case _ =>
  }

  lemma {:induction false} RanFollows(env: Env, s: State, script: seq<Input>)
    requires Valid(env.settings)
    ensures Follows(s.rows, Ran(env, s, script).0.rows)
    decreases |script|
  {
    hide Handled, Finished, Others, Valid, RowFollows;
    if script == [] {
      NothingFollows(s.rows);
    } else {
      var before := Others(s, script[0].others);
      var (next, end) := Handled(env, before, script[0].event);
      OthersFollow(s, script[0].others);
      HandledFollows(env, before, script[0].event);
      FollowsTransitively(s.rows, before.rows, next.rows);
      if end.Some? {
        var closing := Others(next, script[0].closing);
        OthersFollow(next, script[0].closing);
        FinishedFollows(closing, end.value, script[0].last);
        FollowsTransitively(s.rows, next.rows, closing.rows);
        FollowsTransitively(s.rows, closing.rows, Finished(closing, end.value, script[0].last).rows);
      } else {
        RanFollows(env, next, script[1..]);
        FollowsTransitively(s.rows, next.rows, Ran(env, next, script[1..]).0.rows);
      }
    }
  }

  lemma NothingFollows(rows: seq<Row>)
    ensures Follows(rows, rows)
  {
  }

  lemma {:induction false} RanOn(env: Env, s: State, script: seq<Input>, more: seq<Input>)
    requires Valid(env.settings)
    ensures var (r, ended) := Ran(env, s, script);
      Ran(env, s, script + more) == if ended then (r, true) else Ran(env, r, more)
    decreases |script|
  {
    hide Handled, Finished, Others, Valid;
    if script == [] {
      assert script + more == more;
    } else {
      assert (script + more)[1..] == script[1..] + more;
      var (next, end) := Handled(env, Others(s, script[0].others), script[0].event);
      if end.None? { RanOn(env, next, script[1..], more); }
    }
  }

  /**
   * Rows leave the started state once: from any moment of a connection to any later one, every row keeps what it
   * was admitted with, and a row that was final has not changed.
   */
  lemma FinalRowsNeverChange(env: Env, rows: seq<Row>, script: seq<Input>, more: seq<Input>)
    requires Valid(env.settings)
    ensures Follows(rows, Ran(env, Opened(rows), script).0.rows)
    ensures Follows(Ran(env, Opened(rows), script).0.rows, Ran(env, Opened(rows), script + more).0.rows)
  {
    hide Ran, Valid;
    RanFollows(env, Opened(rows), script);
    RanOn(env, Opened(rows), script, more);
    RanFollows(env, Ran(env, Opened(rows), script).0, more);
    NothingFollows(Ran(env, Opened(rows), script).0.rows);
  }

  /**
   * Whatever happens on a connection: while it lasts, its only started row is the one in progress; once it
   * has ended none is started; and rows that were there before have been finalized at most once. Only the first
   * two need ledger writes to succeed.
   */
  lemma NoRequestLeftBehind(env: Env, rows: seq<Row>, script: seq<Input>)
    requires Valid(env.settings) && WritesSucceed(script)
    ensures var (r, ended) := Ran(env, Opened(rows), script);
      && Follows(rows, r.rows)
      && forall id | id in r.mine ::
           && id < |r.rows|
           && (r.rows[id].status == Started <==> r.active.Some? && r.active.value.id == id)
           && (ended ==> r.rows[id].status != Started)
  {
    hide Ran, Valid, Follows;
    RunKeeps(env, Opened(rows), script);
    RanFollows(env, Opened(rows), script);
  }

  /**
   * Even when ledger writes fail: each delivered terminal has its own earlier create, in order; its row holds that
   * terminal's status, all its tokens and their configured price; and its frame asked for the row's model and effort.
   */
  lemma DeliveredTerminalsAreRecorded(env: Env, rows: seq<Row>, script: seq<Input>, i: nat)
    requires Valid(env.settings) && i < |Ran(env, Opened(rows), script).0.delivered|
    ensures var r := Ran(env, Opened(rows), script).0;
      var id, event := r.delivered[i].id, r.delivered[i].event;
      && (forall j | 0 <= j < i :: r.delivered[j].id < id)
      && id < |r.rows| && Recorded(env, r.rows[id], event)
      && exists k :: 0 <= k < |r.sent| && r.sent[k].id == id && AsksFor(r.sent[k], r.rows[id])
  {
    hide Recorded, AsksFor, Ran, Valid;
    RunKeeps(env, Opened(rows), script);
    assert WasSent(Ran(env, Opened(rows), script).0.sent, Ran(env, Opened(rows), script).0.delivered[i].id);
  }
}

/** The connection's loop and handlers over the shared ledger. */
module WsSession {
  import opened Wrappers
  import opened Json
  import opened Config
  import opened UpstreamWs
  import opened Ledger
  import HttpApi
  import Terminal = ResponsesTerminal
  import P = WsProtocol

  class WsSession {
    const env: P.Env
    const store: Store
    var active: Option<P.InFlight>
    /** The rows admitted here, which other connections leave alone. */
    var mine: seq<nat>
    ghost var sent: seq<P.Sent>
    ghost var delivered: seq<P.Delivered>

    constructor (env: P.Env, store: Store)
      ensures this.env == env && this.store == store && View() == P.Opened(store.rows)
    {
      this.env, this.store, this.active := env, store, None;
      mine, sent, delivered := [], [], [];
    }

    ghost function View(): P.State
      reads this, store
    {
      P.State(store.rows, active, mine, sent, delivered)
    }

    /** Other connections write the ledger while this one waits. */
    method Elsewhere(rows: seq<Row>)
      modifies store
      ensures View() == P.Others(old(View()), rows)
    {
      if P.Apart(store.rows, mine, rows) { store.rows := rows; }
    }

    method Reject(value: Value, create: P.Create) returns (end: Option<P.End>)
      modifies this, store
      ensures (View(), end) == P.Rejection(env, old(View()), value, create)
    {
      assert store.rows + [] == store.rows;
      var recorded := store.RecordRejection(P.Context(env), GetString(value, "model").GetOr(""),
                                            GetString(At(value, "reasoning"), "effort"), None, create.final);
      end := if recorded.Failure? then Some(P.InternalFailure) else P.Forwarded(create.answered, P.ClientDisconnect);
    }

    method HandleCreate(value: Option<Value>, create: P.Create) returns (end: Option<P.End>)
      requires Valid(env.settings)
      modifies this, store
      ensures (View(), end) == P.Created(env, old(View()), value, create)
    {
      hide P.Rejection, P.Continued, AdmittedRow, Candidates, Valid, P.RequestFault, Decided, DecisionRespectsLimits;
      if value.None? {
        end := Reject(Null, create);
        return;
      }
      var request := P.PrepareRequest(env.settings, value.value);
      if request.Failure? {
        end := Reject(value.value, create);
        return;
      }
      var prepared := request.value;
      CandidatesArePriced(env.settings, GetString(Object(prepared.body), "model").value,
        RequestedEffort(prepared.body));
      hide P.PrepareRequest;
      var decision := store.ReadAdmission(env.identity.id, env.identity.quota, prepared.candidates.fallback.Some?,
        create.readAt);
      OneDecision(store.rows, env.identity.id, env.identity.quota, prepared.candidates.fallback.Some?, create.readAt,
        decision);
      Elsewhere(create.others);
      if decision.Failure? { return Some(P.InternalFailure); }
      assert store.rows + [] == store.rows;
      var inserted := store.InsertRequest(P.Context(env), prepared.candidates, decision.value,
        Write(create.readAt, create.inserted));
      if inserted.Failure? { return Some(P.InternalFailure); }
      if decision.value.Reject? { return P.Forwarded(create.answered, P.ClientDisconnect); }
      var id := inserted.value;
      P.AdmittedRowIsStarted(env, Chosen(prepared.candidates, decision.value), decision.value, create.readAt);
      mine := mine + [id];
      Elsewhere(create.waiting);
      end := Continue(prepared, Chosen(prepared.candidates, decision.value), id, create);
    }

    /** The rest of a create once its row is inserted. */
    method Continue(prepared: P.Prepared, effective: EffectiveModel, id: nat, create: P.Create)
      returns (end: Option<P.End>)
      requires effective.reasoningEffort.Some? ==> RequestedEffort(prepared.body).Some?
      requires id < |store.rows| && store.rows[id].status == Started
      modifies this, store
      ensures (View(), end) == P.Continued(env, old(View()), prepared, effective, id, create)
    {
      hide Finalized, CanFinalize, P.FrameOf;
      if active.Some? {
        P.StartedRowCloses(store.rows, id, create.final);
        var refused := store.FinalizeRequest(id, Rejected, None, None, create.final);
        if refused.Failure? { return Some(P.InternalFailure); }
        return P.Forwarded(create.answered, P.ClientDisconnect);
      }
      var frame := P.FrameOf(env, prepared, effective, id, create);
      if frame.None? {
        var _ := store.FinalizeRequest(id, UpstreamError, None, None, create.final);
        return Some(P.UpstreamFailure);
      }
      active := Some(P.InFlight(id, effective.rates));
      sent := sent + [P.Sent(id, "reasoning" in prepared.body, frame.value)];
      end := None;
    }

    method HandleUpstreamText(payload: Option<Value>, first: Write, between: seq<Row>, second: Write, forwarded: bool)
      returns (end: Option<P.End>)
      modifies this, store
      ensures (View(), end) == P.Relayed(env, old(View()), payload, first, between, second, forwarded)
    {
      hide CanFinalize, FinalRow, Terminal.ParseTerminalPayload, Terminal.RetryableCapacityPayload;
      if payload.None? || GetString(payload.value, "type").None? { return Some(P.UpstreamFailure); }
      var parsed := Terminal.ParseTerminalPayload(payload.value);
      if parsed.Failure? { return Some(P.UpstreamFailure); }
      if parsed.value.Some? {
        var terminal := parsed.value.value;
        var rewritten := Terminal.RetryableCapacityPayload(terminal, env.visit, env.isDate);
        if active.None? { return Some(P.UpstreamFailure); }
        var taken := active.value;
        active := None;
        var recorded := store.FinalizeRequest(taken.id, HttpApi.StatusOf(terminal.kind), None,
          HttpApi.Billable(terminal.usage, taken.rates), first);
        if recorded.Failure? {
          Elsewhere(between);
          var _ := store.FinalizeRequest(taken.id, UpstreamError, None, None, second);
          return Some(P.AccountingFailure);
        }
        delivered := delivered + [P.Delivered(taken.id, terminal, rewritten.GetOr(payload.value))];
      }
      end := P.Forwarded(forwarded, P.ClientDisconnect);
    }

    method FinalizeActive(status: Status, write: Write)
      modifies this, store
      ensures View() == P.FinalizedActive(old(View()), status, write)
    {
      if active.Some? {
        var taken := active.value;
        active := None;
        var _ := store.FinalizeRequest(taken.id, status, None, None, write);
      }
    }

    method Finish(end: P.End, write: Write)
      modifies this, store
      ensures View() == P.Finished(old(View()), end, write)
    {
      hide Finalized;
      match end
      case ShuttingDown => FinalizeActive(Canceled, write);
      case ClientDisconnect => FinalizeActive(Canceled, write);
      case ClientProtocolError => FinalizeActive(Canceled, write);
      case UpstreamFailure => FinalizeActive(UpstreamError, write);
      case UpstreamClosed(normal) =>
        if active.Some? || !normal { FinalizeActive(UpstreamError, write); }
      case InternalFailure => FinalizeActive(InternalError, write);
      case AccountingFailure =>
    }

    method Handle(event: P.Event) returns (end: Option<P.End>)
      requires Valid(env.settings)
      modifies this, store
      ensures (View(), end) == P.Handled(env, old(View()), event)
    {
      hide P.Created, P.Relayed;
      match event
      case Shutdown => end := Some(P.ShuttingDown);
      case ClientGone => end := Some(P.ClientDisconnect);
      case UpstreamGone => end := Some(P.UpstreamFailure);
      case ClientText(value, create) => end := HandleCreate(value, create);
      case ClientBinary => end := Some(P.ClientProtocolError);
      case ClientPing(forwarded) => end := P.Forwarded(forwarded, P.UpstreamFailure);
      case ClientPong(forwarded) => end := P.Forwarded(forwarded, P.UpstreamFailure);
      case ClientClose => end := Some(P.ClientDisconnect);
      case UpstreamText(payload, first, between, second, forwarded) =>
        end := HandleUpstreamText(payload, first, between, second, forwarded);
      case UpstreamBinary => end := Some(P.UpstreamFailure);
      case UpstreamPing(relayed) => end := P.Forwarded(relayed, P.ClientDisconnect);
      case UpstreamPong(relayed) => end := P.Forwarded(relayed, P.ClientDisconnect);
      case UpstreamClose(normal) => end := Some(P.UpstreamClosed(normal));
    }

    /** Waits for one event after another until one of them ends the connection. */
    method Run(script: seq<P.Input>) returns (ended: bool)
      requires Valid(env.settings)
      modifies this, store
      ensures (View(), ended) == P.Ran(env, old(View()), script)
    {
      hide P.Handled, P.Finished, P.Others, Valid;
      assert script[0..] == script;
      for i := 0 to |script|
        invariant P.Ran(env, View(), script[i..]) == P.Ran(env, old(View()), script)
      {
        assert script[i..][0] == script[i] && script[i..][1..] == script[i + 1..];
        Elsewhere(script[i].others);
        var end := Handle(script[i].event);
        if end.Some? {
          Elsewhere(script[i].closing);
          Finish(end.value, script[i].last);
          return true;
        }
      }
      assert script[|script|..] == [];
      ended := false;
    }
  }
}
