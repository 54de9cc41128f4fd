/** Request headers a session connects with, and the ones it relays inside a frame. */
module Headers {
  import opened Wrappers
  import opened Json

  /** A header value is text unless its bytes are not UTF-8. */
  datatype HeaderValue = Text(s: string) | Raw(bytes: seq<int>)
  type HeaderMap = map<string, HeaderValue>

  const PASSTHROUGH := {"originator", "session_id", "thread_id", "session-id", "thread-id", "x-client-request-id",
    "user-agent", "x-codex-beta-features", "x-codex-turn-state", "x-codex-turn-metadata", "x-codex-window-id",
    "x-codex-parent-thread-id", "x-codex-image-turn-id", "x-openai-subagent", "x-openai-memgen-request",
    "x-responsesapi-include-timing-metrics", "x-openai-internal-codex-responses-lite"}

  /** The headers copied into every frame, in order. All but the first two then leave the handshake. */
  const RELAYED := ["session_id", "thread_id", "x-codex-turn-state", "x-codex-turn-metadata", "x-codex-window-id",
    "x-codex-parent-thread-id", "x-openai-subagent", "x-openai-memgen-request", "x-client-request-id"]

  predicate IsSticky(name: string) {
    name == "session_id" || name == "thread_id"
  }

  predicate IsHeaderText(s: string) {
    forall c | c in s :: ' ' <= c <= '~' || c == '\t'
  }

  function CodexRequestHeaders(source: HeaderMap, body: map<string, Value>): HeaderMap {
    var headers := map name | name in source && name in PASSTHROUGH :: source[name];
    var key := GetString(Object(body), "prompt_cache_key").GetOr("");
    if "session_id" !in headers && "session-id" !in headers && key != "" && IsHeaderText(key)
    then headers["session_id" := Text(key)] else headers
  }

  /** The headers left for the handshake and the metadata of the frame; fails on a relayed header that is not text. */
  function Relay(names: seq<string>, headers: HeaderMap, metadata: map<string, Value>)
    : Result<(HeaderMap, map<string, Value>), string>
  {
    if names == [] then Success((headers, metadata))
    else if names[0] !in headers then Relay(names[1..], headers, metadata)
    else match headers[names[0]]
      case Raw(_) => Failure(names[0])
      case Text(s) =>
        Relay(names[1..], if IsSticky(names[0]) then headers else headers - {names[0]}, metadata[names[0] := String(s)])
  }

  /** The nine headers that travel in a frame's metadata. */
  predicate TravelsInFrame(name: string) {
    || name == "session_id" || name == "thread_id" || name == "x-codex-turn-state" || name == "x-codex-turn-metadata"
    || name == "x-codex-window-id" || name == "x-codex-parent-thread-id" || name == "x-openai-subagent"
    || name == "x-openai-memgen-request" || name == "x-client-request-id"
  }

  /** The headers that only ever travel in the handshake. */
  predicate TravelsInHandshake(name: string) {
    || name == "originator" || name == "session-id" || name == "thread-id" || name == "user-agent"
    || name == "x-codex-beta-features" || name == "x-codex-image-turn-id"
    || name == "x-responsesapi-include-timing-metrics" || name == "x-openai-internal-codex-responses-lite"
  }

  /** The prompt cache key that stands in for a missing session header; it must be usable as a header value. */
  function SessionFallback(source: HeaderMap, body: map<string, Value>): Option<string> {
    var key := GetString(Object(body), "prompt_cache_key").GetOr("");
    if "session_id" in source || "session-id" in source || key == "" then None
    else if forall c | c in key :: (' ' <= c <= '~') || c == '\t' then Some(key)
    else None
  }

  /** Of a request's headers exactly these go upstream, unchanged, and its prompt cache key may name the session. */
  lemma HeadersPassThrough(source: HeaderMap, body: map<string, Value>)
    ensures var headers, fallback := CodexRequestHeaders(source, body), SessionFallback(source, body);
      && (forall name | name != "session_id" || fallback.None? ::
            && (name in headers <==> name in source && (TravelsInFrame(name) || TravelsInHandshake(name)))
            && (name in headers ==> headers[name] == source[name]))
      && (fallback.Some? ==> "session_id" in headers && headers["session_id"] == Text(fallback.value))
  {
    hide TravelsInFrame, TravelsInHandshake;
    PassedThrough();
  }

  lemma PassedThrough()
    ensures forall name :: name in PASSTHROUGH <==> TravelsInFrame(name) || TravelsInHandshake(name)
  {
  }

  lemma RelayedNames()
    ensures forall name :: name in RELAYED <==> TravelsInFrame(name)
    ensures forall i, j | 0 <= i < j < |RELAYED| :: RELAYED[i] != RELAYED[j]
  {
    forall name ensures name in RELAYED <==> TravelsInFrame(name) {
      if name in RELAYED {
        var i :| 0 <= i < |RELAYED| && RELAYED[i] == name;
      }
      assert RELAYED[0] == "session_id" && RELAYED[1] == "thread_id" && RELAYED[2] == "x-codex-turn-state";
      assert RELAYED[3] == "x-codex-turn-metadata" && RELAYED[4] == "x-codex-window-id";
      assert RELAYED[5] == "x-codex-parent-thread-id" && RELAYED[6] == "x-openai-subagent";
      assert RELAYED[7] == "x-openai-memgen-request" && RELAYED[8] == "x-client-request-id";
    }
  }

  /** Relaying copies the text of every relayed header into the metadata, keeps the rest, and fails exactly on bytes. */
  lemma {:induction false} RelayCopies(names: seq<string>, headers: HeaderMap, metadata: map<string, Value>)
    requires forall i, j | 0 <= i < j < |names| :: names[i] != names[j]
    ensures Relay(names, headers, metadata).Failure? <==> exists name ::
      name in names && name in headers && headers[name].Raw?
    ensures Relay(names, headers, metadata).Success? ==>
      var relayed := Relay(names, headers, metadata).value.1;
      && (forall name | name in names && name in headers ::
            headers[name].Text? && name in relayed && relayed[name] == String(headers[name].s))
      && (forall name | name !in names || name !in headers :: Get(Object(relayed), name) == Get(Object(metadata), name))
  {
    if names != [] {
      var first, rest := names[0], names[1..];
      assert forall name :: name in names <==> name == first || name in rest;
      assert first !in rest;
      if first !in headers {
        RelayCopies(rest, headers, metadata);
      } else if headers[first].Text? {
        var left := if IsSticky(first) then headers else headers - {first};
        RelayCopies(rest, left, metadata[first := String(headers[first].s)]);
        assert forall name | name in rest ::
          (name in left <==> name in headers) && (name in left ==> left[name] == headers[name]);
      }
    }
  }

  /** The handshake keeps exactly the headers that are not relayed per request. */
  lemma {:induction false} HandshakeOmitsRelayed(names: seq<string>, headers: HeaderMap, metadata: map<string, Value>)
    ensures Relay(names, headers, metadata).Success? ==>
      Relay(names, headers, metadata).value.0 == map name | name in headers && (name !in names || IsSticky(name)) ::
        headers[name]
  {
    if names != [] && Relay(names, headers, metadata).Success? {
      if names[0] !in headers {
        HandshakeOmitsRelayed(names[1..], headers, metadata);
      } else {
        HandshakeOmitsRelayed(names[1..], if IsSticky(names[0]) then headers else headers - {names[0]},
          metadata[names[0] := String(headers[names[0]].s)]);
      }
      assert forall name :: name in names <==> name == names[0] || name in names[1..];
    }
  }
}

/**
 * One HTTP Responses session as a state machine. A turn either continues the upstream's own context with
 * the new items, or prewarms a fresh context and sends the whole history.
 */
module DeltaProtocol {
  import opened Wrappers
  import opened Json
  import opened Headers
  import opened UpstreamWs
  import opened Config

  /** What one upstream connection has stored under each response id. */
  type Contexts = map<string, seq<Value>>

  datatype Snapshot = Snapshot(responseId: string, input: seq<Value>, parameters: Value)

  /** The upstream is absent when there is no live socket. */
  datatype State = State(upstream: Option<Contexts>, handshake: HeaderMap, upstreamId: Option<string>,
    snapshot: Option<Snapshot>, bytes: nat)

  /** Fixed for the life of an actor; `measure` is the serialized length of a snapshot. */
  datatype Actor = Actor(keyed: bool, requestKey: string, measure: Snapshot -> nat)

  datatype Turn = Turn(body: Body, model: Value, headers: HeaderMap)

  /** How an await ends: with a value, with a failure, or because the client left or the service stops. */
  datatype Stop = ClientGone | ShutDown
  datatype Io<+T> = Done(value: T) | Failed | Stopped(stop: Stop)
  datatype Script = Script(start: Option<Stop>, connect: Io<()>, prewarm: Io<string>, send: Io<()>)

  const INITIAL := State(None, map[], None, None, 0)
  const BAD_REQUEST := 400
  const BAD_GATEWAY := 502
  const UNAVAILABLE := 503

  // ----- the upstream -----

  /** The context a frame is generated from: what is stored under its previous id, then its own items. */
  function ContextOf(contexts: Contexts, frame: Body): Option<seq<Value>> {
    match At(Object(frame), "previous_response_id")
    case Null => Some(InputItems(frame))
    case String(id) => if id in contexts then Some(contexts[id] + InputItems(frame)) else None
    case _ => None
  }

  /** The upstream answers a frame under a response id of its choice, appending its output to the context. */
  function Answered(contexts: Contexts, frame: Body, id: string, appended: seq<Value>): Contexts {
    match ContextOf(contexts, frame)
    case None => contexts
    case Some(context) => contexts[id := context + appended]
  }

  // ----- preparing a turn -----

  /** The full history a turn stands for, or the request member at fault. */
  function Materialize(actor: Actor, snapshot: Option<Snapshot>, body: Body): Result<seq<Value>, string> {
    var previous := At(Object(body), "previous_response_id");
    if !previous.Null? && (!previous.String? || previous.s == "") then Failure("previous_response_id")
    else if "input" in body && !body["input"].Array? then Failure("input")
    else if previous.Null? then Success(InputItems(body))
    else if !actor.keyed || snapshot.None? || snapshot.value.responseId != previous.s
      then Failure("previous_response_id")
    else Success(snapshot.value.input + InputItems(body))
  }

  datatype Plan = Plan(input: seq<Value>, headers: HeaderMap, body: Body, prewarm: Body, parameters: Value)

  function Metadata(body: Body): Value {
    if "client_metadata" in body then body["client_metadata"] else Object(map[])
  }

  /** The handshake headers, and the body with the relayed headers in its metadata. */
  function Tag(headers: HeaderMap, own: Body): Result<(HeaderMap, Body), string> {
    if !Metadata(own).Object? then Failure("client_metadata")
    else
      var relayed :- Relay(RELAYED, CodexRequestHeaders(headers, own), Metadata(own).fields);
      Success((relayed.0, own["client_metadata" := Object(relayed.1)]))
  }

  /** Everything a turn decides before it touches the upstream, or the status it is refused with. */
  function PlanOf(actor: Actor, snapshot: Option<Snapshot>, turn: Turn): Result<Plan, int> {
    var input := Materialize(actor, snapshot, turn.body);
    var tagged := Tag(turn.headers, turn.body - {"previous_response_id"});
    var base := GetString(turn.model, "base_instructions");
    if input.Failure? || tagged.Failure? then Failure(BAD_REQUEST)
    else if base.None? then Failure(BAD_GATEWAY)
    else
      var body := LiteBody(tagged.value.1, actor.requestKey);
      var prewarm := PrewarmBody(tagged.value.1, base.value, actor.requestKey);
      Success(Plan(input.value, tagged.value.0, body, prewarm, ParametersOf(body, prewarm)))
  }

  /** The members of a normalized body that become session parameters. */
  function Properties(body: Body): Body {
    body - {"input", "client_metadata"}
  }

  function ParametersOf(body: Body, prewarm: Body): Value {
    Array([Object(Properties(body)), At(Object(prewarm), "input")])
  }

  function Frame(body: Body, previous: string, input: seq<Value>): Body {
    body["previous_response_id" := String(previous)]["input" := Array(input)]
  }

  datatype Prepared = Ready(input: seq<Value>, parameters: Value, frame: Body) | Refused(status: int) | Interrupted

  function Unready<T>(io: Io<T>): Prepared
    requires !io.Done?
  {
    match io
    case Failed => Refused(BAD_GATEWAY)
    case Stopped(ShutDown) => Refused(UNAVAILABLE)
    case Stopped(ClientGone) => Interrupted
  }

  predicate Continues(s: State, plan: Plan) {
    && s.snapshot.Some? && s.upstreamId == Some(s.snapshot.value.responseId)
    && s.snapshot.value.parameters == plan.parameters && s.snapshot.value.input <= plan.input
  }

  function Send(s: State, plan: Plan, frame: Body, io: Io<()>): (State, Prepared) {
    (s, if io.Done? then Ready(plan.input, plan.parameters, frame) else Unready(io))
  }

  /** On a live connection: continue the stored context, or prewarm a fresh one and send everything. */
  function Exchange(s: State, plan: Plan, script: Script): (State, Prepared)
    requires s.upstream.Some?
  {
    if Continues(s, plan) then
      Send(s, plan, Frame(plan.body, s.snapshot.value.responseId, plan.input[|s.snapshot.value.input|..]), script.send)
    else
      var cleared := s.(upstreamId := None);
      if !script.prewarm.Done? then (cleared, Unready(script.prewarm))
      else
        var id := script.prewarm.value;
        Send(cleared.(upstream := Some(Answered(s.upstream.value, plan.prewarm, id, []))), plan,
          Frame(plan.body, id, plan.input), script.send)
  }

  function Prepare(actor: Actor, s: State, turn: Turn, script: Script): (State, Prepared) {
    if script.start.Some? then (s, Unready<()>(Stopped(script.start.value)))
    else match PlanOf(actor, s.snapshot, turn)
      case Failure(status) => (s, Refused(status))
      case Success(plan) =>
        if s.upstream.Some? && s.handshake == plan.headers then Exchange(s, plan, script)
        else if !script.connect.Done? then (s, Unready(script.connect))
        else Exchange(s.(upstream := Some(map[]), handshake := plan.headers, upstreamId := None), plan, script)
  }

  // ----- ending a turn -----

  /**
   * What follows a sent frame: whether the client still waited for the stream, the response id and output of
   * a completed terminal if one was accounted for, whether its delivery could be reserved, and what the
   * upstream appended to its own context.
   */
  datatype Completion = Completion(responseId: string, output: seq<Value>)
  datatype Ending = Ending(replied: bool, terminal: bool, permit: bool, completion: Option<Completion>,
    appended: seq<Value>)

  predicate Installs(actor: Actor, prepared: Prepared, ending: Ending) {
    prepared.Ready? && ending.replied && ending.terminal && ending.permit && actor.keyed && ending.completion.Some?
  }

  function Finish(actor: Actor, s: State, prepared: Prepared, ending: Ending): State {
    if prepared == Refused(BAD_REQUEST) then s
    else if !Installs(actor, prepared, ending) then s.(upstream := None)
    else
      var completion := ending.completion.value;
      var snapshot := Snapshot(completion.responseId, prepared.input + completion.output, prepared.parameters);
      s.(upstream := if s.upstream.None? then None
                     else Some(Answered(s.upstream.value, prepared.frame, completion.responseId, ending.appended)),
         upstreamId := Some(completion.responseId), snapshot := Some(snapshot), bytes := actor.measure(snapshot))
  }

  /** A message read between turns; anything but keep-alives and rate limits loses the socket. */
  datatype IdleMessage = Ping(answered: bool) | Pong | RateLimits | Other

  function Idle(s: State, message: IdleMessage): State {
    if message == Ping(true) || message.Pong? || message.RateLimits? then s else s.(upstream := None)
  }

  /** Between turns a live socket survives exactly an answered ping, a pong and rate limits; nothing else changes. */
  lemma IdleKeepsOrLosesTheSocket(s: State, message: IdleMessage)
    ensures var after := Idle(s, message);
      && (s.upstream.Some? ==>
            (after.upstream.Some? <==> message == Ping(true) || message == Pong || message == RateLimits))
      && (after.upstream.Some? ==> after == s) && after == s.(upstream := after.upstream)
  {
  }

  datatype Event = Message(message: IdleMessage) | Job(turn: Turn, script: Script, ending: Ending)

  function Step(actor: Actor, s: State, event: Event): State {
    match event
    case Message(message) => Idle(s, message)
    case Job(turn, script, ending) =>
      var (prepared, result) := Prepare(actor, s, turn, script);
      Finish(actor, prepared, result, ending)
  }

  function Run(actor: Actor, s: State, events: seq<Event>): State
    decreases |events|
  {
    if events == [] then s else Step(actor, Run(actor, s, events[..|events| - 1]), events[|events| - 1])
  }

  /** The assumption on the upstream: the output it reports is what it appended to its context. */
  predicate Honest(event: Event) {
    event.Job? && event.ending.completion.Some? ==> event.ending.appended == event.ending.completion.value.output
  }

  // ----- what holds between turns -----

  predicate WellFormed(parameters: Value) {
    parameters.Array? && |parameters.items| == 2 && parameters.items[1].Array?
  }

  /** A live socket with an upstream id holds, under the snapshot's id, the snapshot's whole context. */
  predicate Consistent(s: State) {
    && (s.snapshot.Some? ==> WellFormed(s.snapshot.value.parameters))
    && (s.upstream.Some? && s.upstreamId.Some? ==>
          && s.snapshot.Some? && s.upstreamId == Some(s.snapshot.value.responseId)
          && s.upstreamId.value in s.upstream.value
          && s.upstream.value[s.upstreamId.value] ==
            s.snapshot.value.parameters.items[1].items + s.snapshot.value.input)
  }

  /** The developer context of the turn's own body. */
  function OwnPrewarm(turn: Turn): seq<Value> {
    PrewarmInput(turn.body, GetString(turn.model, "base_instructions").GetOr(""))
  }

  lemma SameDeveloperContext(a: Body, b: Body, baseInstructions: string)
    requires At(Object(a), "tools") == At(Object(b), "tools")
      && At(Object(a), "instructions") == At(Object(b), "instructions")
    ensures PrewarmInput(a, baseInstructions) == PrewarmInput(b, baseInstructions)
  {
  }

  /** Tagging a body changes its metadata only. */
  lemma TagKeeps(headers: HeaderMap, own: Body, name: string)
    requires Tag(headers, own).Success? && name != "client_metadata"
    ensures Get(Object(Tag(headers, own).value.1), name) == Get(Object(own), name)
  {
    hide Relay, CodexRequestHeaders;
  }

  lemma TagWithInput(headers: HeaderMap, own: Body, input: Value)
    requires Tag(headers, own).Success?
    ensures var tagged := Tag(headers, own).value;
      Tag(headers, own["input" := input]) == Success((tagged.0, tagged.1["input" := input]))
  {
    hide Relay;
    var other := own["input" := input];
    assert CodexRequestHeaders(headers, other) == CodexRequestHeaders(headers, own);
    assert Metadata(other) == Metadata(own);
    var metadata := Relay(RELAYED, CodexRequestHeaders(headers, own), Metadata(own).fields).value.1;
    assert other["client_metadata" := Object(metadata)] == own["client_metadata" := Object(metadata)]["input" := input];
  }

  lemma PlanShape(actor: Actor, snapshot: Option<Snapshot>, turn: Turn)
    requires PlanOf(actor, snapshot, turn).Success?
    ensures var plan := PlanOf(actor, snapshot, turn).value;
      && Materialize(actor, snapshot, turn.body) == Success(plan.input)
      && InputItems(plan.prewarm) == OwnPrewarm(turn)
      && At(Object(plan.prewarm), "previous_response_id") == Null
      && WellFormed(plan.parameters) && plan.parameters.items[1].items == OwnPrewarm(turn)
  {
    hide Tag, LiteBody, PrewarmInput, Materialize;
    var own := turn.body - {"previous_response_id"};
    var tagged := Tag(turn.headers, own).value.1;
    TagKeeps(turn.headers, own, "tools");
    TagKeeps(turn.headers, own, "instructions");
    TagKeeps(turn.headers, own, "previous_response_id");
    LiteBodyKeeps(tagged, actor.requestKey, "previous_response_id");
    var plan := PlanOf(actor, snapshot, turn).value;
    assert plan.prewarm == PrewarmBody(tagged, GetString(turn.model, "base_instructions").value, actor.requestKey);
    SameDeveloperContext(tagged, turn.body, GetString(turn.model, "base_instructions").value);
  }

  /** The members of a frame that shape its generation apart from its context. */
  function Shape(frame: Body): Body {
    frame - {"input", "previous_response_id"}
  }

  /** A frame sent on a consistent connection is generated from the turn's own prewarm and its full history. */
  lemma ExchangeContext(s: State, plan: Plan, script: Script, own: seq<Value>)
    requires Consistent(s) && s.upstream.Some?
    requires InputItems(plan.prewarm) == own && At(Object(plan.prewarm), "previous_response_id") == Null
    requires WellFormed(plan.parameters) && plan.parameters.items[1].items == own
    ensures var (after, r) := Exchange(s, plan, script);
      && after.upstream.Some? && after.handshake == s.handshake && after.snapshot == s.snapshot
        && after.bytes == s.bytes
      && Consistent(after) && r != Refused(BAD_REQUEST)
      && (r.Ready? ==> Shape(r.frame) == Shape(plan.body) && r.input == plan.input && r.parameters == plan.parameters
                       && ContextOf(after.upstream.value, r.frame) == Some(own + plan.input))
  {
    if Continues(s, plan) {
      var cached := s.snapshot.value.input;
      assert own + cached + plan.input[|cached|..] == own + plan.input;
    } else if script.prewarm.Done? {
      assert own + [] == own;
    }
  }

  lemma PrepareContext(actor: Actor, s: State, turn: Turn, script: Script)
    requires Consistent(s)
    ensures var (after, r) := Prepare(actor, s, turn, script);
      && Consistent(after) && after.snapshot == s.snapshot && after.bytes == s.bytes
      && (r == Refused(BAD_REQUEST) ==> after == s)
      && (r.Ready? ==>
            && PlanOf(actor, s.snapshot, turn).Success?
            && (var plan := PlanOf(actor, s.snapshot, turn).value;
                r.input == plan.input && r.parameters == plan.parameters && Shape(r.frame) == Shape(plan.body))
            && Materialize(actor, s.snapshot, turn.body) == Success(r.input)
            && WellFormed(r.parameters) && r.parameters.items[1].items == OwnPrewarm(turn)
            && after.upstream.Some? && ContextOf(after.upstream.value, r.frame) == Some(OwnPrewarm(turn) + r.input))
  {
    hide PlanOf, Exchange, Materialize, OwnPrewarm;
    if script.start.None? && PlanOf(actor, s.snapshot, turn).Success? {
      var plan := PlanOf(actor, s.snapshot, turn).value;
      PlanShape(actor, s.snapshot, turn);
      if s.upstream.Some? && s.handshake == plan.headers {
        ExchangeContext(s, plan, script, OwnPrewarm(turn));
      } else {
        ExchangeContext(s.(upstream := Some(map[]), handshake := plan.headers, upstreamId := None), plan, script,
          OwnPrewarm(turn));
      }
    }
  }

  lemma StepKeepsConsistency(actor: Actor, s: State, event: Event)
    requires Consistent(s) && Honest(event)
    ensures Consistent(Step(actor, s, event))
  {
    hide Prepare, PlanOf, Materialize, OwnPrewarm, Shape;
    if event.Job? {
      var (after, r) := Prepare(actor, s, event.turn, event.script);
      PrepareContext(actor, s, event.turn, event.script);
      if Installs(actor, r, event.ending) {
        var output := event.ending.completion.value.output;
        assert OwnPrewarm(event.turn) + r.input + output == OwnPrewarm(event.turn) + (r.input + output);
      }
    }
  }

  lemma {:induction false} RunsAreConsistent(actor: Actor, events: seq<Event>)
    requires forall e | e in events :: Honest(e)
    ensures Consistent(Run(actor, INITIAL, events))
    decreases |events|
  {
    if events != [] {
      RunsAreConsistent(actor, events[..|events| - 1]);
      StepKeepsConsistency(actor, Run(actor, INITIAL, events[..|events| - 1]), events[|events| - 1]);
    }
  }

  /**
   * After any run, whatever was reused, lost or refused on the way, a frame the session sends is generated
   * from the turn's own prewarm followed by its full materialized history.
   */
  lemma EveryGenerationSeesTheWholeHistory(actor: Actor, events: seq<Event>, turn: Turn, script: Script)
    requires forall e | e in events :: Honest(e)
    ensures var s := Run(actor, INITIAL, events);
      var (after, r) := Prepare(actor, s, turn, script);
      r.Ready? ==>
        && after.upstream.Some?
        && r.input == (if At(Object(turn.body), "previous_response_id").Null? then [] else s.snapshot.value.input)
             + InputItems(turn.body)
        && ContextOf(after.upstream.value, r.frame) == Some(OwnPrewarm(turn) + r.input)
  {
    hide Prepare, PlanOf, OwnPrewarm, Shape;
    RunsAreConsistent(actor, events);
    PrepareContext(actor, Run(actor, INITIAL, events), turn, script);
    assert [] + InputItems(turn.body) == InputItems(turn.body);
  }

  lemma FrameShape(actor: Actor, s: State, turn: Turn, script: Script)
    ensures var r := Prepare(actor, s, turn, script).1;
      r.Ready? ==>
        && PlanOf(actor, s.snapshot, turn).Success?
        && Shape(r.frame) == Shape(PlanOf(actor, s.snapshot, turn).value.body)
  {
    hide PlanOf;
  }

  lemma PlannedBodyKeeps(actor: Actor, snapshot: Option<Snapshot>, turn: Turn)
    requires PlanOf(actor, snapshot, turn).Success?
    ensures var body := PlanOf(actor, snapshot, turn).value.body;
      && Get(Object(body), "model") == Get(Object(turn.body), "model")
      && RequestedEffort(body) == if "reasoning" in turn.body then RequestedEffort(turn.body) else Some("medium")
  {
    hide Tag, LiteBody, PrewarmBody, Materialize;
    var own := turn.body - {"previous_response_id"};
    var tagged := Tag(turn.headers, own).value.1;
    TagKeeps(turn.headers, own, "model");
    TagKeeps(turn.headers, own, "reasoning");
    LiteBodyKeeps(tagged, actor.requestKey, "model");
    FrameEffort(tagged, actor.requestKey);
    assert Get(Object(own), "reasoning") == Get(Object(turn.body), "reasoning");
    assert "reasoning" in tagged <==> "reasoning" in turn.body;
  }

  /**
   * Whatever state the session is in, tagged, prewarmed or continued, the frame it sends asks for the turn's model
   * and for the turn's effort, or medium for a turn without a reasoning member.
   */
  lemma FrameAsksForTheTurn(actor: Actor, s: State, turn: Turn, script: Script)
    ensures var r := Prepare(actor, s, turn, script).1;
      r.Ready? ==>
        && GetString(Object(r.frame), "model") == GetString(Object(turn.body), "model")
        && RequestedEffort(r.frame) == if "reasoning" in turn.body then RequestedEffort(turn.body) else Some("medium")
  {
    hide Prepare, PlanOf;
    var r := Prepare(actor, s, turn, script).1;
    FrameShape(actor, s, turn, script);
    if r.Ready? {
      PlannedBodyKeeps(actor, s.snapshot, turn);
      var body := PlanOf(actor, s.snapshot, turn).value.body;
      ShapeKeeps(r.frame, body, "model");
      ShapeKeeps(r.frame, body, "reasoning");
    }
  }

  /** Whose headers a turn sends: its own text, or for the session its prompt cache key. */
  function SentHeader(turn: Turn, name: string): Option<string> {
    if name in turn.headers && turn.headers[name].Text? then Some(turn.headers[name].s)
    else if name == "session_id" then SessionFallback(turn.headers, turn.body) else None
  }

  /**
   * What travels where: the frame takes its nine, and the handshake keeps its own eight, the session and the
   * thread.
   */
  lemma Travels()
    ensures TravelsInFrame("session_id") && TravelsInFrame("thread_id")
    ensures !TravelsInHandshake("session_id") && !TravelsInHandshake("thread_id")
    ensures forall name | TravelsInFrame(name) :: !TravelsInHandshake(name)
    ensures forall name :: IsSticky(name) <==> name == "session_id" || name == "thread_id"
  {
  }

  lemma SentHeaderIs(headers: HeaderMap, own: Body, name: string)
    requires TravelsInFrame(name)
    ensures var sent, text := CodexRequestHeaders(headers, own), SentHeader(Turn(own, Null, headers), name);
      && (text.Some? <==> name in sent && sent[name].Text?) && (text.Some? ==> sent[name].s == text.value)
      && (name in sent && sent[name].Raw? <==> name in headers && headers[name].Raw?)
  {
    HeadersPassThrough(headers, own);
    hide CodexRequestHeaders, SessionFallback, TravelsInFrame, TravelsInHandshake;
    FallbackIsForMissing(headers, own);
  }

  lemma FallbackIsForMissing(source: HeaderMap, body: map<string, Value>)
    ensures SessionFallback(source, body).Some? ==> "session_id" !in source
  {
  }

  lemma TagFails(headers: HeaderMap, own: Body)
    ensures Tag(headers, own).Failure? <==>
      || ("client_metadata" in own && !own["client_metadata"].Object?)
      || exists name :: TravelsInFrame(name) && name in headers && headers[name].Raw?
  {
    hide Relay, CodexRequestHeaders, TravelsInFrame, SentHeader;
    var sent := CodexRequestHeaders(headers, own);
    RelayedNames();
    if Metadata(own).Object? { RelayCopies(RELAYED, sent, Metadata(own).fields); }
    forall name | TravelsInFrame(name)
      ensures name in sent && sent[name].Raw? <==> name in headers && headers[name].Raw?
    {
      SentHeaderIs(headers, own, name);
    }
  }

  lemma TagMetadata(headers: HeaderMap, own: Body, name: string)
    requires Tag(headers, own).Success?
    ensures var metadata, text := At(Object(Tag(headers, own).value.1), "client_metadata"),
      SentHeader(Turn(own, Null, headers), name);
      && metadata.Object?
      && (TravelsInFrame(name) && text.Some? ==> GetString(metadata, name) == text)
      && (!TravelsInFrame(name) || text.None? ==> Get(metadata, name) == Get(At(Object(own), "client_metadata"), name))
  {
    hide Relay, CodexRequestHeaders, TravelsInFrame, SentHeader;
    var sent := CodexRequestHeaders(headers, own);
    RelayedNames();
    RelayCopies(RELAYED, sent, Metadata(own).fields);
    if TravelsInFrame(name) { SentHeaderIs(headers, own, name); }
    assert Get(Metadata(own), name) == Get(At(Object(own), "client_metadata"), name);
  }

  lemma TagHandshake(headers: HeaderMap, own: Body, name: string)
    requires Tag(headers, own).Success?
    ensures var handshake, session := Tag(headers, own).value.0, SentHeader(Turn(own, Null, headers), "session_id");
      && (name != "session_id" ==>
            && (name in handshake <==> name in headers && (TravelsInHandshake(name) || name == "thread_id"))
            && (name in handshake ==> handshake[name] == headers[name]))
      && (session.Some? <==> "session_id" in handshake)
      && (session.Some? ==> handshake["session_id"] == Text(session.value))
  {
    hide Relay, CodexRequestHeaders, TravelsInFrame, TravelsInHandshake, SentHeader, SessionFallback, IsSticky;
    var sent := CodexRequestHeaders(headers, own);
    Travels();
    RelayedNames();
    HeadersPassThrough(headers, own);
    HandshakeOmitsRelayed(RELAYED, sent, Metadata(own).fields);
    RelayCopies(RELAYED, sent, Metadata(own).fields);
    SentHeaderIs(headers, own, "session_id");
  }

  lemma OwnHeaderIs(turn: Turn, name: string)
    ensures SentHeader(Turn(turn.body - {"previous_response_id"}, Null, turn.headers), name) == SentHeader(turn, name)
  {
    var own := turn.body - {"previous_response_id"};
    assert Get(Object(own), "prompt_cache_key") == Get(Object(turn.body), "prompt_cache_key");
  }

  lemma PlannedMetadata(actor: Actor, snapshot: Option<Snapshot>, turn: Turn, name: string)
    requires PlanOf(actor, snapshot, turn).Success?
    ensures var metadata := At(Object(PlanOf(actor, snapshot, turn).value.body), "client_metadata");
      var text, own := SentHeader(turn, name), Get(At(Object(turn.body), "client_metadata"), name);
      && metadata.Object?
      && GetString(metadata, "ws_request_header_x_openai_internal_codex_responses_lite") == Some("true")
      && (TravelsInFrame(name) && text.Some? ==> GetString(metadata, name) == text)
      && ((!TravelsInFrame(name) || text.None?)
          && name != "ws_request_header_x_openai_internal_codex_responses_lite" ==>
            Get(metadata, name) ==
              if own.None? && (name == "session_id" || name == "thread_id") then Some(String(actor.requestKey))
                else own)
  {
    hide Tag, LiteBody, PrewarmBody, Materialize, TravelsInFrame, SentHeader;
    var own := turn.body - {"previous_response_id"};
    var tagged := Tag(turn.headers, own).value.1;
    TagMetadata(turn.headers, own, name);
    OwnHeaderIs(turn, name);
    FrameMetadata(tagged, actor.requestKey);
    Travels();
    assert Get(Object(own), "client_metadata") == Get(Object(turn.body), "client_metadata");
    assert !TravelsInFrame("ws_request_header_x_openai_internal_codex_responses_lite") by { LiteKeyIsNoHeader(); }
  }

  lemma LiteKeyIsNoHeader()
    ensures !TravelsInFrame("ws_request_header_x_openai_internal_codex_responses_lite")
  {
  }

  /**
   * Every frame carries the text of the turn's relayed headers in its metadata, the lite mark, everything else the
   * turn's own metadata holds, and the request key for a session or thread that neither names.
   */
  lemma FrameCarriesHeaders(actor: Actor, s: State, turn: Turn, script: Script, name: string)
    ensures var r := Prepare(actor, s, turn, script).1;
      r.Ready? ==>
        var metadata := At(Object(r.frame), "client_metadata");
        var text, own := SentHeader(turn, name), Get(At(Object(turn.body), "client_metadata"), name);
        && metadata.Object?
        && GetString(metadata, "ws_request_header_x_openai_internal_codex_responses_lite") == Some("true")
        && (TravelsInFrame(name) && text.Some? ==> GetString(metadata, name) == text)
        && ((!TravelsInFrame(name) || text.None?)
            && name != "ws_request_header_x_openai_internal_codex_responses_lite" ==>
              Get(metadata, name) ==
                if own.None? && (name == "session_id" || name == "thread_id") then Some(String(actor.requestKey))
                  else own)
  {
    hide Prepare, PlanOf, TravelsInFrame, SentHeader;
    var r := Prepare(actor, s, turn, script).1;
    FrameShape(actor, s, turn, script);
    if r.Ready? {
      PlannedMetadata(actor, s.snapshot, turn, name);
      ShapeKeeps(r.frame, PlanOf(actor, s.snapshot, turn).value.body, "client_metadata");
    }
  }

  lemma HandshakeIsPlanned(actor: Actor, s: State, turn: Turn, script: Script)
    ensures var (after, r) := Prepare(actor, s, turn, script);
      r.Ready? ==>
        && PlanOf(actor, s.snapshot, turn).Success?
        && Tag(turn.headers, turn.body - {"previous_response_id"}).Success?
        && after.handshake == Tag(turn.headers, turn.body - {"previous_response_id"}).value.0
  {
    hide Tag, Materialize, LiteBody, PrewarmBody;
  }

  /**
   * A connection a frame is sent on was opened with the turn's own handshake headers, unchanged, its thread, and its
   * session or the prompt cache key in its place, and with nothing else.
   */
  lemma HandshakeCarriesHeaders(actor: Actor, s: State, turn: Turn, script: Script, name: string)
    ensures var (after, r) := Prepare(actor, s, turn, script);
      var session := SentHeader(turn, "session_id");
      r.Ready? ==>
        && (name != "session_id" ==>
              && (name in after.handshake <==>
                name in turn.headers && (TravelsInHandshake(name) || name == "thread_id"))
              && (name in after.handshake ==> after.handshake[name] == turn.headers[name]))
        && (session.Some? <==> "session_id" in after.handshake)
        && (session.Some? ==> after.handshake["session_id"] == Text(session.value))
  {
    hide Prepare, PlanOf, Tag, TravelsInHandshake, SentHeader;
    HandshakeIsPlanned(actor, s, turn, script);
    OwnHeaderIs(turn, "session_id");
    if Prepare(actor, s, turn, script).1.Ready? {
      TagHandshake(turn.headers, turn.body - {"previous_response_id"}, name);
    }
  }

  /** The member or header at fault in a turn that is refused with 400. */
  predicate AtFault(actor: Actor, s: State, turn: Turn) {
    var previous := At(Object(turn.body), "previous_response_id");
    || (previous != Null && (!previous.String? || previous.s == ""))
    || ("input" in turn.body && !turn.body["input"].Array?)
    || (previous != Null && (!actor.keyed || s.snapshot.None? || String(s.snapshot.value.responseId) != previous))
    || ("client_metadata" in turn.body && !turn.body["client_metadata"].Object?)
    || exists name | name in turn.headers :: TravelsInFrame(name) && turn.headers[name].Raw?
  }

  lemma PlanFails(actor: Actor, s: State, turn: Turn)
    ensures PlanOf(actor, s.snapshot, turn) == Failure(BAD_REQUEST) <==> AtFault(actor, s, turn)
    ensures PlanOf(actor, s.snapshot, turn) == Failure(BAD_GATEWAY) <==>
      !AtFault(actor, s, turn) && GetString(turn.model, "base_instructions").None?
    ensures PlanOf(actor, s.snapshot, turn).Success? <==>
      !AtFault(actor, s, turn) && GetString(turn.model, "base_instructions").Some?
  {
    hide Tag, LiteBody, PrewarmBody, TravelsInFrame;
    var own := turn.body - {"previous_response_id"};
    TagFails(turn.headers, own);
    assert Get(Object(own), "client_metadata") == Get(Object(turn.body), "client_metadata");
    assert "client_metadata" in own <==> "client_metadata" in turn.body;
  }

  /** Why a turn ends where it does: its own fault, a missing base, a failed wait, shutdown or a client that left. */
  lemma TurnsEndForAReason(actor: Actor, s: State, turn: Turn, script: Script)
    ensures var r := Prepare(actor, s, turn, script).1;
      && (script.start.Some? ==>
        r == match script.start.value case ShutDown => Refused(503) case ClientGone => Interrupted)
      && (script.start.None? ==>
            && (r == Refused(400) <==> AtFault(actor, s, turn))
            && (!AtFault(actor, s, turn) && GetString(turn.model, "base_instructions").None? ==> r == Refused(502))
            && (r.Refused? ==> r.status == 400 || r.status == 502 || r.status == 503)
            && (r == Refused(502) ==>
                  || GetString(turn.model, "base_instructions").None?
                  || script.connect.Failed? || script.prewarm.Failed? || script.send.Failed?)
            && (r == Refused(503) ==>
                  script.connect == Stopped(ShutDown) || script.prewarm == Stopped(ShutDown)
                    || script.send == Stopped(ShutDown))
            && (r == Interrupted ==>
                  script.connect == Stopped(ClientGone) || script.prewarm == Stopped(ClientGone)
                  || script.send == Stopped(ClientGone))
            && (r.Ready? ==> script.send.Done?))
  {
    hide PlanOf, AtFault;
    PlanFails(actor, s, turn);
  }

  /**
   * A turn that is sent continues the stored context exactly when its connection, its handshake and its parameters are
   * unchanged and its history extends the snapshot's; otherwise it sends all of it behind a fresh prewarm.
   */
  lemma ContinuesExactlyWhenUnchanged(actor: Actor, s: State, turn: Turn, script: Script)
    requires Consistent(s)
    ensures var (after, r) := Prepare(actor, s, turn, script);
      r.Ready? ==>
        && r.parameters ==
             Array([Object(r.frame - {"input", "client_metadata", "previous_response_id"}), Array(OwnPrewarm(turn))])
        && var same := s.upstream.Some? && s.upstreamId.Some? && s.handshake == after.handshake
             && s.snapshot.value.parameters == r.parameters && s.snapshot.value.input <= r.input;
           && (same ==>
                 && after == s && At(Object(r.frame), "previous_response_id") == String(s.upstreamId.value)
                 && InputItems(r.frame) == r.input[|s.snapshot.value.input|..])
           && (!same ==>
                 && script.prewarm.Done? && InputItems(r.frame) == r.input
                 && At(Object(r.frame), "previous_response_id") == String(script.prewarm.value)
                 && (s.upstream.None? || s.handshake != after.handshake ==> script.connect.Done?))
  {
    hide PlanOf, OwnPrewarm;
    var r := Prepare(actor, s, turn, script).1;
    if r.Ready? {
      ParametersAreTheFrames(actor, s.snapshot, turn);
      PlanShape(actor, s.snapshot, turn);
      var plan := PlanOf(actor, s.snapshot, turn).value;
      assert r.frame - {"input", "client_metadata", "previous_response_id"} ==
        plan.body - {"input", "client_metadata", "previous_response_id"};
    }
  }

  lemma ParametersAreTheFrames(actor: Actor, snapshot: Option<Snapshot>, turn: Turn)
    requires PlanOf(actor, snapshot, turn).Success?
    ensures var plan := PlanOf(actor, snapshot, turn).value;
      plan.parameters ==
        Array([Object(plan.body - {"input", "client_metadata", "previous_response_id"}), Array(OwnPrewarm(turn))])
  {
    hide Tag, LiteBody, PrewarmInput, Materialize;
    PlanShape(actor, snapshot, turn);
    var own := turn.body - {"previous_response_id"};
    var tagged := Tag(turn.headers, own).value.1;
    TagKeeps(turn.headers, own, "previous_response_id");
    LiteBodyKeeps(tagged, actor.requestKey, "previous_response_id");
    var plan := PlanOf(actor, snapshot, turn).value;
    assert "previous_response_id" !in plan.body;
    assert plan.body - {"input", "client_metadata", "previous_response_id"} == plan.body - {"input", "client_metadata"};
  }

  lemma ShapeKeeps(a: Body, b: Body, name: string)
    requires Shape(a) == Shape(b) && name != "input" && name != "previous_response_id"
    ensures Get(Object(a), name) == Get(Object(b), name)
  {
    assert name in Shape(a) <==> name in a;
    assert name in Shape(b) <==> name in b;
    assert name in a ==> Shape(a)[name] == a[name];
    assert name in b ==> Shape(b)[name] == b[name];
  }

  // ----- the stateless relay it speeds up -----

  /** A turn is refused with 400 by its plan alone, and a planned turn whose upstream answers is sent. */
  lemma PlansDecide(actor: Actor, s: State, turn: Turn, script: Script)
    requires script.start.None?
    ensures var r := Prepare(actor, s, turn, script).1;
      && (r == Refused(BAD_REQUEST) <==> PlanOf(actor, s.snapshot, turn) == Failure(BAD_REQUEST))
      && (PlanOf(actor, s.snapshot, turn).Success?
          && script.connect.Done? && script.prewarm.Done? && script.send.Done? ==>
            r.Ready?)
  {
    hide PlanOf;
  }

  /** The same session without its connection: every turn connects, prewarms and sends everything. */
  function Disconnected(s: State): State {
    s.(upstream := None)
  }

  /**
   * A turn prepared on whatever connection a run left behind generates from the same context, with the same
   * parameters, as the same turn on a fresh connection that is sent everything; and both leave the same history.
   */
  lemma RefinesStatelessRelay(actor: Actor, events: seq<Event>, turn: Turn, script: Script, clean: Script,
      ending: Ending)
    requires forall e | e in events :: Honest(e)
    requires script.start.None? && clean == Script(None, Done(()), clean.prewarm, Done(())) && clean.prewarm.Done?
    ensures var s := Run(actor, INITIAL, events);
      var (after, r) := Prepare(actor, s, turn, script);
      var (afterFresh, q) := Prepare(actor, Disconnected(s), turn, clean);
      && (r.Ready? ==>
            && q.Ready? && r.input == q.input && r.parameters == q.parameters && Shape(r.frame) == Shape(q.frame)
            && after.upstream.Some? && afterFresh.upstream.Some?
            && ContextOf(after.upstream.value, r.frame) == ContextOf(afterFresh.upstream.value, q.frame)
            && Finish(actor, after, r, ending).snapshot == Finish(actor, afterFresh, q, ending).snapshot
            && Finish(actor, after, r, ending).bytes == Finish(actor, afterFresh, q, ending).bytes)
      && (q == Refused(BAD_REQUEST) <==> r == Refused(BAD_REQUEST))
  {
    hide Run, Prepare, PlanOf, Materialize, OwnPrewarm;
    var s := Run(actor, INITIAL, events);
    RunsAreConsistent(actor, events);
    PrepareContext(actor, s, turn, script);
    PrepareContext(actor, Disconnected(s), turn, clean);
    PlansDecide(actor, s, turn, script);
    PlansDecide(actor, Disconnected(s), turn, clean);
  }

  // ----- one turn -----

  /**
   * A turn installs exactly the history it stood for plus the output, under the new response id, or leaves
   * history and size alone; a turn refused with 400 leaves everything alone; every other unsuccessful turn
   * loses its socket.
   */
  lemma TurnInstallsOrKeeps(actor: Actor, s: State, turn: Turn, script: Script, ending: Ending)
    requires Consistent(s)
    ensures var after := Step(actor, s, Job(turn, script, ending));
      var r := Prepare(actor, s, turn, script).1;
      if Installs(actor, r, ending) then
        && after.upstream.Some? && after.snapshot.Some?
        && after.upstreamId == Some(ending.completion.value.responseId) == Some(after.snapshot.value.responseId)
        && after.snapshot.value.input == Materialize(actor, s.snapshot,
          turn.body).value + ending.completion.value.output
        && after.bytes == actor.measure(after.snapshot.value)
      else
        && after.snapshot == s.snapshot && after.bytes == s.bytes
        && (if r == Refused(BAD_REQUEST) then after == s else after.upstream.None?)
  {
    hide Prepare, PlanOf, Materialize, OwnPrewarm, Shape;
    PrepareContext(actor, s, turn, script);
  }

  /**
   * Continuing a live session by id, with unchanged parameters and handshake, sends exactly the new items
   * against the last response and needs neither a connection nor a prewarm.
   */
  lemma ContinuationSendsOnlyNewItems(actor: Actor, s: State, turn: Turn, script: Script)
    requires Consistent(s) && s.upstream.Some? && s.upstreamId.Some? && script.start.None? && script.send.Done?
    requires At(Object(turn.body), "previous_response_id") == String(s.upstreamId.value)
    requires PlanOf(actor, s.snapshot, turn).Success?
    requires var plan := PlanOf(actor, s.snapshot, turn).value;
      plan.headers == s.handshake && plan.parameters == s.snapshot.value.parameters
    ensures var (after, r) := Prepare(actor, s, turn, script);
      && after == s && r.Ready?
      && InputItems(r.frame) == InputItems(turn.body)
      && At(Object(r.frame), "previous_response_id") == String(s.upstreamId.value)
  {
    hide PlanOf, OwnPrewarm;
    PlanShape(actor, s.snapshot, turn);
    var cached := s.snapshot.value.input;
    assert (cached + InputItems(turn.body))[|cached|..] == InputItems(turn.body);
  }

  // ----- continuing by id against resending the history -----

  /** The body that resends the history a continuation refers to. */
  function Resent(body: Body, history: seq<Value>): Body {
    (body - {"previous_response_id"})["input" := Array(history)]
  }

  lemma DisablingToolsSetsToolChoice(body: Body, requestKey: string)
    ensures Normalized(body, requestKey, true) == Normalized(body, requestKey, false)["tool_choice" := String("none")]
    ensures Get(Object(Normalized(body, requestKey, false)), "tool_choice") == Get(Object(body), "tool_choice")
  {
    hide OrInsert, NormalizedReasoning, NormalizedMetadata;
    var fixed := body["parallel_tool_calls" := Bool(false)]["type" := String("response.create")]
                     ["store" := Bool(false)]["stream" := Bool(true)];
    assert Get(Object(fixed), "tool_choice") == Get(Object(body), "tool_choice");
    DefaultsLeaveToolChoice(fixed, requestKey);
    assert Normalized(body, requestKey, false) ==
      Defaulted(fixed, requestKey)["reasoning" := NormalizedReasoning(body)]
        ["client_metadata" := NormalizedMetadata(body, requestKey)];
  }

  lemma DefaultsLeaveToolChoice(body: Body, requestKey: string)
    ensures Defaulted(body["tool_choice" := String("none")], requestKey) ==
      Defaulted(body, requestKey)["tool_choice" := String("none")]
    ensures Get(Object(Defaulted(body, requestKey)), "tool_choice") == Get(Object(body), "tool_choice")
  {
    hide OrInsert;
    var encrypted := Array([String("reasoning.encrypted_content")]);
    OrInsertLeaves(body, "include", encrypted, "tool_choice", String("none"));
    var x := OrInsert(body, "include", encrypted);
    OrInsertLeaves(x, "prompt_cache_key", String(requestKey), "tool_choice", String("none"));
    var y := OrInsert(x, "prompt_cache_key", String(requestKey));
    OrInsertLeaves(y, "text", Object(map["verbosity" := String("low")]), "tool_choice", String("none"));
  }

  lemma OrInsertLeaves(body: Body, name: string, value: Value, other: string, choice: Value)
    requires name != other
    ensures OrInsert(body[other := choice], name, value) == OrInsert(body, name, value)[other := choice]
    ensures Get(Object(OrInsert(body, name, value)), other) == Get(Object(body), other)
  {
  }

  /** Bodies that differ in their input alone. */
  predicate Agree(a: Body, b: Body) {
    a - {"input"} == b - {"input"}
  }

  lemma AgreeAfter(a: Body, b: Body, name: string, value: Value)
    requires Agree(a, b) && name != "input"
    ensures Agree(a[name := value], b[name := value]) && Agree(OrInsert(a, name, value), OrInsert(b, name, value))
    ensures Get(Object(a), name) == Get(Object(b), name)
  {
    assert a[name := value] - {"input"} == (a - {"input"})[name := value];
    assert b[name := value] - {"input"} == (b - {"input"})[name := value];
    assert name in a - {"input"} <==> name in b - {"input"};
    assert name in a ==> (a - {"input"})[name] == (b - {"input"})[name];
  }

  lemma NormalizedAgree(a: Body, b: Body, requestKey: string, disable: bool)
    requires Agree(a, b)
    ensures Agree(Normalized(a, requestKey, disable), Normalized(b, requestKey, disable))
  {
    hide Agree;
    AgreeAfter(a, b, "reasoning", Null);
    AgreeAfter(a, b, "client_metadata", Null);
    var x, y := a, b;
    AgreeAfter(x, y, "parallel_tool_calls", Bool(false));
    x, y := x["parallel_tool_calls" := Bool(false)], y["parallel_tool_calls" := Bool(false)];
    AgreeAfter(x, y, "type", String("response.create"));
    x, y := x["type" := String("response.create")], y["type" := String("response.create")];
    AgreeAfter(x, y, "store", Bool(false));
    x, y := x["store" := Bool(false)], y["store" := Bool(false)];
    AgreeAfter(x, y, "stream", Bool(true));
    x, y := x["stream" := Bool(true)], y["stream" := Bool(true)];
    if disable {
      AgreeAfter(x, y, "tool_choice", String("none"));
      x, y := x["tool_choice" := String("none")], y["tool_choice" := String("none")];
    }
    DefaultsAgree(x, y, requestKey, NormalizedReasoning(a), NormalizedMetadata(a, requestKey));
  }

  lemma DefaultsAgree(a: Body, b: Body, requestKey: string, reasoning: Value, metadata: Value)
    requires Agree(a, b)
    ensures Agree(Defaulted(a, requestKey)["reasoning" := reasoning]["client_metadata" := metadata],
                  Defaulted(b, requestKey)["reasoning" := reasoning]["client_metadata" := metadata])
  {
    hide Agree, OrInsert;
    var encrypted := Array([String("reasoning.encrypted_content")]);
    AgreeAfter(a, b, "include", encrypted);
    var x, y := OrInsert(a, "include", encrypted), OrInsert(b, "include", encrypted);
    AgreeAfter(x, y, "prompt_cache_key", String(requestKey));
    x, y := OrInsert(x, "prompt_cache_key", String(requestKey)), OrInsert(y, "prompt_cache_key", String(requestKey));
    var low := Object(map["verbosity" := String("low")]);
    AgreeAfter(x, y, "text", low);
    x, y := OrInsert(x, "text", low), OrInsert(y, "text", low);
    AgreeAfter(x, y, "reasoning", reasoning);
    AgreeAfter(x["reasoning" := reasoning], y["reasoning" := reasoning], "client_metadata", metadata);
  }

  /** Tools the history declares inline, which a continuation without tools of its own does not repeat. */
  predicate InheritsInlineTools(body: Body, cached: seq<Value>) {
    !NonemptyTools(At(Object(body), "tools")) && HasInlineTools(cached) && !HasInlineTools(InputItems(body))
  }

  lemma PropertiesWithInput(body: Body, requestKey: string, input: seq<Value>)
    ensures var resent := body["input" := Array(input)];
      && (DisablesTools(body) == DisablesTools(resent) ==>
        Properties(LiteBody(body, requestKey)) == Properties(LiteBody(resent, requestKey)))
      && (DisablesTools(body) && !DisablesTools(resent) ==>
            (Properties(LiteBody(body, requestKey)) == Properties(LiteBody(resent, requestKey))
             <==> Get(Object(body), "tool_choice") == Some(String("none"))))
  {
    hide DisablesTools, Normalized;
    var resent := body["input" := Array(input)];
    var a, b := body - {"tools", "instructions"}, resent - {"tools", "instructions"};
    assert Agree(a, b);
    NormalizedAgree(a, b, requestKey, DisablesTools(resent));
    var on := Normalized(a, requestKey, DisablesTools(resent));
    assert Properties(LiteBody(resent, requestKey)) == Properties(on) by {
      var other := Normalized(b, requestKey, DisablesTools(resent));
      assert Properties(other) == (other - {"input"}) - {"client_metadata"}
        && Properties(on) == (on - {"input"}) - {"client_metadata"};
    }
    if DisablesTools(body) && !DisablesTools(resent) {
      DisablingToolsSetsToolChoice(a, requestKey);
      assert Get(Object(a), "tool_choice") == Get(Object(body), "tool_choice");
      var off := on["tool_choice" := String("none")];
      assert Get(Object(Properties(off)), "tool_choice") == Some(String("none"));
      assert Get(Object(Properties(on)), "tool_choice") == Get(Object(body), "tool_choice");
      if Get(Object(body), "tool_choice") == Some(String("none")) { assert off == on; }
    }
  }

  lemma InlineToolsOfHistory(body: Body, cached: seq<Value>)
    ensures var resent := body["input" := Array(cached + InputItems(body))];
      && (DisablesTools(resent) ==> DisablesTools(body))
      && (DisablesTools(body) && !DisablesTools(resent) <==> InheritsInlineTools(body, cached))
  {
    var history := cached + InputItems(body);
    assert HasInlineTools(history) <==> HasInlineTools(cached) || HasInlineTools(InputItems(body));
  }

  /**
   * Continuing by id and resending the full history ask for the same generation: the same history, the same
   * prewarm and the same handshake. Their parameters differ exactly when only the history declares tools inline
   * and the request did not already forbid them, because tools are looked for in the turn's own items.
   */
  lemma ContinuingMeansResending(actor: Actor, cached: Snapshot, turn: Turn)
    requires actor.keyed && At(Object(turn.body), "previous_response_id") == String(cached.responseId)
      && cached.responseId != ""
    requires PlanOf(actor, Some(cached), turn).Success?
    ensures var history := cached.input + InputItems(turn.body);
      var resending := PlanOf(actor, Some(cached), turn.(body := Resent(turn.body, history)));
      var plan := PlanOf(actor, Some(cached), turn).value;
      && resending.Success? && plan.input == resending.value.input == history && plan.headers == resending.value.headers
      && InputItems(plan.prewarm) == InputItems(resending.value.prewarm)
      && (plan.parameters == resending.value.parameters <==>
            !InheritsInlineTools(turn.body, cached.input)
              || Get(Object(turn.body), "tool_choice") == Some(String("none")))
  {
    hide Tag, LiteBody, PrewarmInput, DisablesTools, InheritsInlineTools;
    var history := cached.input + InputItems(turn.body);
    var other := turn.(body := Resent(turn.body, history));
    var own := turn.body - {"previous_response_id"};
    var tagged := Tag(turn.headers, own).value.1;
    assert other.body - {"previous_response_id"} == own["input" := Array(history)];
    assert Materialize(actor, Some(cached), other.body) == Success(history);
    TagWithInput(turn.headers, own, Array(history));
    TagKeeps(turn.headers, own, "input");
    TagKeeps(turn.headers, own, "tools");
    TagKeeps(turn.headers, own, "tool_choice");
    SameDeveloperContext(tagged, tagged["input" := Array(history)], GetString(turn.model, "base_instructions").value);
    PropertiesWithInput(tagged, actor.requestKey, history);
    InlineToolsOfHistory(tagged, cached.input);
    SameToolsQuestion(tagged, turn.body, cached.input);
  }

  const INLINE_TOOLS := Object(map["type" := String("additional_tools"), "tools" := Array([RouteMarker("functions")])])

  /** A continuation by id without tools, input or tool choice, in the form the handler passes on. */
  function BareContinuation(model: string, responseId: string): Body {
    map["model" := String(model), "stream" := Bool(true), "store" := Bool(false),
        "previous_response_id" := String(responseId)]
  }

  /** The smallest such pair of requests: a history of one item that declares tools, continued with nothing. */
  lemma ContinuingCanDifferFromResending(actor: Actor, model: string, responseId: string, parameters: Value)
    requires actor.keyed && responseId != ""
    ensures var cached := Snapshot(responseId, [INLINE_TOOLS], parameters);
      var instructions := Object(map["base_instructions" := String("")]);
      var turn := Turn(BareContinuation(model, responseId), instructions, map[]);
      var continued := PlanOf(actor, Some(cached), turn);
      var resent := PlanOf(actor, Some(cached), turn.(body := Resent(turn.body, [INLINE_TOOLS])));
      && continued.Success? && resent.Success? && continued.value.input == resent.value.input
      && continued.value.parameters != resent.value.parameters
  {
    var cached := Snapshot(responseId, [INLINE_TOOLS], parameters);
    var turn := Turn(BareContinuation(model, responseId), Object(map["base_instructions" := String("")]), map[]);
    BareContinuationPlans(actor, cached, turn);
    BareContinuationInherits(turn.body);
    hide PlanOf, Materialize, InheritsInlineTools, BareContinuation;
    ContinuingMeansResending(actor, cached, turn);
    assert cached.input + InputItems(turn.body) == [INLINE_TOOLS];
  }

  lemma BareContinuationPlans(actor: Actor, cached: Snapshot, turn: Turn)
    requires actor.keyed && cached.responseId != "" && GetString(turn.model, "base_instructions").Some?
    requires turn.headers == map[] && exists model :: turn.body == BareContinuation(model, cached.responseId)
    ensures At(Object(turn.body), "previous_response_id") == String(cached.responseId)
    ensures PlanOf(actor, Some(cached), turn).Success?
  {
    hide LiteBody, PrewarmBody;
    var own := turn.body - {"previous_response_id"};
    assert "client_metadata" !in own && "prompt_cache_key" !in own;
    NothingToRelay(RELAYED, map[]);
    assert CodexRequestHeaders(map[], own) == map[];
  }

  lemma {:induction false} NothingToRelay(names: seq<string>, metadata: map<string, Value>)
    ensures Relay(names, map[], metadata) == Success((map[], metadata))
  {
    if names != [] { NothingToRelay(names[1..], metadata); }
  }

  lemma BareContinuationInherits(body: Body)
    requires exists model, responseId :: body == BareContinuation(model, responseId)
    ensures InputItems(body) == [] && Get(Object(body), "tool_choice") == None
    ensures InheritsInlineTools(body, [INLINE_TOOLS])
  {
    assert "tools" !in body && "input" !in body && "tool_choice" !in body;
    assert IsInlineTools(INLINE_TOOLS);
  }

  lemma SameToolsQuestion(a: Body, b: Body, cached: seq<Value>)
    requires At(Object(a), "tools") == At(Object(b), "tools") && InputItems(a) == InputItems(b)
    ensures InheritsInlineTools(a, cached) == InheritsInlineTools(b, cached)
  {
  }
}
