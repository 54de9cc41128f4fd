/** Turning a request into a Responses Lite prewarm and a generation body. */
module UpstreamWs {
  import opened Wrappers
  import opened Json
  import opened Config

  type Body = map<string, Value>

  const LITE_METADATA_KEY := "ws_request_header_x_openai_internal_codex_responses_lite"

  /** `object.entry(name).or_insert(value)`. */
  function OrInsert(body: Body, name: string, value: Value): Body {
    if name in body then body else body[name := value]
  }

  function InputItems(body: Body): seq<Value> {
    if At(Object(body), "input").Array? then body["input"].items else []
  }

  predicate NonemptyTools(v: Value) {
    v.Array? && v.items != []
  }

  predicate IsInlineTools(item: Value) {
    GetString(item, "type") == Some("additional_tools") && NonemptyTools(At(item, "tools"))
  }

  predicate HasInlineTools(input: seq<Value>) {
    exists item | item in input :: IsInlineTools(item)
  }

  /** Without tools of its own, in its fields or in its own input, a request may not call any. */
  predicate DisablesTools(body: Body) {
    !NonemptyTools(At(Object(body), "tools")) && !HasInlineTools(InputItems(body))
  }

  function NormalizedReasoning(body: Body): Value {
    var reasoning := if "reasoning" in body then body["reasoning"] else Object(map["effort" := String("medium")]);
    if reasoning.Object? then Object(reasoning.fields["context" := String("all_turns")]) else reasoning
  }

  function NormalizedMetadata(body: Body, requestKey: string): Value {
    var metadata := if "client_metadata" in body then body["client_metadata"] else Object(map[]);
    if metadata.Object?
    then Object(OrInsert(OrInsert(metadata.fields[LITE_METADATA_KEY := String("true")], "session_id",
      String(requestKey)), "thread_id", String(requestKey)))
    else metadata
  }

  function Defaulted(body: Body, requestKey: string): Body {
    var included := OrInsert(body, "include", Array([String("reasoning.encrypted_content")]));
    var keyed := OrInsert(included, "prompt_cache_key", String(requestKey));
    OrInsert(keyed, "text", Object(map["verbosity" := String("low")]))
  }

  function Fixed(body: Body, disableTools: bool): Body {
    var fixed := body["parallel_tool_calls" := Bool(false)]["type" := String("response.create")]
                     ["store" := Bool(false)]["stream" := Bool(true)];
    if disableTools then fixed["tool_choice" := String("none")] else fixed
  }

  function Normalized(body: Body, requestKey: string, disableTools: bool): Body {
    Defaulted(Fixed(body, disableTools), requestKey)
      ["reasoning" := NormalizedReasoning(body)]
      ["client_metadata" := NormalizedMetadata(body, requestKey)]
  }

  function DeveloperMessage(text: string): Value {
    Object(map["type" := String("message"), "role" := String("developer"),
               "content" := Array([Object(map["type" := String("input_text"), "text" := String(text)])])])
  }

  function RouteMarker(name: string): Value {
    var parameters := Object(map["type" := String("object"), "properties" := Object(map[]),
      "additionalProperties" := Bool(false)]);
    var noop := Object(map["type" := String("function"), "name" := String("noop"),
      "description" := String("No operation."),
                           "strict" := Bool(false), "parameters" := parameters]);
    Object(map["type" := String("namespace"), "name" := String(name), "description" := String(""),
      "tools" := Array([noop])])
  }

  const ROUTE_MARKER_TOOLS := [RouteMarker("functions"), RouteMarker("utility"), RouteMarker("helpers")]

  /** The developer context a request starts from: its tools, the model's instructions, its own instructions. */
  function PrewarmInput(body: Body, baseInstructions: string): seq<Value> {
    var tools := if NonemptyTools(At(Object(body), "tools")) then body["tools"].items else ROUTE_MARKER_TOOLS;
    var instructions := GetString(Object(body), "instructions").GetOr("");
    [Object(map["type" := String("additional_tools"), "role" := String("developer"), "tools" := Array(tools)]),
     DeveloperMessage(baseInstructions)]
    + (if instructions == "" then [] else [DeveloperMessage(instructions)])
  }

  /** The body left behind: instructions and tools have moved to the prewarm. */
  function LiteBody(body: Body, requestKey: string): Body {
    Normalized(body - {"tools", "instructions"}, requestKey, DisablesTools(body))
  }

  function PrewarmBody(body: Body, baseInstructions: string, requestKey: string): Body {
    LiteBody(body, requestKey)
      ["input" := Array(PrewarmInput(body, baseInstructions))]
      ["generate" := Bool(false)]
      ["tool_choice" := String("auto")]
  }

  /** Edits the request in place and returns the prewarm; fails when the model has no base instructions. */
  method ResponsesLitePrewarm(request: Body, model: Value, requestKey: string)
    returns (edited: Body, prewarm: Option<Body>)
    ensures prewarm.None? <==> GetString(model, "base_instructions").None?
    ensures prewarm.Some? ==>
      && edited == LiteBody(request, requestKey)
      && prewarm.value == PrewarmBody(request, GetString(model, "base_instructions").value, requestKey)
  {
    edited := request;
    var tools := At(Object(edited), "tools");
    edited := edited - {"tools"};
    assert InputItems(edited) == InputItems(request);
    var hasInlineTools := HasInlineTools(InputItems(edited));
    var disableTools := !NonemptyTools(tools) && !hasInlineTools;
    var offered := if NonemptyTools(tools) then tools.items else ROUTE_MARKER_TOOLS;
    var instructions := GetString(Object(edited), "instructions");
    edited := edited - {"instructions"};
    assert edited == request - {"tools", "instructions"};
    var base := GetString(model, "base_instructions");
    if base.None? { return edited, None; }
    edited := Normalized(edited, requestKey, disableTools);
    var input := [Object(map["type" := String("additional_tools"), "role" := String("developer"),
      "tools" := Array(offered)])];
    input := input + [DeveloperMessage(base.value)];
    if instructions.Some? && instructions.value != "" {
      input := input + [DeveloperMessage(instructions.value)];
    }
    assert input == PrewarmInput(request, base.value);
    prewarm := Some(edited["input" := Array(input)]["generate" := Bool(false)]["tool_choice" := String("auto")]);
  }

  // ----- what a frame and its prewarm hold -----

  /** Text as a developer says it. */
  predicate SaysAsDeveloper(item: Value, text: string) {
    && GetString(item, "type") == Some("message") && GetString(item, "role") == Some("developer")
    && At(item, "content").Array? && |At(item, "content").items| == 1
    && GetString(At(item, "content").items[0], "type") == Some("input_text")
    && GetString(At(item, "content").items[0], "text") == Some(text)
  }

  /** A namespace of one function that does nothing. */
  predicate MarksRoute(tool: Value, name: string) {
    && GetString(tool, "type") == Some("namespace") && GetString(tool, "name") == Some(name)
    && At(tool, "tools").Array? && |At(tool, "tools").items| == 1
    && GetString(At(tool, "tools").items[0], "type") == Some("function")
    && GetString(At(tool, "tools").items[0], "name") == Some("noop")
    && GetString(At(tool, "tools").items[0], "description") == Some("No operation.")
    && At(At(tool, "tools").items[0], "strict") == Bool(false) && GetString(tool, "description") == Some("")
    && var parameters := At(At(tool, "tools").items[0], "parameters");
       && GetString(parameters, "type") == Some("object") && At(parameters, "properties") == Object(map[])
       && At(parameters, "additionalProperties") == Bool(false)
  }

  /**
   * A generation starts from the request's own tools, or three route markers when it has none, then the model's
   * instructions, then the request's own instructions if it has any, and nothing else.
   */
  lemma PrewarmHoldsToolsAndInstructions(body: Body, baseInstructions: string)
    ensures var input := PrewarmInput(body, baseInstructions);
      var tools, instructions := At(Object(body), "tools"), GetString(Object(body), "instructions");
      && |input| == (if instructions.Some? && instructions.value != "" then 3 else 2)
      && GetString(input[0], "type") == Some("additional_tools") && GetString(input[0], "role") == Some("developer")
      && At(input[0], "tools").Array?
      && (tools.Array? && tools.items != [] ==> At(input[0], "tools") == tools)
      && (!tools.Array? || tools.items == [] ==>
            var markers := At(input[0], "tools").items;
            |markers| == 3 && MarksRoute(markers[0], "functions") && MarksRoute(markers[1], "utility")
            && MarksRoute(markers[2], "helpers"))
      && SaysAsDeveloper(input[1], baseInstructions)
      && (instructions.Some? && instructions.value != "" ==> SaysAsDeveloper(input[2], instructions.value))
  {
    hide DeveloperMessage, RouteMarker, SaysAsDeveloper, MarksRoute;
    DeveloperSays(baseInstructions);
    DeveloperSays(GetString(Object(body), "instructions").GetOr(""));
    MarkerMarks("functions");
    MarkerMarks("utility");
    MarkerMarks("helpers");
  }

  lemma DeveloperSays(text: string)
    ensures SaysAsDeveloper(DeveloperMessage(text), text)
  {
  }

  lemma MarkerMarks(name: string)
    ensures MarksRoute(RouteMarker(name), name)
  {
  }

  /** A request's own member, or what stands in for it. */
  function OwnOr(body: Body, name: string, value: Value): Option<Value> {
    if name in body then Some(body[name]) else Some(value)
  }

  lemma DefaultedMembers(body: Body, requestKey: string)
    ensures var r := Defaulted(body, requestKey);
      && Get(Object(r), "include") == OwnOr(body, "include", Array([String("reasoning.encrypted_content")]))
      && Get(Object(r), "prompt_cache_key") == OwnOr(body, "prompt_cache_key", String(requestKey))
      && Get(Object(r), "text") == OwnOr(body, "text", Object(map["verbosity" := String("low")]))
      && forall name | name !in {"include", "prompt_cache_key", "text"} ::
        Get(Object(r), name) == Get(Object(body), name)
  {
    hide Get;
    var x := OrInsert(body, "include", Array([String("reasoning.encrypted_content")]));
    OrInserted(body, "include", Array([String("reasoning.encrypted_content")]));
    OrInserted(x, "prompt_cache_key", String(requestKey));
    OrInserted(OrInsert(x, "prompt_cache_key", String(requestKey)), "text", Object(map["verbosity" := String("low")]));
    hide OrInsert;
    SameMember(x, body, "prompt_cache_key");
    SameMember(OrInsert(x, "prompt_cache_key", String(requestKey)), x, "text");
    SameMember(x, body, "text");
  }

  lemma OrInserted(body: Body, name: string, value: Value)
    ensures var r := OrInsert(body, name, value);
      && Get(Object(r), name) == OwnOr(body, name, value)
      && forall other | other != name :: Get(Object(r), other) == Get(Object(body), other)
  {
  }

  lemma SameMember(a: Body, b: Body, name: string)
    ensures Get(Object(a), name) == Get(Object(b), name) ==>
      (name in a <==> name in b) && (name in a ==> a[name] == b[name])
  {
  }

  /** The members every generation frame has, whatever was asked. */
  lemma FrameMembers(body: Body, requestKey: string)
    ensures var frame := Object(LiteBody(body, requestKey));
      && Get(frame, "type") == Some(String("response.create")) && Get(frame, "parallel_tool_calls") == Some(Bool(false))
      && Get(frame, "store") == Some(Bool(false)) && Get(frame, "stream") == Some(Bool(true))
      && Get(frame, "tools") == None && Get(frame, "instructions") == None
      && Get(frame, "include") == OwnOr(body, "include", Array([String("reasoning.encrypted_content")]))
      && Get(frame, "prompt_cache_key") == OwnOr(body, "prompt_cache_key", String(requestKey))
      && Get(frame, "text") == OwnOr(body, "text", Object(map["verbosity" := String("low")]))
  {
    hide LiteBody, Defaulted, DisablesTools, Fixed;
    var kept, chosen := body - {"tools", "instructions"}, Fixed(body - {"tools", "instructions"}, DisablesTools(body));
    FixedMembers(kept, DisablesTools(body));
    DefaultedMembers(chosen, requestKey);
    FixedKeeps(kept, DisablesTools(body), "include");
    FixedKeeps(kept, DisablesTools(body), "prompt_cache_key");
    FixedKeeps(kept, DisablesTools(body), "text");
    FixedKeeps(kept, DisablesTools(body), "tools");
    FixedKeeps(kept, DisablesTools(body), "instructions");
    SameMember(chosen, body, "include");
    SameMember(chosen, body, "prompt_cache_key");
    SameMember(chosen, body, "text");
    LiteIsDefaulted(body, requestKey);
  }

  lemma LiteIsDefaulted(body: Body, requestKey: string)
    ensures var chosen := Fixed(body - {"tools", "instructions"}, DisablesTools(body));
      forall name | name !in {"reasoning", "client_metadata"} ::
        Get(Object(LiteBody(body, requestKey)), name) == Get(Object(Defaulted(chosen, requestKey)), name)
  {
    hide NormalizedReasoning, NormalizedMetadata, Defaulted, DisablesTools, Fixed;
  }

  lemma FixedMembers(body: Body, disableTools: bool)
    ensures var fixed := Object(Fixed(body, disableTools));
      && Get(fixed, "type") == Some(String("response.create")) && Get(fixed, "parallel_tool_calls") == Some(Bool(false))
      && Get(fixed, "store") == Some(Bool(false)) && Get(fixed, "stream") == Some(Bool(true))
      && Get(fixed, "tool_choice") == if disableTools then Some(String("none")) else Get(Object(body), "tool_choice")
  {
  }

  lemma FixedKeeps(body: Body, disableTools: bool, name: string)
    requires name !in {"parallel_tool_calls", "type", "store", "stream", "tool_choice"}
    ensures Get(Object(Fixed(body, disableTools)), name) == Get(Object(body), name)
  {
  }

  /** A frame calls no tools when the request has none, in its field or inline; otherwise it may choose as it asked. */
  lemma FrameToolChoice(body: Body, requestKey: string)
    ensures var frame, tools := Object(LiteBody(body, requestKey)), At(Object(body), "tools");
      var has := (tools.Array? && tools.items != [])
        || exists item | item in InputItems(body) ::
             && GetString(item, "type") == Some("additional_tools")
             && At(item, "tools").Array? && At(item, "tools").items != [];
      Get(frame, "tool_choice") == if has then Get(Object(body), "tool_choice") else Some(String("none"))
  {
    hide NormalizedReasoning, NormalizedMetadata, Defaulted, DisablesTools, Fixed, InputItems;
    var kept, chosen := body - {"tools", "instructions"}, Fixed(body - {"tools", "instructions"}, DisablesTools(body));
    FixedMembers(kept, DisablesTools(body));
    DefaultedMembers(chosen, requestKey);
    DisablingMeans(body);
    assert Get(Object(LiteBody(body, requestKey)), "tool_choice") == Get(Object(Defaulted(chosen, requestKey)),
      "tool_choice");
    assert Get(Object(kept), "tool_choice") == Get(Object(body), "tool_choice");
  }

  lemma DisablingMeans(body: Body)
    ensures var tools := At(Object(body), "tools");
      DisablesTools(body) <==>
        && !(tools.Array? && tools.items != [])
        && !exists item | item in InputItems(body) ::
             && GetString(item, "type") == Some("additional_tools")
             && At(item, "tools").Array? && At(item, "tools").items != []
  {
    assert forall item | item in InputItems(body) :: IsInlineTools(item) <==>
      GetString(item, "type") == Some("additional_tools") && At(item, "tools").Array? && At(item, "tools").items != [];
  }

  /** Reasoning covers all turns; its other members are the request's, or a medium effort when it has none. */
  lemma FrameReasoning(body: Body, requestKey: string)
    ensures var reasoning := At(Object(LiteBody(body, requestKey)), "reasoning");
      && ("reasoning" !in body ==>
            reasoning == Object(map["effort" := String("medium"), "context" := String("all_turns")]))
      && ("reasoning" in body && !body["reasoning"].Object? ==> reasoning == body["reasoning"])
      && ("reasoning" in body && body["reasoning"].Object? ==>
            && Get(reasoning, "context") == Some(String("all_turns"))
            && forall name | name != "context" :: Get(reasoning, name) == Get(body["reasoning"], name))
  {
    hide NormalizedMetadata, Defaulted, DisablesTools;
    var kept := body - {"tools", "instructions"};
    assert At(Object(LiteBody(body, requestKey)), "reasoning") == NormalizedReasoning(kept);
    assert "reasoning" in kept <==> "reasoning" in body;
  }

  /** Metadata marks the frame as lite, names the session and the thread unless they are named, and keeps the rest. */
  lemma FrameMetadata(body: Body, requestKey: string)
    ensures var metadata := At(Object(LiteBody(body, requestKey)), "client_metadata");
      var own := if "client_metadata" in body then body["client_metadata"] else Object(map[]);
      && (!own.Object? ==> metadata == own)
      && (own.Object? ==>
            && metadata.Object?
            && GetString(metadata, "ws_request_header_x_openai_internal_codex_responses_lite") == Some("true")
            && Get(metadata, "session_id") == OwnOr(own.fields, "session_id", String(requestKey))
            && Get(metadata, "thread_id") == OwnOr(own.fields, "thread_id", String(requestKey))
            && forall name | name !in {"ws_request_header_x_openai_internal_codex_responses_lite", "session_id",
              "thread_id"} ::
                 Get(metadata, name) == Get(own, name))
  {
    hide NormalizedReasoning, Defaulted, DisablesTools;
    var kept := body - {"tools", "instructions"};
    assert At(Object(LiteBody(body, requestKey)), "client_metadata") == NormalizedMetadata(kept, requestKey);
    assert "client_metadata" in kept <==> "client_metadata" in body;
    MetadataMembers(body, requestKey);
  }

  lemma MetadataMembers(body: Body, requestKey: string)
    ensures var own := if "client_metadata" in body then body["client_metadata"] else Object(map[]);
      var metadata := NormalizedMetadata(body, requestKey);
      && (!own.Object? ==> metadata == own)
      && (own.Object? ==>
            && metadata.Object?
            && GetString(metadata, "ws_request_header_x_openai_internal_codex_responses_lite") == Some("true")
            && Get(metadata, "session_id") == OwnOr(own.fields, "session_id", String(requestKey))
            && Get(metadata, "thread_id") == OwnOr(own.fields, "thread_id", String(requestKey))
            && forall name | name !in {"ws_request_header_x_openai_internal_codex_responses_lite", "session_id",
              "thread_id"} ::
                 Get(metadata, name) == Get(own, name))
  {
  }

  /** The prewarm is the frame with the developer context for its input, to be stored without generating. */
  lemma PrewarmMembers(body: Body, baseInstructions: string, requestKey: string)
    ensures var prewarm, frame := Object(PrewarmBody(body, baseInstructions, requestKey)),
      Object(LiteBody(body, requestKey));
      && Get(prewarm, "generate") == Some(Bool(false)) && Get(prewarm, "tool_choice") == Some(String("auto"))
      && Get(prewarm, "input") == Some(Array(PrewarmInput(body, baseInstructions)))
      && forall name | name !in {"generate", "tool_choice", "input"} :: Get(prewarm, name) == Get(frame, name)
  {
    hide LiteBody, PrewarmInput;
  }

  // ----- what is sent is what was admitted -----

  const REWRITTEN := {"parallel_tool_calls", "type", "store", "stream", "tool_choice", "include", "prompt_cache_key",
    "text", "reasoning", "client_metadata", "tools", "instructions"}

  /** Normalization touches only the members it names. */
  lemma LiteBodyKeeps(body: Body, requestKey: string, name: string)
    requires name !in REWRITTEN
    ensures Get(Object(LiteBody(body, requestKey)), name) == Get(Object(body), name)
  {
  }

  lemma LiteReasoning(body: Body, requestKey: string)
    ensures LiteBody(body, requestKey)["reasoning"] == NormalizedReasoning(body - {"tools", "instructions"})
  {
  }

  lemma ReasoningKept(body: Body)
    ensures NormalizedReasoning(body - {"tools", "instructions"}) == NormalizedReasoning(body)
    ensures GetString(NormalizedReasoning(body), "effort") == if "reasoning" in body then RequestedEffort(body)
      else Some("medium")
  {
  }

  /** The effort a frame asks for is the request's own, or medium for a request without a reasoning member. */
  lemma FrameEffort(body: Body, requestKey: string)
    ensures RequestedEffort(LiteBody(body, requestKey)) == if "reasoning" in body then RequestedEffort(body)
      else Some("medium")
  {
    LiteReasoning(body, requestKey);
    ReasoningKept(body);
  }

  /**
   * The smallest request that the HTTP handler passes on whose frame asks for an effort the ledger does not hold.
   */
  lemma UnloggedEffort(settings: Settings, model: string, requestKey: string)
    requires Valid(settings) && model in settings.modelPrices
    ensures var body := map["model" := String(model), "stream" := Bool(true), "store" := Bool(false)];
      var effective := Candidates(settings, model, RequestedEffort(body)).value.primary;
      && effective.reasoningEffort == None
      && RequestedEffort(LiteBody(ApplyEffectiveRequest(body, effective), requestKey)) == Some("medium")
  {
    var body: Body := map["model" := String(model), "stream" := Bool(true), "store" := Bool(false)];
    CandidatesArePriced(settings, model, RequestedEffort(body));
    var applied := ApplyEffectiveRequest(body, Candidates(settings, model, RequestedEffort(body)).value.primary);
    assert "reasoning" !in applied;
    FrameEffort(applied, requestKey);
  }
}
