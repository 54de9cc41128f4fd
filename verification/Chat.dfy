/** Chat Completions messages to Responses input items, and Responses output items back to a Chat message. */
module Chat {
  import opened Wrappers
  import opened Json
  import Terminal = ResponsesTerminal

  datatype Step = Field(name: string) | Index(i: nat)
  type Path = seq<Step>

  /** The request member at fault, or a violation by the upstream. */
  datatype ChatError = Invalid(param: Path) | UnknownField(context: Path) | Upstream

  /** What a stretch of the conversation contributes: joined system texts and input items. */
  datatype Converted = Converted(system: seq<string>, input: seq<Value>)

  datatype ConvertedOutput = ConvertedOutput(text: Option<string>, refusal: Option<string>, toolCalls: seq<Value>)

  function Join(parts: seq<string>, separator: string): string {
    if parts == [] then "" else if |parts| == 1 then parts[0] else parts[0] + separator + Join(parts[1..], separator)
  }

  function TakeString(fields: map<string, Value>, name: string, param: Path): Result<string, ChatError> {
    match GetString(Object(fields), name)
    case Some(s) => Success(s)
    case None => Failure(Invalid(param))
  }

  function RejectUnknown(fields: map<string, Value>, known: set<string>, context: Path): Result<(), ChatError> {
    if fields.Keys <= known then Success(()) else Failure(UnknownField(context))
  }

  // ----- requests -----

  function TextPart(part: Value, context: Path): Result<string, ChatError> {
    if !part.Object? then Failure(Invalid(context))
    else
      var kind :- TakeString(part.fields, "type", context + [Field("type")]);
      if kind != "text" then Failure(Invalid(context + [Field("type")]))
      else
        var text :- TakeString(part.fields, "text", context + [Field("text")]);
        var _ :- RejectUnknown(part.fields, {"type", "text"}, context);
        Success(text)
  }

  function TextParts(parts: seq<Value>, index: nat, param: Path): Result<seq<string>, ChatError> {
    if parts == [] then Success([])
    else
      var first :- TextPart(parts[0], param + [Index(index)]);
      var rest :- TextParts(parts[1..], index + 1, param);
      Success([first] + rest)
  }

  function ParseTextParts(value: Value, param: Path): Result<seq<string>, ChatError> {
    match value
    case String(text) => Success([text])
    case Array(parts) => if parts == [] then Failure(Invalid(param)) else TextParts(parts, 0, param)
    case _ => Failure(Invalid(param))
  }

  function ContentItem(kind: string, text: string): Value {
    Object(map["type" := String(kind), "text" := String(text)])
  }

  function MessageItem(role: string, content: seq<Value>): Value {
    Object(map["type" := String("message"), "role" := String(role), "content" := Array(content)])
  }

  function FunctionCallItem(id: string, name: string, arguments: string): Value {
    Object(map["type" := String("function_call"), "call_id" := String(id), "name" := String(name),
      "arguments" := String(arguments)])
  }

  function ConvertTextContent(value: Value, param: Path, kind: string): Result<seq<Value>, ChatError> {
    var texts :- ParseTextParts(value, param);
    Success(seq(|texts|, i requires 0 <= i < |texts| => ContentItem(kind, texts[i])))
  }

  function ConvertAssistantToolCall(call: Value, context: Path): Result<Value, ChatError> {
    if !call.Object? then Failure(Invalid(context))
    else
      var id :- TakeString(call.fields, "id", context + [Field("id")]);
      var kind :- TakeString(call.fields, "type", context + [Field("type")]);
      var inner := context + [Field("function")];
      if kind != "function" then Failure(Invalid(context + [Field("type")]))
      else if "function" !in call.fields then Failure(Invalid(inner))
      else
        var _ :- RejectUnknown(call.fields, {"id", "type", "function"}, context);
        var function_ := call.fields["function"];
        if !function_.Object? then Failure(Invalid(inner))
        else
          var name :- TakeString(function_.fields, "name", inner + [Field("name")]);
          var arguments :- TakeString(function_.fields, "arguments", inner + [Field("arguments")]);
          var _ :- RejectUnknown(function_.fields, {"name", "arguments"}, inner);
          Success(FunctionCallItem(id, name, arguments))
  }

  function ToolCallsFrom(calls: seq<Value>, index: nat, context: Path): Result<seq<Value>, ChatError> {
    if calls == [] then Success([])
    else
      var first :- ConvertAssistantToolCall(calls[0], context + [Field("tool_calls"), Index(index)]);
      var rest :- ToolCallsFrom(calls[1..], index + 1, context);
      Success([first] + rest)
  }

  function AssistantText(fields: map<string, Value>, context: Path): Result<seq<Value>, ChatError> {
    var content := At(Object(fields), "content");
    if content.Null? then Success([])
    else
      var parts :- ConvertTextContent(content, context + [Field("content")], "output_text");
      Success([MessageItem("assistant", parts)])
  }

  function AssistantCalls(fields: map<string, Value>, context: Path): Result<seq<Value>, ChatError> {
    var calls := At(Object(fields), "tool_calls");
    if calls.Null? then Success([])
    else if !calls.Array? || calls.items == [] then Failure(Invalid(context + [Field("tool_calls")]))
    else ToolCallsFrom(calls.items, 0, context)
  }

  function AssistantItems(fields: map<string, Value>, context: Path): Result<seq<Value>, ChatError> {
    var _ :- RejectUnknown(fields, {"role", "content", "tool_calls"}, context);
    var text :- AssistantText(fields, context);
    var calls :- AssistantCalls(fields, context);
    if text + calls == [] then Failure(Invalid(context + [Field("content")])) else Success(text + calls)
  }

  function Message(value: Value, context: Path): Result<Converted, ChatError> {
    if !value.Object? then Failure(Invalid(context))
    else
      var fields := value.fields;
      var role :- TakeString(fields, "role", context + [Field("role")]);
      var param := context + [Field("content")];
      if role in {"system", "developer", "user"} then
        if "content" !in fields then Failure(Invalid(param))
        else
          var _ :- RejectUnknown(fields, {"role", "content"}, context);
          if role == "system" then
            var texts :- ParseTextParts(fields["content"], param);
            Success(Converted([Join(texts, "\n")], []))
          else
            var parts :- ConvertTextContent(fields["content"], param, "input_text");
            Success(Converted([], [MessageItem(role, parts)]))
      else if role == "assistant" then
        var items :- AssistantItems(fields, context);
        Success(Converted([], items))
      else if role == "tool" then
        var id :- TakeString(fields, "tool_call_id", context + [Field("tool_call_id")]);
        if "content" !in fields then Failure(Invalid(param))
        else
          var _ :- RejectUnknown(fields, {"role", "tool_call_id", "content"}, context);
          var texts :- ParseTextParts(fields["content"], param);
          Success(Converted([],
            [Object(map["type" := String("function_call_output"), "call_id" := String(id),
            "output" := String(Join(texts, ""))])]))
      else Failure(Invalid(context + [Field("role")]))
  }

  function Combine(x: Converted, y: Converted): Converted {
    Converted(x.system + y.system, x.input + y.input)
  }

  /** A success extended on the left by what was converted before it. */
  function Extend(x: Converted, r: Result<Converted, ChatError>): Result<Converted, ChatError> {
    if r.Failure? then r else Success(Combine(x, r.value))
  }

  lemma ExtendTwice(x: Converted, y: Converted, r: Result<Converted, ChatError>)
    ensures Extend(x, Extend(y, r)) == Extend(Combine(x, y), r)
  {
    if r.Success? {
      assert x.system + (y.system + r.value.system) == x.system + y.system + r.value.system;
      assert x.input + (y.input + r.value.input) == x.input + y.input + r.value.input;
    }
  }

  lemma ExtendByNothing(x: Converted, r: Result<Converted, ChatError>)
    ensures Extend(Converted([], []), r) == r && Extend(x, Success(Converted([], []))) == Success(x)
  {
    if r.Success? { assert Combine(Converted([], []), r.value) == r.value; }
    assert Combine(x, Converted([], [])) == x;
  }

  /** Each message on its own, in order; the first failure wins. */
  function Messages(messages: seq<Value>, index: nat): Result<Converted, ChatError> {
    if messages == [] then Success(Converted([], []))
    else
      var first :- Message(messages[0], [Field("messages"), Index(index)]);
      Extend(first, Messages(messages[1..], index + 1))
  }

  function Instructions(system: seq<string>): Option<string> {
    if system == [] then None else Some(Join(system, "\n"))
  }

  function Onto(prefix: seq<Value>, r: Result<seq<Value>, ChatError>): Result<seq<Value>, ChatError> {
    if r.Failure? then r else Success(prefix + r.value)
  }

  lemma OntoNext(prefix: seq<Value>, calls: seq<Value>, i: nat, context: Path)
    requires i < |calls|
    ensures var call := ConvertAssistantToolCall(calls[i], context + [Field("tool_calls"), Index(i)]);
      Onto(prefix, ToolCallsFrom(calls[i..], i, context)) ==
        if call.Failure? then Failure(call.error)
          else Onto(prefix + [call.value], ToolCallsFrom(calls[i + 1..], i + 1, context))
  {
    assert calls[i..][1..] == calls[i + 1..];
    var call := ConvertAssistantToolCall(calls[i], context + [Field("tool_calls"), Index(i)]);
    var rest := ToolCallsFrom(calls[i + 1..], i + 1, context);
    if call.Success? && rest.Success? {
      assert prefix + ([call.value] + rest.value) == prefix + [call.value] + rest.value;
    }
  }

  method ConvertAssistantMessage(fields: map<string, Value>, context: Path) returns (r: Result<seq<Value>, ChatError>)
    ensures r == AssistantItems(fields, context)
  {
    var known := RejectUnknown(fields, {"role", "content", "tool_calls"}, context);
    if known.Failure? { return Failure(known.error); }
    var input := [];
    var contributed := false;
    var content := At(Object(fields), "content");
    if !content.Null? {
      var parts := ConvertTextContent(content, context + [Field("content")], "output_text");
      if parts.Failure? { return Failure(parts.error); }
      input := input + [MessageItem("assistant", parts.value)];
      assert input == [MessageItem("assistant", parts.value)];
      contributed := true;
    }
    assert AssistantText(fields, context) == Success(input);
    ghost var text := input;
    var calls := At(Object(fields), "tool_calls");
    if !calls.Null? {
      if !calls.Array? || calls.items == [] { return Failure(Invalid(context + [Field("tool_calls")])); }
      var all := calls.items;
      assert all[0..] == all;
      for i := 0 to |all|
        invariant |input| == |text| + i
        invariant Onto(input, ToolCallsFrom(all[i..], i, context)) == Onto(text, AssistantCalls(fields, context))
      {
        OntoNext(input, all, i, context);
        var call := ConvertAssistantToolCall(all[i], context + [Field("tool_calls"), Index(i)]);
        if call.Failure? { return Failure(call.error); }
        input := input + [call.value];
      }
      assert all[|all|..] == [] && input + [] == input;
      contributed := true;
    }
    assert Onto(text, AssistantCalls(fields, context)) == Success(input) by {
      if calls.Null? { assert text + [] == input; }
    }
    if !contributed { return Failure(Invalid(context + [Field("content")])); }
    r := Success(input);
  }

  lemma ExtendNext(x: Converted, messages: seq<Value>, i: nat)
    requires i < |messages|
    ensures var one := Message(messages[i], [Field("messages"), Index(i)]);
      Extend(x, Messages(messages[i..], i)) ==
        if one.Failure? then Failure(one.error) else Extend(Combine(x, one.value), Messages(messages[i + 1..], i + 1))
  {
    assert messages[i..][1..] == messages[i + 1..];
    var one := Message(messages[i], [Field("messages"), Index(i)]);
    if one.Success? { ExtendTwice(x, one.value, Messages(messages[i + 1..], i + 1)); }
  }

  method ConvertMessages(value: Value) returns (r: Result<(Option<string>, seq<Value>), ChatError>)
    ensures r == (if !value.Array? || value.items == [] then Failure(Invalid([Field("messages")]))
                  else match Messages(value.items, 0)
                    case Failure(error) => Failure(error)
                    case Success(all) => Success((Instructions(all.system), all.input)))
  {
    if !value.Array? || value.items == [] { return Failure(Invalid([Field("messages")])); }
    var messages := value.items;
    var system, input := [], [];
    ghost var whole := Messages(messages, 0);
    assert messages[0..] == messages;
    ExtendByNothing(Converted([], []), whole);
    for i := 0 to |messages|
      invariant Extend(Converted(system, input), Messages(messages[i..], i)) == whole
    {
      ExtendNext(Converted(system, input), messages, i);
      var context := [Field("messages"), Index(i)];
      var one: Result<Converted, ChatError>;
      if messages[i].Object? && GetString(messages[i], "role") == Some("assistant") {
        var items := ConvertAssistantMessage(messages[i].fields, context);
        one := if items.Failure? then Failure(items.error) else Success(Converted([], items.value));
      } else {
        one := Message(messages[i], context);
      }
      assert one == Message(messages[i], context);
      if one.Failure? { return Failure(one.error); }
      system, input := system + one.value.system, input + one.value.input;
    }
    assert messages[|messages|..] == [];
    ExtendByNothing(Converted(system, input), whole);
    r := Success((Instructions(system), input));
  }

  // ----- which messages convert, and to what -----

  predicate TextPartOk(part: Value) {
    part.Object? && part.fields.Keys == {"type", "text"} && part.fields["type"] == String("text")
      && part.fields["text"].String?
  }

  predicate TextContentOk(content: Value) {
    content.String? || (content.Array? && content.items != [] && forall part | part in content.items ::
      TextPartOk(part))
  }

  /** The texts of a content, in order. */
  function TextsIn(content: Value): seq<string> {
    match content
    case String(text) => [text]
    case Array(parts) => seq(|parts|, i requires 0 <= i < |parts| => GetString(parts[i], "text").GetOr(""))
    case _ => []
  }

  lemma {:induction false} TextPartsMean(parts: seq<Value>, index: nat, param: Path)
    ensures TextParts(parts, index, param).Success? <==> forall part | part in parts :: TextPartOk(part)
    ensures TextParts(parts, index, param).Success? ==> TextParts(parts, index, param).value == TextsIn(Array(parts))
  {
    if parts != [] {
      TextPartsMean(parts[1..], index + 1, param);
      assert parts == [parts[0]] + parts[1..];
      OnePartMeans(parts[0], param + [Index(index)]);
      if TextParts(parts, index, param).Success? {
        assert TextsIn(Array(parts)) == [GetString(parts[0], "text").GetOr("")] + TextsIn(Array(parts[1..]));
      }
    }
  }

  lemma OnePartMeans(part: Value, context: Path)
    ensures TextPart(part, context).Success? <==> TextPartOk(part)
    ensures TextPart(part, context).Success? ==> Some(TextPart(part, context).value) == GetString(part, "text")
  {
    if part.Object? && part.fields.Keys <= {"type", "text"} && "type" in part.fields && "text" in part.fields {
      assert part.fields.Keys == {"type", "text"};
    }
  }

  lemma ContentMeans(content: Value, param: Path)
    ensures ParseTextParts(content, param).Success? <==> TextContentOk(content)
    ensures ParseTextParts(content, param).Success? ==> ParseTextParts(content, param).value == TextsIn(content)
  {
    if content.Array? { TextPartsMean(content.items, 0, param); }
  }

  predicate ToolCallOk(call: Value) {
    && call.Object? && call.fields.Keys <= {"id", "type", "function"}
    && GetString(call, "id").Some? && GetString(call, "type") == Some("function")
    && At(call, "function").Object? && At(call, "function").fields.Keys <= {"name", "arguments"}
    && GetString(At(call, "function"), "name").Some? && GetString(At(call, "function"), "arguments").Some?
  }

  /** A call item with the id, the name and the arguments of a tool call. */
  predicate Calls(item: Value, call: Value) {
    && GetString(item, "type") == Some("function_call") && At(item, "call_id") == At(call, "id")
    && At(item, "name") == At(At(call, "function"), "name")
      && At(item, "arguments") == At(At(call, "function"), "arguments")
  }

  lemma ToolCallMeans(call: Value, context: Path)
    ensures ConvertAssistantToolCall(call, context).Success? <==> ToolCallOk(call)
    ensures ConvertAssistantToolCall(call, context).Success? ==>
      Calls(ConvertAssistantToolCall(call, context).value, call)
  {
  }

  lemma {:induction false} ToolCallsMean(calls: seq<Value>, index: nat, context: Path)
    ensures ToolCallsFrom(calls, index, context).Success? <==> forall call | call in calls :: ToolCallOk(call)
    ensures ToolCallsFrom(calls, index, context).Success? ==>
      var items := ToolCallsFrom(calls, index, context).value;
      |items| == |calls| && forall i | 0 <= i < |calls| :: Calls(items[i], calls[i])
  {
    hide ToolCallOk, Calls;
    if calls != [] {
      ToolCallsMean(calls[1..], index + 1, context);
      ToolCallMeans(calls[0], context + [Field("tool_calls"), Index(index)]);
      assert calls == [calls[0]] + calls[1..];
    }
  }

  /** Exactly the messages that are accepted. */
  predicate MessageOk(value: Value) {
    && value.Object?
    && var role, content, calls := GetString(value, "role"), At(value, "content"), At(value, "tool_calls");
       || ((role == Some("system") || role == Some("developer") || role == Some("user"))
           && value.fields.Keys == {"role", "content"} && TextContentOk(content))
       || (role == Some("tool")
           && value.fields.Keys == {"role", "content", "tool_call_id"} && TextContentOk(content)
           && GetString(value, "tool_call_id").Some?)
       || (role == Some("assistant")
           && value.fields.Keys <= {"role", "content", "tool_calls"}
           && (content != Null || calls != Null)
           && (content != Null ==> TextContentOk(content))
           && (calls != Null ==> calls.Array? && calls.items != [] && forall call | call in calls.items ::
             ToolCallOk(call)))
  }

  /** A message item with a role and one content item of a kind for each text. */
  predicate Says(item: Value, role: string, kind: string, texts: seq<string>) {
    && GetString(item, "type") == Some("message") && GetString(item, "role") == Some(role)
    && At(item, "content").Array? && |At(item, "content").items| == |texts|
    && forall i | 0 <= i < |texts| ::
         && GetString(At(item, "content").items[i], "type") == Some(kind)
         && GetString(At(item, "content").items[i], "text") == Some(texts[i])
  }

  lemma ContentItemSays(kind: string, text: string)
    ensures GetString(ContentItem(kind, text), "type") == Some(kind)
      && GetString(ContentItem(kind, text), "text") == Some(text)
  {
  }

  lemma MessageItemSays(role: string, kind: string, content: Value, param: Path)
    requires ConvertTextContent(content, param, kind).Success?
    ensures Says(MessageItem(role, ConvertTextContent(content, param, kind).value), role, kind, TextsIn(content))
  {
    ContentMeans(content, param);
    var texts := TextsIn(content);
    forall i | 0 <= i < |texts| { ContentItemSays(kind, texts[i]); }
  }

  /** What each role contributes: joined instructions, one message, one output of a tool, or a message and its calls. */
  predicate Contributes(value: Value, c: Converted) {
    var role, content, calls := GetString(value, "role"), At(value, "content"), At(value, "tool_calls");
    && (role == Some("system") ==> c == Converted([Join(TextsIn(content), "\n")], []))
    && (role == Some("user") || role == Some("developer") ==>
          c.system == [] && |c.input| == 1 && Says(c.input[0], role.value, "input_text", TextsIn(content)))
    && (role == Some("tool") ==>
          && c.system == [] && |c.input| == 1
          && GetString(c.input[0], "type") == Some("function_call_output")
          && At(c.input[0], "call_id") == At(value, "tool_call_id")
          && GetString(c.input[0], "output") == Some(Join(TextsIn(content), "")))
    && (role == Some("assistant") ==>
          && c.system == []
          && var said, called := if content == Null then 0 else 1, if calls.Array? then calls.items else [];
             && |c.input| == said + |called|
             && (content != Null ==> Says(c.input[0], "assistant", "output_text", TextsIn(content)))
             && forall i | 0 <= i < |called| :: Calls(c.input[said + i], called[i]))
  }

  /** A message converts exactly when it is accepted, and to what its role contributes. */
  lemma MessagesSay(value: Value, context: Path)
    ensures Message(value, context).Success? <==> MessageOk(value)
    ensures Message(value, context).Success? ==> Contributes(value, Message(value, context).value)
  {
    hide Says, Calls, TextContentOk, ToolCallOk, MessageItem, ParseTextParts, TextsIn;
    if value.Object? {
      var param := context + [Field("content")];
      ContentMeans(At(value, "content"), param);
      if value.fields.Keys <= {"role", "content"} && "role" in value.fields && "content" in value.fields {
        assert value.fields.Keys == {"role", "content"};
      }
      if value.fields.Keys <= {"role", "tool_call_id", "content"}
         && "role" in value.fields && "content" in value.fields && "tool_call_id" in value.fields {
        assert value.fields.Keys == {"role", "content", "tool_call_id"};
      }
      if TextContentOk(At(value, "content")) {
        MessageItemSays(GetString(value, "role").GetOr(""), "input_text", At(value, "content"), param);
      }
      AssistantSays(value, context);
    }
  }

  lemma AssistantSays(value: Value, context: Path)
    requires value.Object?
    ensures var content, calls, r := At(value, "content"), At(value, "tool_calls"),
      AssistantItems(value.fields, context);
      && (r.Success? <==>
            && value.fields.Keys <= {"role", "content", "tool_calls"}
            && (content != Null || calls != Null)
            && (content != Null ==> TextContentOk(content))
            && (calls != Null ==> calls.Array? && calls.items != [] && forall call | call in calls.items ::
              ToolCallOk(call)))
      && (r.Success? ==>
            var said, called := if content == Null then 0 else 1, if calls.Array? then calls.items else [];
            && |r.value| == said + |called|
            && (content != Null ==> Says(r.value[0], "assistant", "output_text", TextsIn(content)))
            && forall i | 0 <= i < |called| :: Calls(r.value[said + i], called[i]))
  {
    hide Says, Calls, TextContentOk, ToolCallOk, MessageItem, ParseTextParts, TextsIn;
    var content, calls, param := At(value, "content"), At(value, "tool_calls"), context + [Field("content")];
    ContentMeans(content, param);
    if TextContentOk(content) { MessageItemSays("assistant", "output_text", content, param); }
    if calls.Array? { ToolCallsMean(calls.items, 0, context); }
  }

  /** Joining puts the separator between any two texts and nowhere else. */
  lemma {:induction false} JoinSeparates(a: seq<string>, b: seq<string>, separator: string)
    ensures Join([], separator) == "" && forall text :: Join([text], separator) == text
    ensures a != [] && b != [] ==> Join(a + b, separator) == Join(a, separator) + separator + Join(b, separator)
    ensures Instructions(a) == if a == [] then None else Some(Join(a, "\n"))
  {
    if a != [] && b != [] {
      assert (a + b)[1..] == a[1..] + b;
      if |a| > 1 {
        JoinSeparates(a[1..], b, separator);
        var rest := Join(a[1..], separator);
        assert a[0] + separator + (rest + separator + Join(b, separator)) ==
          a[0] + separator + rest + separator + Join(b, separator);
      } else {
        assert a[1..] + b == b;
      }
    }
  }

  // ----- terminal output -----

  function Part(part: Value, acc: ConvertedOutput): Result<ConvertedOutput, ChatError> {
    var kind := GetString(part, "type");
    if kind == Some("output_text") && GetString(part, "text").Some? then
      Success(acc.(text := Some(acc.text.GetOr("") + GetString(part, "text").value)))
    else if kind == Some("refusal") && GetString(part, "refusal").Some? then
      Success(acc.(refusal := Some(acc.refusal.GetOr("") + GetString(part, "refusal").value)))
    else Failure(Upstream)
  }

  function Parts(parts: seq<Value>, acc: ConvertedOutput): Result<ConvertedOutput, ChatError> {
    if parts == [] then Success(acc)
    else
      var next :- Part(parts[0], acc);
      Parts(parts[1..], next)
  }

  function ChatToolCall(id: string, name: string, arguments: string): Value {
    Object(map["id" := String(id), "type" := String("function"),
               "function" := Object(map["name" := String(name), "arguments" := String(arguments)])])
  }

  function Item(item: Value, acc: ConvertedOutput): Result<ConvertedOutput, ChatError> {
    var kind := GetString(item, "type");
    if kind == Some("reasoning") then Success(acc)
    else if kind == Some("message") then
      if GetString(item, "role") != Some("assistant") || !At(item, "content").Array? then Failure(Upstream)
      else Parts(At(item, "content").items, acc)
    else if kind == Some("function_call") then
      var id, name, arguments := GetString(item, "call_id"), GetString(item, "name"), GetString(item, "arguments");
      if id.None? || name.None? || arguments.None? then Failure(Upstream)
      else Success(acc.(toolCalls := acc.toolCalls + [ChatToolCall(id.value, name.value, arguments.value)]))
    else Failure(Upstream)
  }

  function Items(output: seq<Value>, acc: ConvertedOutput): Result<ConvertedOutput, ChatError> {
    if output == [] then Success(acc)
    else
      var next :- Item(output[0], acc);
      Items(output[1..], next)
  }

  const NOTHING := ConvertedOutput(None, None, [])

  method ConvertOutputMessage(item: Value, start: ConvertedOutput) returns (r: Result<ConvertedOutput, ChatError>)
    requires GetString(item, "type") == Some("message")
    ensures r == Item(item, start)
  {
    if GetString(item, "role") != Some("assistant") || !At(item, "content").Array? { return Failure(Upstream); }
    var content := At(item, "content").items;
    var converted := start;
    for i := 0 to |content|
      invariant Parts(content[i..], converted) == Parts(content, start)
    {
      assert content[i..][1..] == content[i + 1..];
      var next := Part(content[i], converted);
      if next.Failure? { return Failure(Upstream); }
      converted := next.value;
    }
    r := Success(converted);
  }

  method ConvertOutput(output: seq<Value>) returns (r: Result<ConvertedOutput, ChatError>)
    ensures r == Items(output, NOTHING)
  {
    var converted := NOTHING;
    for i := 0 to |output|
      invariant Items(output[i..], converted) == Items(output, NOTHING)
    {
      assert output[i..][1..] == output[i + 1..];
      var next;
      if GetString(output[i], "type") == Some("message") {
        next := ConvertOutputMessage(output[i], converted);
      } else {
        next := Item(output[i], converted);
      }
      if next.Failure? { return next; }
      converted := next.value;
    }
    r := Success(converted);
  }

  // ----- the round trip -----

  /** The text parts of one message item, then of a whole output, in order. */
  function OutputTexts(parts: seq<Value>): seq<string> {
    if parts == [] then []
    else (if GetString(parts[0], "type") == Some("output_text") then [GetString(parts[0], "text").GetOr("")]
      else []) + OutputTexts(parts[1..])
  }

  function TextsOf(output: seq<Value>): seq<string> {
    if output == [] then []
    else (if GetString(output[0], "type") == Some("message") && At(output[0], "content").Array?
          then OutputTexts(At(output[0], "content").items) else []) + TextsOf(output[1..])
  }

  predicate IsCall(item: Value) {
    GetString(item, "type") == Some("function_call")
  }

  /** The upstream's own function calls, restricted to the members a conversation may carry. */
  function CallsOf(output: seq<Value>): seq<Value> {
    if output == [] then []
    else (if IsCall(output[0]) then [Object(map["type" := At(output[0], "type"), "call_id" := At(output[0], "call_id"),
                                                "name" := At(output[0], "name"),
                                                  "arguments" := At(output[0], "arguments")])] else [])
         + CallsOf(output[1..])
  }

  function AppendTexts(text: Option<string>, texts: seq<string>): Option<string> {
    if texts == [] then text else Some(text.GetOr("") + Join(texts, ""))
  }

  lemma JoinAppends(a: seq<string>, b: seq<string>)
    ensures Join(a + b, "") == Join(a, "") + Join(b, "")
  {
    if a == [] {
      assert a + b == b;
    } else {
      assert (a + b)[1..] == a[1..] + b;
      JoinAppends(a[1..], b);
    }
  }

  lemma AppendTextsTwice(text: Option<string>, a: seq<string>, b: seq<string>)
    ensures AppendTexts(AppendTexts(text, a), b) == AppendTexts(text, a + b)
  {
    JoinAppends(a, b);
    if b == [] {
      assert a + b == a;
    } else if a == [] {
      assert a + b == b;
    } else {
      var start := text.GetOr("");
      assert start + Join(a, "") + Join(b, "") == start + (Join(a, "") + Join(b, ""));
    }
  }

  lemma {:induction false} PartsMeaning(parts: seq<Value>, acc: ConvertedOutput)
    requires Parts(parts, acc).Success?
    ensures var r := Parts(parts, acc).value;
      r.text == AppendTexts(acc.text, OutputTexts(parts)) && r.toolCalls == acc.toolCalls
  {
    if parts != [] {
      var next := Part(parts[0], acc).value;
      PartsMeaning(parts[1..], next);
      var first := if GetString(parts[0], "type") == Some("output_text") then [GetString(parts[0], "text").value]
        else [];
      assert next.text == AppendTexts(acc.text, first);
      assert OutputTexts(parts) == first + OutputTexts(parts[1..]);
      AppendTextsTwice(acc.text, first, OutputTexts(parts[1..]));
    }
  }

  /** A call as the Responses API writes it, from the call as the Chat API writes it. */
  function AsItem(call: Value): Value {
    var inner := At(call, "function");
    Object(map["type" := String("function_call"), "call_id" := At(call, "id"), "name" := At(inner, "name"),
      "arguments" := At(inner, "arguments")])
  }

  ghost predicate IsChatCall(call: Value) {
    exists id, name, arguments :: call == ChatToolCall(id, name, arguments)
  }

  function AsItems(calls: seq<Value>): seq<Value> {
    seq(|calls|, i requires 0 <= i < |calls| => AsItem(calls[i]))
  }

  lemma ItemMeaning(item: Value, acc: ConvertedOutput)
    requires Item(item, acc).Success?
    requires forall c | c in acc.toolCalls :: IsChatCall(c)
    ensures var r := Item(item, acc).value;
      && r.text == AppendTexts(acc.text, TextsOf([item]))
      && AsItems(r.toolCalls) == AsItems(acc.toolCalls) + CallsOf([item])
      && forall c | c in r.toolCalls :: IsChatCall(c)
  {
    var r := Item(item, acc).value;
    assert [item][1..] == [];
    if GetString(item, "type") == Some("message") {
      PartsMeaning(At(item, "content").items, acc);
      var texts := OutputTexts(At(item, "content").items);
      assert TextsOf([item]) == texts + TextsOf([item][1..]) && texts + [] == texts;
    } else {
      assert TextsOf([item]) == [] + TextsOf([item][1..]);
    }
    if IsCall(item) {
      var call := ChatToolCall(GetString(item, "call_id").value, GetString(item, "name").value,
        GetString(item, "arguments").value);
      assert AsItems(r.toolCalls) == AsItems(acc.toolCalls) + [AsItem(call)];
      assert CallsOf([item]) == [AsItem(call)];
    } else {
      assert r.toolCalls == acc.toolCalls && CallsOf([item]) == [];
    }
  }

  lemma FirstThenRest(output: seq<Value>)
    requires output != []
    ensures TextsOf(output) == TextsOf([output[0]]) + TextsOf(output[1..])
    ensures CallsOf(output) == CallsOf([output[0]]) + CallsOf(output[1..])
  {
    var one := [output[0]];
    assert one[1..] == [] && TextsOf([]) == [] && CallsOf([]) == [];
    assert forall t: seq<string> :: t + [] == t;
    assert forall c: seq<Value> :: c + [] == c;
  }

  lemma NothingMeans(acc: ConvertedOutput)
    ensures acc.text == AppendTexts(acc.text, TextsOf([]))
    ensures AsItems(acc.toolCalls) == AsItems(acc.toolCalls) + CallsOf([])
  {
  }

  /** A converted output holds all the text and all the calls of the upstream's, in order. */
  lemma {:induction false} OutputMeaning(output: seq<Value>, acc: ConvertedOutput)
    requires Items(output, acc).Success?
    requires forall c | c in acc.toolCalls :: IsChatCall(c)
    ensures var r := Items(output, acc).value;
      && r.text == AppendTexts(acc.text, TextsOf(output))
      && AsItems(r.toolCalls) == AsItems(acc.toolCalls) + CallsOf(output)
      && forall c | c in r.toolCalls :: IsChatCall(c)
  {
    hide Item, AsItems, AppendTexts, IsChatCall;
    if output == [] {
      NothingMeans(acc);
    } else {
      var one, rest := [output[0]], output[1..];
      ItemMeaning(output[0], acc);
      OutputMeaning(rest, Item(output[0], acc).value);
      FirstThenRest(output);
      AppendTextsTwice(acc.text, TextsOf(one), TextsOf(rest));
      assert AsItems(acc.toolCalls) + CallsOf(one) + CallsOf(rest) ==
        AsItems(acc.toolCalls) + (CallsOf(one) + CallsOf(rest));
    }
  }

  predicate OutputPartOk(part: Value) {
    || (GetString(part, "type") == Some("output_text") && GetString(part, "text").Some?)
    || (GetString(part, "type") == Some("refusal") && GetString(part, "refusal").Some?)
  }

  /** Exactly the output items a completion can be made of; reasoning is left out of it. */
  predicate OutputItemOk(item: Value) {
    || GetString(item, "type") == Some("reasoning")
    || (GetString(item, "type") == Some("message") && GetString(item, "role") == Some("assistant")
        && At(item, "content").Array? && forall part | part in At(item, "content").items :: OutputPartOk(part))
    || (GetString(item, "type") == Some("function_call") && GetString(item, "call_id").Some?
        && GetString(item, "name").Some? && GetString(item, "arguments").Some?)
  }

  /** The refusals of an output, in order. */
  function RefusalsIn(parts: seq<Value>): seq<string> {
    if parts == [] then []
    else (if GetString(parts[0], "type") == Some("refusal") then [GetString(parts[0], "refusal").GetOr("")] else [])
         + RefusalsIn(parts[1..])
  }

  function RefusalsOf(output: seq<Value>): seq<string> {
    if output == [] then []
    else (if GetString(output[0], "type") == Some("message") && At(output[0], "content").Array?
          then RefusalsIn(At(output[0], "content").items) else []) + RefusalsOf(output[1..])
  }

  lemma {:induction false} PartsRefuse(parts: seq<Value>, acc: ConvertedOutput)
    ensures Parts(parts, acc).Success? <==> forall part | part in parts :: OutputPartOk(part)
    ensures Parts(parts, acc).Success? ==>
      Parts(parts, acc).value.refusal == AppendTexts(acc.refusal, RefusalsIn(parts))
  {
    if parts != [] {
      assert parts == [parts[0]] + parts[1..];
      var next := Part(parts[0], acc);
      assert next.Success? <==> OutputPartOk(parts[0]);
      if next.Success? {
        PartsRefuse(parts[1..], next.value);
        var first := if GetString(parts[0], "type") == Some("refusal") then [GetString(parts[0], "refusal").value]
          else [];
        assert next.value.refusal == AppendTexts(acc.refusal, first);
        assert RefusalsIn(parts) == first + RefusalsIn(parts[1..]);
        AppendTextsTwice(acc.refusal, first, RefusalsIn(parts[1..]));
      }
    }
  }

  /** An output converts exactly when each of its items does, and refuses with all the refusals in it, in order. */
  lemma {:induction false} OutputConverts(output: seq<Value>, acc: ConvertedOutput)
    ensures Items(output, acc).Success? <==> forall item | item in output :: OutputItemOk(item)
    ensures Items(output, acc).Success? ==>
      Items(output, acc).value.refusal == AppendTexts(acc.refusal, RefusalsOf(output))
  {
    hide AppendTexts, OutputPartOk;
    if output == [] {
      NoRefusal(acc);
    } else {
      assert output == [output[0]] + output[1..];
      ItemRefuses(output[0], acc);
      if Item(output[0], acc).Success? {
        var next := Item(output[0], acc).value;
        OutputConverts(output[1..], next);
        var first := if GetString(output[0], "type") == Some("message") && At(output[0], "content").Array?
          then RefusalsIn(At(output[0], "content").items) else [];
        AppendTextsTwice(acc.refusal, first, RefusalsOf(output[1..]));
      }
    }
  }

  lemma NoRefusal(acc: ConvertedOutput)
    ensures AppendTexts(acc.refusal, RefusalsOf([])) == acc.refusal && AppendTexts(acc.refusal, []) == acc.refusal
  {
  }

  lemma ItemRefuses(item: Value, acc: ConvertedOutput)
    ensures Item(item, acc).Success? <==> OutputItemOk(item)
    ensures Item(item, acc).Success? ==>
      Item(item, acc).value.refusal == AppendTexts(acc.refusal,
        if GetString(item, "type") == Some("message") && At(item, "content").Array?
        then RefusalsIn(At(item, "content").items) else [])
  {
    hide AppendTexts, OutputPartOk, Parts;
    NoRefusal(acc);
    if At(item, "content").Array? { PartsRefuse(At(item, "content").items, acc); }
  }

  /** The message of the completion the relay answers with. */
  function CompletionMessage(co: ConvertedOutput): map<string, Value> {
    var message := map["role" := String("assistant"),
                       "content" := if co.text.Some? then String(co.text.value) else Null,
                       "refusal" := if co.refusal.Some? then String(co.refusal.value) else Null];
    if co.toolCalls == [] then message else message["tool_calls" := Array(co.toolCalls)]
  }

  /** The same message without its refusal member. */
  function FedBack(co: ConvertedOutput): Value {
    Object(CompletionMessage(co) - {"refusal"})
  }

  lemma {:induction false} CallsConvertBack(calls: seq<Value>, index: nat, context: Path)
    requires forall c | c in calls :: IsChatCall(c)
    ensures ToolCallsFrom(calls, index, context) == Success(AsItems(calls))
  {
    if calls != [] {
      assert calls[0] in calls;
      CallsConvertBack(calls[1..], index + 1, context);
      assert AsItems(calls) == [AsItem(calls[0])] + AsItems(calls[1..]);
    }
  }

  /** The input items a completion stands for: one message with all the text, then the calls. */
  function ItemsOf(output: seq<Value>): seq<Value> {
    (if TextsOf(output) == [] then []
      else [MessageItem("assistant", [ContentItem("output_text", Join(TextsOf(output), ""))])])
    + CallsOf(output)
  }

  lemma FedBackParts(co: ConvertedOutput, context: Path)
    requires forall c | c in co.toolCalls :: IsChatCall(c)
    ensures AssistantText(FedBack(co).fields, context) == Success(
      if co.text.None? then [] else [MessageItem("assistant", [ContentItem("output_text", co.text.value)])])
    ensures AssistantCalls(FedBack(co).fields, context) == Success(AsItems(co.toolCalls))
  {
    var fields := FedBack(co).fields;
    if co.text.Some? {
      var parts := ConvertTextContent(String(co.text.value), context + [Field("content")], "output_text");
      assert parts.value == [ContentItem("output_text", co.text.value)];
    }
    CallsConvertBack(co.toolCalls, 0, context);
  }

  lemma FedBackConverts(output: seq<Value>, context: Path)
    requires Items(output, NOTHING).Success?
    ensures Message(FedBack(Items(output, NOTHING).value), context) ==
      if ItemsOf(output) == [] then Failure(Invalid(context + [Field("content")]))
        else Success(Converted([], ItemsOf(output)))
  {
    var co := Items(output, NOTHING).value;
    OutputMeaning(output, NOTHING);
    assert AsItems(NOTHING.toolCalls) == [];
    FedBackParts(co, context);
    var fields := FedBack(co).fields;
    assert fields.Keys <= {"role", "content", "tool_calls"};
    assert Join(TextsOf(output), "") == "" + Join(TextsOf(output), "");
    assert [] + CallsOf(output) == CallsOf(output) == AsItems(co.toolCalls);
    assert AssistantItems(fields, context) ==
      if ItemsOf(output) == [] then Failure(Invalid(context + [Field("content")])) else Success(ItemsOf(output));
    assert GetString(FedBack(co), "role") == Some("assistant");
  }

  /** An answer fed back word for word is always refused, because it has a refusal member. */
  lemma VerbatimMessageIsRefused(co: ConvertedOutput, context: Path)
    ensures Message(Object(CompletionMessage(co)), context) == Failure(UnknownField(context))
  {
    assert "refusal" in CompletionMessage(co);
  }

  // ----- conversations -----

  lemma {:induction false} TextPartsAnywhere(parts: seq<Value>, i: nat, p: Path, j: nat, q: Path)
    requires TextParts(parts, i, p).Success?
    ensures TextParts(parts, j, q) == TextParts(parts, i, p)
  {
    if parts != [] {
      TextPartsAnywhere(parts[1..], i + 1, p, j + 1, q);
    }
  }

  lemma ContentAnywhere(value: Value, p: Path, q: Path)
    requires ParseTextParts(value, p).Success?
    ensures ParseTextParts(value, q) == ParseTextParts(value, p)
  {
    if value.Array? { TextPartsAnywhere(value.items, 0, p, 0, q); }
  }

  lemma {:induction false} ToolCallsAnywhere(calls: seq<Value>, i: nat, p: Path, q: Path)
    requires ToolCallsFrom(calls, i, p).Success?
    ensures ToolCallsFrom(calls, i, q) == ToolCallsFrom(calls, i, p)
  {
    if calls != [] {
      ToolCallsAnywhere(calls[1..], i + 1, p, q);
    }
  }

  /** What a message converts to does not depend on where it stands. */
  lemma MessageAnywhere(value: Value, p: Path, q: Path)
    requires Message(value, p).Success?
    ensures Message(value, q) == Message(value, p)
  {
    var content, calls := At(value, "content"), At(value, "tool_calls");
    if ParseTextParts(content, p + [Field("content")]).Success? {
      ContentAnywhere(content, p + [Field("content")], q + [Field("content")]);
    }
    if calls.Array? && ToolCallsFrom(calls.items, 0, p).Success? {
      ToolCallsAnywhere(calls.items, 0, p, q);
    }
  }

  lemma {:induction false} MessagesAnywhere(messages: seq<Value>, i: nat, j: nat)
    requires Messages(messages, i).Success?
    ensures Messages(messages, j) == Messages(messages, i)
  {
    if messages != [] {
      MessageAnywhere(messages[0], [Field("messages"), Index(i)], [Field("messages"), Index(j)]);
      MessagesAnywhere(messages[1..], i + 1, j + 1);
    }
  }

  /** A conversation converts exactly when its halves do, to the concatenation of what they convert to. */
  lemma {:induction false} ConversationsConcatenate(a: seq<Value>, b: seq<Value>, i: nat)
    ensures Messages(a, i).Failure? ==> Messages(a + b, i) == Messages(a, i)
    ensures Messages(a, i).Success? ==> (Messages(a + b, i).Success? <==> Messages(b, 0).Success?)
    ensures Messages(a, i).Success? && Messages(b, 0).Success? ==>
      Messages(a + b, i) == Success(Combine(Messages(a, i).value, Messages(b, 0).value))
  {
    if a == [] {
      assert a + b == b;
      if Messages(b, 0).Success? { MessagesAnywhere(b, 0, i); }
      if Messages(b, i).Success? { MessagesAnywhere(b, i, 0); }
      ExtendByNothing(Converted([], []), Messages(b, 0));
    } else {
      assert (a + b)[1..] == a[1..] + b;
      ConversationsConcatenate(a[1..], b, i + 1);
      var first := Message(a[0], [Field("messages"), Index(i)]);
      if first.Success? && Messages(a[1..], i + 1).Success? {
        ExtendTwice(first.value, Messages(a[1..], i + 1).value, Messages(b, 0));
      }
    }
  }

  /** Anywhere in a conversation, a fed-back completion contributes the text and the calls of the upstream's output. */
  lemma CompletionRoundTrip(before: seq<Value>, output: seq<Value>, after: seq<Value>)
    requires Items(output, NOTHING).Success?
    requires Messages(before, 0).Success? && Messages(after, 0).Success?
    ensures var all := Messages(before + ([FedBack(Items(output, NOTHING).value)] + after), 0);
      var x, y := Messages(before, 0).value, Messages(after, 0).value;
      if ItemsOf(output) == [] then all.Failure?
      else all == Success(Combine(x, Combine(Converted([], ItemsOf(output)), y)))
  {
    var message := FedBack(Items(output, NOTHING).value);
    FedBackConverts(output, [Field("messages"), Index(0)]);
    assert [message][1..] == [];
    if ItemsOf(output) != [] {
      ExtendByNothing(Converted([], ItemsOf(output)), Messages(after, 0));
      assert Messages([message], 0) == Success(Converted([], ItemsOf(output)));
    }
    ConversationsConcatenate([message], after, 0);
    ConversationsConcatenate(before, [message] + after, 0);
  }

  // ----- whole completions -----

  function ChatUsage(usage: Terminal.Usage): Value {
    Object(map["prompt_tokens" := Number(usage.inputTokens),
               "prompt_tokens_details" := Object(map["cached_tokens" := Number(usage.cachedInputTokens)]),
               "completion_tokens" := Number(usage.outputTokens),
               "completion_tokens_details" := Object(map["reasoning_tokens" := Number(usage.reasoningTokens)]),
               "total_tokens" := Number(usage.totalTokens)])
  }

  function IncompleteReason(response: Value): Option<string> {
    match GetString(At(response, "incomplete_details"), "reason")
    case Some(reason) =>
      if reason == "max_output_tokens" then Some("length")
      else if reason == "content_filter" then Some("content_filter") else None
    case None => None
  }

  /** The completion a terminal is answered with. */
  function ConvertTerminalEvent(t: Terminal.TerminalEvent): Result<Value, ChatError> {
    var response := At(t.payload, "response");
    var id, created, model := GetString(response, "id"), AsI64(At(response, "created_at")),
      GetString(response, "model");
    if t.kind.Failed? || t.kind.Error? || !response.Object? then Failure(Upstream)
    else if GetString(response, "object") != Some("response") then Failure(Upstream)
    else if id.GetOr("") == "" || model.GetOr("") == "" || created.None? || t.usage.None? then Failure(Upstream)
    else if !At(response, "output").Array? then Failure(Upstream)
    else
      var output :- Items(At(response, "output").items, NOTHING);
      var reason := if t.kind.Incomplete? then IncompleteReason(response)
        else if output.toolCalls != [] then Some("tool_calls") else Some("stop");
      if reason.None? then Failure(Upstream)
      else
        var choice := Object(map["index" := Number(0), "message" := Object(CompletionMessage(output)),
                                 "logprobs" := Null, "finish_reason" := String(reason.value)]);
        Success(Object(map["id" := String(id.value), "object" := String("chat.completion"),
                           "created" := Number(created.value), "model" := String(model.value),
                           "choices" := Array([choice]), "usage" := ChatUsage(t.usage.value)]))
  }

  /** Usage as the Chat API counts it. */
  predicate Counts(v: Value, usage: Terminal.Usage) {
    && At(v, "prompt_tokens") == Number(usage.inputTokens)
    && At(At(v, "prompt_tokens_details"), "cached_tokens") == Number(usage.cachedInputTokens)
    && At(v, "completion_tokens") == Number(usage.outputTokens)
    && At(At(v, "completion_tokens_details"), "reasoning_tokens") == Number(usage.reasoningTokens)
    && At(v, "total_tokens") == Number(usage.totalTokens)
  }

  lemma UsageCounts(usage: Terminal.Usage)
    ensures Counts(ChatUsage(usage), usage)
  {
  }

  /** The message of a completion: the assistant's text and refusal, or null, and its calls if it has any. */
  lemma CompletionMessageSays(output: ConvertedOutput)
    ensures var message := Object(CompletionMessage(output));
      && GetString(message, "role") == Some("assistant")
      && At(message, "content") == (if output.text.Some? then String(output.text.value) else Null)
      && Get(message, "refusal") == Some(if output.refusal.Some? then String(output.refusal.value) else Null)
      && Get(message, "tool_calls") == if output.toolCalls == [] then None else Some(Array(output.toolCalls))
  {
  }

  /** Why a terminal ends: cut off by length or filter, or, complete, for its calls if it has any. */
  predicate EndsFor(t: Terminal.TerminalEvent, calls: bool, reason: string) {
    var cut := GetString(At(At(t.payload, "response"), "incomplete_details"), "reason");
    || (t.kind.Completed? && calls && reason == "tool_calls")
    || (t.kind.Completed? && !calls && reason == "stop")
    || (t.kind.Incomplete? && cut == Some("max_output_tokens") && reason == "length")
    || (t.kind.Incomplete? && cut == Some("content_filter") && reason == "content_filter")
  }

  /** A terminal is answered with its own id, time and model, its converted output, why it ended, and its usage. */
  lemma CompletionSays(t: Terminal.TerminalEvent)
    requires ConvertTerminalEvent(t).Success?
    ensures var completion, response := ConvertTerminalEvent(t).value, At(t.payload, "response");
      && At(response, "output").Array? && Items(At(response, "output").items, NOTHING).Success? && t.usage.Some?
      && At(completion, "id") == At(response, "id") && At(completion, "model") == At(response, "model")
      && At(completion, "created") == At(response, "created_at")
        && GetString(completion, "object") == Some("chat.completion")
      && Counts(At(completion, "usage"), t.usage.value)
      && At(completion, "choices").Array? && |At(completion, "choices").items| == 1
      && var choice, output := At(completion, "choices").items[0], Items(At(response, "output").items, NOTHING).value;
         && At(choice, "message") == Object(CompletionMessage(output))
         && At(choice, "index") == Number(0)
         && GetString(choice, "finish_reason").Some?
         && EndsFor(t, output.toolCalls != [], GetString(choice, "finish_reason").value)
  {
    hide CompletionMessage, Items, Counts, ChatUsage;
    UsageCounts(t.usage.value);
  }

  /** Exactly the terminals that are answered with a completion. */
  lemma TerminalsConvert(t: Terminal.TerminalEvent)
    ensures var response := At(t.payload, "response");
      ConvertTerminalEvent(t).Success? <==>
        && (t.kind.Completed? || t.kind.Incomplete?)
        && response.Object? && GetString(response, "object") == Some("response")
        && GetString(response, "id").Some? && GetString(response, "id") != Some("")
        && GetString(response, "model").Some? && GetString(response, "model") != Some("")
        && AsI64(At(response, "created_at")).Some? && t.usage.Some?
        && At(response, "output").Array? && (forall item | item in At(response, "output").items :: OutputItemOk(item))
        && (t.kind.Incomplete? ==>
              || GetString(At(response, "incomplete_details"), "reason") == Some("max_output_tokens")
              || GetString(At(response, "incomplete_details"), "reason") == Some("content_filter"))
  {
    hide CompletionMessage, Items, ChatUsage, OutputItemOk;
    if At(At(t.payload, "response"), "output").Array? {
      OutputConverts(At(At(t.payload, "response"), "output").items, NOTHING);
    }
  }

  // ----- streamed completions -----

  /** What a stream has said about its response so far. */
  datatype StreamState = StreamState(id: Option<string>, created: Option<int>, model: Option<string>,
    includeUsage: bool)

  datatype StreamTerminal = StreamTerminal(chunks: seq<Value>, usage: Terminal.Usage, kind: Terminal.TerminalKind)

  predicate HasMetadata(s: StreamState) { s.id.Some? && s.created.Some? && s.model.Some? }

  function Choice(delta: Value, finishReason: Option<string>): Value {
    var reason := if finishReason.Some? then String(finishReason.value) else Null;
    Object(map["index" := Number(0), "delta" := delta, "logprobs" := Null, "finish_reason" := reason])
  }

  function Chunk(s: StreamState, choices: seq<Value>): Result<map<string, Value>, ChatError> {
    if !HasMetadata(s) then Failure(Upstream)
    else Success(map["id" := String(s.id.value), "object" := String("chat.completion.chunk"),
                     "created" := Number(s.created.value), "model" := String(s.model.value),
                       "choices" := Array(choices)])
  }

  function DeltaChunk(s: StreamState, delta: Value, finishReason: Option<string>): Result<Value, ChatError> {
    var fields :- Chunk(s, [Choice(delta, finishReason)]);
    Success(Object(fields))
  }

  function UsageChunk(s: StreamState, usage: Terminal.Usage): Result<Value, ChatError> {
    var fields :- Chunk(s, []);
    Success(Object(fields["usage" := ChatUsage(usage)]))
  }

  /** The fields are taken one by one; those before a missing one are kept. */
  function Captured(s: StreamState, response: Value): (StreamState, bool) {
    var id, created, model := GetString(response, "id"), AsI64(At(response, "created_at")),
      GetString(response, "model");
    if id.None? then (s, false)
    else if created.None? then (s.(id := id), false)
    else if model.None? then (s.(id := id, created := created), false)
    else (s.(id := id, created := created, model := model), true)
  }

  function OptionalChunk(r: Result<Value, ChatError>): Result<Option<Value>, ChatError> {
    if r.Failure? then Failure(r.error) else Success(Some(r.value))
  }

  const OPENING := Object(map["role" := String("assistant"), "content" := String("")])

  function ContentDelta(text: string): Value { Object(map["content" := String(text)]) }

  function ConvertedEvent(s: StreamState, event: Value): (StreamState, Result<Option<Value>, ChatError>) {
    var kind := GetString(event, "type");
    if kind == Some("response.created") then
      if !At(event, "response").Object? then (s, Failure(Upstream))
      else
        var (after, complete) := Captured(s, At(event, "response"));
        (after, if complete then OptionalChunk(DeltaChunk(after, OPENING, None)) else Failure(Upstream))
    else if kind == Some("response.output_text.delta") then
      var delta := GetString(event, "delta");
      (s, if delta.None? then Failure(Upstream) else OptionalChunk(DeltaChunk(s, ContentDelta(delta.value), None)))
    else (s, Success(None))
  }

  function FinishReason(t: Terminal.TerminalEvent): Option<string> {
    if t.kind.Completed? then Some("stop") else IncompleteReason(At(t.payload, "response"))
  }

  function ConvertedTerminal(s: StreamState, t: Terminal.TerminalEvent)
    : (StreamState, Result<StreamTerminal, ChatError>)
  {
    var response := At(t.payload, "response");
    if t.kind.Failed? || t.kind.Error? || !response.Object? then (s, Failure(Upstream))
    else
      var (after, complete) := Captured(s, response);
      if !complete || t.usage.None? || FinishReason(t).None? then (after, Failure(Upstream))
      else
        var last := DeltaChunk(after, Object(map[]), FinishReason(t));
        var counted := UsageChunk(after, t.usage.value);
        (after, if last.Failure? || counted.Failure? then Failure(Upstream)
                else Success(StreamTerminal([last.value] + if s.includeUsage then [counted.value]
                  else [], t.usage.value, t.kind)))
  }

  class ChatStreamConverter {
    var id: Option<string>
    var created: Option<int>
    var model: Option<string>
    const includeUsage: bool

    constructor (includeUsage: bool)
      ensures View() == StreamState(None, None, None, includeUsage)
    {
      this.id, this.created, this.model, this.includeUsage := None, None, None, includeUsage;
    }

    function View(): StreamState
      reads this
    {
      StreamState(id, created, model, includeUsage)
    }

    method CaptureMetadata(response: Value) returns (complete: bool)
      modifies this
      ensures (View(), complete) == Captured(old(View()), response)
    {
      var text := GetString(response, "id");
      if text.None? { return false; }
      id := text;
      var integer := AsI64(At(response, "created_at"));
      if integer.None? { return false; }
      created := integer;
      text := GetString(response, "model");
      if text.None? { return false; }
      model := text;
      complete := true;
    }

    method ConvertEvent(event: Value) returns (r: Result<Option<Value>, ChatError>)
      modifies this
      ensures (View(), r) == ConvertedEvent(old(View()), event)
    {
      hide DeltaChunk, Captured;
      if GetString(event, "type") == Some("response.created") {
        if !At(event, "response").Object? { return Failure(Upstream); }
        var complete := CaptureMetadata(At(event, "response"));
        if !complete { return Failure(Upstream); }
        return OptionalChunk(DeltaChunk(View(), OPENING, None));
      }
      if GetString(event, "type") == Some("response.output_text.delta") {
        var delta := GetString(event, "delta");
        if delta.None? { return Failure(Upstream); }
        return OptionalChunk(DeltaChunk(View(), ContentDelta(delta.value), None));
      }
      r := Success(None);
    }

    method ConvertTerminal(t: Terminal.TerminalEvent) returns (r: Result<StreamTerminal, ChatError>)
      modifies this
      ensures (View(), r) == ConvertedTerminal(old(View()), t)
    {
      hide DeltaChunk, UsageChunk, Captured;
      var response := At(t.payload, "response");
      if t.kind.Failed? || t.kind.Error? || !response.Object? { return Failure(Upstream); }
      var complete := CaptureMetadata(response);
      if !complete || t.usage.None? || FinishReason(t).None? { return Failure(Upstream); }
      var last := DeltaChunk(View(), Object(map[]), FinishReason(t));
      if last.Failure? { return Failure(Upstream); }
      var chunks := [last.value];
      var counted := UsageChunk(View(), t.usage.value);
      if counted.Failure? { return Failure(Upstream); }
      if includeUsage { chunks := chunks + [counted.value]; }
      assert [last.value] + [] == [last.value];
      r := Success(StreamTerminal(chunks, t.usage.value, t.kind));
    }
  }

  /** Whether a terminal ends a streamed completion; unlike a whole one, its output plays no part. */
  predicate EndsStream(t: Terminal.TerminalEvent) {
    var response := At(t.payload, "response");
    && (t.kind.Completed? || t.kind.Incomplete?) && response.Object? && t.usage.Some?
    && GetString(response, "id").Some? && GetString(response, "model").Some? && AsI64(At(response, "created_at")).Some?
    && (t.kind.Incomplete? ==>
          GetString(At(response, "incomplete_details"), "reason") in {Some("max_output_tokens"),
            Some("content_filter")})
  }

  /** A terminal converts by its own merits, whatever the stream said before it. */
  lemma TerminalConvertsAlone(s: StreamState, t: Terminal.TerminalEvent)
    ensures var r := ConvertedTerminal(s, t).1;
      && (r.Success? <==> EndsStream(t))
      && (r.Success? ==>
        Some(r.value.usage) == t.usage && r.value.kind == t.kind && |r.value.chunks| == if s.includeUsage then 2 else 1)
  {
  }

  function StreamedChunks(s: StreamState, events: seq<Value>): Result<seq<Value>, ChatError>
    decreases |events|
  {
    if events == [] then Success([])
    else
      var (after, r) := ConvertedEvent(s, events[0]);
      if r.Failure? then Failure(r.error)
      else
        var rest :- StreamedChunks(after, events[1..]);
        Success((if r.value.Some? then [r.value.value] else []) + rest)
  }

  /** The text of the upstream's deltas, in order. */
  function DeltasOf(events: seq<Value>): string {
    if events == [] then ""
    else (if GetString(events[0], "type") == Some("response.output_text.delta")
      then GetString(events[0], "delta").GetOr("") else "")
         + DeltasOf(events[1..])
  }

  function ContentOf(chunk: Value): string {
    match At(chunk, "choices")
    case Array(choices) => if |choices| == 1 then GetString(At(choices[0], "delta"), "content").GetOr("") else ""
    case _ => ""
  }

  function ContentsOf(chunks: seq<Value>): string {
    if chunks == [] then "" else ContentOf(chunks[0]) + ContentsOf(chunks[1..])
  }

  lemma ChunkContent(s: StreamState, delta: Value, finishReason: Option<string>)
    requires DeltaChunk(s, delta, finishReason).Success?
    ensures ContentOf(DeltaChunk(s, delta, finishReason).value) == GetString(delta, "content").GetOr("")
    ensures IsChunk(DeltaChunk(s, delta, finishReason).value, s)
    ensures var choices := At(DeltaChunk(s, delta, finishReason).value, "choices");
      && choices.Array? && |choices.items| == 1 && At(choices.items[0], "delta") == delta
      && At(choices.items[0], "index") == Number(0)
      && GetString(choices.items[0], "finish_reason") == finishReason
  {
  }

  /** A chunk of the response the stream has told about. */
  predicate IsChunk(chunk: Value, s: StreamState) {
    && GetString(chunk, "object") == Some("chat.completion.chunk")
    && s.id.Some? && GetString(chunk, "id") == s.id && s.model.Some? && GetString(chunk, "model") == s.model
    && s.created.Some? && At(chunk, "created") == Number(s.created.value)
  }

  lemma UsageChunkSays(s: StreamState, usage: Terminal.Usage)
    requires HasMetadata(s)
    ensures var r := UsageChunk(s, usage);
      && r.Success? && IsChunk(r.value, s) && At(r.value, "choices") == Array([]) && Counts(At(r.value, "usage"), usage)
  {
    hide ChatUsage, Counts;
    UsageCounts(usage);
  }

  lemma ChunkNeedsMetadata(s: StreamState, delta: Value, finishReason: Option<string>)
    ensures DeltaChunk(s, delta, finishReason).Success? <==> HasMetadata(s)
  {
  }

  /** What a stream knows of its response. */
  predicate Knows(s: StreamState, response: Value) {
    && s.id.Some? && s.id == GetString(response, "id") && s.model.Some? && s.model == GetString(response, "model")
    && s.created.Some? && s.created == AsI64(At(response, "created_at"))
  }

  /**
   * The created event opens the stream for its response, a text delta passes its text on once the response is known,
   * a malformed one of either breaks it, and every other event is passed over.
   */
  lemma EventsSay(s: StreamState, event: Value)
    ensures var (after, r) := ConvertedEvent(s, event);
      var kind, response, delta := GetString(event, "type"), At(event, "response"), GetString(event, "delta");
      && after.includeUsage == s.includeUsage
      && (kind == Some("response.created") ==>
            && (r.Success? <==>
                  response.Object? && GetString(response, "id").Some? && GetString(response, "model").Some?
                  && AsI64(At(response, "created_at")).Some?)
            && (r.Success? ==>
                  Knows(after, response) && r.value.Some? && IsChunk(r.value.value, after)
                    && ContentOf(r.value.value) == ""))
      && (kind == Some("response.output_text.delta") ==>
            && after == s && (r.Success? <==> delta.Some? && HasMetadata(s))
            && (r.Success? ==> r.value.Some? && IsChunk(r.value.value, s) && ContentOf(r.value.value) == delta.value))
      && (kind != Some("response.created") && kind != Some("response.output_text.delta") ==>
        after == s && r == Success(None))
  {
    hide DeltaChunk, ContentOf, IsChunk;
    var after := ConvertedEvent(s, event).0;
    ChunkNeedsMetadata(after, OPENING, None);
    ChunkNeedsMetadata(s, ContentDelta(GetString(event, "delta").GetOr("")), None);
    if HasMetadata(after) { ChunkContent(after, OPENING, None); }
    if HasMetadata(s) { ChunkContent(s, ContentDelta(GetString(event, "delta").GetOr("")), None); }
  }

  /** A stream ends with one empty chunk of the terminal's response that says why, and its counts when asked for. */
  lemma LastChunksSay(s: StreamState, t: Terminal.TerminalEvent)
    requires ConvertedTerminal(s, t).1.Success?
    ensures var (after, r) := ConvertedTerminal(s, t);
      && Knows(after, At(t.payload, "response")) && |r.value.chunks| == (if s.includeUsage then 2 else 1)
      && IsChunk(r.value.chunks[0], after) && ContentOf(r.value.chunks[0]) == ""
      && (exists choice, reason ::
            && At(r.value.chunks[0], "choices") == Array([choice])
            && GetString(choice, "finish_reason") == Some(reason) && EndsFor(t, false, reason))
      && (s.includeUsage ==>
            && t.usage.Some? && IsChunk(r.value.chunks[1], after) && At(r.value.chunks[1], "choices") == Array([])
            && Counts(At(r.value.chunks[1], "usage"), t.usage.value))
  {
    hide DeltaChunk, UsageChunk, ContentOf, IsChunk, Counts;
    var after := ConvertedTerminal(s, t).0;
    ChunkContent(after, Object(map[]), FinishReason(t));
    UsageChunkSays(after, t.usage.value);
    var choices := At(ConvertedTerminal(s, t).1.value.chunks[0], "choices");
    assert choices == Array([choices.items[0]]);
    assert EndsFor(t, false, FinishReason(t).value);
  }

  lemma EventContent(s: StreamState, event: Value)
    requires ConvertedEvent(s, event).1.Success?
    ensures var chunk := ConvertedEvent(s, event).1.value;
      (if chunk.Some? then ContentOf(chunk.value) else "") == DeltasOf([event])
  {
    hide DeltaChunk, ContentOf, Captured;
    var after := ConvertedEvent(s, event).0;
    var text := GetString(event, "delta").GetOr("");
    if GetString(event, "type") == Some("response.created") {
      ChunkContent(after, OPENING, None);
    } else if GetString(event, "type") == Some("response.output_text.delta") {
      ChunkContent(s, ContentDelta(text), None);
    }
    assert DeltasOf([event][1..]) == "";
  }

  /** The text a client is streamed is the text of the upstream's deltas, whole and in order. */
  lemma {:induction false} StreamedTextIsUpstreams(s: StreamState, events: seq<Value>)
    requires StreamedChunks(s, events).Success?
    ensures ContentsOf(StreamedChunks(s, events).value) == DeltasOf(events)
    decreases |events|
  {
    hide ConvertedEvent, ContentOf;
    if events != [] {
      var (after, r) := ConvertedEvent(s, events[0]);
      EventContent(s, events[0]);
      StreamedTextIsUpstreams(after, events[1..]);
      assert DeltasOf([events[0]]) + DeltasOf(events[1..]) == DeltasOf(events) by { assert [events[0]][1..] == []; }
      var rest := StreamedChunks(after, events[1..]).value;
      if r.value.Some? { assert ([r.value.value] + rest)[1..] == rest; } else { assert [] + rest == rest; }
    }
  }
}
