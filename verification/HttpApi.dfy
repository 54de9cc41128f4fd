/** An admitted request that must be finalized once, by its handler or by being dropped. */
module PendingRequests {
  import opened Wrappers
  import opened Pricing
  import opened Ledger

  /** A terminal is first recorded with its usage; if that fails, once more as an upstream error without it. */
  function TerminalRows(rows: seq<Row>, id: nat, status: Status, httpStatus: int, fallbackHttpStatus: int,
      usage: Option<BillableUsage>, first: Write, second: Write): seq<Row>
  {
    if CanFinalize(rows, id, status, Some(httpStatus), usage, first)
    then Finalized(rows, id, status, Some(httpStatus), usage, first)
    else Finalized(rows, id, UpstreamError, Some(fallbackHttpStatus), None, second)
  }

  class PendingRequest {
    const store: Store
    const id: nat
    var open: bool
    var dropHttpStatus: Option<int>

    constructor (store: Store, id: nat)
      ensures this.store == store && this.id == id && open && dropHttpStatus == None
    {
      this.store, this.id, this.open, this.dropHttpStatus := store, id, true, None;
    }

    /** Asking this of a finalized request panics. */
    method ResponseStarted(status: int)
      requires open
      modifies this
      ensures open && dropHttpStatus == Some(status)
    {
      dropHttpStatus := Some(status);
    }

    method Finish(status: Status, httpStatus: Option<int>, usage: Option<BillableUsage>, write: Write)
      returns (recorded: bool)
      requires open
      modifies this, store
      ensures !open
      ensures store.rows == Finalized(old(store.rows), id, status, httpStatus, usage, write)
      ensures recorded <==> CanFinalize(old(store.rows), id, status, httpStatus, usage, write)
    {
      open := false;
      var r := store.FinalizeRequest(id, status, httpStatus, usage, write);
      recorded := r.Success?;
    }

    method FinishTerminal(status: Status, httpStatus: int, fallbackHttpStatus: int, usage: Option<BillableUsage>,
        first: Write, second: Write) returns (recorded: bool)
      requires open
      modifies this, store
      ensures !open
      ensures store.rows == TerminalRows(old(store.rows), id, status, httpStatus, fallbackHttpStatus, usage, first,
        second)
      ensures recorded <==> CanFinalize(old(store.rows), id, status, Some(httpStatus), usage, first)
    {
      open := false;
      var r := store.FinalizeRequest(id, status, Some(httpStatus), usage, first);
      if r.Success? { return true; }
      var _ := store.FinalizeRequest(id, UpstreamError, Some(fallbackHttpStatus), None, second);
      recorded := false;
    }

    /** What being dropped does: nothing to a finalized request, otherwise a cancellation. */
    method Drop(write: Write)
      modifies this, store
      ensures !open
      ensures store.rows == if old(open) then Finalized(old(store.rows), id, Canceled, old(dropHttpStatus), None, write)
        else old(store.rows)
    {
      if open {
        open := false;
        var _ := store.FinalizeRequest(id, Canceled, dropHttpStatus, None, write);
      }
    }
  }

  /** The row of an open request has just been finalized: it left the started state, and only it changed. */
  predicate LeftStarted(before: seq<Row>, id: nat, after: seq<Row>) {
    && Follows(before, after) && |after| == |before| && id < |before|
    && before[id].status == Started && after[id].status != Started
    && forall i | 0 <= i < |before| && i != id :: after[i] == before[i]
  }

  /** While ledger writes succeed, finalizing a started row without usage always takes it out of the started state. */
  lemma FinalizingLeavesStarted(rows: seq<Row>, id: nat, status: Status, httpStatus: Option<int>, write: Write)
    requires id < |rows| && rows[id].status == Started && status != Started && write.io
    ensures LeftStarted(rows, id, Finalized(rows, id, status, httpStatus, None, write))
    ensures Finalized(rows, id, status, httpStatus, None, write)[id].status == status
  {
    FinalizedFollows(rows, id, status, httpStatus, None, write);
  }

  /** A terminal too, even when its usage cannot be recorded. */
  lemma TerminalLeavesStarted(rows: seq<Row>, id: nat, status: Status, httpStatus: int, fallbackHttpStatus: int,
      usage: Option<BillableUsage>, first: Write, second: Write)
    requires id < |rows| && rows[id].status == Started && status != Started && first.io && second.io
    ensures LeftStarted(rows, id, TerminalRows(rows, id, status, httpStatus, fallbackHttpStatus, usage, first, second))
  {
    if CanFinalize(rows, id, status, Some(httpStatus), usage, first) {
      FinalizedFollows(rows, id, status, Some(httpStatus), usage, first);
    } else {
      FinalizingLeavesStarted(rows, id, UpstreamError, Some(fallbackHttpStatus), second);
    }
  }

  /** A terminal's row: the first attempt's when it works, otherwise an upstream error without usage. */
  lemma TerminalRowSays(rows: seq<Row>, id: nat, status: Status, httpStatus: int, fallbackHttpStatus: int,
      usage: Option<BillableUsage>, first: Write, second: Write)
    requires id < |rows| && rows[id].status == Started && second.io
    ensures var row := TerminalRows(rows, id, status, httpStatus, fallbackHttpStatus, usage, first, second)[id];
      if CanFinalize(rows, id, status, Some(httpStatus), usage, first) then
        row.status == status && row.httpStatus == Some(httpStatus) && RecordsUsage(row, usage)
      else
        row.status == UpstreamError && row.httpStatus == Some(fallbackHttpStatus) && row.charge == None
  {
  }
}

/** The HTTP handlers: relaying upstream events and finalizing the request on every path. */
module HttpApi {
  import opened Wrappers
  import opened Json
  import opened Config
  import opened Pricing
  import opened Ledger
  import opened PendingRequests
  import Terminal = ResponsesTerminal
  import Chat

  const OK := 200
  const GATEWAY := 502

  function Billable(usage: Option<Terminal.Usage>, rates: Rates): Option<BillableUsage> {
    if usage.None? then None
    else Some(BillableUsage(usage.value.inputTokens, usage.value.cachedInputTokens, usage.value.outputTokens, rates))
  }

  function StatusOf(kind: Terminal.TerminalKind): Status {
    match kind
    case Completed => Completed
    case Incomplete => Incomplete
    case Failed => UpstreamError
    case Error => UpstreamError
  }

  // ----- Responses over an upstream WebSocket -----

  /** What one wait of the relay ends with; a text may not be JSON, and its delivery may fail. */
  datatype Wire = Gone | Text(payload: Option<Value>, delivered: bool) | Ping(answered: bool) | Pong | Closing

  datatype Outcome =
    | Abandoned(status: Status)
    | Terminated(event: Terminal.TerminalEvent, received: Terminal.TerminalEvent)

  function OutputOf(t: Terminal.TerminalEvent): Value {
    At(At(t.payload, "response"), "output")
  }

  function WithOutput(t: Terminal.TerminalEvent, items: seq<Value>): Terminal.TerminalEvent
    requires t.payload.Object?
  {
    var response := Terminal.FieldsOf(At(t.payload, "response"))["output" := Array(items)];
    t.(payload := Object(t.payload.fields["response" := Object(response)]))
  }

  /** A completed terminal without output items of its own takes the items streamed before it. */
  function WithStreamedOutput(t: Terminal.TerminalEvent, items: seq<Value>): Terminal.TerminalEvent {
    if t.kind.Completed? && items != [] && t.payload.Object? && (OutputOf(t).Null? || OutputOf(t) == Array([]))
    then WithOutput(t, items) else t
  }

  function StreamedItem(payload: Value): seq<Value> {
    if GetString(payload, "type") == Some("response.output_item.done") && At(payload, "item").Object?
      then [At(payload, "item")] else []
  }

  function ForwardOutcome(script: seq<Wire>, items: seq<Value>): Outcome {
    if script == [] then Abandoned(Canceled)
    else match script[0]
      case Gone => Abandoned(Canceled)
      case Closing => Abandoned(UpstreamError)
      case Pong => ForwardOutcome(script[1..], items)
      case Ping(answered) => if answered then ForwardOutcome(script[1..], items) else Abandoned(UpstreamError)
      case Text(payload, delivered) =>
        if payload.None? || GetString(payload.value, "type").None? then Abandoned(UpstreamError)
        else
          var more := items + StreamedItem(payload.value);
          var parsed := Terminal.ParseTerminalPayload(payload.value);
          if parsed.Failure? then Abandoned(UpstreamError)
          else if parsed.value.Some? then Terminated(WithStreamedOutput(parsed.value.value, more), parsed.value.value)
          else if delivered then ForwardOutcome(script[1..], more)
          else Abandoned(Canceled)
  }

  method ForwardWebsocketResponsesStream(request: PendingRequest, rates: Rates, script: seq<Wire>, first: Write,
      second: Write) returns (r: Option<Terminal.TerminalEvent>)
    requires request.open
    modifies request, request.store
    ensures !request.open
    ensures match ForwardOutcome(script, [])
      case Abandoned(status) =>
        r == None && request.store.rows == Finalized(old(request.store.rows), request.id, status, Some(OK), None, first)
      case Terminated(event, _) =>
        var usage := Billable(event.usage, rates);
        && request.store.rows == TerminalRows(old(request.store.rows), request.id, StatusOf(event.kind), OK, OK, usage,
          first, second)
        && r == if CanFinalize(old(request.store.rows), request.id, StatusOf(event.kind), Some(OK), usage, first)
          then Some(event) else None
  {
    var items: seq<Value> := [];
    assert script[0..] == script;
    for i := 0 to |script|
      invariant request.open && request.store.rows == old(request.store.rows)
      invariant ForwardOutcome(script[i..], items) == ForwardOutcome(script, [])
    {
      assert script[i..][0] == script[i] && script[i..][1..] == script[i + 1..];
      match script[i]
      case Gone =>
        var _ := request.Finish(Canceled, Some(OK), None, first);
        return None;
      case Closing =>
        var _ := request.Finish(UpstreamError, Some(OK), None, first);
        return None;
      case Pong =>
      case Ping(answered) =>
        if !answered {
          var _ := request.Finish(UpstreamError, Some(OK), None, first);
          return None;
        }
      case Text(payload, delivered) =>
        if payload.None? || GetString(payload.value, "type").None? {
          var _ := request.Finish(UpstreamError, Some(OK), None, first);
          return None;
        }
        items := items + StreamedItem(payload.value);
        var parsed := Terminal.ParseTerminalPayload(payload.value);
        if parsed.Failure? {
          var _ := request.Finish(UpstreamError, Some(OK), None, first);
          return None;
        }
        if parsed.value.Some? {
          var terminal := WithStreamedOutput(parsed.value.value, items);
          var recorded := request.FinishTerminal(StatusOf(terminal.kind), OK, OK, Billable(terminal.usage, rates),
            first, second);
          return if recorded then Some(terminal) else None;
        }
        if !delivered {
          var _ := request.Finish(Canceled, Some(OK), None, first);
          return None;
        }
    }
    assert script[|script|..] == [];
    var _ := request.Finish(Canceled, Some(OK), None, first);
    r := None;
  }

  /** The items streamed before the script's terminal. */
  function StreamedItems(script: seq<Wire>): seq<Value> {
    if script == [] || script[0].Gone? || script[0].Closing? then []
    else if !script[0].Text? then StreamedItems(script[1..])
    else if script[0].payload.None? then []
    else
      var payload := script[0].payload.value;
      StreamedItem(payload)
      + if Terminal.ParseTerminalPayload(payload) == Success(None) then StreamedItems(script[1..]) else []
  }

  /** Each terminal kind has its final status. */
  lemma KindsHaveTheirStatus()
    ensures StatusOf(Terminal.Completed) == Completed && StatusOf(Terminal.Incomplete) == Incomplete
    ensures StatusOf(Terminal.Failed) == UpstreamError && StatusOf(Terminal.Error) == UpstreamError
  {
  }

  /** Usage is billed count by count. */
  lemma UsageIsBilled(usage: Terminal.Usage, rates: Rates)
    ensures Billable(None, rates) == None
    ensures var billed := Billable(Some(usage), rates);
      && billed.Some? && billed.value.rates == rates && billed.value.inputTokens == usage.inputTokens
      && billed.value.cachedInputTokens == usage.cachedInputTokens && billed.value.outputTokens == usage.outputTokens
  {
  }

  /** Only the output of a terminal is replaced. */
  lemma OutputIsReplaced(t: Terminal.TerminalEvent, items: seq<Value>)
    requires t.payload.Object?
    ensures var r := WithOutput(t, items);
      && OutputOf(r) == Array(items) && r.kind == t.kind && r.usage == t.usage
      && (forall name | name != "response" :: Get(r.payload, name) == Get(t.payload, name))
      && (forall name | name != "output" :: Get(At(r.payload, "response"), name) == Get(At(t.payload, "response"),
        name))
  {
  }

  /** An item is kept when the upstream says it is done and gives an object. */
  lemma DoneItemsAreKept(payload: Value)
    ensures StreamedItem(payload) ==
      if GetString(payload, "type") == Some("response.output_item.done") && At(payload, "item").Object?
      then [At(payload, "item")] else []
  {
  }

  /** What the relay reads past: keep-alives, and events that end nothing and reach the client. */
  predicate Passes(wire: Wire) {
    || wire == Pong || wire == Ping(true)
    || (wire.Text? && wire.payload.Some? && GetString(wire.payload.value, "type").Some? && wire.delivered
        && Terminal.ParseTerminalPayload(wire.payload.value) == Success(None))
  }

  function WireStop(script: seq<Wire>): (i: nat)
    ensures i <= |script| && (forall j | 0 <= j < i :: Passes(script[j])) && (i < |script| ==> !Passes(script[i]))
  {
    if script == [] || !Passes(script[0]) then 0 else 1 + WireStop(script[1..])
  }

  /**
   * The first thing that does not pass decides. A client that is gone cancels; a closed or broken upstream, text that
   * is not an event and a malformed terminal are upstream errors; an event that does not arrive cancels; a terminal
   * ends the relay as it is, or, completed without items of its own, with the items streamed before it.
   */
  lemma {:induction false} RelayIsDecidedByItsStop(script: seq<Wire>, items: seq<Value>)
    ensures var outcome, stop := ForwardOutcome(script, items), WireStop(script);
      if stop == |script| then outcome == Abandoned(Canceled)
      else match script[stop]
        case Gone => outcome == Abandoned(Canceled)
        case Closing => outcome == Abandoned(UpstreamError)
        case Ping(answered) => !answered && outcome == Abandoned(UpstreamError)
        case Pong => false
        case Text(payload, delivered) =>
          if payload.None? || GetString(payload.value, "type").None? then outcome == Abandoned(UpstreamError)
          else
            var parsed := Terminal.ParseTerminalPayload(payload.value);
            if parsed.Failure? then outcome == Abandoned(UpstreamError)
            else if parsed.value.None? then !delivered && outcome == Abandoned(Canceled)
            else
              var received, streamed := parsed.value.value, items + StreamedItems(script);
              var output := OutputOf(received);
              && outcome.Terminated? && outcome.received == received
              && (received.kind.Completed? && streamed != [] && received.payload.Object?
                  && (output == Null || output == Array([])) ==>
                    outcome.event == WithOutput(received, streamed))
              && (!received.kind.Completed? || streamed == [] || (output != Null && output != Array([])) ==>
                    outcome.event == received)
  {
    hide Terminal.ParseTerminalPayload;
    if script == [] {
    } else if Passes(script[0]) {
      var more := items + if script[0].Text? then StreamedItem(script[0].payload.value) else [];
      assert script[0].Text? || items + [] == items;
      RelayIsDecidedByItsStop(script[1..], more);
      if script[0].Text? {
        assert items + (StreamedItem(script[0].payload.value) + StreamedItems(script[1..])) ==
          more + StreamedItems(script[1..]);
      }
    } else if script[0].Text? && script[0].payload.Some? {
      assert items + (StreamedItem(script[0].payload.value) + []) == items + StreamedItem(script[0].payload.value);
    }
  }

  lemma {:induction false} OutcomeUsesStreamedItems(script: seq<Wire>, items: seq<Value>)
    ensures var outcome := ForwardOutcome(script, items);
      outcome.Terminated? ==> outcome.event == WithStreamedOutput(outcome.received, items + StreamedItems(script))
  {
    if script != [] {
      match script[0] {
        case Text(payload, _) =>
          if payload.Some? {
            var more := items + StreamedItem(payload.value);
            OutcomeUsesStreamedItems(script[1..], more);
            assert items + (StreamedItem(payload.value) + StreamedItems(script[1..])) ==
              more + StreamedItems(script[1..]);
            assert items + (StreamedItem(payload.value) + []) == more;
          }
        case _ => OutcomeUsesStreamedItems(script[1..], items);
      }
    }
  }

  /**
   * When the upstream streams every item it keeps and its completed terminal repeats them or leaves them out, the
   * output the session remembers is exactly what the upstream kept; with nothing streamed, the terminal must say so.
   */
  lemma RememberedOutputIsUpstreams(script: seq<Wire>, appended: seq<Value>)
    requires var outcome := ForwardOutcome(script, []);
      && outcome.Terminated? && outcome.received.kind.Completed? && At(outcome.received.payload, "response").Object?
      && StreamedItems(script) == appended
      && (OutputOf(outcome.received) == Array(appended) || OutputOf(outcome.received).Null?
        || OutputOf(outcome.received) == Array([]))
    ensures var outcome := ForwardOutcome(script, []);
      OutputOf(outcome.event) == Array(appended) <==> appended != [] || OutputOf(outcome.received) == Array([])
  {
    OutcomeUsesStreamedItems(script, []);
    assert [] + StreamedItems(script) == StreamedItems(script);
  }

  /** A terminal handed on by the relay already has its row: matching status, all its tokens and their price. */
  lemma CommittedBeforeDelivery(rows: seq<Row>, id: nat, event: Terminal.TerminalEvent, rates: Rates, first: Write,
      second: Write)
    requires CanFinalize(rows, id, StatusOf(event.kind), Some(OK), Billable(event.usage, rates), first)
    ensures var row := TerminalRows(rows, id, StatusOf(event.kind), OK, OK, Billable(event.usage, rates), first,
      second)[id];
      && rows[id].status == Started && row.status == StatusOf(event.kind) && row.httpStatus == Some(OK)
      && RecordsUsage(row, Billable(event.usage, rates))
  {
  }

  // ----- Chat Completions -----

  /** Whether a terminal converts to a Chat completion. */
  predicate ConvertsTerminal(t: Terminal.TerminalEvent) {
    Chat.ConvertTerminalEvent(t).Success?
  }

  /** A server-sent event of the Chat upstream: a terminal, or data that need not be JSON and may not be delivered. */
  datatype Sse =
    | ShuttingDown
    | ClientClosed
    | Broken
    | Ended(event: Terminal.TerminalEvent)
    | Data(data: Option<Value>, delivered: bool)

  datatype Final = Final(status: Status, httpStatus: Option<int>, usage: Option<BillableUsage>, terminal: bool)

  function ChatStreamFinal(script: seq<Sse>, rates: Rates, state: Chat.StreamState): Final
    decreases |script|
  {
    if script == [] then Final(UpstreamError, Some(OK), None, false)
    else match script[0]
      case ShuttingDown => Final(Canceled, Some(OK), None, false)
      case ClientClosed => Final(Canceled, Some(OK), None, false)
      case Broken => Final(UpstreamError, Some(OK), None, false)
      case Ended(event) =>
        if Terminal.UpstreamError(event).Some? || !Chat.EndsStream(event)
        then Final(UpstreamError, Some(OK), Billable(event.usage, rates), true)
        else Final(StatusOf(event.kind), Some(OK), Billable(event.usage, rates), true)
      case Data(data, delivered) =>
        if data.None? then ChatStreamFinal(script[1..], rates, state)
        else
          var (after, chunk) := Chat.ConvertedEvent(state, data.value);
          if chunk.Failure? then Final(UpstreamError, Some(OK), None, false)
          else if chunk.value.Some? && !delivered then Final(Canceled, Some(OK), None, false)
          else ChatStreamFinal(script[1..], rates, after)
  }

  function FinalRows(rows: seq<Row>, id: nat, final: Final, fallback: int, first: Write, second: Write): seq<Row> {
    if final.terminal then TerminalRows(rows, id, final.status, final.httpStatus.GetOr(0), fallback, final.usage, first,
      second)
    else Finalized(rows, id, final.status, final.httpStatus, final.usage, first)
  }

  /** What the Chat relay reads past, given what the stream has said: no JSON, no chunk, or a chunk that arrives. */
  predicate Streams(event: Sse, state: Chat.StreamState) {
    && event.Data?
    && (event.data.None?
        || var chunk := Chat.ConvertedEvent(state, event.data.value).1;
           chunk.Success? && (chunk.value.None? || event.delivered))
  }

  /** Where the Chat relay stops, and what the stream has said by then. */
  function StreamStop(script: seq<Sse>, state: Chat.StreamState): (r: (nat, Chat.StreamState))
    ensures r.0 <= |script|
    decreases |script|
  {
    if script == [] || !Streams(script[0], state) then (0, state)
    else
      var after := if script[0].data.None? then state else Chat.ConvertedEvent(state, script[0].data.value).0;
      var (stop, last) := StreamStop(script[1..], after);
      (stop + 1, last)
  }

  /**
   * The first event the Chat relay cannot read past decides: shutdown and a client that is gone cancel, a broken or
   * ended stream, data that does not convert and a terminal that is an error or ends no completion are upstream
   * errors, a chunk that does not arrive cancels, and any other terminal gives its own status, with its usage.
   */
  lemma {:induction false} ChatRelayIsDecidedByItsStop(script: seq<Sse>, rates: Rates, state: Chat.StreamState)
    ensures var final, stop := ChatStreamFinal(script, rates, state), StreamStop(script, state).0;
      && final.httpStatus == Some(200)
      && if stop == |script| then final.status == UpstreamError && !final.terminal && final.usage == None
         else match script[stop]
           case ShuttingDown => final.status == Canceled && !final.terminal && final.usage == None
           case ClientClosed => final.status == Canceled && !final.terminal && final.usage == None
           case Broken => final.status == UpstreamError && !final.terminal && final.usage == None
           case Data(data, delivered) =>
             && data.Some? && !final.terminal && final.usage == None
             && var chunk := Chat.ConvertedEvent(StreamStop(script, state).1, data.value).1;
                final.status == if chunk.Failure? then UpstreamError else Canceled
           case Ended(event) =>
             && final.terminal && final.usage == Billable(event.usage, rates)
             && final.status ==
                  if Terminal.UpstreamError(event).Some? || !Chat.EndsStream(event) then UpstreamError
                  else if event.kind.Completed? then Completed else Incomplete
    decreases |script|
  {
    hide Chat.ConvertedEvent, Terminal.UpstreamError;
    if script != [] && Streams(script[0], state) {
      var after := if script[0].data.None? then state else Chat.ConvertedEvent(state, script[0].data.value).0;
      ChatRelayIsDecidedByItsStop(script[1..], rates, after);
    }
  }

  method ForwardChatStream(request: PendingRequest, rates: Rates, includeUsage: bool, script: seq<Sse>, first: Write,
      second: Write)
    requires request.open
    modifies request, request.store
    ensures !request.open
    ensures var final := ChatStreamFinal(script, rates, Chat.StreamState(None, None, None, includeUsage));
      request.store.rows == FinalRows(old(request.store.rows), request.id, final, OK, first, second)
  {
    hide Chat.ConvertedEvent, Chat.ConvertedTerminal, Chat.EndsStream, TerminalRows, Finalized, CanFinalize;
    var converter := new Chat.ChatStreamConverter(includeUsage);
    ghost var whole := ChatStreamFinal(script, rates, converter.View());
    assert script[0..] == script;
    for i := 0 to |script|
      invariant request.open && fresh(converter) && request.store.rows == old(request.store.rows)
      invariant ChatStreamFinal(script[i..], rates, converter.View()) == whole
    {
      assert script[i..][0] == script[i] && script[i..][1..] == script[i + 1..];
      match script[i]
      case ShuttingDown =>
        var _ := request.Finish(Canceled, Some(OK), None, first);
        return;
      case ClientClosed =>
        var _ := request.Finish(Canceled, Some(OK), None, first);
        return;
      case Broken =>
        var _ := request.Finish(UpstreamError, Some(OK), None, first);
        return;
      case Ended(event) =>
        var usage := Billable(event.usage, rates);
        if Terminal.UpstreamError(event).Some? {
          var _ := request.FinishTerminal(UpstreamError, OK, OK, usage, first, second);
          return;
        }
        Chat.TerminalConvertsAlone(converter.View(), event);
        var converted := converter.ConvertTerminal(event);
        if converted.Failure? {
          var _ := request.FinishTerminal(UpstreamError, OK, OK, usage, first, second);
          return;
        }
        var status := StatusOf(converted.value.kind);
        var _ := request.FinishTerminal(status, OK, OK, Billable(Some(converted.value.usage), rates), first, second);
        return;
      case Data(data, delivered) =>
        if data.Some? {
          var chunk := converter.ConvertEvent(data.value);
          if chunk.Failure? {
            var _ := request.Finish(UpstreamError, Some(OK), None, first);
            return;
          }
          if chunk.value.Some? && !delivered {
            var _ := request.Finish(Canceled, Some(OK), None, first);
            return;
          }
        }
    }
    assert script[|script|..] == [];
    var _ := request.Finish(UpstreamError, Some(OK), None, first);
  }

  /** What reading a whole Chat response ends with. */
  datatype ChatRead =
    | ReadShutDown
    | ReadGone
    | Missing
    | InvalidTerminal(usage: Option<Terminal.Usage>)
    | Converted(event: Terminal.TerminalEvent)

  /** An event of a response read as a whole: a terminal, or data that need not be JSON. */
  datatype WholeSse =
    | WholeShutDown
    | WholeGone
    | WholeBroken
    | WholeData(data: Option<Value>)
    | WholeEnded(event: Terminal.TerminalEvent)

  /** The finished item some data announces. */
  function FinishedItem(data: Option<Value>): seq<Value> {
    if data.Some? && GetString(data.value, "type") == Some("response.output_item.done") && Get(data.value, "item").Some?
    then [At(data.value, "item")] else []
  }

  function FinishedItems(script: seq<WholeSse>): seq<Value> {
    if script == [] || !script[0].WholeData? then [] else FinishedItem(script[0].data) + FinishedItems(script[1..])
  }

  function FinishedOutput(t: Terminal.TerminalEvent, items: seq<Value>): Terminal.TerminalEvent {
    if OutputOf(t) == Array([]) && items != [] && t.payload.Object?
    then WithOutput(t, items) else t
  }

  function ChatReadOf(script: seq<WholeSse>, items: seq<Value>): ChatRead {
    if script == [] then Missing
    else match script[0]
      case WholeShutDown => ReadShutDown
      case WholeGone => ReadGone
      case WholeBroken => Missing
      case WholeData(data) => ChatReadOf(script[1..], items + FinishedItem(data))
      case WholeEnded(event) =>
        if Terminal.UpstreamError(event).Some? then InvalidTerminal(event.usage)
        else
          var finished := FinishedOutput(event, items);
          if ConvertsTerminal(finished) then Converted(finished) else InvalidTerminal(event.usage)
  }

  /** An empty output takes the finished items, if there are any; any other stays. */
  lemma EmptyOutputsAreFinished(t: Terminal.TerminalEvent, items: seq<Value>)
    ensures OutputOf(t) == Array([]) ==> OutputOf(FinishedOutput(t, items)) == Array(items)
    ensures OutputOf(t) != Array([]) || items == [] ==> FinishedOutput(t, items) == t
    ensures FinishedOutput(t, items).kind == t.kind && FinishedOutput(t, items).usage == t.usage
  {
  }

  /** An item is finished when the upstream says it is done and gives anything at all. */
  lemma DoneItemsAreFinished(data: Option<Value>)
    ensures FinishedItem(data) ==
      if data.Some? && GetString(data.value, "type") == Some("response.output_item.done") && data.value.Object?
         && "item" in data.value.fields
      then [data.value.fields["item"]] else []
  {
  }

  /** Where reading stops: the first event that is not plain data. */
  function StopOf(script: seq<WholeSse>): (i: nat)
    ensures i <= |script| && (forall j | 0 <= j < i :: script[j].WholeData?) && (i < |script| ==> !script[i].WholeData?)
  {
    if script == [] || !script[0].WholeData? then 0 else 1 + StopOf(script[1..])
  }

  /**
   * Only the first event that is not data decides, with the items finished before it. A converted terminal has usage
   * and an output of its own, or the finished items in place of an empty one, and meets every demand of conversion.
   */
  lemma {:induction false} ReadIsDecidedByItsStop(script: seq<WholeSse>, items: seq<Value>)
    ensures var r, stop := ChatReadOf(script, items), StopOf(script);
      if stop == |script| then r == Missing
      else match script[stop]
        case WholeShutDown => r == ReadShutDown
        case WholeGone => r == ReadGone
        case WholeBroken => r == Missing
        case WholeEnded(event) =>
          var finished := FinishedOutput(event, items + FinishedItems(script));
          if Terminal.UpstreamError(event).None? && ConvertsTerminal(finished)
          then r == Converted(finished) && finished.usage.Some? && finished.usage == event.usage
            && finished.kind == event.kind
               && (OutputOf(finished) == OutputOf(event)
                   || (OutputOf(event) == Array([]) && OutputOf(finished) == Array(items + FinishedItems(script))))
          else r == InvalidTerminal(event.usage)
        case WholeData(_) => false
  {
    hide ConvertsTerminal;
    if script != [] && script[0].WholeData? {
      var more := items + FinishedItem(script[0].data);
      ReadIsDecidedByItsStop(script[1..], more);
      assert items + (FinishedItem(script[0].data) + FinishedItems(script[1..])) == more + FinishedItems(script[1..]);
    } else {
      assert items + [] == items;
      if script != [] && script[0].WholeEnded? { ConvertedHasUsage(FinishedOutput(script[0].event, items)); }
    }
  }

  lemma ConvertedHasUsage(t: Terminal.TerminalEvent)
    ensures ConvertsTerminal(t) ==> t.usage.Some? && (t.kind.Completed? || t.kind.Incomplete?) && OutputOf(t).Array?
  {
    hide Chat.ConvertTerminalEvent;
    Chat.TerminalsConvert(t);
  }

  method ReadChatTerminal(script: seq<WholeSse>) returns (r: ChatRead)
    ensures r == ChatReadOf(script, [])
    ensures r.Converted? ==> ConvertsTerminal(r.event) && r.event.usage.Some?
  {
    var items: seq<Value> := [];
    assert script[0..] == script;
    for i := 0 to |script|
      invariant ChatReadOf(script[i..], items) == ChatReadOf(script, [])
    {
      assert script[i..][0] == script[i] && script[i..][1..] == script[i + 1..];
      match script[i]
      case WholeShutDown => return ReadShutDown;
      case WholeGone => return ReadGone;
      case WholeBroken => return Missing;
      case WholeData(data) =>
        items := items + FinishedItem(data);
      case WholeEnded(event) =>
        if Terminal.UpstreamError(event).Some? { return InvalidTerminal(event.usage); }
        var finished := FinishedOutput(event, items);
        return if ConvertsTerminal(finished) then Converted(finished) else InvalidTerminal(event.usage);
    }
    assert script[|script|..] == [];
    r := Missing;
  }

  // ----- the Chat handler -----

  /** The answer of the Chat upstream: headers, then a stream or a whole response. */
  datatype ChatUpstream = SendShutDown | SendGone | SendFailed | Answer(success: bool)

  datatype StreamScript = StreamScript(includeUsage: bool, events: seq<Sse>)

  /**
   * One converted request as its handler sees it. `insertLost` is a client that leaves while the insert runs:
   * the handler is dropped and never learns the row's number.
   */
  datatype ChatScript = ChatScript(begin: Begin, insertLost: bool, upstream: ChatUpstream, stream: Option<StreamScript>,
    whole: seq<WholeSse>, first: Write, second: Write)

  function ChatFinal(script: ChatScript, rates: Rates): Final {
    match script.upstream
    case SendShutDown => Final(Canceled, None, None, false)
    case SendGone => Final(Canceled, None, None, false)
    case SendFailed => Final(UpstreamError, Some(GATEWAY), None, false)
    case Answer(success) =>
      if !success then Final(UpstreamError, Some(GATEWAY), None, false)
      else if script.stream.Some? then
        var stream := script.stream.value;
        ChatStreamFinal(stream.events, rates, Chat.StreamState(None, None, None, stream.includeUsage))
      else match ChatReadOf(script.whole, [])
        case ReadShutDown => Final(Canceled, None, None, false)
        case ReadGone => Final(Canceled, None, None, false)
        case Missing => Final(UpstreamError, Some(GATEWAY), None, false)
        case InvalidTerminal(usage) => Final(UpstreamError, Some(GATEWAY), Billable(usage, rates), true)
        case Converted(event) => Final(StatusOf(event.kind), Some(OK), Billable(event.usage, rates), true)
  }

  function ChatFallback(script: ChatScript): int {
    if script.upstream == Answer(true) && script.stream.Some? then OK else GATEWAY
  }

  /** How a Chat request whose answer is read as a whole, or never comes, is finalized. */
  lemma ChatFinalSays(script: ChatScript, rates: Rates)
    ensures var final, read := ChatFinal(script, rates), ChatReadOf(script.whole, []);
      && (script.upstream == SendShutDown || script.upstream == SendGone ==>
            final.status == Canceled && final.httpStatus == None && final.usage == None && !final.terminal)
      && (script.upstream == SendFailed || script.upstream == Answer(false) ==>
            final.status == UpstreamError && final.httpStatus == Some(502) && final.usage == None && !final.terminal)
      && (script.upstream == Answer(true) && script.stream.None? ==>
            && (read == ReadShutDown || read == ReadGone ==>
                  final.status == Canceled && final.httpStatus == None && final.usage == None && !final.terminal)
            && (read == Missing ==>
                  final.status == UpstreamError && final.httpStatus == Some(502) && final.usage == None
                    && !final.terminal)
            && (read.InvalidTerminal? ==>
                  && final.status == UpstreamError && final.httpStatus == Some(502)
                  && final.usage == Billable(read.usage, rates) && final.terminal)
            && (read.Converted? ==>
                  && final.httpStatus == Some(200) && final.usage == Billable(read.event.usage, rates) && final.terminal
                  && final.status == if read.event.kind.Completed? then Completed else Incomplete))
    ensures ChatFallback(script) == if script.upstream == Answer(true) && script.stream.Some? then 200 else 502
  {
    hide ConvertsTerminal;
    ReadIsDecidedByItsStop(script.whole, []);
    if ChatReadOf(script.whole, []).Converted? { ConvertedHasUsage(ChatReadOf(script.whole, []).event); }
  }

  /** The ledger after a converted Chat request, whatever its admission decides. */
  function ChatRows(rows: seq<Row>, context: RequestContext, quota: Quota, candidates: ModelCandidates,
      script: ChatScript): seq<Row>
  {
    var (begun, admission) := Begun(rows, context, quota, candidates, script.begin);
    if !admission.Admitted? || script.insertLost then begun
    else
      FinalRows(begun, admission.id, ChatFinal(script, admission.effective.rates), ChatFallback(script), script.first,
        script.second)
  }

  /** A completion is answered only once its row holds the same terminal's status and usage. */
  ghost predicate AnsweredAfterCommit(rows: seq<Row>, context: RequestContext, quota: Quota,
      candidates: ModelCandidates, script: ChatScript)
  {
    var (begun, admission) := Begun(rows, context, quota, candidates, script.begin);
    var read := ChatReadOf(script.whole, []);
    && admission.Admitted? && !script.insertLost && script.stream.None? && script.upstream == Answer(true)
      && read.Converted?
    && var usage := Billable(read.event.usage, admission.effective.rates);
       && CanFinalize(begun, admission.id, StatusOf(read.event.kind), Some(OK), usage, script.first)
       && var row := ChatRows(rows, context, quota, candidates, script)[admission.id];
          row.status == StatusOf(read.event.kind) && row.httpStatus == Some(OK) && RecordsUsage(row, usage)
  }

  method ChatCompletions(store: Store, context: RequestContext, quota: Quota, candidates: ModelCandidates,
      script: ChatScript) returns (completion: Option<Value>)
    modifies store
    ensures store.rows == ChatRows(old(store.rows), context, quota, candidates, script)
    ensures completion.Some? ==>
      && AnsweredAfterCommit(old(store.rows), context, quota, candidates, script)
      && Chat.ConvertTerminalEvent(ChatReadOf(script.whole, []).event) == Success(completion.value)
  {
    hide Begun, ChatReadOf, ChatStreamFinal, Finalized, CanFinalize, ConvertsTerminal, RecordsUsage, TerminalRows;
    completion := None;
    var admission := store.BeginRequest(context, quota, candidates, script.begin);
    if !admission.Admitted? || script.insertLost { return; }
    ghost var begun := store.rows;
    var rates := admission.effective.rates;
    var request := new PendingRequest(store, admission.id);
    match script.upstream
    case SendShutDown => var _ := request.Finish(Canceled, None, None, script.first);
    case SendGone => request.Drop(script.first);
    case SendFailed => var _ := request.Finish(UpstreamError, Some(GATEWAY), None, script.first);
    case Answer(success) =>
      if !success {
        var _ := request.Finish(UpstreamError, Some(GATEWAY), None, script.first);
        return;
      }
      if script.stream.Some? {
        request.ResponseStarted(OK);
        ForwardChatStream(request, rates, script.stream.value.includeUsage, script.stream.value.events, script.first,
          script.second);
        return;
      }
      var read := ReadChatTerminal(script.whole);
      match read {
        case ReadShutDown => var _ := request.Finish(Canceled, None, None, script.first);
        case ReadGone => request.Drop(script.first);
        case Missing => var _ := request.Finish(UpstreamError, Some(GATEWAY), None, script.first);
        case InvalidTerminal(usage) =>
          var _ := request.FinishTerminal(UpstreamError, GATEWAY, GATEWAY, Billable(usage, rates), script.first,
            script.second);
        case Converted(event) =>
          var usage := Billable(event.usage, rates);
          var recorded := request.FinishTerminal(StatusOf(event.kind), OK, GATEWAY, usage, script.first, script.second);
          if recorded {
            RecordedRow(begun, admission.id, StatusOf(event.kind), OK, GATEWAY, usage, script.first, script.second);
            completion := Some(Chat.ConvertTerminalEvent(event).value);
          }
      }
  }

  lemma RecordedRow(rows: seq<Row>, id: nat, status: Status, httpStatus: int, fallbackHttpStatus: int,
      usage: Option<BillableUsage>, first: Write, second: Write)
    requires CanFinalize(rows, id, status, Some(httpStatus), usage, first)
    ensures var after := TerminalRows(rows, id, status, httpStatus, fallbackHttpStatus, usage, first, second);
      && id < |after| && after[id].status == status && after[id].httpStatus == Some(httpStatus)
        && RecordsUsage(after[id], usage)
  {
  }

  lemma {:induction false} ChatStreamNeverStarted(script: seq<Sse>, rates: Rates, state: Chat.StreamState)
    ensures var final := ChatStreamFinal(script, rates, state);
      && final.status != Started && (final.terminal || final.usage.None?)
      && (final.usage.Some? ==> final.usage.value.rates == rates)
    decreases |script|
  {
    hide Chat.ConvertedEvent, Chat.EndsStream;
    if script != [] {
      ChatStreamNeverStarted(script[1..], rates, state);
      if script[0].Data? && script[0].data.Some? {
        ChatStreamNeverStarted(script[1..], rates, Chat.ConvertedEvent(state, script[0].data.value).0);
      }
    }
  }

  lemma ChatFinalIsFinal(script: ChatScript, rates: Rates)
    ensures var final := ChatFinal(script, rates);
      && final.status != Started && (final.terminal || final.usage.None?)
      && (final.usage.Some? ==> final.usage.value.rates == rates)
  {
    hide ChatReadOf, ChatStreamFinal;
    if script.stream.Some? {
      var stream := script.stream.value;
      ChatStreamNeverStarted(stream.events, rates, Chat.StreamState(None, None, None, stream.includeUsage));
    }
  }

  /**
   * While ledger writes succeed, every path of the Chat handler leaves its row final and touches no other,
   * except one: a client that leaves during the insert leaves the row started for good.
   */
  lemma ChatRowLeavesStarted(rows: seq<Row>, context: RequestContext, quota: Quota, candidates: ModelCandidates,
      script: ChatScript)
    requires script.first.io && script.second.io
    ensures var (begun, admission) := Begun(rows, context, quota, candidates, script.begin);
      var after := ChatRows(rows, context, quota, candidates, script);
      && Follows(rows, after) && |after| == |begun|
      && (forall i | 0 <= i < |begun| && Some(i) != (if admission.Admitted? then Some(admission.id) else None) ::
        after[i] == begun[i])
      && (admission.Admitted? ==>
        admission.id < |after| && (after[admission.id].status == Started <==> script.insertLost))
  {
    hide ChatFinal, AdmittedRow, TerminalRows, Finalized;
    var (begun, admission) := Begun(rows, context, quota, candidates, script.begin);
    AdmissionAddsItsRow(rows, context, quota, candidates, script.begin);
    hide Begun;
    if admission.Admitted? && !script.insertLost {
      var final := ChatFinal(script, admission.effective.rates);
      ChatFinalIsFinal(script, admission.effective.rates);
      FinalLeavesStarted(begun, admission.id, final, ChatFallback(script), script.first, script.second);
      FollowsTransitively(rows, begun, ChatRows(rows, context, quota, candidates, script));
    }
  }

  lemma FinalLeavesStarted(rows: seq<Row>, id: nat, final: Final, fallback: int, first: Write, second: Write)
    requires id < |rows| && rows[id].status == Started && first.io && second.io
    requires final.status != Started && (final.terminal || final.usage.None?)
    ensures LeftStarted(rows, id, FinalRows(rows, id, final, fallback, first, second))
  {
    hide TerminalRows, Finalized, LeftStarted;
    if final.terminal {
      TerminalLeavesStarted(rows, id, final.status, final.httpStatus.GetOr(0), fallback, final.usage, first, second);
    } else {
      FinalizingLeavesStarted(rows, id, final.status, final.httpStatus, first);
    }
  }

  /** Whichever candidate was admitted, what a Chat request costs is the price at the rates of the model it logged. */
  lemma ChatRowIsPriced(settings: Settings, requested: string, effort: Option<string>, rows: seq<Row>,
      context: RequestContext, quota: Quota, script: ChatScript)
    requires Valid(settings) && Candidates(settings, requested, effort).Some?
    ensures var candidates := Candidates(settings, requested, effort).value;
      var (begun, admission) := Begun(rows, context, quota, candidates, script.begin);
      admission.Admitted? ==>
        var row := ChatRows(rows, context, quota, candidates, script)[admission.id];
        && row.model == admission.effective.model && row.reasoningEffort == admission.effective.reasoningEffort
        && PricedAt(settings, row)
  {
    hide ChatFinal, AdmittedRow, PricedAt, Valid, Candidates, TerminalRows, Finalized;
    var candidates := Candidates(settings, requested, effort).value;
    CandidatesArePriced(settings, requested, effort);
    var (begun, admission) := Begun(rows, context, quota, candidates, script.begin);
    AdmissionAddsItsRow(rows, context, quota, candidates, script.begin);
    hide Begun, Follows;
    if admission.Admitted? {
      UnchargedIsPriced(settings, begun[admission.id]);
      if !script.insertLost {
        var final := ChatFinal(script, admission.effective.rates);
        ChatFinalIsFinal(script, admission.effective.rates);
        FinalIsPriced(settings, begun, admission.id, final, ChatFallback(script), script.first, script.second);
      }
    }
  }

  /** The body of a converted Chat request: what it asks for, and everything else it carries. */
  function ChatBody(model: string, effort: Option<string>, rest: map<string, Value>): map<string, Value> {
    var named := (rest - {"reasoning"})["model" := String(model)];
    if effort.None? then named else named["reasoning" := Object(map["effort" := String(effort.value)])]
  }

  /**
   * For Chat, sent = logged = billed without exception: the body sent upstream names the row's model and exactly the
   * row's effort, none included, and the row's cost is the price at the rates configured for that model.
   */
  lemma ChatSentLoggedBilled(settings: Settings, requested: string, effort: Option<string>, rest: map<string, Value>,
      rows: seq<Row>, context: RequestContext, quota: Quota, script: ChatScript)
    requires Valid(settings) && Candidates(settings, requested, effort).Some?
    ensures var candidates := Candidates(settings, requested, effort).value;
      var (begun, admission) := Begun(rows, context, quota, candidates, script.begin);
      var body := ChatBody(requested, effort, rest);
      admission.Admitted? ==>
        && (admission.effective.reasoningEffort.Some? <==> RequestedEffort(body).Some?)
        && var sent := ApplyEffectiveRequest(body, admission.effective);
           var row := ChatRows(rows, context, quota, candidates, script)[admission.id];
           && GetString(Object(sent), "model") == Some(row.model) && RequestedEffort(sent) == row.reasoningEffort
           && PricedAt(settings, row)
  {
    hide ChatRows, PricedAt, Valid, Candidates;
    var candidates := Candidates(settings, requested, effort).value;
    CandidatesArePriced(settings, requested, effort);
    var (begun, admission) := Begun(rows, context, quota, candidates, script.begin);
    AdmissionAddsItsRow(rows, context, quota, candidates, script.begin);
    hide Begun, Follows;
    ChatRowIsPriced(settings, requested, effort, rows, context, quota, script);
    ChatBodyAsks(requested, effort, rest);
    if admission.Admitted? { AppliedIsLogged(ChatBody(requested, effort, rest), admission.effective); }
  }

  lemma ChatBodyAsks(model: string, effort: Option<string>, rest: map<string, Value>)
    ensures RequestedEffort(ChatBody(model, effort, rest)) == effort
    ensures GetString(Object(ChatBody(model, effort, rest)), "model") == Some(model)
  {
  }

  lemma UnchargedIsPriced(settings: Settings, row: Row)
    requires row.charge.None?
    ensures PricedAt(settings, row)
  {
  }

  lemma TerminalIsPriced(settings: Settings, rows: seq<Row>, id: nat, status: Status, httpStatus: int,
      fallbackHttpStatus: int, usage: Option<BillableUsage>, first: Write, second: Write)
    requires id < |rows| && PricedAt(settings, rows[id])
    requires usage.Some? ==>
      rows[id].model in settings.modelPrices && usage.value.rates == settings.modelPrices[rows[id].model].rates
    ensures var after := TerminalRows(rows, id, status, httpStatus, fallbackHttpStatus, usage, first, second);
      |after| == |rows| && PricedAt(settings, after[id]) && RowFollows(rows[id], after[id])
  {
    FinalizingIsPriced(settings, rows, id, status, Some(httpStatus), usage, first);
    FinalizingIsPriced(settings, rows, id, UpstreamError, Some(fallbackHttpStatus), None, second);
    FinalizedFollows(rows, id, status, Some(httpStatus), usage, first);
    FinalizedFollows(rows, id, UpstreamError, Some(fallbackHttpStatus), None, second);
    hide PricedAt, CanFinalize, Finalized;
  }

  lemma FinalIsPriced(settings: Settings, rows: seq<Row>, id: nat, final: Final, fallback: int, first: Write,
      second: Write)
    requires id < |rows| && PricedAt(settings, rows[id])
    requires final.usage.Some? ==>
      rows[id].model in settings.modelPrices && final.usage.value.rates == settings.modelPrices[rows[id].model].rates
    ensures var after := FinalRows(rows, id, final, fallback, first, second);
      |after| == |rows| && PricedAt(settings, after[id]) && RowFollows(rows[id], after[id])
  {
    TerminalIsPriced(settings, rows, id, final.status, final.httpStatus.GetOr(0), fallback, final.usage, first, second);
    FinalizingIsPriced(settings, rows, id, final.status, final.httpStatus, final.usage, first);
    FinalizedFollows(rows, id, final.status, final.httpStatus, final.usage, first);
    hide PricedAt, CanFinalize, Finalized, TerminalRows;
  }

  // ----- the Responses handler, up to the session actor -----

  function UserMessage(text: string): Value {
    Array([Object(map["type" := String("message"), "role" := String("user"),
                      "content" := Array([Object(map["type" := String("input_text"), "text" := String(text)])])])])
  }

  predicate FalseOrNull(value: Value) { value == Null || value == Bool(false) }

  /** The body a session is given, or the member at fault. */
  function NormalizeResponsesRequest(value: Value): Result<map<string, Value>, string> {
    if !value.Object? then Failure("request")
    else if At(value, "stream") != Bool(true) then Failure("stream")
    else if !FalseOrNull(At(value, "store")) then Failure("store")
    else if !FalseOrNull(At(value, "background")) then Failure("background")
    else if Get(value, "max_output_tokens").Some? then Failure("max_output_tokens")
    else
      var body := value.fields;
      var spelled := if At(value, "input").String? then body["input" := UserMessage(body["input"].s)] else body;
      Success(spelled["store" := Bool(false)])
  }

  /** Only the input and the store member of an accepted request change, and the input is spelled out. */
  lemma NormalizationKeeps(value: Value)
    requires NormalizeResponsesRequest(value).Success?
    ensures var body := NormalizeResponsesRequest(value).value;
      && (forall name | name !in {"input", "store"} :: Get(Object(body), name) == Get(value, name))
      && At(Object(body), "store") == Bool(false) && At(Object(body), "stream") == Bool(true)
        && !At(Object(body), "input").String?
      && RequestedEffort(body) == GetString(At(value, "reasoning"), "effort")
      && NormalizeResponsesRequest(Object(body)) == Success(body)
  {
    var body := NormalizeResponsesRequest(value).value;
    assert body["store" := Bool(false)] == body;
    assert Get(Object(body), "reasoning") == Get(value, "reasoning");
    assert Get(Object(body), "stream") == Get(value, "stream");
    assert Get(Object(body), "background") == Get(value, "background");
    assert Get(Object(body), "max_output_tokens") == Get(value, "max_output_tokens");
  }

  /** Exactly the streaming, unstored, foreground requests are accepted, and text input becomes a user's message. */
  lemma NormalizationAccepts(value: Value)
    ensures NormalizeResponsesRequest(value).Success? <==>
      && value.Object?
      && "stream" in value.fields && value.fields["stream"] == Bool(true)
      && ("store" in value.fields ==> value.fields["store"] == Null || value.fields["store"] == Bool(false))
      && ("background" in value.fields ==>
        value.fields["background"] == Null || value.fields["background"] == Bool(false))
      && "max_output_tokens" !in value.fields
    ensures NormalizeResponsesRequest(value).Success? ==>
      var body, own := NormalizeResponsesRequest(value).value, At(value, "input");
      && (!own.String? ==> Get(Object(body), "input") == Get(value, "input"))
      && (own.String? ==>
            && At(Object(body), "input").Array? && |At(Object(body), "input").items| == 1
            && var message := At(Object(body), "input").items[0];
               && GetString(message, "type") == Some("message") && GetString(message, "role") == Some("user")
               && At(message, "content").Array? && |At(message, "content").items| == 1
               && GetString(At(message, "content").items[0], "type") == Some("input_text")
               && GetString(At(message, "content").items[0], "text") == Some(own.s))
  {
    hide UserMessage;
    if At(value, "input").String? { UserSays(At(value, "input").s); }
  }

  lemma UserSays(text: string)
    ensures var input := UserMessage(text);
      && input.Array? && |input.items| == 1
      && GetString(input.items[0], "type") == Some("message") && GetString(input.items[0], "role") == Some("user")
      && At(input.items[0], "content").Array? && |At(input.items[0], "content").items| == 1
      && GetString(At(input.items[0], "content").items[0], "type") == Some("input_text")
      && GetString(At(input.items[0], "content").items[0], "text") == Some(text)
  {
  }

  datatype ModelLookup = LookupGone | LookupFailed | Unsupported | Supported
  datatype Acquired = SessionBusy | ActorStopped | HandedOver

  /** `keyed` tells whether the session headers are acceptable; `reject` is the write of a refused request. */
  datatype ResponsesScript = ResponsesScript(keyed: bool, reject: Write, begin: Begin, insertLost: bool,
    model: ModelLookup, session: Acquired, first: Write)

  datatype Accepted = Accepted(body: map<string, Value>, candidates: ModelCandidates)

  /** What an acceptable request asks for. */
  function Acceptable(settings: Settings, parsed: Option<Value>, script: ResponsesScript): (r: Option<Accepted>)
    requires Valid(settings)
    ensures r.Some? ==>
      && parsed.Some? && NormalizeResponsesRequest(parsed.value) == Success(r.value.body)
      && Candidates(settings, GetString(parsed.value, "model").GetOr(""), RequestedEffort(r.value.body)) ==
        Some(r.value.candidates)
  {
    if parsed.None? then None
    else
      var body := NormalizeResponsesRequest(parsed.value);
      var candidates :=
        Candidates(settings, GetString(parsed.value, "model").GetOr(""),
          GetString(At(parsed.value, "reasoning"), "effort"));
      if candidates.None? || body.Failure? || !script.keyed then None
      else
        NormalizationKeeps(parsed.value);
        Some(Accepted(body.value, candidates.value))
  }

  function HttpContext(identity: ApiKey): RequestContext {
    RequestContext(identity.id, Ledger.Responses, HttpSse)
  }

  function RefusedRow(identity: ApiKey, parsed: Option<Value>, write: Write): Row {
    var model := if parsed.None? then "" else GetString(parsed.value, "model").GetOr("");
    var effort := if parsed.None? then None else GetString(At(parsed.value, "reasoning"), "effort");
    RejectedRow(HttpContext(identity), model, effort, Some(400), write.now)
  }

  /** The ledger when the handler returns; the row of a request handed over is still started. */
  function ResponsesRows(settings: Settings, identity: ApiKey, rows: seq<Row>, parsed: Option<Value>,
      script: ResponsesScript): seq<Row>
    requires Valid(settings)
  {
    var accepted := Acceptable(settings, parsed, script);
    if accepted.None? then rows + if script.reject.io then [RefusedRow(identity, parsed, script.reject)] else []
    else
      var (begun, admission) := Begun(rows, HttpContext(identity), identity.quota, accepted.value.candidates,
        script.begin);
      if !admission.Admitted? || script.insertLost then begun
      else if !script.model.Supported? then Finalized(begun, admission.id, Canceled, None, None, script.first)
      else match script.session
        case SessionBusy => Finalized(begun, admission.id, Rejected, Some(409), None, script.first)
        case ActorStopped => Finalized(begun, admission.id, Canceled, Some(503), None, script.first)
        case HandedOver => begun
  }

  /** The request handed to a session: its row, the model it was admitted on and its body. */
  datatype Handover = Handover(id: nat, effective: EffectiveModel, body: map<string, Value>)

  function HandedTo(settings: Settings, identity: ApiKey, rows: seq<Row>, parsed: Option<Value>,
      script: ResponsesScript): (r: Option<Handover>)
    requires Valid(settings)
  {
    var accepted := Acceptable(settings, parsed, script);
    if accepted.None? then None
    else
      var admission := Begun(rows, HttpContext(identity), identity.quota, accepted.value.candidates, script.begin).1;
      if !admission.Admitted? || script.insertLost || !script.model.Supported? || !script.session.HandedOver? then None
      else
        AdmissionAddsItsRow(rows, HttpContext(identity), identity.quota, accepted.value.candidates, script.begin);
        CandidatesArePriced(settings, GetString(parsed.value, "model").GetOr(""), RequestedEffort(accepted.value.body));
        Some(Handover(admission.id, admission.effective,
          ApplyEffectiveRequest(accepted.value.body, admission.effective)))
  }

  /** A request the session takes over is still open; on every other path the handler has finalized it. */
  method Responses(settings: Settings, identity: ApiKey, store: Store, parsed: Option<Value>, script: ResponsesScript)
    returns (turn: PendingRequest?, body: map<string, Value>)
    requires Valid(settings)
    modifies store
    ensures store.rows == ResponsesRows(settings, identity, old(store.rows), parsed, script)
    ensures var handed := HandedTo(settings, identity, old(store.rows), parsed, script);
      && (turn != null <==> handed.Some?)
      && (turn != null ==>
            fresh(turn) && turn.open && turn.store == store && turn.id == handed.value.id && body == handed.value.body)
  {
    hide Begun, Candidates, Valid, NormalizeResponsesRequest, Finalized, RefusedRow, ApplyEffectiveRequest;
    turn, body := null, map[];
    var accepted := Acceptable(settings, parsed, script);
    if accepted.None? {
      var refused := RefusedRow(identity, parsed, script.reject);
      assert store.rows + [] == store.rows;
      RefusedRowIs(identity, parsed, script.reject);
      var _ := store.RecordRejection(HttpContext(identity), refused.model, refused.reasoningEffort, Some(400),
        script.reject);
      return;
    }
    var candidates := accepted.value.candidates;
    AdmissionAddsItsRow(store.rows, HttpContext(identity), identity.quota, candidates, script.begin);
    CandidatesArePriced(settings, GetString(parsed.value, "model").GetOr(""), RequestedEffort(accepted.value.body));
    var admission := store.BeginRequest(HttpContext(identity), identity.quota, candidates, script.begin);
    if !admission.Admitted? || script.insertLost { return; }
    body := ApplyEffectiveRequest(accepted.value.body, admission.effective);
    var request := new PendingRequest(store, admission.id);
    if !script.model.Supported? {
      request.Drop(script.first);
      return;
    }
    match script.session
    case SessionBusy => var _ := request.Finish(Rejected, Some(409), None, script.first);
    case ActorStopped => var _ := request.Finish(Canceled, Some(503), None, script.first);
    case HandedOver => turn := request;
  }

  /** How the handler leaves an admitted request it does not hand over, and what a refused one is recorded as. */
  lemma ResponsesRowsSay(settings: Settings, identity: ApiKey, rows: seq<Row>, parsed: Option<Value>,
      script: ResponsesScript)
    requires Valid(settings) && script.first.io && script.reject.io
    ensures var accepted, after := Acceptable(settings, parsed, script),
      ResponsesRows(settings, identity, rows, parsed, script);
      && (accepted.None? <==>
            || parsed.None? || !script.keyed || NormalizeResponsesRequest(parsed.value).Failure?
            || GetString(parsed.value, "model").GetOr("") !in settings.modelPrices)
      && (accepted.None? ==>
            && |after| == |rows| + 1 && after[..|rows|] == rows
            && var row := after[|rows|];
               && row.status == Rejected && row.httpStatus == Some(400) && row.apiKeyId == identity.id
               && row.protocol == Ledger.Responses && row.transport == HttpSse
               && row.model == (if parsed.None? then "" else GetString(parsed.value, "model").GetOr(""))
               && row.reasoningEffort == if parsed.None? then None
                 else GetString(At(parsed.value, "reasoning"), "effort"))
      && (accepted.Some? ==>
            var admission := Begun(rows, HttpContext(identity), identity.quota, accepted.value.candidates,
              script.begin).1;
            admission.Admitted? && !script.insertLost ==>
              && admission.id < |after|
              && var row := after[admission.id];
                 && (script.model != Supported ==> row.status == Canceled && row.httpStatus == None)
                 && (script.model == Supported && script.session == SessionBusy ==>
                       row.status == Rejected && row.httpStatus == Some(409))
                 && (script.model == Supported && script.session == ActorStopped ==>
                       row.status == Canceled && row.httpStatus == Some(503))
                 && (script.model == Supported && script.session == HandedOver ==> row.status == Started))
  {
    hide NormalizeResponsesRequest, Candidates, Valid, Finalized;
    if parsed.Some? {
      CandidatesAreCapped(settings, GetString(parsed.value, "model").GetOr(""),
        GetString(At(parsed.value, "reasoning"), "effort"));
    }
    var accepted := Acceptable(settings, parsed, script);
    if accepted.Some? {
      var context, candidates := HttpContext(identity), accepted.value.candidates;
      var (begun, admission) := Begun(rows, context, identity.quota, candidates, script.begin);
      AdmissionAddsItsRow(rows, context, identity.quota, candidates, script.begin);
      hide Begun, Acceptable;
      if admission.Admitted? {
        FinalizedWithStatus(begun, admission.id, Canceled, None, script.first);
        FinalizedWithStatus(begun, admission.id, Rejected, Some(409), script.first);
        FinalizedWithStatus(begun, admission.id, Canceled, Some(503), script.first);
      }
    }
  }

  lemma FinalizedWithStatus(rows: seq<Row>, id: nat, status: Status, httpStatus: Option<int>, write: Write)
    requires id < |rows| && rows[id].status == Started && write.io
    ensures var after := Finalized(rows, id, status, httpStatus, None, write);
      id < |after| && after[id].status == status && after[id].httpStatus == httpStatus && after[id].charge == None
  {
  }

  lemma RefusedRowIs(identity: ApiKey, parsed: Option<Value>, write: Write)
    ensures var row := RefusedRow(identity, parsed, write);
      row == RejectedRow(HttpContext(identity), row.model, row.reasoningEffort, Some(400), write.now)
  {
  }
}
