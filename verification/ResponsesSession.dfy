/** The session actor: one turn at a time over the upstream connection it owns. */
module ResponsesSession {
  import opened Wrappers
  import opened Json
  import opened Headers
  import opened UpstreamWs
  import opened Config
  import opened Ledger
  import opened PendingRequests
  import opened HttpApi
  import D = DeltaProtocol
  import Terminal = ResponsesTerminal

  /** What can stop the relaying of a turn: its pending request is dropped, or its recorded terminal is lost. */
  datatype Cut = BeforeFinish | AfterFinish

  /** The rest of a turn once its frame is sent, as the network and the client let it happen. */
  datatype Relay = Relay(shuttingDown: bool, replied: bool, cut: Option<Cut>, wires: seq<Wire>, permit: bool,
    appended: seq<Value>, first: Write, second: Write)

  datatype TurnEnd = ErrorReply(status: int) | TerminalSent(event: Terminal.TerminalEvent) | CanceledTurn

  /** What a completed terminal lets the session remember. */
  function CompletionOf(event: Terminal.TerminalEvent): Option<D.Completion> {
    var response := At(event.payload, "response");
    var id, output := GetString(response, "id"), At(response, "output");
    if event.kind.Completed? && id.GetOr("") != "" && output.Array? then Some(D.Completion(id.value, output.items))
      else None
  }

  function RefusedStatus(status: int, relay: Relay): Status {
    if status == D.BAD_REQUEST then Rejected
    else if relay.shuttingDown || status == D.UNAVAILABLE then Canceled
    else UpstreamError
  }

  function ForwardedRows(rows: seq<Row>, id: nat, rates: Rates, relay: Relay): seq<Row> {
    match ForwardOutcome(relay.wires, [])
    case Abandoned(status) => Finalized(rows, id, status, Some(OK), None, relay.first)
    case Terminated(event, _) =>
      TerminalRows(rows, id, StatusOf(event.kind), OK, OK, Billable(event.usage, rates), relay.first, relay.second)
  }

  /** The ledger after a whole turn. */
  function TurnRows(rows: seq<Row>, id: nat, rates: Rates, prepared: D.Prepared, relay: Relay): seq<Row> {
    match prepared
    case Refused(status) => Finalized(rows, id, RefusedStatus(status, relay), Some(status), None, relay.first)
    case Interrupted => Finalized(rows, id, Canceled, None, None, relay.first)
    case Ready(_, _, _) =>
      if !relay.replied || relay.cut == Some(BeforeFinish)
        then Finalized(rows, id, Canceled, Some(OK), None, relay.first)
      else ForwardedRows(rows, id, rates, relay)
  }

  /** The terminal the relay hands on, once its row is final. */
  function Handed(rows: seq<Row>, id: nat, rates: Rates, relay: Relay): Option<Terminal.TerminalEvent> {
    if !relay.replied || relay.cut.Some? then None
    else match ForwardOutcome(relay.wires, [])
      case Abandoned(_) => None
      case Terminated(event, _) =>
        if CanFinalize(rows, id, StatusOf(event.kind), Some(OK), Billable(event.usage, rates), relay.first)
          then Some(event) else None
  }

  function EndingOf(rows: seq<Row>, id: nat, rates: Rates, relay: Relay): D.Ending {
    var handed := Handed(rows, id, rates, relay);
    D.Ending(relay.replied, handed.Some?, relay.permit, if handed.Some? then CompletionOf(handed.value)
      else None, relay.appended)
  }

  function EndOf(rows: seq<Row>, id: nat, rates: Rates, prepared: D.Prepared, relay: Relay): TurnEnd {
    match prepared
    case Refused(status) => ErrorReply(status)
    case Interrupted => CanceledTurn
    case Ready(_, _, _) =>
      var handed := Handed(rows, id, rates, relay);
      if handed.Some? && relay.permit then TerminalSent(handed.value) else CanceledTurn
  }

  class Session {
    const actor: D.Actor
    var upstream: Option<D.Contexts>
    var handshakeHeaders: HeaderMap
    var upstreamResponseId: Option<string>
    var snapshot: Option<D.Snapshot>
    var bytes: nat

    constructor (actor: D.Actor)
      ensures this.actor == actor && View() == D.INITIAL
    {
      this.actor := actor;
      upstream, handshakeHeaders, upstreamResponseId, snapshot, bytes := None, map[], None, None, 0;
    }

    function View(): D.State
      reads this
    {
      D.State(upstream, handshakeHeaders, upstreamResponseId, snapshot, bytes)
    }

    method OnIdleMessage(message: D.IdleMessage)
      modifies this
      ensures View() == D.Idle(old(View()), message)
    {
      match message
      case Ping(answered) =>
        if !answered { upstream := None; }
      case Pong =>
      case RateLimits =>
      case Other => upstream := None;
    }

    /** Connects if it must, prewarms unless it can continue, and sends the turn's frame. */
    method Prepare(turn: D.Turn, script: D.Script) returns (r: D.Prepared)
      modifies this
      ensures (View(), r) == D.Prepare(actor, old(View()), turn, script)
    {
      hide D.PlanOf, D.Answered, D.Frame;
      if script.start.Some? { return if script.start.value.ShutDown? then D.Refused(D.UNAVAILABLE) else D.Interrupted; }
      var planned := D.PlanOf(actor, snapshot, turn);
      if planned.Failure? { return D.Refused(planned.error); }
      var plan := planned.value;
      var connectionReused := upstream.Some? && handshakeHeaders == plan.headers;
      if !connectionReused {
        if !script.connect.Done? { return D.Unready(script.connect); }
        upstream := Some(map[]);
        handshakeHeaders := plan.headers;
        upstreamResponseId := None;
      }
      var contextReused := snapshot.Some? && upstreamResponseId == Some(snapshot.value.responseId)
                           && snapshot.value.parameters == plan.parameters && snapshot.value.input <= plan.input;
      var frame: Body;
      if contextReused {
        frame := D.Frame(plan.body, snapshot.value.responseId, plan.input[|snapshot.value.input|..]);
      } else {
        upstreamResponseId := None;
        if !script.prewarm.Done? { return D.Unready(script.prewarm); }
        upstream := Some(D.Answered(upstream.value, plan.prewarm, script.prewarm.value, []));
        frame := D.Frame(plan.body, script.prewarm.value, plan.input);
      }
      if !script.send.Done? { return D.Unready(script.send); }
      r := D.Ready(plan.input, plan.parameters, frame);
    }

    /**
     * One turn. The pending request is finalized on every path, a terminal is handed on only after its row is
     * final, and the session moves as the protocol says.
     */
    method Respond(turn: D.Turn, pending: PendingRequest, rates: Rates, script: D.Script, relay: Relay)
      returns (end: TurnEnd)
      requires pending.open && pending.dropHttpStatus == None
      modifies this, pending, pending.store
      ensures !pending.open
      ensures var rows, prepared := old(pending.store.rows), D.Prepare(actor, old(View()), turn, script).1;
        && pending.store.rows == TurnRows(rows, pending.id, rates, prepared, relay)
        && View() == D.Step(actor, old(View()), D.Job(turn, script, EndingOf(rows, pending.id, rates, relay)))
        && end == EndOf(rows, pending.id, rates, prepared, relay)
    {
      hide D.PlanOf, D.Exchange, D.Prepare, ForwardOutcome, TerminalRows, Finalized, CanFinalize;
      var prepared := Prepare(turn, script);
      match prepared {
        case Interrupted =>
          upstream := None;
          pending.Drop(relay.first);
          return CanceledTurn;
        case Refused(status) =>
          if status != D.BAD_REQUEST { upstream := None; }
          var _ := pending.Finish(RefusedStatus(status, relay), Some(status), None, relay.first);
          return ErrorReply(status);
        case Ready(_, _, _) =>
      }
      pending.ResponseStarted(OK);
      if !relay.replied || relay.cut == Some(BeforeFinish) {
        upstream := None;
        pending.Drop(relay.first);
        return CanceledTurn;
      }
      var handed := ForwardWebsocketResponsesStream(pending, rates, relay.wires, relay.first, relay.second);
      if relay.cut.Some? || handed.None? || !relay.permit {
        upstream := None;
        return CanceledTurn;
      }
      var completion := CompletionOf(handed.value);
      if actor.keyed && completion.Some? {
        var input := prepared.input + completion.value.output;
        var remembered := D.Snapshot(completion.value.responseId, input, prepared.parameters);
        upstream := if upstream.None? then None
                    else Some(D.Answered(upstream.value, prepared.frame, completion.value.responseId, relay.appended));
        bytes := actor.measure(remembered);
        upstreamResponseId := Some(remembered.responseId);
        snapshot := Some(remembered);
      } else {
        upstream := None;
      }
      end := TerminalSent(handed.value);
    }
  }

  /** The status a turn's row gets, by what became of the turn. */
  predicate Finalizes(prepared: D.Prepared, relay: Relay, status: Status, httpStatus: Option<int>) {
    match prepared
    case Interrupted => status == Canceled && httpStatus == None
    case Refused(code) =>
      && httpStatus == Some(code)
      && status == if code == 400 then Rejected else if code == 503 || relay.shuttingDown then Canceled
        else UpstreamError
    case Ready(_, _, _) =>
      && httpStatus == Some(200)
      && if !relay.replied || relay.cut == Some(BeforeFinish) then status == Canceled
         else match ForwardOutcome(relay.wires, [])
           case Abandoned(abandoned) => status == abandoned
           case Terminated(event, _) =>
             status == match event.kind
               case Completed => Completed
               case Incomplete => Incomplete
               case Failed => UpstreamError
               case Error => UpstreamError
  }

  /**
   * While ledger writes succeed, a turn's row gets the status of what became of the turn; only a terminal is charged,
   * and a terminal whose usage cannot be recorded is an upstream error without a charge.
   */
  lemma TurnsAreFinalizedAs(rows: seq<Row>, id: nat, rates: Rates, prepared: D.Prepared, relay: Relay)
    requires id < |rows| && rows[id].status == Started && relay.first.io && relay.second.io
    ensures var row, handed := TurnRows(rows, id, rates, prepared, relay)[id], ForwardOutcome(relay.wires, []);
      var terminal := prepared.Ready? && relay.replied && relay.cut != Some(BeforeFinish) && handed.Terminated?;
      && (!terminal ==> Finalizes(prepared, relay, row.status, row.httpStatus) && row.charge == None)
      && (terminal ==>
            || (Finalizes(prepared, relay, row.status, row.httpStatus)
                && RecordsUsage(row, Billable(handed.event.usage, rates)))
            || (row.status == UpstreamError && row.httpStatus == Some(200) && row.charge == None))
      && (terminal && handed.event.usage.None? ==> Finalizes(prepared, relay, row.status, row.httpStatus))
  {
    hide ForwardOutcome, CanFinalize, Finalized, TerminalRows, RecordsUsage;
    KindsHaveTheirStatus();
    match prepared
    case Interrupted => FinalizedWithStatus(rows, id, Canceled, None, relay.first);
    case Refused(status) => FinalizedWithStatus(rows, id, RefusedStatus(status, relay), Some(status), relay.first);
    case Ready(_, _, _) =>
      FinalizedWithStatus(rows, id, Canceled, Some(OK), relay.first);
      match ForwardOutcome(relay.wires, []) {
        case Abandoned(status) => FinalizedWithStatus(rows, id, status, Some(OK), relay.first);
        case Terminated(event, _) =>
          var usage := Billable(event.usage, rates);
          TerminalRowSays(rows, id, StatusOf(event.kind), OK, OK, usage, relay.first, relay.second);
          if event.usage.None? { FinalizesWithoutUsage(rows, id, StatusOf(event.kind), Some(OK), relay.first); }
      }
  }

  lemma FinalizesWithoutUsage(rows: seq<Row>, id: nat, status: Status, httpStatus: Option<int>, write: Write)
    requires id < |rows| && rows[id].status == Started && write.io
    ensures CanFinalize(rows, id, status, httpStatus, None, write)
  {
  }

  /**
   * What a session remembers of a turn is what its terminal says: only a completed one with an id and an output, and
   * then exactly those; and the client is answered with that terminal, with the status of a refusal, or not at all.
   */
  lemma TerminalsAreRemembered(rows: seq<Row>, id: nat, rates: Rates, prepared: D.Prepared, relay: Relay)
    ensures var ending, end := EndingOf(rows, id, rates, relay), EndOf(rows, id, rates, prepared, relay);
      && (ending.completion.Some? ==>
            var event := ForwardOutcome(relay.wires, []).event;
            && ForwardOutcome(relay.wires, []).Terminated? && relay.replied && relay.cut.None? && event.kind.Completed?
            && GetString(At(event.payload, "response"), "id") == Some(ending.completion.value.responseId)
            && ending.completion.value.responseId != ""
            && At(At(event.payload, "response"), "output") == Array(ending.completion.value.output))
      && (ending.terminal && ForwardOutcome(relay.wires, []).event.kind.Completed?
          && GetString(At(ForwardOutcome(relay.wires, []).event.payload, "response"), "id").GetOr("") != ""
          && At(At(ForwardOutcome(relay.wires, []).event.payload, "response"), "output").Array? ==>
            ending.completion.Some?)
      && (end.TerminalSent? <==> prepared.Ready? && ending.terminal && relay.permit)
      && (end.TerminalSent? ==>
            ForwardOutcome(relay.wires, []).Terminated? && end.event == ForwardOutcome(relay.wires, []).event)
      && (end.ErrorReply? <==> prepared.Refused?) && (prepared.Refused? ==> end.status == prepared.status)
      && ending.replied == relay.replied && ending.permit == relay.permit && ending.appended == relay.appended
  {
    hide ForwardOutcome, CanFinalize;
  }

  lemma {:induction false} ForwardNeverStarted(wires: seq<Wire>, items: seq<Value>)
    ensures ForwardOutcome(wires, items).Abandoned? ==> ForwardOutcome(wires, items).status in {Canceled, UpstreamError}
  {
    if wires != [] {
      ForwardNeverStarted(wires[1..], items);
      if wires[0].Text? && wires[0].payload.Some? {
        ForwardNeverStarted(wires[1..], items + StreamedItem(wires[0].payload.value));
      }
    }
  }

  /** While ledger writes succeed, every turn takes its row, and no other, out of the started state. */
  lemma TurnLeavesStarted(rows: seq<Row>, id: nat, rates: Rates, prepared: D.Prepared, relay: Relay)
    requires id < |rows| && rows[id].status == Started && relay.first.io && relay.second.io
    ensures LeftStarted(rows, id, TurnRows(rows, id, rates, prepared, relay))
  {
    hide ForwardOutcome, LeftStarted, Finalized, TerminalRows;
    FinalizingLeavesStarted(rows, id, Canceled, None, relay.first);
    FinalizingLeavesStarted(rows, id, Canceled, Some(OK), relay.first);
    match prepared
    case Interrupted =>
    case Refused(status) => FinalizingLeavesStarted(rows, id, RefusedStatus(status, relay), Some(status), relay.first);
    case Ready(_, _, _) =>
      ForwardNeverStarted(relay.wires, []);
      match ForwardOutcome(relay.wires, []) {
        case Abandoned(status) => FinalizingLeavesStarted(rows, id, status, Some(OK), relay.first);
        case Terminated(event, _) =>
          TerminalLeavesStarted(rows, id, StatusOf(event.kind), OK, OK, Billable(event.usage, rates), relay.first,
            relay.second);
      }
  }

  /** A terminal sent to the client was recorded first, with the status, tokens and price of that very terminal. */
  lemma SentTerminalIsRecorded(rows: seq<Row>, id: nat, rates: Rates, prepared: D.Prepared, relay: Relay)
    requires EndOf(rows, id, rates, prepared, relay).TerminalSent?
    ensures var event := EndOf(rows, id, rates, prepared, relay).event;
      var after := TurnRows(rows, id, rates, prepared, relay);
      && id < |after| && after[id].status == StatusOf(event.kind) && after[id].httpStatus == Some(OK)
      && RecordsUsage(after[id], Billable(event.usage, rates))
  {
    hide ForwardOutcome, CanFinalize, TerminalRows, RecordsUsage;
    var event := EndOf(rows, id, rates, prepared, relay).event;
    CommittedBeforeDelivery(rows, id, event, rates, relay.first, relay.second);
    CanFinalizeIsInRange(rows, id, event, rates, relay);
  }

  lemma CanFinalizeIsInRange(rows: seq<Row>, id: nat, event: Terminal.TerminalEvent, rates: Rates, relay: Relay)
    requires CanFinalize(rows, id, StatusOf(event.kind), Some(OK), Billable(event.usage, rates), relay.first)
    ensures id < |rows|
    ensures |TerminalRows(rows, id, StatusOf(event.kind), OK, OK, Billable(event.usage, rates), relay.first,
      relay.second)| == |rows|
  {
  }

  /** Every generation of a session comes from an honest run when the upstream keeps what it streams. */
  lemma StreamedTurnsAreHonest(rows: seq<Row>, id: nat, rates: Rates, turn: D.Turn, script: D.Script, relay: Relay)
    requires ForwardOutcome(relay.wires, []).Terminated? ==>
      var received := ForwardOutcome(relay.wires, []).received;
      && At(received.payload, "response").Object? && StreamedItems(relay.wires) == relay.appended
      && (OutputOf(received) == Array(relay.appended) || OutputOf(received).Null? || OutputOf(received) == Array([]))
    ensures D.Honest(D.Job(turn, script, EndingOf(rows, id, rates, relay)))
  {
    hide ForwardOutcome, StreamedItems, WithStreamedOutput;
    var handed := Handed(rows, id, rates, relay);
    if handed.Some? && CompletionOf(handed.value).Some? {
      TerminatedKind(relay.wires);
      RememberedOutputIsUpstreams(relay.wires, relay.appended);
      OutcomeUsesStreamedItems(relay.wires, []);
      assert [] + StreamedItems(relay.wires) == relay.appended;
      NothingStreamed(ForwardOutcome(relay.wires, []).received);
    }
  }

  lemma TerminatedKind(wires: seq<Wire>)
    requires ForwardOutcome(wires, []).Terminated?
    ensures ForwardOutcome(wires, []).event.kind == ForwardOutcome(wires, []).received.kind
  {
    OutcomeUsesStreamedItems(wires, []);
  }

  lemma NothingStreamed(t: Terminal.TerminalEvent)
    ensures WithStreamedOutput(t, []) == t
  {
  }

  // ----- from the handler to the end of the turn -----

  /** What becomes of a job handed to a session: its actor drops it, or takes it through a turn. */
  datatype Fate = JobDropped(write: Write) | JobTaken(prepared: D.Prepared, relay: Relay)

  predicate WritesSucceed(fate: Fate) {
    match fate
    case JobDropped(write) => write.io
    case JobTaken(_, relay) => relay.first.io && relay.second.io
  }

  /** A job's row once it has met its fate. */
  function FateRows(rows: seq<Row>, id: nat, rates: Rates, fate: Fate): seq<Row> {
    match fate
    case JobDropped(write) => Finalized(rows, id, Canceled, None, None, write)
    case JobTaken(prepared, relay) => TurnRows(rows, id, rates, prepared, relay)
  }

  /** The ledger after a whole Responses request. */
  function RequestRows(settings: Settings, identity: ApiKey, rows: seq<Row>, parsed: Option<Value>,
      script: ResponsesScript, fate: Fate): seq<Row>
    requires Valid(settings)
  {
    var handled := ResponsesRows(settings, identity, rows, parsed, script);
    var handed := HandedTo(settings, identity, rows, parsed, script);
    if handed.None? then handled else FateRows(handled, handed.value.id, handed.value.effective.rates, fate)
  }

  lemma FateLeavesStarted(rows: seq<Row>, id: nat, rates: Rates, fate: Fate)
    requires id < |rows| && rows[id].status == Started && WritesSucceed(fate)
    ensures LeftStarted(rows, id, FateRows(rows, id, rates, fate))
  {
    hide LeftStarted, TurnRows, Finalized;
    match fate
    case JobDropped(write) => FinalizingLeavesStarted(rows, id, Canceled, None, write);
    case JobTaken(prepared, relay) => TurnLeavesStarted(rows, id, rates, prepared, relay);
  }

  /**
   * While ledger writes succeed, an accepted Responses request that is admitted leaves its row final, whoever drops
   * or takes it, and touches no other; the row stays started if and only if the client left during the insert.
   */
  lemma ResponsesRowLeavesStarted(settings: Settings, identity: ApiKey, rows: seq<Row>, parsed: Option<Value>,
      script: ResponsesScript, fate: Fate)
    requires Valid(settings) && Acceptable(settings, parsed, script).Some? && script.first.io && WritesSucceed(fate)
    ensures var candidates := Acceptable(settings, parsed, script).value.candidates;
      var (begun, admission) := Begun(rows, HttpContext(identity), identity.quota, candidates, script.begin);
      var after := RequestRows(settings, identity, rows, parsed, script, fate);
      && Follows(rows, after) && |after| == |begun|
      && (forall i | 0 <= i < |begun| && !(admission.Admitted? && i == admission.id) :: after[i] == begun[i])
      && (admission.Admitted? ==>
        admission.id < |after| && (after[admission.id].status == Started <==> script.insertLost))
  {
    hide Acceptable, FateRows, LeftStarted, Finalized, ApplyEffectiveRequest, Valid;
    var candidates := Acceptable(settings, parsed, script).value.candidates;
    var (begun, admission) := Begun(rows, HttpContext(identity), identity.quota, candidates, script.begin);
    AdmissionAddsItsRow(rows, HttpContext(identity), identity.quota, candidates, script.begin);
    hide Begun;
    if admission.Admitted? && !script.insertLost {
      var id := admission.id;
      FinalizingLeavesStarted(begun, id, Canceled, None, script.first);
      FinalizingLeavesStarted(begun, id, Rejected, Some(409), script.first);
      FinalizingLeavesStarted(begun, id, Canceled, Some(503), script.first);
      FateLeavesStarted(begun, id, admission.effective.rates, fate);
      var after := RequestRows(settings, identity, rows, parsed, script, fate);
      assert LeftStarted(begun, id, after);
      LeftStartedMeans(begun, id, after);
      FollowsTransitively(rows, begun, after);
    }
  }

  lemma LeftStartedMeans(before: seq<Row>, id: nat, after: seq<Row>)
    requires LeftStarted(before, id, after)
    ensures Follows(before, after) && |after| == |before| && id < |before| && after[id].status != Started
    ensures forall i | 0 <= i < |before| && i != id :: after[i] == before[i]
  {
  }

  // ----- sent = logged = billed -----

  lemma TurnIsPriced(settings: Settings, rows: seq<Row>, id: nat, rates: Rates, fate: Fate)
    requires id < |rows| && PricedAt(settings, rows[id])
    requires rows[id].model in settings.modelPrices && rates == settings.modelPrices[rows[id].model].rates
    ensures var after := FateRows(rows, id, rates, fate);
      |after| == |rows| && PricedAt(settings, after[id]) && RowFollows(rows[id], after[id])
  {
    hide ForwardOutcome, Finalized, TerminalRows, PricedAt, RowFollows;
    match fate
    case JobDropped(write) => FinalizedWithoutUsageIsPriced(settings, rows, id, Canceled, None, write);
    case JobTaken(prepared, relay) =>
      FinalizedWithoutUsageIsPriced(settings, rows, id, Canceled, None, relay.first);
      FinalizedWithoutUsageIsPriced(settings, rows, id, Canceled, Some(OK), relay.first);
      match prepared {
        case Refused(status) =>
          FinalizedWithoutUsageIsPriced(settings, rows, id, RefusedStatus(status, relay), Some(status), relay.first);
        case _ =>
      }
      match ForwardOutcome(relay.wires, []) {
        case Abandoned(status) => FinalizedWithoutUsageIsPriced(settings, rows, id, status, Some(OK), relay.first);
        case Terminated(event, _) =>
          var usage := Billable(event.usage, rates);
          TerminalIsPriced(settings, rows, id, StatusOf(event.kind), OK, OK, usage, relay.first, relay.second);
      }
  }

  lemma FinalizedWithoutUsageIsPriced(settings: Settings, rows: seq<Row>, id: nat, status: Status,
      httpStatus: Option<int>, write: Write)
    requires id < |rows| && PricedAt(settings, rows[id])
    ensures var after := Finalized(rows, id, status, httpStatus, None, write);
      |after| == |rows| && PricedAt(settings, after[id]) && RowFollows(rows[id], after[id])
  {
    FinalizingIsPriced(settings, rows, id, status, httpStatus, None, write);
    FinalizedFollows(rows, id, status, httpStatus, None, write);
  }

  /**
   * From the client's request to the last ledger write, whatever session state the turn meets: the frame asks for the
   * model the row logs, and for the effort it logs exactly when the request had a reasoning member; and whatever the
   * row costs is the price of its tokens at the rates configured for that model.
   */
  lemma SentLoggedBilled(settings: Settings, identity: ApiKey, rows: seq<Row>, parsed: Option<Value>,
      script: ResponsesScript, actor: D.Actor, s: D.State, model: Value, headers: HeaderMap, turnScript: D.Script,
      fate: Fate)
    requires Valid(settings) && HandedTo(settings, identity, rows, parsed, script).Some?
    ensures var handed := HandedTo(settings, identity, rows, parsed, script).value;
      var prepared := D.Prepare(actor, s, D.Turn(handed.body, model, headers), turnScript).1;
      var after := RequestRows(settings, identity, rows, parsed, script, fate);
      && handed.id < |after|
      && var row := after[handed.id];
         && (prepared.Ready? ==>
               && GetString(Object(prepared.frame), "model") == Some(row.model)
               && (RequestedEffort(prepared.frame) == row.reasoningEffort <==> Get(parsed.value, "reasoning").Some?)
               && (Get(parsed.value, "reasoning").None? ==>
                     row.reasoningEffort == None && RequestedEffort(prepared.frame) == Some("medium")))
         && PricedAt(settings, row)
  {
    var accepted := Acceptable(settings, parsed, script).value;
    var requested := GetString(parsed.value, "model").GetOr("");
    CandidatesArePriced(settings, requested, RequestedEffort(accepted.body));
    var (begun, admission) := Begun(rows, HttpContext(identity), identity.quota, accepted.candidates, script.begin);
    AdmissionAddsItsRow(rows, HttpContext(identity), identity.quota, accepted.candidates, script.begin);
    hide Begun, Valid, Candidates, D.Prepare, D.PlanOf, FateRows, PricedAt, Follows, RowFollows;
    var handed := HandedTo(settings, identity, rows, parsed, script).value;
    HandoverLogs(settings, identity, rows, parsed, script);
    hide Acceptable, NormalizeResponsesRequest, ApplyEffectiveRequest;
    D.FrameAsksForTheTurn(actor, s, D.Turn(handed.body, model, headers), turnScript);
    UnchargedIsPriced(settings, begun[handed.id]);
    TurnIsPriced(settings, begun, handed.id, handed.effective.rates, fate);
    FollowedRow(begun[handed.id], FateRows(begun, handed.id, handed.effective.rates, fate)[handed.id]);
  }

  lemma FollowedRow(before: Row, after: Row)
    requires RowFollows(before, after)
    ensures after.model == before.model && after.reasoningEffort == before.reasoningEffort
  {
  }

  /** The body handed over names the admitted model and effort, and has a reasoning member when the request had. */
  lemma HandoverLogs(settings: Settings, identity: ApiKey, rows: seq<Row>, parsed: Option<Value>,
      script: ResponsesScript)
    requires Valid(settings) && HandedTo(settings, identity, rows, parsed, script).Some?
    ensures var handed := HandedTo(settings, identity, rows, parsed, script).value;
      && GetString(Object(handed.body), "model") == Some(handed.effective.model)
      && RequestedEffort(handed.body) == handed.effective.reasoningEffort
      && ("reasoning" in handed.body <==> Get(parsed.value, "reasoning").Some?)
  {
    var accepted := Acceptable(settings, parsed, script).value;
    var requested := GetString(parsed.value, "model").GetOr("");
    CandidatesArePriced(settings, requested, RequestedEffort(accepted.body));
    AdmissionAddsItsRow(rows, HttpContext(identity), identity.quota, accepted.candidates, script.begin);
    NormalizationKeeps(parsed.value);
    hide Begun, Valid, Candidates, Acceptable, NormalizeResponsesRequest;
    var handed := HandedTo(settings, identity, rows, parsed, script).value;
    AppliedIsLogged(accepted.body, handed.effective);
    assert Get(Object(accepted.body), "reasoning") == Get(parsed.value, "reasoning");
    assert "reasoning" in handed.body <==> "reasoning" in accepted.body;
  }

  /** The continuation that can differ from its resent twin is one the handler passes on as it is. */
  lemma BareContinuationIsAccepted(model: string, responseId: string)
    ensures var body := D.BareContinuation(model, responseId);
      NormalizeResponsesRequest(Object(body)) == Success(body)
  {
    var body := D.BareContinuation(model, responseId);
    assert "background" !in body && "max_output_tokens" !in body && "input" !in body;
    assert body["store" := Bool(false)] == body;
  }

  /** The smallest request whose frame asks for an effort the ledger does not hold is accepted in exactly that form. */
  lemma UnloggedRequestIsAccepted(settings: Settings, model: string, script: ResponsesScript)
    requires Valid(settings) && model in settings.modelPrices && script.keyed
    ensures var parsed := Object(map["model" := String(model), "stream" := Bool(true)]);
      && Acceptable(settings, Some(parsed), script).Some?
      && Acceptable(settings, Some(parsed), script).value.body ==
           map["model" := String(model), "stream" := Bool(true), "store" := Bool(false)]
      && Acceptable(settings, Some(parsed), script).value.candidates.primary.reasoningEffort == None
      && Get(parsed, "reasoning") == None
  {
    hide Valid;
    var fields: map<string, Value> := map["model" := String(model), "stream" := Bool(true)];
    assert "store" !in fields && "background" !in fields && "max_output_tokens" !in fields;
    assert "input" !in fields && "reasoning" !in fields;
  }
}
