/** The RPC connection handler of `src/rpc/handler.rs` as a state machine over values.

    One `Step` is one entry-point call of the handler, or one action inside `poll`: an expired
    timer, one turn of the inbound or outbound service loops, a dial, or the delivery of a queued
    event. Whatever futures, sockets and timers answer is part of the step. The class in
    `Handler.dfy` shows that the imperative code performs exactly such steps.

    `Ledger` holds history variables only: nothing in `Apply` branches on it. */
module HandlerMachine {
  import opened Messages

  type SubstreamId = nat
  type Key = nat
  type Ticket = nat

  const MAX_INBOUND_SUBSTREAMS := 32
  const IO_ERROR_RETRIES := 3
  const MAX_DIAL_NEGOTIATED := 8

  /** `RequestId` of `src/rpc/mod.rs`. */
  datatype RequestId = Application(id: nat) | Internal

  /** A request together with the number of responses it expects, an arbitrary natural. */
  datatype Query = Query(request: Request, expected: nat)

  /** An entry of the dial queue. The ticket numbers accepted requests; it is bookkeeping that
      the code never reads. */
  datatype Dialing = Dialing(id: RequestId, query: Query, ticket: Ticket)

  datatype Received =
    | RequestReceived(substream: SubstreamId, request: Request)
    | ResponseReceived(id: RequestId, response: RPCResponse)

  datatype Failure =
    | HandlerError
    | HandlerRejected
    | HandlerStateDeactivated
    | DialUpgradeError
    | StreamTimeout
    | ShutdownSubstreamError
    | CancelRequest
    | ResponseError
    | HandlerDeactivated
    | RpcError
    | IncompleteResponse
    | StreamDropped

  /** `HandlerEvent<Id>`: a result. */
  datatype Event = Ok(received: Received) | Err(failure: Failure)

  datatype Phase = Active | ShuttingDown | Deactivated

  datatype InboundState =
    | Idle
    | Busy(message: CodedResponse, lastChunk: bool)
    | InboundPoisoned

  datatype InboundInfo = InboundInfo(
    state: InboundState,
    pending: seq<CodedResponse>,
    remaining: nat,
    delayKey: Option<Key>)

  datatype OutboundState =
    | RequestPending(query: Query)
    | Closing
    | OutboundPoisoned

  datatype OutboundInfo = OutboundInfo(
    state: OutboundState,
    delayKey: Key,
    remaining: Option<nat>,
    reqId: RequestId,
    ticket: Ticket)

  /** A `DelayQueue<SubstreamId>`. Deadlines are left to the environment, which may let any live
      timer expire; `remove` and `reset` panic on a dead key, hence their preconditions. */
  datatype DelayQueue = DelayQueue(live: map<Key, SubstreamId>) {
    function Insert(key: Key, id: SubstreamId): DelayQueue
      requires key !in live
    {
      DelayQueue(live[key := id])
    }

    function Remove(key: Key): DelayQueue
      requires key in live
    {
      DelayQueue(live - {key})
    }

    function Reset(key: Key): DelayQueue
      requires key in live
    {
      this
    }
  }

  /** An event that was handed out, and the accepted request it concerns, if any. */
  datatype Issue = Issue(event: Event, ticket: Option<Ticket>)

  /** Everything ever queued for, and handed to the wire of, one inbound substream. */
  datatype StreamLog = StreamLog(expected: nat, queued: seq<CodedResponse>, sent: seq<CodedResponse>)

  /** Where an accepted request is. */
  datatype Place = InQueue | InNegotiation | OnSubstream(id: SubstreamId) | Done

  datatype Ledger = Ledger(
    accepted: seq<Dialing>,
    places: seq<Place>,
    negotiating: set<Ticket>,
    leakedSlots: nat,
    issued: seq<Issue>,
    delivered: seq<Event>,
    streams: map<SubstreamId, StreamLog>)

  datatype Handler = Handler(
    phase: Phase,
    eventsOut: seq<Event>,
    dialQueue: seq<Dialing>,
    dialNegotiated: int,
    inbound: map<SubstreamId, InboundInfo>,
    inboundDelay: DelayQueue,
    outbound: map<SubstreamId, OutboundInfo>,
    outboundDelay: DelayQueue,
    nextInbound: SubstreamId,
    nextOutbound: SubstreamId,
    ioErrorRetries: nat,
    ledger: Ledger)

  const INITIAL := Handler(
    Active, [], [], 0, map[], DelayQueue(map[]), map[], DelayQueue(map[]), 0, 0, 0,
    Ledger([], [], {}, 0, [], [], map[]))

  // ---------------------------------------------------------------------------------------------
  // Building blocks

  /** Queue an event for a later `poll`. */
  function Push(h: Handler, event: Event, ticket: Option<Ticket>): Handler {
    h.(eventsOut := h.eventsOut + [event],
       ledger := h.ledger.(issued := h.ledger.issued + [Issue(event, ticket)]))
  }

  /** Return an event from the current `poll`. */
  function Emit(h: Handler, event: Event, ticket: Option<Ticket>): Handler {
    h.(ledger := h.ledger.(issued := h.ledger.issued + [Issue(event, ticket)],
                           delivered := h.ledger.delivered + [event]))
  }

  function Move(h: Handler, ticket: Ticket, place: Place): Handler {
    if ticket < |h.ledger.places| then h.(ledger := h.ledger.(places := h.ledger.places[ticket := place])) else h
  }

  /** Append a response to an inbound substream's queue. */
  function Enqueue(h: Handler, id: SubstreamId, response: CodedResponse): Handler
    requires id in h.inbound
  {
    var info := h.inbound[id];
    var streams := h.ledger.streams;
    h.(inbound := h.inbound[id := info.(pending := info.pending + [response])],
       ledger := h.ledger.(streams :=
         if id in streams then streams[id := streams[id].(queued := streams[id].queued + [response])]
         else streams))
  }

  function RemoveInbound(h: Handler, id: SubstreamId): Handler
    requires id in h.inbound
  {
    var key := h.inbound[id].delayKey;
    h.(inbound := h.inbound - {id},
       inboundDelay := if key.Some? then DelayQueue(h.inboundDelay.live - {key.value}) else h.inboundDelay)
  }

  function RemoveOutbound(h: Handler, id: SubstreamId): Handler
    requires id in h.outbound
  {
    h.(outbound := h.outbound - {id},
       outboundDelay := DelayQueue(h.outboundDelay.live - {h.outbound[id].delayKey}))
  }

  predicate LastStaysOpen(pending: seq<CodedResponse>) {
    pending != [] && !pending[|pending| - 1].CloseAfter()
  }

  /** What the future built by `send_message_to_inbound_substream` yields once it is ready. */
  datatype SendResult = SentOpen | SentClosed | SendFailed

  function SendMessage(message: CodedResponse, lastChunk: bool, sendOk: bool, closeOk: bool): (r: SendResult)
    ensures r.SentOpen? <==> sendOk && !lastChunk && message.Success?
    ensures r.SentClosed? <==> sendOk && closeOk && (lastChunk || message.Error?)
  {
    if lastChunk || message.Error? || !sendOk then
      if !sendOk then SendFailed else if closeOk then SentClosed else SendFailed
    else
      SentOpen
  }

  // ---------------------------------------------------------------------------------------------
  // Entry points

  /** `shutdown` pops the dial queue from its back, reporting each request it drops. */
  function DropLast(h: Handler): Handler
    requires h.dialQueue != []
  {
    var last := h.dialQueue[|h.dialQueue| - 1];
    Move(Push(h.(dialQueue := h.dialQueue[..|h.dialQueue| - 1]), Err(HandlerError), Some(last.ticket)), last.ticket, Done)
  }

  function DropQueue(h: Handler): (dropped: Handler)
    ensures dropped.dialQueue == [] && dropped.phase == h.phase
    decreases |h.dialQueue|
  {
    if h.dialQueue == [] then h else DropQueue(DropLast(h))
  }

  function Accept(h: Handler, id: RequestId, query: Query): Handler {
    var dialing := Dialing(id, query, |h.ledger.accepted|);
    h.(dialQueue := h.dialQueue + [dialing],
       ledger := h.ledger.(accepted := h.ledger.accepted + [dialing], places := h.ledger.places + [InQueue]))
  }

  function Shutdown(h: Handler, goodbye: Option<RequestId>): Handler {
    if h.phase.Active? then
      var dropped := DropQueue(h);
      var farewell :=
        if goodbye.Some? then Accept(dropped, goodbye.value, Query(Goodbye(1), ExpectedResponses(Goodbye(1))))
        else dropped;
      farewell.(phase := ShuttingDown)
    else
      h
  }

  function SendRequestStep(h: Handler, id: RequestId, query: Query): Handler {
    if h.phase.Active? then Accept(h, id, query) else Push(h, Err(HandlerError), None)
  }

  function SendResponseStep(h: Handler, id: SubstreamId, response: CodedResponse): Handler {
    if id !in h.inbound then h
    else
      var noted := if response.Error? then Push(h, Err(HandlerError), None) else h;
      if h.phase.Deactivated? then noted else Enqueue(noted, id, response)
  }

  function OpenInbound(h: Handler, expected: nat, key: Key): Handler
    requires key !in h.inboundDelay.live
  {
    h.(inbound := h.inbound[h.nextInbound := InboundInfo(Idle, [], expected, Some(key))],
       inboundDelay := h.inboundDelay.Insert(key, h.nextInbound),
       ledger := h.ledger.(streams := h.ledger.streams[h.nextInbound := StreamLog(expected, [], [])]))
  }

  function NegotiatedInboundStep(h: Handler, query: Query, key: Key): Handler
    requires key !in h.inboundDelay.live
  {
    if !h.phase.Active? then h
    else if query.expected > 0 && |h.inbound| >= MAX_INBOUND_SUBSTREAMS then
      Shutdown(Push(h, Err(HandlerRejected), None), None)
    else
      var entered := if query.expected > 0 then OpenInbound(h, query.expected, key) else h;
      var told := if query.request.Goodbye? then Shutdown(entered, None) else entered;
      Push(told, Ok(RequestReceived(h.nextInbound, query.request)), None).(nextInbound := h.nextInbound + 1)
  }

  /** The swarm answers a dial: the request is no longer being negotiated. */
  function Resolved(h: Handler, ticket: Ticket): Handler {
    h.(ledger := h.ledger.(negotiating := h.ledger.negotiating - {ticket}))
  }

  function OpenOutbound(h: Handler, dialing: Dialing, key: Key): Handler
    requires key !in h.outboundDelay.live
  {
    var expected := dialing.query.expected;
    h.(outbound := h.outbound[h.nextOutbound :=
         OutboundInfo(RequestPending(dialing.query), key, if expected > 1 then Some(expected) else None,
                      dialing.id, dialing.ticket)],
       outboundDelay := h.outboundDelay.Insert(key, h.nextOutbound),
       nextOutbound := h.nextOutbound + 1)
  }

  /** What becomes of a negotiated request, apart from the slot it held. */
  function PlaceOutbound(h: Handler, ticket: Ticket, key: Key): Handler
    requires ticket < |h.ledger.accepted| && key !in h.outboundDelay.live
  {
    var dialing := h.ledger.accepted[ticket];
    var freed := Resolved(h, ticket);
    var told := if h.phase.Deactivated? then Push(freed, Err(HandlerStateDeactivated), Some(ticket)) else freed;
    if dialing.query.expected > 0 then Move(OpenOutbound(told, dialing, key), ticket, OnSubstream(h.nextOutbound))
    else Move(told, ticket, Done)
  }

  function FreeSlot(h: Handler): Handler {
    h.(dialNegotiated := h.dialNegotiated - 1)
  }

  function NegotiatedOutboundStep(h: Handler, ticket: Ticket, key: Key): Handler
    requires ticket < |h.ledger.accepted| && key !in h.outboundDelay.live
  {
    PlaceOutbound(FreeSlot(h), ticket, key)
  }

  /** The retry path of `inject_dial_upgrade_error` re-queues the request and keeps its slot. */
  function RetryDial(h: Handler, ticket: Ticket): Handler
    requires ticket < |h.ledger.accepted|
  {
    var kept := Resolved(h, ticket);
    var counted := kept.(ioErrorRetries := h.ioErrorRetries + 1,
                         ledger := kept.ledger.(leakedSlots := h.ledger.leakedSlots + 1));
    if h.phase.Active? then Move(counted.(dialQueue := h.dialQueue + [h.ledger.accepted[ticket]]), ticket, InQueue)
    else Move(Push(counted, Err(HandlerError), Some(ticket)), ticket, Done)
  }

  function DialFailedStep(h: Handler, ticket: Ticket, ioError: bool): Handler
    requires ticket < |h.ledger.accepted|
  {
    if ioError && h.ioErrorRetries + 1 < IO_ERROR_RETRIES then RetryDial(h, ticket)
    else
      var freed := Resolved(h, ticket).(dialNegotiated := h.dialNegotiated - 1, ioErrorRetries := 0);
      Move(Push(freed, Err(DialUpgradeError), Some(ticket)), ticket, Done)
  }

  // ---------------------------------------------------------------------------------------------
  // Actions of poll

  function PopEventStep(h: Handler): Handler
    requires h.eventsOut != []
  {
    h.(eventsOut := h.eventsOut[1..],
       ledger := h.ledger.(delivered := h.ledger.delivered + [h.eventsOut[0]]))
  }

  function InboundExpiredStep(h: Handler, key: Key): Handler
    requires key in h.inboundDelay.live
  {
    var id := h.inboundDelay.live[key];
    var elapsed := h.(inboundDelay := DelayQueue(h.inboundDelay.live - {key}));
    if id !in h.inbound then elapsed
    else
      var info := h.inbound[id];
      var told := Push(elapsed.(inbound := h.inbound[id := info.(delayKey := None)]), Err(StreamTimeout), None);
      if LastStaysOpen(info.pending) then Enqueue(told, id, Error) else told
  }

  function OutboundExpiredStep(h: Handler, key: Key): Handler
    requires key in h.outboundDelay.live
  {
    var id := h.outboundDelay.live[key];
    var elapsed := h.(outboundDelay := DelayQueue(h.outboundDelay.live - {key}));
    if id !in h.outbound then elapsed
    else
      var ticket := h.outbound[id].ticket;
      Move(Emit(elapsed.(outbound := h.outbound - {id}), Err(StreamTimeout), Some(ticket)), ticket, Done)
  }

  function InboundStartStep(h: Handler, id: SubstreamId): Handler
    requires id in h.inbound && h.inbound[id].pending != []
  {
    var info := h.inbound[id];
    var message := info.pending[0];
    var streams := h.ledger.streams;
    h.(inbound := h.inbound[id := info.(state := Busy(message, info.remaining <= 1), pending := info.pending[1..])],
       ledger := h.ledger.(streams :=
         if id in streams then streams[id := streams[id].(sent := streams[id].sent + [message])] else streams))
  }

  function InboundSentStep(h: Handler, id: SubstreamId): Handler
    requires id in h.inbound
  {
    var info := h.inbound[id];
    h.(inbound := h.inbound[id :=
         info.(state := Idle, remaining := if info.remaining == 0 then 0 else info.remaining - 1)])
  }

  function InboundClosedStep(h: Handler, id: SubstreamId, failed: bool): Handler
    requires id in h.inbound
  {
    var removed := RemoveInbound(h, id);
    var told := if failed then Push(removed, Err(ShutdownSubstreamError), None) else removed;
    if LastStaysOpen(h.inbound[id].pending) then Push(told, Err(CancelRequest), None) else told
  }

  function OutboundDeactivatedStep(h: Handler, id: SubstreamId): Handler
    requires id in h.outbound
  {
    var info := h.outbound[id];
    Push(h.(outbound := h.outbound[id := info.(state := Closing)]), Err(HandlerDeactivated), Some(info.ticket))
  }

  /** The entry's next record after one more response chunk. */
  function AfterResponse(info: OutboundInfo, response: CodedResponse): OutboundInfo
    requires info.state.RequestPending?
  {
    if info.state.query.expected > 1 && !response.CloseAfter() then
      var left := if info.remaining.Some? && info.remaining.value > 0 then info.remaining.value - 1 else 0;
      if left == 0 then info.(state := Closing) else info.(remaining := Some(left))
    else
      info.(state := Closing)
  }

  function ReceivedEvent(id: RequestId, response: CodedResponse): Event {
    if response.Success? then Ok(ResponseReceived(id, response.response)) else Err(RpcError)
  }

  function OutboundResponseStep(h: Handler, id: SubstreamId, response: CodedResponse): Handler
    requires id in h.outbound && h.outbound[id].state.RequestPending?
  {
    var info := h.outbound[id];
    Emit(h.(outbound := h.outbound[id := AfterResponse(info, response)]),
         ReceivedEvent(info.reqId, response), Some(info.ticket))
  }

  function OutboundEndedStep(h: Handler, id: SubstreamId, failure: Failure): Handler
    requires id in h.outbound
  {
    var ticket := h.outbound[id].ticket;
    Move(Emit(RemoveOutbound(h, id), Err(failure), Some(ticket)), ticket, Done)
  }

  function DialStep(h: Handler): Handler
    requires h.dialQueue != []
  {
    var ticket := h.dialQueue[0].ticket;
    Move(h.(dialQueue := h.dialQueue[1..],
            dialNegotiated := h.dialNegotiated + 1,
            ledger := h.ledger.(negotiating := h.ledger.negotiating + {ticket})),
         ticket, InNegotiation)
  }

  // ---------------------------------------------------------------------------------------------
  // The machine

  datatype Step =
    | SendRequest(id: RequestId, query: Query)
    | SendResponse(substream: SubstreamId, response: CodedResponse)
    | BeginShutdown(goodbye: Option<RequestId>)
    | NegotiatedInbound(query: Query, key: Key)
    | NegotiatedOutbound(ticket: Ticket, key: Key)
    | DialFailed(ticket: Ticket, ioError: bool)
    | PopEvent
    | ShutdownElapsed
    | InboundExpired(key: Key)
    | OutboundExpired(key: Key)
    | InboundStart(substream: SubstreamId)
    | InboundSent(substream: SubstreamId)
    | InboundDone(substream: SubstreamId)
    | InboundFailed(substream: SubstreamId)
    | InboundClosed(substream: SubstreamId, failed: bool)
    | OutboundDeactivated(substream: SubstreamId)
    | OutboundResponse(substream: SubstreamId, response: CodedResponse)
    | OutboundEnded(substream: SubstreamId, dropped: bool)
    | OutboundClosed(substream: SubstreamId)
    | Dial

  predicate InboundIs(h: Handler, id: SubstreamId, busy: bool) {
    id in h.inbound && if busy then h.inbound[id].state.Busy? else h.inbound[id].state.Idle?
  }

  predicate OutboundIs(h: Handler, id: SubstreamId, pending: bool) {
    id in h.outbound && if pending then h.outbound[id].state.RequestPending? else h.outbound[id].state.Closing?
  }

  predicate ClosesAfter(state: InboundState)
    requires state.Busy?
  {
    state.lastChunk || state.message.Error?
  }

  /** The code's own guards, and what the environment promises: the swarm answers each dial it was
      given exactly once, a new timer gets a key that is not in use, and only live timers expire. */
  predicate Enabled(h: Handler, step: Step) {
    match step
    case SendRequest(_, _) => true
    case SendResponse(_, _) => true
    case BeginShutdown(_) => true
    case NegotiatedInbound(_, key) => key !in h.inboundDelay.live
    case NegotiatedOutbound(ticket, key) =>
      ticket in h.ledger.negotiating && ticket < |h.ledger.accepted| && key !in h.outboundDelay.live
    case DialFailed(ticket, _) => ticket in h.ledger.negotiating && ticket < |h.ledger.accepted|
    case PopEvent => h.eventsOut != []
    case ShutdownElapsed => h.phase.ShuttingDown?
    case InboundExpired(key) => key in h.inboundDelay.live
    case OutboundExpired(key) => key in h.outboundDelay.live
    case InboundStart(id) => InboundIs(h, id, false) && !h.phase.Deactivated? && h.inbound[id].pending != []
    case InboundSent(id) => InboundIs(h, id, true) && !ClosesAfter(h.inbound[id].state)
    case InboundDone(id) => InboundIs(h, id, true) && ClosesAfter(h.inbound[id].state)
    case InboundFailed(id) => InboundIs(h, id, true)
    case InboundClosed(id, _) => InboundIs(h, id, false) && h.phase.Deactivated?
    case OutboundDeactivated(id) => OutboundIs(h, id, true) && h.phase.Deactivated?
    case OutboundResponse(id, _) => OutboundIs(h, id, true) && !h.phase.Deactivated?
    case OutboundEnded(id, _) => OutboundIs(h, id, true) && !h.phase.Deactivated?
    case OutboundClosed(id) => OutboundIs(h, id, false)
    case Dial => h.dialQueue != [] && h.dialNegotiated < MAX_DIAL_NEGOTIATED
  }

  function Apply(h: Handler, step: Step): Handler
    requires Enabled(h, step)
  {
    match step
    case SendRequest(id, query) => SendRequestStep(h, id, query)
    case SendResponse(id, response) => SendResponseStep(h, id, response)
    case BeginShutdown(goodbye) => Shutdown(h, goodbye)
    case NegotiatedInbound(query, key) => NegotiatedInboundStep(h, query, key)
    case NegotiatedOutbound(ticket, key) => NegotiatedOutboundStep(h, ticket, key)
    case DialFailed(ticket, ioError) => DialFailedStep(h, ticket, ioError)
    case PopEvent => PopEventStep(h)
    case ShutdownElapsed => h.(phase := Deactivated)
    case InboundExpired(key) => InboundExpiredStep(h, key)
    case OutboundExpired(key) => OutboundExpiredStep(h, key)
    case InboundStart(id) => InboundStartStep(h, id)
    case InboundSent(id) => InboundSentStep(h, id)
    case InboundDone(id) => RemoveInbound(h, id)
    case InboundFailed(id) => Push(RemoveInbound(h, id), Err(ResponseError), None)
    case InboundClosed(id, failed) => InboundClosedStep(h, id, failed)
    case OutboundDeactivated(id) => OutboundDeactivatedStep(h, id)
    case OutboundResponse(id, response) => OutboundResponseStep(h, id, response)
    case OutboundEnded(id, dropped) => OutboundEndedStep(h, id, if dropped then StreamDropped else IncompleteResponse)
    case OutboundClosed(id) => Move(RemoveOutbound(h, id), h.outbound[id].ticket, Done)
    case Dial => DialStep(h)
  }

  /** `steps` is a run of the machine from `h`. */
  predicate IsRun(h: Handler, steps: seq<Step>)
    decreases |steps|, 0
  {
    steps == [] ||
    (var before := steps[..|steps| - 1];
     IsRun(h, before) && Enabled(After(h, before), steps[|steps| - 1]))
  }

  function After(h: Handler, steps: seq<Step>): Handler
    requires IsRun(h, steps)
    decreases |steps|, 1
  {
    if steps == [] then h else Apply(After(h, steps[..|steps| - 1]), steps[|steps| - 1])
  }

  lemma RunExtends(h: Handler, steps: seq<Step>, step: Step)
    requires IsRun(h, steps) && Enabled(After(h, steps), step)
    ensures IsRun(h, steps + [step]) && After(h, steps + [step]) == Apply(After(h, steps), step)
  {
    assert (steps + [step])[..|steps|] == steps;
  }

  lemma RunSplits(h: Handler, steps: seq<Step>)
    requires IsRun(h, steps) && steps != []
    ensures var before := steps[..|steps| - 1];
            && IsRun(h, before) && Enabled(After(h, before), steps[|steps| - 1])
            && After(h, steps) == Apply(After(h, before), steps[|steps| - 1])
  {
  }
}
