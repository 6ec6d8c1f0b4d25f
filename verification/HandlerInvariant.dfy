/** The inductive invariant of the handler, and the proof that every step keeps it. */
module HandlerInvariant {
  import opened Messages
  import opened HandlerMachine

  // ---------------------------------------------------------------------------------------------
  // Timers: live timers and substreams match one to one

  ghost predicate InboundTimers(inbound: map<SubstreamId, InboundInfo>, live: map<Key, SubstreamId>) {
    && (forall id :: id in inbound && inbound[id].delayKey.Some? ==>
          inbound[id].delayKey.value in live && live[inbound[id].delayKey.value] == id)
    && (forall key :: key in live ==> live[key] in inbound && inbound[live[key]].delayKey == Some(key))
  }

  ghost predicate OutboundTimers(outbound: map<SubstreamId, OutboundInfo>, live: map<Key, SubstreamId>) {
    && (forall id :: id in outbound ==>
          outbound[id].delayKey in live && live[outbound[id].delayKey] == id)
    && (forall key :: key in live ==> live[key] in outbound && outbound[live[key]].delayKey == key)
  }

  // ---------------------------------------------------------------------------------------------
  // Inbound substreams: what reaches the wire

  /** Messages reach the wire in queue order, at most `expected` of them, and nothing follows an
      error. */
  ghost predicate GoodLog(log: StreamLog) {
    && log.sent <= log.queued
    && 1 <= log.expected
    && |log.sent| <= log.expected
    && forall i :: 0 <= i < |log.sent| - 1 ==> log.sent[i].Success?
  }

  /** The state of a live substream agrees with its log. */
  ghost predicate GoodStream(info: InboundInfo, log: StreamLog) {
    && !info.state.InboundPoisoned?
    && log.sent + info.pending == log.queued
    && 1 <= info.remaining
    && info.remaining + |log.sent| == log.expected + (if info.state.Busy? then 1 else 0)
    && (info.state.Idle? ==> forall i :: 0 <= i < |log.sent| ==> log.sent[i].Success?)
    && (info.state.Busy? ==>
          && log.sent != [] && log.sent[|log.sent| - 1] == info.state.message
          && info.state.lastChunk == (info.remaining <= 1))
  }

  ghost predicate Streams(inbound: map<SubstreamId, InboundInfo>, streams: map<SubstreamId, StreamLog>, next: SubstreamId) {
    && |inbound| <= MAX_INBOUND_SUBSTREAMS
    && (forall id :: id in streams ==> id < next && GoodLog(streams[id]))
    && (forall id :: id in inbound ==> id in streams && GoodStream(inbound[id], streams[id]))
  }

  // ---------------------------------------------------------------------------------------------
  // Reports: what has been said about each accepted request

  /** The events issued so far for one accepted request. */
  ghost function Reports(issued: seq<Issue>, t: Ticket): seq<Event> {
    ReportsIn(issued, |issued|, t)
  }

  ghost function ReportsIn(issued: seq<Issue>, n: nat, t: Ticket): seq<Event>
    requires n <= |issued|
  {
    if n == 0 then []
    else ReportsIn(issued, n - 1, t) + (if issued[n - 1].ticket == Some(t) then [issued[n - 1].event] else [])
  }

  lemma {:induction false} ReportsPrefix(issued: seq<Issue>, issue: Issue, n: nat, t: Ticket)
    requires n <= |issued|
    ensures ReportsIn(issued + [issue], n, t) == ReportsIn(issued, n, t)
  {
    if n > 0 { ReportsPrefix(issued, issue, n - 1, t); }
  }

  lemma ReportsGrow(issued: seq<Issue>, issue: Issue, t: Ticket)
    ensures Reports(issued + [issue], t) ==
            Reports(issued, t) + (if issue.ticket == Some(t) then [issue.event] else [])
  {
    ReportsPrefix(issued, issue, |issued|, t);
  }

  /** How many of the events are responses. */
  ghost function Responses(log: seq<Event>): nat {
    ResponsesIn(log, |log|)
  }

  ghost function ResponsesIn(log: seq<Event>, n: nat): nat
    requires n <= |log|
  {
    if n == 0 then 0 else ResponsesIn(log, n - 1) + (if log[n - 1].Ok? then 1 else 0)
  }

  lemma {:induction false} ResponsesPrefix(log: seq<Event>, event: Event, n: nat)
    requires n <= |log|
    ensures ResponsesIn(log + [event], n) == ResponsesIn(log, n)
  {
    if n > 0 { ResponsesPrefix(log, event, n - 1); }
  }

  lemma ResponsesGrow(log: seq<Event>, event: Event)
    ensures Responses(log + [event]) == Responses(log) + (if event.Ok? then 1 else 0)
  {
    ResponsesPrefix(log, event, |log|);
  }

  /** Responses carry the request's id, number at most what it expects, and none follows a failure. */
  ghost predicate GoodReports(log: seq<Event>, request: Dialing) {
    && Responses(log) <= request.query.expected
    && (forall i :: 0 <= i < |log| && log[i].Ok? ==>
          log[i].received.ResponseReceived? && log[i].received.id == request.id)
    && (forall i, j :: 0 <= i < j < |log| && log[i].Err? ==> log[j].Err?)
  }

  ghost predicate GoodEntry(info: OutboundInfo, log: seq<Event>, request: Dialing, phase: Phase) {
    var expected := request.query.expected;
    && info.reqId == request.id
    && 1 <= expected
    && !info.state.OutboundPoisoned?
    && (info.state.Closing? ==> log != [])
    && (info.state.RequestPending? ==>
          && info.state.query == request.query
          && Responses(log) < expected
          && info.remaining == (if expected > 1 then Some(expected - Responses(log)) else None)
          && (!phase.Deactivated? ==> forall i :: 0 <= i < |log| ==> log[i].Ok?))
  }

  // ---------------------------------------------------------------------------------------------
  // Accepted requests: each is in one place

  /** A request is where its place says, and has been reported on accordingly. */
  ghost predicate GoodPlace(
    place: Place, request: Dialing, queue: seq<Dialing>, negotiating: set<Ticket>,
    outbound: map<SubstreamId, OutboundInfo>, log: seq<Event>, phase: Phase)
  {
    && GoodReports(log, request)
    && match place
       case InQueue => request in queue && log == []
       case InNegotiation => request.ticket in negotiating && log == []
       case OnSubstream(id) =>
         id in outbound && outbound[id].ticket == request.ticket && GoodEntry(outbound[id], log, request, phase)
       case Done => 0 < request.query.expected ==> log != []
  }

  /** Nothing in the queue, under negotiation or on a substream is out of place. */
  ghost predicate Placed(
    places: seq<Place>, accepted: seq<Dialing>, queue: seq<Dialing>, negotiating: set<Ticket>,
    outbound: map<SubstreamId, OutboundInfo>)
  {
    && |places| == |accepted|
    && (forall t :: 0 <= t < |accepted| ==> accepted[t].ticket == t)
    && (forall i :: 0 <= i < |queue| ==>
          queue[i].ticket < |accepted| && queue[i] == accepted[queue[i].ticket] && places[queue[i].ticket] == InQueue)
    && (forall i, j :: 0 <= i < j < |queue| ==> queue[i].ticket != queue[j].ticket)
    && (forall t :: t in negotiating ==> t < |accepted| && places[t] == InNegotiation)
    && (forall id :: id in outbound ==>
          outbound[id].ticket < |accepted| && places[outbound[id].ticket] == OnSubstream(id))
  }

  ghost predicate PlaceOk(h: Handler, t: Ticket)
    requires t < |h.ledger.accepted| && t < |h.ledger.places|
  {
    GoodPlace(h.ledger.places[t], h.ledger.accepted[t], h.dialQueue, h.ledger.negotiating, h.outbound,
              Reports(h.ledger.issued, t), h.phase)
  }

  ghost predicate TicketInv(h: Handler) {
    && Placed(h.ledger.places, h.ledger.accepted, h.dialQueue, h.ledger.negotiating, h.outbound)
    && (forall t :: 0 <= t < |h.ledger.accepted| ==> PlaceOk(h, t))
    && (forall t: Ticket :: |h.ledger.accepted| <= t ==> Reports(h.ledger.issued, t) == [])
  }

  // ---------------------------------------------------------------------------------------------
  // Dial slots and event conservation

  /** The slot counter counts the dials under way plus every retry ever taken. */
  ghost predicate Slots(h: Handler) {
    && h.dialNegotiated == |h.ledger.negotiating| + h.ledger.leakedSlots
    && h.dialNegotiated <= MAX_DIAL_NEGOTIATED
    && h.ioErrorRetries < IO_ERROR_RETRIES
  }

  ghost function EventsOf(issued: seq<Issue>): seq<Event> {
    seq(|issued|, i requires 0 <= i < |issued| => issued[i].event)
  }

  /** Every event issued is either delivered or still queued, the same number of times. */
  ghost predicate EventsKept(h: Handler) {
    multiset(h.ledger.delivered) + multiset(h.eventsOut) == multiset(EventsOf(h.ledger.issued))
  }

  /** Ids are handed out once. */
  ghost predicate OutboundIds(outbound: map<SubstreamId, OutboundInfo>, next: SubstreamId) {
    forall id :: id in outbound ==> id < next
  }

  ghost predicate SubstreamInv(h: Handler) {
    && InboundTimers(h.inbound, h.inboundDelay.live)
    && OutboundTimers(h.outbound, h.outboundDelay.live)
    && Streams(h.inbound, h.ledger.streams, h.nextInbound)
    && OutboundIds(h.outbound, h.nextOutbound)
  }

  ghost predicate Inv(h: Handler) {
    SubstreamInv(h) && TicketInv(h) && Slots(h) && EventsKept(h)
  }

  // ---------------------------------------------------------------------------------------------
  // Preservation, conjunct by conjunct

  lemma EventsPush(issued: seq<Issue>, issue: Issue)
    ensures EventsOf(issued + [issue]) == EventsOf(issued) + [issue.event]
  {
  }

  lemma StreamsUpdate(
    inbound: map<SubstreamId, InboundInfo>, streams: map<SubstreamId, StreamLog>, next: SubstreamId,
    id: SubstreamId, info: InboundInfo, log: StreamLog)
    requires Streams(inbound, streams, next) && id in inbound && GoodLog(log) && GoodStream(info, log)
    ensures Streams(inbound[id := info], streams[id := log], next)
  {
    assert inbound[id := info].Keys == inbound.Keys;
    assert |inbound[id := info]| == |inbound[id := info].Keys|;
  }

  lemma StreamsRemove(
    inbound: map<SubstreamId, InboundInfo>, streams: map<SubstreamId, StreamLog>, next: SubstreamId, id: SubstreamId)
    requires Streams(inbound, streams, next) && id in inbound
    ensures Streams(inbound - {id}, streams, next) && |inbound - {id}| == |inbound| - 1
  {
    assert (inbound - {id}).Keys == inbound.Keys - {id};
    assert |(inbound - {id}).Keys| == |inbound - {id}|;
  }

  lemma EnqueueKeeps(h: Handler, id: SubstreamId, response: CodedResponse)
    requires SubstreamInv(h) && id in h.inbound
    ensures SubstreamInv(Enqueue(h, id, response))
  {
    var info, log := h.inbound[id], h.ledger.streams[id];
    var info', log' := info.(pending := info.pending + [response]), log.(queued := log.queued + [response]);
    assert log.sent + info'.pending == log'.queued;
    StreamsUpdate(h.inbound, h.ledger.streams, h.nextInbound, id, info', log');
  }

  lemma InboundTimersOpen(
    inbound: map<SubstreamId, InboundInfo>, live: map<Key, SubstreamId>, id: SubstreamId, info: InboundInfo, key: Key)
    requires InboundTimers(inbound, live) && id !in inbound && key !in live && info.delayKey == Some(key)
    ensures InboundTimers(inbound[id := info], live[key := id])
  {
  }

  lemma InboundTimersStop(inbound: map<SubstreamId, InboundInfo>, live: map<Key, SubstreamId>, id: SubstreamId, info: InboundInfo)
    requires InboundTimers(inbound, live) && id in inbound && info.delayKey.None?
    ensures var left := if inbound[id].delayKey.Some? then live - {inbound[id].delayKey.value} else live;
            InboundTimers(inbound[id := info], left) && InboundTimers(inbound - {id}, left)
  {
  }

  lemma InboundTimersSame(inbound: map<SubstreamId, InboundInfo>, live: map<Key, SubstreamId>, id: SubstreamId, info: InboundInfo)
    requires InboundTimers(inbound, live) && id in inbound && info.delayKey == inbound[id].delayKey
    ensures InboundTimers(inbound[id := info], live)
  {
  }

  lemma RemoveInboundKeeps(h: Handler, id: SubstreamId)
    requires SubstreamInv(h) && id in h.inbound
    ensures SubstreamInv(RemoveInbound(h, id)) && |RemoveInbound(h, id).inbound| == |h.inbound| - 1
  {
    InboundTimersStop(h.inbound, h.inboundDelay.live, id, h.inbound[id].(delayKey := None));
    StreamsRemove(h.inbound, h.ledger.streams, h.nextInbound, id);
  }

  lemma StreamsOpen(
    inbound: map<SubstreamId, InboundInfo>, streams: map<SubstreamId, StreamLog>, next: SubstreamId,
    expected: nat, key: Key)
    requires Streams(inbound, streams, next) && 0 < expected && |inbound| < MAX_INBOUND_SUBSTREAMS
    ensures next !in inbound
    ensures Streams(inbound[next := InboundInfo(Idle, [], expected, Some(key))],
                    streams[next := StreamLog(expected, [], [])], next + 1)
  {
    var inbound' := inbound[next := InboundInfo(Idle, [], expected, Some(key))];
    assert inbound'.Keys == inbound.Keys + {next};
    assert |inbound'.Keys| == |inbound'|;
    var log := StreamLog(expected, [], []);
    assert log.sent + [] == log.queued;
  }

  lemma OpenInboundKeeps(h: Handler, expected: nat, key: Key)
    requires SubstreamInv(h) && key !in h.inboundDelay.live && 0 < expected && |h.inbound| < MAX_INBOUND_SUBSTREAMS
    ensures SubstreamInv(OpenInbound(h, expected, key).(nextInbound := h.nextInbound + 1))
  {
    StreamsOpen(h.inbound, h.ledger.streams, h.nextInbound, expected, key);
    InboundTimersOpen(h.inbound, h.inboundDelay.live, h.nextInbound, InboundInfo(Idle, [], expected, Some(key)), key);
  }

  lemma InboundExpiredKeeps(h: Handler, key: Key)
    requires SubstreamInv(h) && key in h.inboundDelay.live
    ensures SubstreamInv(InboundExpiredStep(h, key))
  {
    var id := h.inboundDelay.live[key];
    var info := h.inbound[id].(delayKey := None);
    InboundTimersStop(h.inbound, h.inboundDelay.live, id, info);
    StreamsUpdate(h.inbound, h.ledger.streams, h.nextInbound, id, info, h.ledger.streams[id]);
    assert h.ledger.streams[id := h.ledger.streams[id]] == h.ledger.streams;
    var told := Push(h.(inboundDelay := DelayQueue(h.inboundDelay.live - {key}), inbound := h.inbound[id := info]),
                     Err(StreamTimeout), None);
    EnqueueKeeps(told, id, Error);
  }

  lemma InboundStartKeeps(h: Handler, id: SubstreamId)
    requires SubstreamInv(h) && InboundIs(h, id, false) && h.inbound[id].pending != []
    ensures SubstreamInv(InboundStartStep(h, id))
  {
    var info, log := h.inbound[id], h.ledger.streams[id];
    var message := info.pending[0];
    var info' := info.(state := Busy(message, info.remaining <= 1), pending := info.pending[1..]);
    var log' := log.(sent := log.sent + [message]);
    assert log'.sent + info'.pending == log.sent + info.pending;
    InboundTimersSame(h.inbound, h.inboundDelay.live, id, info');
    StreamsUpdate(h.inbound, h.ledger.streams, h.nextInbound, id, info', log');
  }

  lemma InboundSentKeeps(h: Handler, id: SubstreamId)
    requires SubstreamInv(h) && InboundIs(h, id, true) && !ClosesAfter(h.inbound[id].state)
    ensures SubstreamInv(InboundSentStep(h, id))
  {
    var info := h.inbound[id].(state := Idle, remaining := h.inbound[id].remaining - 1);
    InboundTimersSame(h.inbound, h.inboundDelay.live, id, info);
    StreamsUpdate(h.inbound, h.ledger.streams, h.nextInbound, id, info, h.ledger.streams[id]);
    assert h.ledger.streams[id := h.ledger.streams[id]] == h.ledger.streams;
  }

  // ---------------------------------------------------------------------------------------------
  // Moves of accepted requests

  lemma IssueElsewhere(h: Handler, issue: Issue)
    requires TicketInv(h) && issue.ticket.None?
    ensures TicketInv(h.(ledger := h.ledger.(issued := h.ledger.issued + [issue])))
  {
    var h' := h.(ledger := h.ledger.(issued := h.ledger.issued + [issue]));
    forall t: Ticket ensures Reports(h.ledger.issued + [issue], t) == Reports(h.ledger.issued, t) {
      ReportsGrow(h.ledger.issued, issue, t);
    }
    forall t | 0 <= t < |h.ledger.accepted| ensures PlaceOk(h', t) {
      assert PlaceOk(h, t);
    }
  }

  lemma AcceptMove(h: Handler, id: RequestId, query: Query)
    requires TicketInv(h)
    ensures TicketInv(Accept(h, id, query))
  {
    var h' := Accept(h, id, query);
    forall t | 0 <= t < |h'.ledger.accepted| ensures PlaceOk(h', t) {
      if t < |h.ledger.accepted| { assert PlaceOk(h, t); }
    }
  }

  lemma DialMove(h: Handler)
    requires TicketInv(h) && h.dialQueue != []
    ensures TicketInv(DialStep(h))
  {
    var h' := DialStep(h);
    assert h.dialQueue == [h.dialQueue[0]] + h'.dialQueue;
    forall t | 0 <= t < |h.ledger.accepted| ensures PlaceOk(h', t) {
      assert PlaceOk(h, t);
    }
  }

  lemma RequeueMove(h: Handler, t: Ticket)
    requires TicketInv(h) && t in h.ledger.negotiating
    ensures TicketInv(Move(Resolved(h, t).(dialQueue := h.dialQueue + [h.ledger.accepted[t]]), t, InQueue))
  {
    var h' := Move(Resolved(h, t).(dialQueue := h.dialQueue + [h.ledger.accepted[t]]), t, InQueue);
    forall u | 0 <= u < |h.ledger.accepted| ensures PlaceOk(h', u) {
      assert PlaceOk(h, u);
    }
  }

  /** A report is well ordered as long as no response follows a failure, and it touches no other
      request's reports. */
  lemma NextReport(issued: seq<Issue>, event: Event, t: Ticket, request: Dialing)
    requires GoodReports(Reports(issued, t), request)
    requires event.Ok? ==>
               && event.received.ResponseReceived? && event.received.id == request.id
               && (forall i :: 0 <= i < |Reports(issued, t)| ==> Reports(issued, t)[i].Ok?)
               && Responses(Reports(issued, t)) < request.query.expected
    ensures var after := issued + [Issue(event, Some(t))];
            && Reports(after, t) == Reports(issued, t) + [event] && GoodReports(Reports(after, t), request)
            && Responses(Reports(after, t)) == Responses(Reports(issued, t)) + (if event.Ok? then 1 else 0)
            && forall u: Ticket :: u != t ==> Reports(after, u) == Reports(issued, u)
  {
    var issue := Issue(event, Some(t));
    forall u: Ticket ensures Reports(issued + [issue], u) == Reports(issued, u) + (if u == t then [event] else []) {
      ReportsGrow(issued, issue, u);
    }
    ResponsesGrow(Reports(issued, t), event);
  }

  lemma DropLastMove(h: Handler)
    requires TicketInv(h) && h.dialQueue != []
    ensures TicketInv(DropLast(h))
  {
    var last := h.dialQueue[|h.dialQueue| - 1];
    DropLastPlaced(h);
    assert PlaceOk(h, last.ticket);
    DropLastGone(h);
    forall t: Ticket ensures if t < |h.ledger.accepted| then PlaceOk(DropLast(h), t) else Reports(DropLast(h).ledger.issued, t) == [] {
      if t < |h.ledger.accepted| {
        assert PlaceOk(h, t);
        if t != last.ticket { DropLastOther(h, t); }
      } else {
        ReportsGrow(h.ledger.issued, Issue(Err(HandlerError), Some(last.ticket)), t);
      }
    }
  }

  lemma DropLastPlaced(h: Handler)
    requires Placed(h.ledger.places, h.ledger.accepted, h.dialQueue, h.ledger.negotiating, h.outbound) && h.dialQueue != []
    ensures var h' := DropLast(h); Placed(h'.ledger.places, h'.ledger.accepted, h'.dialQueue, h'.ledger.negotiating, h'.outbound)
  {
    assert h.dialQueue == DropLast(h).dialQueue + [h.dialQueue[|h.dialQueue| - 1]];
  }

  lemma DropLastGone(h: Handler)
    requires h.dialQueue != [] && |h.ledger.places| == |h.ledger.accepted|
    requires var t := h.dialQueue[|h.dialQueue| - 1].ticket;
             t < |h.ledger.accepted| && h.ledger.accepted[t].ticket == t && PlaceOk(h, t)
    ensures PlaceOk(DropLast(h), h.dialQueue[|h.dialQueue| - 1].ticket)
  {
    var t := h.dialQueue[|h.dialQueue| - 1].ticket;
    NextReport(h.ledger.issued, Err(HandlerError), t, h.ledger.accepted[t]);
  }

  lemma DropLastOther(h: Handler, t: Ticket)
    requires h.dialQueue != [] && |h.ledger.places| == |h.ledger.accepted| && t < |h.ledger.accepted| && PlaceOk(h, t)
    requires h.dialQueue[|h.dialQueue| - 1].ticket != t && h.ledger.accepted[t].ticket == t
    ensures PlaceOk(DropLast(h), t)
  {
    var last := h.dialQueue[|h.dialQueue| - 1];
    assert h.dialQueue == DropLast(h).dialQueue + [last];
    ReportsGrow(h.ledger.issued, Issue(Err(HandlerError), Some(last.ticket)), t);
    assert Reports(h.ledger.issued, t) + [] == Reports(h.ledger.issued, t);
  }

  /** A dial that ends with an error report. */
  lemma AbandonMove(h: Handler, t: Ticket, failure: Failure)
    requires TicketInv(h) && t in h.ledger.negotiating
    ensures TicketInv(Move(Push(Resolved(h, t), Err(failure), Some(t)), t, Done))
  {
    var h' := Move(Push(Resolved(h, t), Err(failure), Some(t)), t, Done);
    assert PlaceOk(h, t);
    NextReport(h.ledger.issued, Err(failure), t, h.ledger.accepted[t]);
    forall u | 0 <= u < |h.ledger.accepted| ensures PlaceOk(h', u) {
      assert PlaceOk(h, u);
    }
  }

  /** A request that expects no answer is done once its substream is negotiated, whether or not a
      report is made. */
  lemma SettleMove(h: Handler, t: Ticket)
    requires TicketInv(h) && t in h.ledger.negotiating && h.ledger.accepted[t].query.expected == 0
    ensures TicketInv(Move(Resolved(h, t), t, Done))
  {
    var h' := Move(Resolved(h, t), t, Done);
    forall u | 0 <= u < |h.ledger.accepted| ensures PlaceOk(h', u) {
      assert PlaceOk(h, u);
    }
  }

  /** The negotiated request becomes an outbound substream that awaits its responses. */
  lemma OpenMove(h: Handler, t: Ticket, key: Key)
    requires TicketInv(h) && t in h.ledger.negotiating && key !in h.outboundDelay.live && !h.phase.Deactivated?
    requires 0 < h.ledger.accepted[t].query.expected && h.nextOutbound !in h.outbound
    ensures TicketInv(Move(OpenOutbound(Resolved(h, t), h.ledger.accepted[t], key), t, OnSubstream(h.nextOutbound)))
  {
    var h' := Move(OpenOutbound(Resolved(h, t), h.ledger.accepted[t], key), t, OnSubstream(h.nextOutbound));
    assert Responses([]) == 0;
    forall u | 0 <= u < |h.ledger.accepted| ensures PlaceOk(h', u) {
      assert PlaceOk(h, u);
    }
  }

  /** The same in the Deactivated phase, where it is reported as failed first. */
  lemma OpenDeadMove(h: Handler, t: Ticket, key: Key)
    requires TicketInv(h) && t in h.ledger.negotiating && key !in h.outboundDelay.live && h.phase.Deactivated?
    requires 0 < h.ledger.accepted[t].query.expected && h.nextOutbound !in h.outbound
    ensures TicketInv(Move(OpenOutbound(Push(Resolved(h, t), Err(HandlerStateDeactivated), Some(t)),
                                        h.ledger.accepted[t], key), t, OnSubstream(h.nextOutbound)))
  {
    var h' := Move(OpenOutbound(Push(Resolved(h, t), Err(HandlerStateDeactivated), Some(t)),
                                h.ledger.accepted[t], key), t, OnSubstream(h.nextOutbound));
    assert PlaceOk(h, t);
    NextReport(h.ledger.issued, Err(HandlerStateDeactivated), t, h.ledger.accepted[t]);
    assert Responses([]) == 0;
    forall u | 0 <= u < |h.ledger.accepted| ensures PlaceOk(h', u) {
      assert PlaceOk(h, u);
    }
  }

  lemma ReportMove(h: Handler, id: SubstreamId, info: OutboundInfo, event: Event)
    requires TicketInv(h) && id in h.outbound && h.outbound[id].state.RequestPending?
    requires info.ticket == h.outbound[id].ticket && info.reqId == h.outbound[id].reqId
    requires event.Ok? ==> event.received.ResponseReceived? && event.received.id == info.reqId && !h.phase.Deactivated?
    requires || info.state.Closing?
             || (event.Ok? && info.state == h.outbound[id].state
                 && h.outbound[id].remaining.Some? && h.outbound[id].remaining.value > 1
                 && info.remaining == Some(h.outbound[id].remaining.value - 1))
    ensures TicketInv(h.(outbound := h.outbound[id := info],
                         ledger := h.ledger.(issued := h.ledger.issued + [Issue(event, Some(info.ticket))])))
  {
    var h' := h.(outbound := h.outbound[id := info],
                 ledger := h.ledger.(issued := h.ledger.issued + [Issue(event, Some(info.ticket))]));
    assert PlaceOk(h, info.ticket);
    NextReport(h.ledger.issued, event, info.ticket, h.ledger.accepted[info.ticket]);
    forall u | 0 <= u < |h.ledger.accepted| ensures PlaceOk(h', u) {
      assert PlaceOk(h, u);
    }
  }

  /** An open request ends, with a failure report or after it was reported already. */
  lemma RetireMove(h: Handler, id: SubstreamId, failure: Option<Failure>)
    requires TicketInv(h) && id in h.outbound
    requires failure.None? ==> h.outbound[id].state.Closing?
    ensures var t := h.outbound[id].ticket;
            var issued := if failure.Some? then h.ledger.issued + [Issue(Err(failure.value), Some(t))] else h.ledger.issued;
            TicketInv(Move(h.(outbound := h.outbound - {id}, ledger := h.ledger.(issued := issued)), t, Done))
  {
    var t := h.outbound[id].ticket;
    var issued := if failure.Some? then h.ledger.issued + [Issue(Err(failure.value), Some(t))] else h.ledger.issued;
    var h' := Move(h.(outbound := h.outbound - {id}, ledger := h.ledger.(issued := issued)), t, Done);
    assert PlaceOk(h, t);
    if failure.Some? {
      NextReport(h.ledger.issued, Err(failure.value), t, h.ledger.accepted[t]);
    }
    forall u | 0 <= u < |h.ledger.accepted| ensures PlaceOk(h', u) {
      assert PlaceOk(h, u);
    }
  }

  // ---------------------------------------------------------------------------------------------
  // Every step keeps the invariant

  lemma TicketFrame(h: Handler, h': Handler)
    requires TicketInv(h) && h'.dialQueue == h.dialQueue && h'.outbound == h.outbound
    requires h.phase.Deactivated? ==> h'.phase.Deactivated?
    requires h'.ledger.accepted == h.ledger.accepted && h'.ledger.places == h.ledger.places
    requires h'.ledger.negotiating == h.ledger.negotiating && h'.ledger.issued == h.ledger.issued
    ensures TicketInv(h')
  {
    forall t | 0 <= t < |h.ledger.accepted| ensures PlaceOk(h', t) {
      assert PlaceOk(h, t);
    }
  }

  lemma PushEvents(h: Handler, event: Event, ticket: Option<Ticket>)
    requires EventsKept(h)
    ensures EventsKept(Push(h, event, ticket)) && EventsKept(Emit(h, event, ticket))
  {
    EventsPush(h.ledger.issued, Issue(event, ticket));
  }

  lemma PushKeeps(h: Handler, event: Event)
    requires Inv(h)
    ensures Inv(Push(h, event, None))
  {
    var h' := h.(ledger := h.ledger.(issued := h.ledger.issued + [Issue(event, None)]));
    IssueElsewhere(h, Issue(event, None));
    TicketFrame(h', Push(h, event, None));
    PushEvents(h, event, None);
  }

  lemma SendResponseKeeps(h: Handler, id: SubstreamId, response: CodedResponse)
    requires Inv(h)
    ensures Inv(SendResponseStep(h, id, response))
  {
    if id in h.inbound {
      PushKeeps(h, Err(HandlerError));
      var noted := if response.Error? then Push(h, Err(HandlerError), None) else h;
      EnqueueKeeps(noted, id, response);
      TicketFrame(noted, Enqueue(noted, id, response));
    }
  }

  lemma AcceptKeeps(h: Handler, id: RequestId, query: Query)
    requires Inv(h)
    ensures Inv(Accept(h, id, query))
  {
    AcceptMove(h, id, query);
  }

  lemma DropLastKeeps(h: Handler)
    requires Inv(h) && h.dialQueue != []
    ensures Inv(DropLast(h))
  {
    DropLastMove(h);
    PushEvents(h, Err(HandlerError), Some(h.dialQueue[|h.dialQueue| - 1].ticket));
  }

  lemma {:induction false} DropQueueKeeps(h: Handler)
    requires Inv(h)
    ensures Inv(DropQueue(h))
    decreases |h.dialQueue|
  {
    if h.dialQueue != [] {
      DropLastKeeps(h);
      DropQueueKeeps(DropLast(h));
    }
  }

  /** What dropping the queue leaves alone. */
  lemma {:induction false} DropQueueFrame(h: Handler)
    ensures var d := DropQueue(h);
            && d.dialQueue == [] && d.phase == h.phase && d.inbound == h.inbound && d.outbound == h.outbound
            && d.inboundDelay == h.inboundDelay && d.outboundDelay == h.outboundDelay
            && d.nextInbound == h.nextInbound && d.nextOutbound == h.nextOutbound
            && d.dialNegotiated == h.dialNegotiated && d.ioErrorRetries == h.ioErrorRetries
            && d.ledger.negotiating == h.ledger.negotiating && d.ledger.streams == h.ledger.streams
            && d.ledger.leakedSlots == h.ledger.leakedSlots && d.ledger.accepted == h.ledger.accepted
            && d.ledger.delivered == h.ledger.delivered
    decreases |h.dialQueue|
  {
    if h.dialQueue != [] { DropQueueFrame(DropLast(h)); }
  }

  lemma ShutdownKeeps(h: Handler, goodbye: Option<RequestId>)
    requires Inv(h)
    ensures Inv(Shutdown(h, goodbye))
  {
    if h.phase.Active? {
      DropQueueKeeps(h);
      DropQueueFrame(h);
      var dropped := DropQueue(h);
      if goodbye.Some? {
        var query := Query(Goodbye(1), ExpectedResponses(Goodbye(1)));
        AcceptKeeps(dropped, goodbye.value, query);
        dropped := Accept(dropped, goodbye.value, query);
      }
      TicketFrame(dropped, dropped.(phase := ShuttingDown));
    }
  }

  /** A substream id is used up even when no substream was opened. */
  lemma NextInboundKeeps(h: Handler)
    requires Inv(h)
    ensures Inv(h.(nextInbound := h.nextInbound + 1))
  {
    TicketFrame(h, h.(nextInbound := h.nextInbound + 1));
  }

  lemma NegotiatedInboundKeeps(h: Handler, query: Query, key: Key)
    requires Inv(h) && key !in h.inboundDelay.live
    ensures Inv(NegotiatedInboundStep(h, query, key))
  {
    if h.phase.Active? {
      if query.expected > 0 && |h.inbound| >= MAX_INBOUND_SUBSTREAMS {
        PushKeeps(h, Err(HandlerRejected));
        ShutdownKeeps(Push(h, Err(HandlerRejected), None), None);
      } else {
        OpenedInboundKeeps(h, query, key);
      }
    }
  }

  lemma EnteredKeeps(h: Handler, query: Query, key: Key)
    requires Inv(h) && key !in h.inboundDelay.live
    requires query.expected > 0 ==> |h.inbound| < MAX_INBOUND_SUBSTREAMS
    ensures var entered := if query.expected > 0 then OpenInbound(h, query.expected, key) else h;
            Inv(entered.(nextInbound := h.nextInbound + 1))
  {
    if query.expected > 0 {
      OpenInboundKeeps(h, query.expected, key);
      TicketFrame(h, OpenInbound(h, query.expected, key).(nextInbound := h.nextInbound + 1));
    } else {
      NextInboundKeeps(h);
    }
  }

  /** A request that is taken in: the id may as well be used up before the shutdown. */
  lemma TakenIn(h: Handler, query: Query, key: Key)
    requires key !in h.inboundDelay.live && h.phase.Active?
    requires query.expected > 0 ==> |h.inbound| < MAX_INBOUND_SUBSTREAMS
    ensures var entered := if query.expected > 0 then OpenInbound(h, query.expected, key) else h;
            var numbered := entered.(nextInbound := h.nextInbound + 1);
            NegotiatedInboundStep(h, query, key) ==
            Push(if query.request.Goodbye? then Shutdown(numbered, None) else numbered,
                 Ok(RequestReceived(h.nextInbound, query.request)), None)
  {
    ShutdownNext(if query.expected > 0 then OpenInbound(h, query.expected, key) else h);
  }

  lemma OpenedInboundKeeps(h: Handler, query: Query, key: Key)
    requires Inv(h) && key !in h.inboundDelay.live && h.phase.Active?
    requires query.expected > 0 ==> |h.inbound| < MAX_INBOUND_SUBSTREAMS
    ensures Inv(NegotiatedInboundStep(h, query, key))
  {
    EnteredKeeps(h, query, key);
    TakenIn(h, query, key);
    var entered := if query.expected > 0 then OpenInbound(h, query.expected, key) else h;
    var numbered := entered.(nextInbound := h.nextInbound + 1);
    ShutdownKeeps(numbered, None);
    PushKeeps(if query.request.Goodbye? then Shutdown(numbered, None) else numbered,
              Ok(RequestReceived(h.nextInbound, query.request)));
  }

  /** Numbering the substream before or after the shutdown makes no difference. */
  lemma {:induction false} DropQueueNext(h: Handler)
    ensures DropQueue(h.(nextInbound := h.nextInbound + 1)) == DropQueue(h).(nextInbound := h.nextInbound + 1)
    decreases |h.dialQueue|
  {
    if h.dialQueue != [] {
      assert DropLast(h.(nextInbound := h.nextInbound + 1)) == DropLast(h).(nextInbound := h.nextInbound + 1);
      DropQueueNext(DropLast(h));
    }
  }

  lemma ShutdownNext(h: Handler)
    ensures Shutdown(h.(nextInbound := h.nextInbound + 1), None) == Shutdown(h, None).(nextInbound := h.nextInbound + 1)
  {
    DropQueueNext(h);
  }

  lemma OpenOutboundKeeps(h: Handler, dialing: Dialing, key: Key)
    requires SubstreamInv(h) && key !in h.outboundDelay.live
    ensures SubstreamInv(OpenOutbound(h, dialing, key)) && h.nextOutbound !in h.outbound
  {
  }

  lemma PlaceOutboundMoves(h: Handler, t: Ticket, key: Key)
    requires TicketInv(h) && t in h.ledger.negotiating && key !in h.outboundDelay.live && t < |h.ledger.accepted|
    requires h.nextOutbound !in h.outbound
    ensures TicketInv(PlaceOutbound(h, t, key))
  {
    if h.ledger.accepted[t].query.expected == 0 {
      if h.phase.Deactivated? { AbandonMove(h, t, HandlerStateDeactivated); } else { SettleMove(h, t); }
    } else if h.phase.Deactivated? {
      OpenDeadMove(h, t, key);
    } else {
      OpenMove(h, t, key);
    }
  }

  lemma PlaceOutboundEvents(h: Handler, t: Ticket, key: Key)
    requires EventsKept(h) && key !in h.outboundDelay.live && t < |h.ledger.accepted|
    ensures EventsKept(PlaceOutbound(h, t, key))
  {
    PushEvents(h, Err(HandlerStateDeactivated), Some(t));
  }

  lemma PlaceOutboundFrame(h: Handler, t: Ticket, key: Key)
    requires key !in h.outboundDelay.live && t < |h.ledger.accepted|
    ensures var h' := PlaceOutbound(h, t, key);
            && h'.ledger.negotiating == h.ledger.negotiating - {t} && h'.ledger.leakedSlots == h.ledger.leakedSlots
            && h'.ioErrorRetries == h.ioErrorRetries && h'.dialNegotiated == h.dialNegotiated
  {
  }

  lemma LedgerOnly(h: Handler, t: Ticket, place: Place, event: Event)
    requires SubstreamInv(h)
    ensures SubstreamInv(Move(h, t, place)) && SubstreamInv(Push(h, event, Some(t))) && SubstreamInv(Resolved(h, t))
  {
  }

  lemma PlaceOutboundKeeps(h: Handler, t: Ticket, key: Key)
    requires SubstreamInv(h) && key !in h.outboundDelay.live && t < |h.ledger.accepted|
    ensures SubstreamInv(PlaceOutbound(h, t, key)) && h.nextOutbound !in h.outbound
  {
    var request, freed, event := h.ledger.accepted[t], Resolved(h, t), Err(HandlerStateDeactivated);
    LedgerOnly(h, t, Done, event);
    LedgerOnly(freed, t, Done, event);
    var told := if h.phase.Deactivated? then Push(freed, event, Some(t)) else freed;
    OpenOutboundKeeps(told, request, key);
    if request.query.expected > 0 {
      LedgerOnly(OpenOutbound(told, request, key), t, OnSubstream(h.nextOutbound), event);
    } else {
      LedgerOnly(told, t, Done, event);
    }
  }

  lemma FreeSlotKeeps(h: Handler)
    requires Inv(h)
    ensures SubstreamInv(FreeSlot(h)) && TicketInv(FreeSlot(h)) && EventsKept(FreeSlot(h))
    ensures Slots(h) && FreeSlot(h).nextOutbound !in FreeSlot(h).outbound
  {
    TicketFrame(h, FreeSlot(h));
  }

  lemma NegotiatedOutboundSlots(h: Handler, t: Ticket, key: Key)
    requires Slots(h) && t in h.ledger.negotiating && t < |h.ledger.accepted| && key !in h.outboundDelay.live
    ensures Slots(NegotiatedOutboundStep(h, t, key))
  {
    PlaceOutboundFrame(FreeSlot(h), t, key);
  }

  lemma NegotiatedOutboundKeeps(h: Handler, t: Ticket, key: Key)
    requires Inv(h) && t in h.ledger.negotiating && key !in h.outboundDelay.live && t < |h.ledger.accepted|
    ensures Inv(NegotiatedOutboundStep(h, t, key))
  {
    FreeSlotKeeps(h);
    PlaceOutboundKeeps(FreeSlot(h), t, key);
    PlaceOutboundEvents(FreeSlot(h), t, key);
    PlaceOutboundMoves(FreeSlot(h), t, key);
    NegotiatedOutboundSlots(h, t, key);
  }

  lemma RequeueKeeps(h: Handler, t: Ticket)
    requires Inv(h) && t in h.ledger.negotiating && t < |h.ledger.accepted| && h.phase.Active?
    ensures TicketInv(RetryDial(h, t))
  {
    RequeueMove(h, t);
    TicketFrame(Move(Resolved(h, t).(dialQueue := h.dialQueue + [h.ledger.accepted[t]]), t, InQueue), RetryDial(h, t));
  }

  lemma AbandonKeeps(h: Handler, t: Ticket)
    requires Inv(h) && t in h.ledger.negotiating && t < |h.ledger.accepted| && !h.phase.Active?
    ensures TicketInv(RetryDial(h, t)) && EventsKept(RetryDial(h, t))
  {
    AbandonMove(h, t, HandlerError);
    PushEvents(h, Err(HandlerError), Some(t));
    TicketFrame(Move(Push(Resolved(h, t), Err(HandlerError), Some(t)), t, Done), RetryDial(h, t));
  }

  /** The retry path: the slot counter stays, so one more slot is held by no dial. */
  lemma RetryDialKeeps(h: Handler, t: Ticket)
    requires Inv(h) && t in h.ledger.negotiating && t < |h.ledger.accepted| && h.ioErrorRetries + 1 < IO_ERROR_RETRIES
    ensures Inv(RetryDial(h, t))
  {
    if h.phase.Active? { RequeueKeeps(h, t); } else { AbandonKeeps(h, t); }
  }

  lemma DialFailedKeeps(h: Handler, t: Ticket, ioError: bool)
    requires Inv(h) && t in h.ledger.negotiating && t < |h.ledger.accepted|
    ensures Inv(DialFailedStep(h, t, ioError))
  {
    if ioError && h.ioErrorRetries + 1 < IO_ERROR_RETRIES {
      RetryDialKeeps(h, t);
    } else {
      AbandonMove(h, t, DialUpgradeError);
      PushEvents(h, Err(DialUpgradeError), Some(t));
      TicketFrame(Move(Push(Resolved(h, t), Err(DialUpgradeError), Some(t)), t, Done), DialFailedStep(h, t, ioError));
    }
  }

  lemma PopEventKeeps(h: Handler)
    requires Inv(h) && h.eventsOut != []
    ensures Inv(PopEventStep(h))
  {
    TicketFrame(h, PopEventStep(h));
    assert h.eventsOut == [h.eventsOut[0]] + h.eventsOut[1..];
  }

  lemma ElapsedKeeps(h: Handler)
    requires Inv(h)
    ensures Inv(h.(phase := Deactivated))
  {
    TicketFrame(h, h.(phase := Deactivated));
  }

  lemma InboundKeeps(h: Handler, h': Handler)
    requires Inv(h) && SubstreamInv(h')
    requires h' == h.(inbound := h'.inbound, inboundDelay := h'.inboundDelay,
                      ledger := h.ledger.(streams := h'.ledger.streams))
    ensures Inv(h')
  {
    TicketFrame(h, h');
  }

  lemma InboundTimeoutKeeps(h: Handler, key: Key)
    requires Inv(h) && key in h.inboundDelay.live
    ensures Inv(InboundExpiredStep(h, key))
  {
    InboundExpiredKeeps(h, key);
    var h' := InboundExpiredStep(h, key);
    PushKeeps(h, Err(StreamTimeout));
    InboundKeeps(Push(h, Err(StreamTimeout), None), h');
  }

  lemma InboundRemovalKeeps(h: Handler, id: SubstreamId)
    requires Inv(h) && id in h.inbound
    ensures Inv(RemoveInbound(h, id))
  {
    RemoveInboundKeeps(h, id);
    InboundKeeps(h, RemoveInbound(h, id));
  }

  lemma PushIfKeeps(h: Handler, tell: bool, event: Event)
    requires Inv(h) && event.Err?
    ensures Inv(if tell then Push(h, event, None) else h)
  {
    PushKeeps(h, event);
  }

  lemma InboundClosedKeeps(h: Handler, id: SubstreamId, failed: bool)
    requires Inv(h) && id in h.inbound
    ensures Inv(InboundClosedStep(h, id, failed))
  {
    var removed := RemoveInbound(h, id);
    InboundRemovalKeeps(h, id);
    PushIfKeeps(removed, failed, Err(ShutdownSubstreamError));
    var told := if failed then Push(removed, Err(ShutdownSubstreamError), None) else removed;
    PushIfKeeps(told, LastStaysOpen(h.inbound[id].pending), Err(CancelRequest));
  }

  lemma RemoveOutboundKeeps(h: Handler, id: SubstreamId)
    requires SubstreamInv(h) && id in h.outbound
    ensures SubstreamInv(RemoveOutbound(h, id))
  {
  }

  lemma UpdateOutboundKeeps(h: Handler, id: SubstreamId, info: OutboundInfo)
    requires SubstreamInv(h) && id in h.outbound && info.delayKey == h.outbound[id].delayKey
    ensures SubstreamInv(h.(outbound := h.outbound[id := info]))
  {
  }

  lemma OutboundDeactivatedKeeps(h: Handler, id: SubstreamId)
    requires Inv(h) && OutboundIs(h, id, true)
    ensures Inv(OutboundDeactivatedStep(h, id))
  {
    var info, event := h.outbound[id].(state := Closing), Err(HandlerDeactivated);
    var h' := OutboundDeactivatedStep(h, id);
    UpdateOutboundKeeps(h, id, info);
    ReportMove(h, id, info, event);
    PushEvents(h, event, Some(info.ticket));
    TicketFrame(h.(outbound := h.outbound[id := info],
                   ledger := h.ledger.(issued := h.ledger.issued + [Issue(event, Some(info.ticket))])), h');
  }

  lemma OutboundResponseKeeps(h: Handler, id: SubstreamId, response: CodedResponse)
    requires Inv(h) && OutboundIs(h, id, true) && !h.phase.Deactivated?
    ensures Inv(OutboundResponseStep(h, id, response))
  {
    var info, event := AfterResponse(h.outbound[id], response), ReceivedEvent(h.outbound[id].reqId, response);
    var h' := OutboundResponseStep(h, id, response);
    assert PlaceOk(h, info.ticket);
    UpdateOutboundKeeps(h, id, info);
    ReportMove(h, id, info, event);
    PushEvents(h, event, Some(info.ticket));
    TicketFrame(h.(outbound := h.outbound[id := info],
                   ledger := h.ledger.(issued := h.ledger.issued + [Issue(event, Some(info.ticket))])), h');
  }

  lemma OutboundEndedKeeps(h: Handler, id: SubstreamId, failure: Failure)
    requires Inv(h) && id in h.outbound
    ensures Inv(OutboundEndedStep(h, id, failure))
  {
    var t, h' := h.outbound[id].ticket, OutboundEndedStep(h, id, failure);
    RemoveOutboundKeeps(h, id);
    RetireMove(h, id, Some(failure));
    PushEvents(h, Err(failure), Some(t));
    TicketFrame(Move(h.(outbound := h.outbound - {id},
                        ledger := h.ledger.(issued := h.ledger.issued + [Issue(Err(failure), Some(t))])), t, Done), h');
  }

  lemma OutboundExpiredKeeps(h: Handler, key: Key)
    requires Inv(h) && key in h.outboundDelay.live
    ensures OutboundExpiredStep(h, key) == OutboundEndedStep(h, h.outboundDelay.live[key], StreamTimeout)
    ensures Inv(OutboundExpiredStep(h, key))
  {
    OutboundEndedKeeps(h, h.outboundDelay.live[key], StreamTimeout);
  }

  lemma OutboundClosedKeeps(h: Handler, id: SubstreamId)
    requires Inv(h) && OutboundIs(h, id, false)
    ensures Inv(Move(RemoveOutbound(h, id), h.outbound[id].ticket, Done))
  {
    var t := h.outbound[id].ticket;
    RemoveOutboundKeeps(h, id);
    RetireMove(h, id, None);
    TicketFrame(Move(h.(outbound := h.outbound - {id}), t, Done), Move(RemoveOutbound(h, id), t, Done));
  }

  lemma DialKeeps(h: Handler)
    requires Inv(h) && h.dialQueue != [] && h.dialNegotiated < MAX_DIAL_NEGOTIATED
    ensures Inv(DialStep(h))
  {
    DialMove(h);
  }

  lemma StartKeeps(h: Handler, id: SubstreamId)
    requires Inv(h) && Enabled(h, InboundStart(id))
    ensures Inv(InboundStartStep(h, id))
  {
    InboundStartKeeps(h, id);
    InboundKeeps(h, InboundStartStep(h, id));
  }

  lemma SentKeeps(h: Handler, id: SubstreamId)
    requires Inv(h) && Enabled(h, InboundSent(id))
    ensures Inv(InboundSentStep(h, id))
  {
    InboundSentKeeps(h, id);
    InboundKeeps(h, InboundSentStep(h, id));
  }

  lemma InboundFailedKeeps(h: Handler, id: SubstreamId)
    requires Inv(h) && id in h.inbound
    ensures Inv(Push(RemoveInbound(h, id), Err(ResponseError), None))
  {
    InboundRemovalKeeps(h, id);
    PushKeeps(RemoveInbound(h, id), Err(ResponseError));
  }

  predicate IsCall(step: Step) {
    step.SendRequest? || step.SendResponse? || step.BeginShutdown? || step.NegotiatedInbound?
    || step.NegotiatedOutbound? || step.DialFailed?
  }

  predicate IsInboundAction(step: Step) {
    step.InboundExpired? || step.InboundStart? || step.InboundSent? || step.InboundDone? || step.InboundFailed?
    || step.InboundClosed?
  }

  lemma CallKeeps(h: Handler, step: Step)
    requires Inv(h) && Enabled(h, step) && IsCall(step)
    ensures Inv(Apply(h, step))
  {
    match step
    case SendRequest(id, query) => if h.phase.Active? { AcceptKeeps(h, id, query); } else { PushKeeps(h, Err(HandlerError)); }
    case SendResponse(id, response) => SendResponseKeeps(h, id, response);
    case BeginShutdown(goodbye) => ShutdownKeeps(h, goodbye);
    case NegotiatedInbound(query, key) => NegotiatedInboundKeeps(h, query, key);
    case NegotiatedOutbound(ticket, key) => NegotiatedOutboundKeeps(h, ticket, key);
    case DialFailed(ticket, ioError) => DialFailedKeeps(h, ticket, ioError);
  }

  lemma InboundActionKeeps(h: Handler, step: Step)
    requires Inv(h) && Enabled(h, step) && IsInboundAction(step)
    ensures Inv(Apply(h, step))
  {
    match step
    case InboundExpired(key) => InboundTimeoutKeeps(h, key);
    case InboundStart(id) => StartKeeps(h, id);
    case InboundSent(id) => SentKeeps(h, id);
    case InboundDone(id) => InboundRemovalKeeps(h, id);
    case InboundFailed(id) => InboundFailedKeeps(h, id);
    case InboundClosed(id, failed) => InboundClosedKeeps(h, id, failed);
  }

  lemma OtherActionKeeps(h: Handler, step: Step)
    requires Inv(h) && Enabled(h, step) && !IsCall(step) && !IsInboundAction(step)
    ensures Inv(Apply(h, step))
  {
    match step
    case PopEvent => PopEventKeeps(h);
    case ShutdownElapsed => ElapsedKeeps(h);
    case OutboundExpired(key) => OutboundExpiredKeeps(h, key);
    case OutboundDeactivated(id) => OutboundDeactivatedKeeps(h, id);
    case OutboundResponse(id, response) => OutboundResponseKeeps(h, id, response);
    case OutboundEnded(id, dropped) => OutboundEndedKeeps(h, id, if dropped then StreamDropped else IncompleteResponse);
    case OutboundClosed(id) => OutboundClosedKeeps(h, id);
    case Dial => DialKeeps(h);
  }

  /** The invariant is inductive. */
  lemma StepKeeps(h: Handler, step: Step)
    requires Inv(h) && Enabled(h, step)
    ensures Inv(Apply(h, step))
  {
    if IsCall(step) { CallKeeps(h, step); }
    else if IsInboundAction(step) { InboundActionKeeps(h, step); }
    else { OtherActionKeeps(h, step); }
  }
}
