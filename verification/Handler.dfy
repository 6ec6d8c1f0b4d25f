/** The handler in its own form: an object whose entry points update its fields, and a `poll` with
    nested loops, in-place state replacement, deferred removals and early returns.

    The ghost `trace` lists the machine steps performed so far. `Valid` says that the fields are
    exactly what the machine reaches by that run, so whatever `HandlerRuns` proves about runs holds
    of the object between any two calls. */
module HandlerClass {
  import opened Messages
  import opened HandlerMachine
  import opened HandlerInvariant
  import opened HandlerRuns
  import opened HandlerDelivery

  /** `Poll<ConnectionHandlerEvent<..>>`. */
  datatype PollResult = Pending | Custom(event: Event) | Close | OutboundSubstreamRequest(dialing: Dialing)

  /** What polling an outbound substream for its next response may yield. */
  datatype StreamPoll = Response(response: CodedResponse) | NotReady | Ended(dropped: bool)

  /** How one turn of the inbound service loop ends. */
  datatype Turn = Again | Break | Remove

  /** The section of `poll` that performs a step. */
  function Section(step: Step): nat {
    match step
    case PopEvent => 0
    case ShutdownElapsed => 0
    case InboundExpired(_) => 1
    case OutboundExpired(_) => 2
    case InboundStart(_) => 3
    case InboundSent(_) => 3
    case InboundDone(_) => 3
    case InboundFailed(_) => 3
    case InboundClosed(_, _) => 3
    case OutboundDeactivated(_) => 4
    case OutboundResponse(_, _) => 4
    case OutboundEnded(_, _) => 4
    case OutboundClosed(_) => 4
    case Dial => 5
    case _ => 6
  }

  /** Steps after which `poll` returns at once. */
  predicate Returns(step: Step) {
    step.PopEvent? || step.ShutdownElapsed? || step.OutboundExpired? || step.OutboundResponse? || step.OutboundEnded?
    || step.Dial?
  }

  /** `after` prolongs `before` by steps of one section; only the last may be a returning one, and
      is so exactly if `returned`. */
  ghost predicate Grew(before: seq<Step>, after: seq<Step>, section: nat, returned: bool) {
    && before <= after
    && (returned ==> before < after && Returns(after[|after| - 1]))
    && forall i :: |before| <= i < |after| ==>
         Section(after[i]) == section && (Returns(after[i]) ==> returned && i == |after| - 1)
  }

  /** The steps of one `poll` so far: its sections in order, none beyond `section`, with a returning
      step only at the end. */
  ghost predicate InOrder(before: seq<Step>, after: seq<Step>, section: nat, returned: bool) {
    && before <= after
    && (returned ==> before < after && Returns(after[|after| - 1]))
    && (forall i, j :: |before| <= i < j < |after| ==> Section(after[i]) <= Section(after[j]))
    && (forall i :: |before| <= i < |after| ==> Section(after[i]) <= section)
    && (forall i :: |before| <= i < |after| && Returns(after[i]) ==> returned && i == |after| - 1)
  }

  lemma NextSection(t0: seq<Step>, t1: seq<Step>, t2: seq<Step>, section: nat, next: nat, returned: bool)
    requires InOrder(t0, t1, section, false) && Grew(t1, t2, next, returned) && section <= next
    ensures InOrder(t0, t2, next, returned)
  {
  }

  lemma GrewBy(before: seq<Step>, after: seq<Step>, step: Step)
    requires Grew(before, after, Section(step), false) && !Returns(step)
    ensures Grew(before, after + [step], Section(step), false)
  {
  }

  lemma GrewByReturn(before: seq<Step>, step: Step)
    requires Returns(step)
    ensures Grew(before, before + [step], Section(step), true)
  {
  }

  lemma GrewOn(first: seq<Step>, second: seq<Step>, third: seq<Step>, section: nat)
    requires Grew(first, second, section, false) && Grew(second, third, section, false)
    ensures Grew(first, third, section, false)
  {
  }

  lemma GrewReturning(first: seq<Step>, second: seq<Step>, third: seq<Step>, section: nat, returned: bool)
    requires Grew(first, second, section, false) && Grew(second, third, section, returned)
    ensures Grew(first, third, section, returned)
  {
  }

  /** At most the entry of `id` changed. */
  ghost predicate Touched(before: map<SubstreamId, OutboundInfo>, after: map<SubstreamId, OutboundInfo>, id: SubstreamId) {
    after == before - {id} || (id in after && after == before[id := after[id]])
  }

  ghost function Ids(list: seq<SubstreamId>): set<SubstreamId> {
    set id | id in list
  }

  /** The environment picks any key that is not in use. */
  method NewKey(queue: DelayQueue) returns (key: Key)
    ensures key !in queue.live
  {
    ghost var above := KeyAbove(queue.live.Keys);
    assert above !in queue.live;
    key :| key !in queue.live;
  }

  lemma KeyAbove(keys: set<Key>) returns (key: Key)
    ensures forall k :: k in keys ==> k < key
  {
    if keys == {} {
      key := 0;
    } else {
      var k :| k in keys;
      var rest := KeyAbove(keys - {k});
      key := if k < rest then rest else k + 1;
      assert forall other :: other in keys ==> other == k || other in keys - {k};
    }
  }

  class RPCHandler {
    var phase: Phase
    var eventsOut: seq<Event>
    var dialQueue: seq<Dialing>
    var dialNegotiated: nat
    var inbound: map<SubstreamId, InboundInfo>
    var inboundDelay: DelayQueue
    var outbound: map<SubstreamId, OutboundInfo>
    var outboundDelay: DelayQueue
    var nextInbound: SubstreamId
    var nextOutbound: SubstreamId
    var ioErrorRetries: nat
    /** Numbers the accepted requests; nothing depends on it. */
    var nextTicket: Ticket
    ghost var ledger: Ledger
    ghost var trace: seq<Step>

    ghost function View(): Handler
      reads this
    {
      Handler(phase, eventsOut, dialQueue, dialNegotiated, inbound, inboundDelay, outbound, outboundDelay,
              nextInbound, nextOutbound, ioErrorRetries, ledger)
    }

    /** The fields, without the inbound entries awaiting removal, are what the trace leads to. */
    ghost predicate Tracks(doomed: set<SubstreamId>)
      reads this
    {
      && IsRun(INITIAL, trace)
      && After(INITIAL, trace) == View().(inbound := inbound - doomed)
      && nextTicket == |ledger.accepted|
    }

    ghost predicate Valid()
      reads this
    {
      IsRun(INITIAL, trace) && After(INITIAL, trace) == View() && nextTicket == |ledger.accepted|
    }

    constructor ()
      ensures Valid() && trace == [] && View() == INITIAL
    {
      phase, eventsOut, dialQueue, dialNegotiated := Active, [], [], 0;
      inbound, inboundDelay, outbound, outboundDelay := map[], DelayQueue(map[]), map[], DelayQueue(map[]);
      nextInbound, nextOutbound, ioErrorRetries, nextTicket := 0, 0, 0, 0;
      ledger, trace := INITIAL.ledger, [];
    }

    /** Record that the fields now are what `step` makes of `before`. */
    ghost method Commit(before: Handler, step: Step, doomed: set<SubstreamId>)
      requires IsRun(INITIAL, trace) && After(INITIAL, trace) == before && Enabled(before, step)
      requires View().(inbound := inbound - doomed, ledger := Apply(before, step).ledger) == Apply(before, step)
      requires nextTicket == |Apply(before, step).ledger.accepted|
      modifies this`ledger, this`trace
      ensures Tracks(doomed) && trace == old(trace) + [step] && ledger == Apply(before, step).ledger
      ensures doomed == {} ==> Valid() && View() == Apply(before, step)
    {
      RunExtends(INITIAL, trace, step);
      ledger := Apply(before, step).ledger;
      trace := trace + [step];
      assert inbound - {} == inbound;
    }

    method SendRequest(id: RequestId, query: Query)
      requires Valid()
      modifies this
      ensures Valid() && trace == old(trace) + [Step.SendRequest(id, query)]
    {
      ghost var before := View();
      match phase {
        case Active =>
          dialQueue := dialQueue + [Dialing(id, query, nextTicket)];
          nextTicket := nextTicket + 1;
        case _ =>
          eventsOut := eventsOut + [Err(HandlerError)];
      }
      assert inbound - {} == inbound;
      Commit(before, Step.SendRequest(id, query), {});
    }

    method SendResponse(id: SubstreamId, response: CodedResponse)
      requires Valid()
      modifies this
      ensures Valid() && trace == old(trace) + [Step.SendResponse(id, response)]
    {
      ghost var before := View();
      if id in inbound {
        if response.Error? {
          eventsOut := eventsOut + [Err(HandlerError)];
        }
        if !phase.Deactivated? {
          inbound := inbound[id := inbound[id].(pending := inbound[id].pending + [response])];
        }
      }
      assert inbound - {} == inbound;
      Commit(before, Step.SendResponse(id, response), {});
    }

    method Shutdown(goodbye: Option<RequestId>)
      requires nextTicket == |ledger.accepted|
      modifies this`phase, this`eventsOut, this`dialQueue, this`nextTicket
      ensures var after := HandlerMachine.Shutdown(old(View()), goodbye);
              View().(ledger := after.ledger) == after && nextTicket == |after.ledger.accepted|
    {
      if phase.Active? {
        DropDialQueue();
        if goodbye.Some? {
          dialQueue := dialQueue + [Dialing(goodbye.value, Query(Goodbye(1), ExpectedResponses(Goodbye(1))), nextTicket)];
          nextTicket := nextTicket + 1;
        }
        phase := ShuttingDown;
      }
    }

    /** The queue is emptied from its back, with a report for each request. */
    method DropDialQueue()
      requires nextTicket == |ledger.accepted|
      modifies this`eventsOut, this`dialQueue
      ensures var after := DropQueue(old(View()));
              View().(ledger := after.ledger) == after && nextTicket == |after.ledger.accepted|
    {
      ghost var h := View();
      while dialQueue != []
        invariant View().(ledger := h.ledger) == h && DropQueue(h) == DropQueue(old(View()))
        invariant nextTicket == |h.ledger.accepted|
        decreases |dialQueue|
      {
        dialQueue := dialQueue[..|dialQueue| - 1];
        eventsOut := eventsOut + [Err(HandlerError)];
        h := DropLast(h);
      }
    }

    method InjectFullyNegotiatedInbound(query: Query) returns (ghost key: Key)
      requires Valid()
      modifies this
      ensures Valid() && trace == old(trace) + [NegotiatedInbound(query, key)]
    {
      ghost var before := View();
      assert inbound - {} == inbound;
      var delayKey := NewKey(inboundDelay);
      key := delayKey;
      if !phase.Active? {
        Commit(before, NegotiatedInbound(query, key), {});
        return;
      }
      if query.expected > 0 {
        if |inbound| < MAX_INBOUND_SUBSTREAMS {
          inboundDelay := inboundDelay.Insert(delayKey, nextInbound);
          inbound := inbound[nextInbound := InboundInfo(Idle, [], query.expected, Some(delayKey))];
          ledger := OpenInbound(before, query.expected, key).ledger;
        } else {
          Reject(before, query, key);
          return;
        }
      }
      TakeIn(before, query, key);
    }

    /** No room for another substream. */
    method Reject(ghost before: Handler, query: Query, ghost key: Key)
      requires Valid() && View() == before && phase.Active?
      requires key !in inboundDelay.live && query.expected > 0 && |inbound| >= MAX_INBOUND_SUBSTREAMS
      modifies this
      ensures Valid() && trace == old(trace) + [NegotiatedInbound(query, key)]
    {
      eventsOut := eventsOut + [Err(HandlerRejected)];
      ledger := Push(before, Err(HandlerRejected), None).ledger;
      Shutdown(None);
      assert inbound - {} == inbound;
      Commit(before, NegotiatedInbound(query, key), {});
    }

    /** The rest of `inject_fully_negotiated_inbound`, once the substream has its entry. */
    method TakeIn(ghost before: Handler, query: Query, ghost key: Key)
      requires IsRun(INITIAL, trace) && After(INITIAL, trace) == before && before.phase.Active?
      requires key !in before.inboundDelay.live && (query.expected > 0 ==> |before.inbound| < MAX_INBOUND_SUBSTREAMS)
      requires View() == if query.expected > 0 then OpenInbound(before, query.expected, key) else before
      requires nextTicket == |ledger.accepted|
      modifies this
      ensures Valid() && trace == old(trace) + [NegotiatedInbound(query, key)]
    {
      assert inbound - {} == inbound;
      ghost var entered := View();
      Announce(query.request);
      assert NegotiatedInboundStep(before, query, key) ==
             Push(if query.request.Goodbye? then HandlerMachine.Shutdown(entered, None) else entered,
                  Ok(RequestReceived(entered.nextInbound, query.request)), None).(nextInbound := entered.nextInbound + 1);
      Commit(before, NegotiatedInbound(query, key), {});
    }

    method Announce(request: Request)
      requires nextTicket == |ledger.accepted|
      modifies this`phase, this`eventsOut, this`dialQueue, this`nextTicket, this`nextInbound
      ensures var h := old(View());
              var told := if request.Goodbye? then HandlerMachine.Shutdown(h, None) else h;
              var after := Push(told, Ok(RequestReceived(h.nextInbound, request)), None).(nextInbound := h.nextInbound + 1);
              View().(ledger := after.ledger) == after && nextTicket == |after.ledger.accepted|
    {
      if request.Goodbye? {
        Shutdown(None);
      }
      eventsOut := eventsOut + [Ok(RequestReceived(nextInbound, request))];
      nextInbound := nextInbound + 1;
    }

    /** A dial under way holds a slot, so giving it back does not underflow. */
    lemma SlotHeld(t: Ticket)
      requires Valid() && t in ledger.negotiating
      ensures 1 <= dialNegotiated <= MAX_DIAL_NEGOTIATED && ioErrorRetries < IO_ERROR_RETRIES
    {
      ReachableIsGood(View());
    }

    /** The swarm returns the open info it was given with the dial. */
    method InjectFullyNegotiatedOutbound(dialing: Dialing) returns (ghost key: Key)
      requires Valid()
      requires dialing.ticket in ledger.negotiating && dialing.ticket < |ledger.accepted| && dialing == ledger.accepted[dialing.ticket]
      modifies this
      ensures Valid() && trace == old(trace) + [NegotiatedOutbound(dialing.ticket, key)]
    {
      ghost var before := View();
      var delayKey := NewKey(outboundDelay);
      key := delayKey;
      SlotHeld(dialing.ticket);
      dialNegotiated := dialNegotiated - 1;
      assert View() == FreeSlot(before);
      OpenNegotiated(dialing, delayKey);
      assert inbound - {} == inbound;
      Commit(before, NegotiatedOutbound(dialing.ticket, key), {});
    }

    /** The rest of `inject_fully_negotiated_outbound`, once the slot is given back. */
    method OpenNegotiated(dialing: Dialing, delayKey: Key)
      requires delayKey !in outboundDelay.live
      requires dialing.ticket < |ledger.accepted| && dialing == ledger.accepted[dialing.ticket]
      modifies this`eventsOut, this`outbound, this`outboundDelay, this`nextOutbound
      ensures var after := PlaceOutbound(old(View()), dialing.ticket, delayKey);
              View().(ledger := after.ledger) == after && |after.ledger.accepted| == |ledger.accepted|
    {
      if phase.Deactivated? {
        eventsOut := eventsOut + [Err(HandlerStateDeactivated)];
      }
      var expected := dialing.query.expected;
      if expected > 0 {
        outboundDelay := outboundDelay.Insert(delayKey, nextOutbound);
        var remaining := if expected > 1 then Some(expected) else None;
        outbound := outbound[nextOutbound :=
          OutboundInfo(RequestPending(dialing.query), delayKey, remaining, dialing.id, dialing.ticket)];
        nextOutbound := nextOutbound + 1;
      }
    }

    method InjectDialUpgradeError(dialing: Dialing, ioError: bool)
      requires Valid()
      requires dialing.ticket in ledger.negotiating && dialing.ticket < |ledger.accepted| && dialing == ledger.accepted[dialing.ticket]
      modifies this
      ensures Valid() && trace == old(trace) + [DialFailed(dialing.ticket, ioError)]
    {
      ghost var before := View();
      SlotHeld(dialing.ticket);
      AfterDialError(dialing, ioError);
      assert inbound - {} == inbound;
      Commit(before, DialFailed(dialing.ticket, ioError), {});
    }

    method AfterDialError(dialing: Dialing, ioError: bool)
      requires 1 <= dialNegotiated && dialing.ticket < |ledger.accepted| && dialing == ledger.accepted[dialing.ticket]
      modifies this`eventsOut, this`dialQueue, this`dialNegotiated, this`ioErrorRetries
      ensures var after := DialFailedStep(old(View()), dialing.ticket, ioError);
              View().(ledger := after.ledger) == after && |after.ledger.accepted| == |ledger.accepted|
    {
      if ioError {
        ioErrorRetries := ioErrorRetries + 1;
        if ioErrorRetries < IO_ERROR_RETRIES {
          if phase.Active? {
            dialQueue := dialQueue + [dialing];
          } else {
            eventsOut := eventsOut + [Err(HandlerError)];
          }
          return;
        }
      }
      dialNegotiated := dialNegotiated - 1;
      ioErrorRetries := 0;
      eventsOut := eventsOut + [Err(DialUpgradeError)];
    }

    /** No request waits or is being dialled, no substream is open, and no event is queued. */
    ghost predicate NothingLeft()
      reads this
    {
      && |dialQueue| == 0 && dialNegotiated == 0 && |eventsOut| == 0
      && (forall id :: id !in inbound) && (forall id :: id !in outbound)
    }

    method ConnectionKeepAlive() returns (keepAlive: bool)
      requires Valid()
      ensures keepAlive <==> phase.Active? || (phase.ShuttingDown? && !NothingLeft())
    {
      var shouldShutdown := match phase
        case ShuttingDown =>
          dialQueue == [] && outbound == map[] && inbound == map[] && eventsOut == [] && dialNegotiated == 0
        case Deactivated => true
        case Active => false;
      keepAlive := !shouldShutdown;
    }

    // -------------------------------------------------------------------------------------------
    // poll

    /** The first loop of `poll`. Fails if the timer queue does. */
    method ExpireInbound() returns (failed: bool)
      requires Valid()
      modifies this
      ensures Valid() && Grew(old(trace), trace, 1, false) && ledger.delivered == old(ledger.delivered)
      ensures phase == old(phase)
    {
      while true
        invariant Valid() && Grew(old(trace), trace, 1, false) && ledger.delivered == old(ledger.delivered)
        invariant phase == old(phase)
        decreases |inboundDelay.live|
      {
        failed := *;
        var ready := *;
        if failed || !ready || inboundDelay.live == map[] {
          return;
        }
        var key :| key in inboundDelay.live;
        ExpireInboundTimer(key);
      }
    }

    method ExpireInboundTimer(key: Key)
      requires Valid() && key in inboundDelay.live
      modifies this
      ensures Valid() && trace == old(trace) + [InboundExpired(key)] && ledger.delivered == old(ledger.delivered)
      ensures phase == old(phase) && |inboundDelay.live| < |old(inboundDelay).live|
    {
      ghost var before := View();
      WithoutOne(inboundDelay.live, key);
      TimeOut(key);
      assert inbound - {} == inbound;
      Commit(before, InboundExpired(key), {});
    }

    method TimeOut(key: Key)
      requires key in inboundDelay.live
      modifies this`inbound, this`inboundDelay, this`eventsOut
      ensures var after := InboundExpiredStep(old(View()), key);
              View().(ledger := after.ledger) == after && |after.ledger.accepted| == |ledger.accepted|
    {
      var id := inboundDelay.live[key];
      inboundDelay := inboundDelay.Remove(key);
      if id in inbound {
        var info := inbound[id].(delayKey := None);
        inbound := inbound[id := info];
        eventsOut := eventsOut + [Err(StreamTimeout)];
        if LastStaysOpen(info.pending) {
          inbound := inbound[id := info.(pending := info.pending + [Error])];
        }
      }
    }

    /** An expired outbound timer always finds its substream. */
    lemma InTheBooks(key: Key)
      requires Valid() && key in outboundDelay.live
      ensures outboundDelay.live[key] in outbound && outbound[outboundDelay.live[key]].delayKey == key
    {
      ReachableIsGood(View());
    }

    /** The second loop of `poll`: the first expired outbound timer is reported at once, so the loop
        would only go on from the branch that never runs. */
    method ExpireOutbound() returns (failed: bool, event: Option<Event>)
      requires Valid()
      modifies this
      ensures Valid() && Grew(old(trace), trace, 2, event.Some?) && phase == old(phase)
      ensures ledger.delivered == old(ledger.delivered) + (if event.Some? then [event.value] else [])
      ensures failed ==> event.None?
    {
      event := None;
      failed := *;
      var ready := *;
      if failed || !ready || outboundDelay.live == map[] {
        return;
      }
      ghost var before := View();
      var key :| key in outboundDelay.live;
      InTheBooks(key);
      var id := outboundDelay.live[key];
      outboundDelay := outboundDelay.Remove(key);
      if id in outbound {
        outbound := outbound - {id};
        event := Some(Err(StreamTimeout));
        assert inbound - {} == inbound;
        Commit(before, OutboundExpired(key), {});
      } else {
        assert false; // "timed out substream not in the books"
      }
    }

    /** What the trace says about an inbound entry that is not awaiting removal. */
    lemma Serviceable(id: SubstreamId, doomed: set<SubstreamId>)
      requires Tracks(doomed) && id in inbound && id !in doomed
      ensures !inbound[id].state.InboundPoisoned?
      ensures inbound[id].delayKey.Some? ==> inbound[id].delayKey.value in inboundDelay.live
    {
      ghost var h := After(INITIAL, trace);
      ReachableIsGood(h);
      assert id in h.inbound && h.inbound[id] == inbound[id];
    }

    /** Take the next message of an idle substream, leaving the state replaced by a poisoned one. */
    method StartSend(id: SubstreamId, ghost doomed: set<SubstreamId>)
      requires Tracks(doomed) && id in inbound && id !in doomed && !phase.Deactivated?
      requires inbound[id].state.Idle? && inbound[id].pending != []
      modifies this`inbound, this`ledger, this`trace
      ensures Tracks(doomed) && trace == old(trace) + [InboundStart(id)] && ledger.delivered == old(ledger).delivered
      ensures id in inbound && inbound == old(inbound)[id := inbound[id]] && |inbound[id].pending| < |old(inbound)[id].pending|
    {
      ghost var before := After(INITIAL, trace);
      var info := inbound[id];
      var message := info.pending[0];
      var lastChunk := info.remaining <= 1;
      inbound := inbound[id := info.(state := Busy(message, lastChunk), pending := info.pending[1..])];
      assert inbound - doomed == before.inbound[id := inbound[id]];
      Commit(before, InboundStart(id), doomed);
    }

    /** A message went out and the substream stays open. */
    method FinishSend(id: SubstreamId, ghost doomed: set<SubstreamId>)
      requires Tracks(doomed) && id in inbound && id !in doomed
      requires inbound[id].state.Busy? && !ClosesAfter(inbound[id].state)
      modifies this`inbound, this`inboundDelay, this`ledger, this`trace
      ensures Tracks(doomed) && trace == old(trace) + [InboundSent(id)] && ledger.delivered == old(ledger).delivered
      ensures id in inbound && inbound == old(inbound)[id := inbound[id]] && inbound[id].state.Idle?
      ensures inbound[id].pending == old(inbound)[id].pending
    {
      ghost var before := After(INITIAL, trace);
      Serviceable(id, doomed);
      var info := inbound[id];
      if info.delayKey.Some? {
        inboundDelay := inboundDelay.Reset(info.delayKey.value);
      }
      var remaining := if info.remaining == 0 then 0 else info.remaining - 1;
      inbound := inbound[id := info.(state := Idle, remaining := remaining)];
      assert inbound - doomed == before.inbound[id := inbound[id]];
      Commit(before, InboundSent(id), doomed);
    }

    /** The entry's state was taken out of it: put `info` back, and the fields match the trace. */
    ghost predicate Replaced(id: SubstreamId, info: InboundInfo, doomed: set<SubstreamId>)
      reads this
    {
      && id in inbound && id !in doomed && nextTicket == |ledger.accepted|
      && IsRun(INITIAL, trace)
      && After(INITIAL, trace) == View().(inbound := inbound[id := info] - doomed)
    }

    lemma TimerLives(id: SubstreamId, info: InboundInfo, doomed: set<SubstreamId>)
      requires Replaced(id, info, doomed)
      ensures info.delayKey.Some? ==> info.delayKey.value in inboundDelay.live
      ensures var before := After(INITIAL, trace);
              id in before.inbound && before.inbound[id] == info && inbound - (doomed + {id}) == before.inbound - {id}
    {
      ghost var before := After(INITIAL, trace);
      ReachableIsGood(before);
      assert id in before.inbound && before.inbound[id] == info;
    }

    /** The timer of a substream that is about to be removed. */
    method StopTimer(info: InboundInfo)
      requires info.delayKey.Some? ==> info.delayKey.value in inboundDelay.live
      modifies this`inboundDelay
      ensures inboundDelay == if info.delayKey.Some? then DelayQueue(old(inboundDelay).live - {info.delayKey.value})
                              else old(inboundDelay)
    {
      if info.delayKey.Some? {
        inboundDelay := inboundDelay.Remove(info.delayKey.value);
      }
    }

    /** One turn of the inner loop on an idle substream. The state is replaced by a poisoned one first; an
        entry to be removed stays poisoned. */
    method ServeIdle(id: SubstreamId, deactivated: bool, ghost doomed: set<SubstreamId>) returns (turn: Turn)
      requires Tracks(doomed) && id in inbound && id !in doomed && deactivated == phase.Deactivated?
      requires inbound[id].state.Idle?
      modifies this`inbound, this`inboundDelay, this`eventsOut, this`ledger, this`trace
      ensures Tracks(if turn.Remove? then doomed + {id} else doomed)
      ensures Grew(old(trace), trace, 3, false) && ledger.delivered == old(ledger).delivered
      ensures id in inbound && inbound == old(inbound)[id := inbound[id]]
      ensures turn.Again? ==> |inbound[id].pending| < |old(inbound)[id].pending|
      ensures turn.Break? && !deactivated ==> inbound[id].pending == []
    {
      if deactivated {
        turn := CloseIdle(id, doomed);
      } else {
        turn := SendIdle(id, doomed);
      }
    }

    /** There is something to send, or nothing to do. */
    method SendIdle(id: SubstreamId, ghost doomed: set<SubstreamId>) returns (turn: Turn)
      requires Tracks(doomed) && id in inbound && id !in doomed && !phase.Deactivated? && inbound[id].state.Idle?
      modifies this`inbound, this`inboundDelay, this`eventsOut, this`ledger, this`trace
      ensures Tracks(doomed) && !turn.Remove?
      ensures Grew(old(trace), trace, 3, false) && ledger.delivered == old(ledger).delivered
      ensures id in inbound && inbound == old(inbound)[id := inbound[id]]
      ensures turn.Again? ==> |inbound[id].pending| < |old(inbound)[id].pending|
      ensures turn.Break? ==> inbound[id].pending == []
    {
      var info := inbound[id];
      inbound := inbound[id := info.(state := InboundPoisoned)];
      inbound := inbound[id := info];
      assert inbound == old(inbound);
      if info.pending == [] {
        return Break;
      }
      StartSend(id, doomed);
      return Again;
    }

    /** A deactivated handler closes the substream. */
    method CloseIdle(id: SubstreamId, ghost doomed: set<SubstreamId>) returns (turn: Turn)
      requires Tracks(doomed) && id in inbound && id !in doomed && phase.Deactivated? && inbound[id].state.Idle?
      modifies this`inbound, this`inboundDelay, this`eventsOut, this`ledger, this`trace
      ensures Tracks(if turn.Remove? then doomed + {id} else doomed) && !turn.Again?
      ensures Grew(old(trace), trace, 3, false) && ledger.delivered == old(ledger).delivered
      ensures id in inbound && inbound == old(inbound)[id := inbound[id]]
    {
      var info := inbound[id];
      inbound := inbound[id := info.(state := InboundPoisoned)];
      assert inbound[id := info] == old(inbound);
      var ready, failed := *, *;
      if !ready {
        inbound := inbound[id := info];
        return Break;
      }
      RemoveIdle(id, info, failed, doomed);
      return Remove;
    }

    method RemoveIdle(id: SubstreamId, info: InboundInfo, failed: bool, ghost doomed: set<SubstreamId>)
      requires Replaced(id, info, doomed) && info.state.Idle? && phase.Deactivated?
      modifies this`inboundDelay, this`eventsOut, this`ledger, this`trace
      ensures Tracks(doomed + {id}) && ledger.delivered == old(ledger).delivered
      ensures trace == old(trace) + [InboundClosed(id, failed)]
    {
      ghost var before := After(INITIAL, trace);
      TimerLives(id, info, doomed);
      StopTimer(info);
      if failed {
        eventsOut := eventsOut + [Err(ShutdownSubstreamError)];
      }
      if LastStaysOpen(info.pending) {
        eventsOut := eventsOut + [Err(CancelRequest)];
      }
      Commit(before, InboundClosed(id, failed), doomed + {id});
    }

    /** One turn of the inner loop on a substream whose send is under way. */
    method ServeBusy(id: SubstreamId, deactivated: bool, ghost doomed: set<SubstreamId>) returns (turn: Turn)
      requires Tracks(doomed) && id in inbound && id !in doomed && deactivated == phase.Deactivated?
      requires inbound[id].state.Busy?
      modifies this`inbound, this`inboundDelay, this`eventsOut, this`ledger, this`trace
      ensures Tracks(if turn.Remove? then doomed + {id} else doomed)
      ensures Grew(old(trace), trace, 3, false) && ledger.delivered == old(ledger).delivered
      ensures id in inbound && inbound == old(inbound)[id := inbound[id]]
      ensures turn.Again? ==> |inbound[id].pending| < |old(inbound)[id].pending|
      ensures turn.Break? && !deactivated && inbound[id].state.Idle? ==> inbound[id].pending == []
    {
      var info := inbound[id];
      inbound := inbound[id := info.(state := InboundPoisoned)];
      assert inbound[id := info] == old(inbound);
      var ready, sendOk, closeOk := *, *, *;
      if !ready {
        inbound := inbound[id := info];
        return Break;
      }
      var sent := SendMessage(info.state.message, info.state.lastChunk, sendOk, closeOk);
      if sent.SentOpen? {
        inbound := inbound[id := info];
        turn := NextMessage(id, deactivated, doomed);
      } else {
        RemoveBusy(id, info, sent, doomed);
        turn := Remove;
      }
    }

    /** A message is out; go on with the next one, if any. */
    method NextMessage(id: SubstreamId, deactivated: bool, ghost doomed: set<SubstreamId>) returns (turn: Turn)
      requires Tracks(doomed) && id in inbound && id !in doomed && deactivated == phase.Deactivated?
      requires inbound[id].state.Busy? && !ClosesAfter(inbound[id].state)
      modifies this`inbound, this`inboundDelay, this`ledger, this`trace
      ensures Tracks(doomed) && !turn.Remove?
      ensures Grew(old(trace), trace, 3, false) && ledger.delivered == old(ledger).delivered
      ensures id in inbound && inbound == old(inbound)[id := inbound[id]]
      ensures turn.Again? ==> |inbound[id].pending| < |old(inbound)[id].pending|
      ensures turn.Break? && !deactivated && inbound[id].state.Idle? ==> inbound[id].pending == []
    {
      FinishSend(id, doomed);
      GrewBy(old(trace), old(trace), InboundSent(id));
      turn := SendOn(id, deactivated, doomed);
      GrewOn(old(trace), old(trace) + [InboundSent(id)], trace, 3);
    }

    /** The next message, if there is one and the handler is not deactivated. */
    method SendOn(id: SubstreamId, deactivated: bool, ghost doomed: set<SubstreamId>) returns (turn: Turn)
      requires Tracks(doomed) && id in inbound && id !in doomed && deactivated == phase.Deactivated?
      requires inbound[id].state.Idle?
      modifies this`inbound, this`ledger, this`trace
      ensures Tracks(doomed) && !turn.Remove?
      ensures Grew(old(trace), trace, 3, false) && ledger.delivered == old(ledger).delivered
      ensures id in inbound && inbound == old(inbound)[id := inbound[id]]
      ensures turn.Again? ==> |inbound[id].pending| < |old(inbound)[id].pending|
      ensures turn.Break? && !deactivated ==> inbound[id].pending == []
    {
      if deactivated || inbound[id].pending == [] {
        assert inbound == old(inbound)[id := inbound[id]];
        return Break;
      }
      StartSend(id, doomed);
      return Again;
    }

    method RemoveBusy(id: SubstreamId, info: InboundInfo, sent: SendResult, ghost doomed: set<SubstreamId>)
      requires Replaced(id, info, doomed) && info.state.Busy? && !sent.SentOpen?
      requires sent.SentClosed? ==> ClosesAfter(info.state)
      modifies this`inboundDelay, this`eventsOut, this`ledger, this`trace
      ensures Tracks(doomed + {id}) && ledger.delivered == old(ledger).delivered
      ensures trace == old(trace) + [if sent.SentClosed? then InboundDone(id) else InboundFailed(id)]
    {
      ghost var before := After(INITIAL, trace);
      TimerLives(id, info, doomed);
      StopTimer(info);
      if sent.SentClosed? {
        Commit(before, InboundDone(id), doomed + {id});
      } else {
        eventsOut := eventsOut + [Err(ResponseError)];
        Commit(before, InboundFailed(id), doomed + {id});
      }
    }

    method ServeTurn(id: SubstreamId, deactivated: bool, ghost doomed: set<SubstreamId>) returns (turn: Turn)
      requires Tracks(doomed) && id in inbound && id !in doomed && deactivated == phase.Deactivated?
      requires !inbound[id].state.InboundPoisoned?
      modifies this`inbound, this`inboundDelay, this`eventsOut, this`ledger, this`trace
      ensures Tracks(if turn.Remove? then doomed + {id} else doomed)
      ensures Grew(old(trace), trace, 3, false) && ledger.delivered == old(ledger).delivered
      ensures id in inbound && inbound == old(inbound)[id := inbound[id]]
      ensures turn.Again? ==> |inbound[id].pending| < |old(inbound)[id].pending|
      ensures turn.Break? && !deactivated && inbound[id].state.Idle? ==> inbound[id].pending == []
    {
      match inbound[id].state {
        case Idle => turn := ServeIdle(id, deactivated, doomed);
        case Busy(_, _) => turn := ServeBusy(id, deactivated, doomed);
        case InboundPoisoned => assert false; // "Poisoned inbound substream"
      }
    }

    /** The inner loop over one inbound substream: each turn that does not end it uses up a message. */
    method ServeSubstream(id: SubstreamId, deactivated: bool, ghost doomed: set<SubstreamId>) returns (remove: bool)
      requires Tracks(doomed) && id in inbound && id !in doomed && deactivated == phase.Deactivated?
      modifies this`inbound, this`inboundDelay, this`eventsOut, this`ledger, this`trace
      ensures Tracks(if remove then doomed + {id} else doomed)
      ensures Grew(old(trace), trace, 3, false) && ledger.delivered == old(ledger).delivered
      ensures id in inbound && inbound == old(inbound)[id := inbound[id]]
      ensures !remove && !deactivated && inbound[id].state.Idle? ==> inbound[id].pending == []
    {
      while true
        invariant Tracks(doomed) && Grew(old(trace), trace, 3, false) && ledger.delivered == old(ledger).delivered
        invariant id in inbound && inbound == old(inbound)[id := inbound[id]]
        decreases |inbound[id].pending|
      {
        Serviceable(id, doomed);
        var turn := ServeTurn(id, deactivated, doomed);
        if !turn.Again? {
          return turn.Remove?;
        }
      }
    }

    /** The inbound loop, and then the removal of the finished substreams. */
    method ServeInbound()
      requires Valid()
      modifies this`inbound, this`inboundDelay, this`eventsOut, this`ledger, this`trace
      ensures Valid() && Grew(old(trace), trace, 3, false) && ledger.delivered == old(ledger).delivered
      ensures InboundSettled()
    {
      var substreamsToRemove := ServeEach();
      RemoveAll(substreamsToRemove);
      assert inbound == After(INITIAL, trace).inbound;
    }

    /** Every substream is served, in some order; those that are finished are returned. */
    method ServeEach() returns (substreamsToRemove: seq<SubstreamId>)
      requires Valid()
      modifies this`inbound, this`inboundDelay, this`eventsOut, this`ledger, this`trace
      ensures Tracks(Ids(substreamsToRemove)) && Served({}, Ids(substreamsToRemove))
      ensures Grew(old(trace), trace, 3, false) && ledger.delivered == old(ledger).delivered
    {
      substreamsToRemove := [];
      var todo := inbound.Keys;
      assert inbound - Ids([]) == inbound;
      while todo != {}
        invariant Tracks(Ids(substreamsToRemove)) && Served(todo, Ids(substreamsToRemove))
        invariant Grew(old(trace), trace, 3, false) && ledger.delivered == old(ledger).delivered
        decreases todo
      {
        var id :| id in todo;
        substreamsToRemove := ServeNext(id, todo, substreamsToRemove, old(trace));
        todo := todo - {id};
      }
    }

    /** Of the substreams outside `todo` that stay, none that could send has anything to send. */
    ghost predicate Served(todo: set<SubstreamId>, doomed: set<SubstreamId>)
      reads this
    {
      && todo <= inbound.Keys && todo !! doomed
      && forall id :: id in inbound && id !in todo && id !in doomed && inbound[id].state.Idle? && !phase.Deactivated? ==>
           inbound[id].pending == []
    }

    method ServeNext(id: SubstreamId, ghost todo: set<SubstreamId>, finished: seq<SubstreamId>, ghost start: seq<Step>)
      returns (substreamsToRemove: seq<SubstreamId>)
      requires Tracks(Ids(finished)) && Served(todo, Ids(finished)) && id in todo && Grew(start, trace, 3, false)
      modifies this`inbound, this`inboundDelay, this`eventsOut, this`ledger, this`trace
      ensures Tracks(Ids(substreamsToRemove)) && Served(todo - {id}, Ids(substreamsToRemove))
      ensures Grew(start, trace, 3, false) && ledger.delivered == old(ledger).delivered
    {
      var remove := ServeSubstream(id, phase.Deactivated?, Ids(finished));
      GrewOn(start, old(trace), trace, 3);
      substreamsToRemove := if remove then finished + [id] else finished;
      assert Ids(finished + [id]) == Ids(finished) + {id};
    }

    method RemoveAll(ids: seq<SubstreamId>)
      modifies this`inbound
      ensures inbound == old(inbound) - Ids(ids)
    {
      for i := 0 to |ids|
        invariant inbound == old(inbound) - Ids(ids[..i])
      {
        inbound := inbound - {ids[i]};
        assert ids[..i + 1] == ids[..i] + [ids[i]];
      }
      assert ids[..|ids|] == ids;
    }

    /** What the trace says about an outbound entry. */
    lemma Answerable(id: SubstreamId)
      requires Valid() && id in outbound
      ensures !outbound[id].state.OutboundPoisoned? && outbound[id].delayKey in outboundDelay.live
    {
      ReachableIsGood(View());
      assert PlaceOk(View(), outbound[id].ticket);
    }

    /** One outbound substream that awaits a response, its state already replaced by a poisoned one. */
    method ServePending(id: SubstreamId, info: OutboundInfo, ghost before: Handler) returns (event: Option<Event>)
      requires TakenOut(id, info, before) && info.state.RequestPending? && !phase.Deactivated?
      modifies this`outbound, this`outboundDelay, this`ledger, this`trace
      ensures Valid() && Grew(old(trace), trace, 4, event.Some?)
      ensures ledger.delivered == old(ledger).delivered + (if event.Some? then [event.value] else [])
      ensures Touched(before.outbound, outbound, id)
    {
      var answer: StreamPoll := *;
      match answer {
        case Response(response) =>
          Answer(id, info, response, before);
          event := Some(ReceivedEvent(info.reqId, response));
        case NotReady =>
          PutBack(id, info, before);
          event := None;
        case Ended(dropped) =>
          End(id, info, dropped, before);
          event := Some(Err(if dropped then StreamDropped else IncompleteResponse));
      }
    }

    /** The entry's state was taken out of it: with `info` back in place the fields match the trace. */
    ghost predicate TakenOut(id: SubstreamId, info: OutboundInfo, before: Handler)
      reads this
    {
      && IsRun(INITIAL, trace) && After(INITIAL, trace) == before && nextTicket == |ledger.accepted|
      && id in outbound && View().(outbound := outbound[id := info]) == before
      && info.delayKey in outboundDelay.live
    }

    method PutBack(id: SubstreamId, info: OutboundInfo, ghost before: Handler)
      requires TakenOut(id, info, before)
      modifies this`outbound
      ensures Valid() && Touched(before.outbound, outbound, id) && id in outbound && outbound[id] == info
    {
      outbound := outbound[id := info];
      assert outbound == before.outbound && outbound == outbound[id := info];
    }

    method Answer(id: SubstreamId, info: OutboundInfo, response: CodedResponse, ghost before: Handler)
      requires TakenOut(id, info, before) && info.state.RequestPending? && !phase.Deactivated?
      modifies this`outbound, this`outboundDelay, this`ledger, this`trace
      ensures Valid() && Grew(old(trace), trace, 4, true) && Touched(before.outbound, outbound, id)
      ensures ledger.delivered == old(ledger).delivered + [ReceivedEvent(info.reqId, response)]
    {
      TakeResponse(id, info, response);
      assert outbound == before.outbound[id := AfterResponse(info, response)] && inbound - {} == inbound;
      Commit(before, OutboundResponse(id, response), {});
      GrewByReturn(old(trace), OutboundResponse(id, response));
    }

    method End(id: SubstreamId, info: OutboundInfo, dropped: bool, ghost before: Handler)
      requires TakenOut(id, info, before) && info.state.RequestPending? && !phase.Deactivated?
      modifies this`outbound, this`outboundDelay, this`ledger, this`trace
      ensures Valid() && Grew(old(trace), trace, 4, true) && Touched(before.outbound, outbound, id)
      ensures ledger.delivered == old(ledger).delivered + [Err(if dropped then StreamDropped else IncompleteResponse)]
    {
      outboundDelay := outboundDelay.Remove(info.delayKey);
      outbound := outbound - {id};
      assert outbound == before.outbound - {id} && inbound - {} == inbound;
      Commit(before, OutboundEnded(id, dropped), {});
      GrewByReturn(old(trace), OutboundEnded(id, dropped));
    }

    method TakeResponse(id: SubstreamId, info: OutboundInfo, response: CodedResponse)
      requires id in outbound && info.state.RequestPending? && info.delayKey in outboundDelay.live
      modifies this`outbound, this`outboundDelay
      ensures outbound == old(outbound)[id := AfterResponse(info, response)] && outboundDelay == old(outboundDelay)
    {
      if info.state.query.expected > 1 && !response.CloseAfter() {
        var remaining := if info.remaining.Some? && info.remaining.value > 0 then info.remaining.value - 1 else 0;
        if remaining == 0 {
          outbound := outbound[id := info.(state := Closing)];
        } else {
          outbound := outbound[id := info.(remaining := Some(remaining))];
          outboundDelay := outboundDelay.Reset(info.delayKey);
        }
      } else {
        outbound := outbound[id := info.(state := Closing)];
      }
    }

    method ServeClosing(id: SubstreamId, info: OutboundInfo, ghost before: Handler)
      requires TakenOut(id, info, before) && info.state.Closing?
      modifies this`outbound, this`outboundDelay, this`ledger, this`trace
      ensures Valid() && Grew(old(trace), trace, 4, false) && ledger.delivered == old(ledger).delivered
      ensures Touched(before.outbound, outbound, id) && (id in outbound ==> outbound[id] == info)
    {
      var ready := *;
      if ready {
        CloseOut(id, info, before);
      } else {
        PutBack(id, info, before);
      }
    }

    method CloseOut(id: SubstreamId, info: OutboundInfo, ghost before: Handler)
      requires TakenOut(id, info, before) && info.state.Closing?
      modifies this`outbound, this`outboundDelay, this`ledger, this`trace
      ensures Valid() && Grew(old(trace), trace, 4, false) && ledger.delivered == old(ledger).delivered
      ensures Touched(before.outbound, outbound, id) && id !in outbound
    {
      outboundDelay := outboundDelay.Remove(info.delayKey);
      outbound := outbound - {id};
      assert outbound == before.outbound - {id} && inbound - {} == inbound;
      Commit(before, OutboundClosed(id), {});
      GrewBy(old(trace), old(trace), OutboundClosed(id));
    }

    method CloseDeactivated(id: SubstreamId, info: OutboundInfo, ghost before: Handler)
      requires TakenOut(id, info, before) && info.state.RequestPending? && phase.Deactivated?
      modifies this`outbound, this`eventsOut, this`ledger, this`trace
      ensures Valid() && trace == old(trace) + [OutboundDeactivated(id)] && ledger.delivered == old(ledger).delivered
      ensures outbound == before.outbound[id := info.(state := Closing)]
    {
      outbound := outbound[id := info.(state := Closing)];
      eventsOut := eventsOut + [Err(HandlerDeactivated)];
      assert outbound == before.outbound[id := info.(state := Closing)] && inbound - {} == inbound;
      Commit(before, OutboundDeactivated(id), {});
    }

    /** One turn of the outbound loop. */
    method ServeOne(id: SubstreamId, deactivated: bool) returns (event: Option<Event>)
      requires Valid() && id in outbound && deactivated == phase.Deactivated?
      modifies this`outbound, this`outboundDelay, this`eventsOut, this`ledger, this`trace
      ensures Valid() && Grew(old(trace), trace, 4, event.Some?)
      ensures ledger.delivered == old(ledger).delivered + (if event.Some? then [event.value] else [])
      ensures Touched(old(outbound), outbound, id)
      ensures deactivated && id in outbound ==> outbound[id].state.Closing?
    {
      ghost var before := View();
      Answerable(id);
      var info := outbound[id];
      outbound := outbound[id := info.(state := OutboundPoisoned)];
      assert outbound[id := info] == before.outbound;
      event := ServeTaken(id, info, deactivated, before);
    }

    method ServeTaken(id: SubstreamId, info: OutboundInfo, deactivated: bool, ghost before: Handler) returns (event: Option<Event>)
      requires TakenOut(id, info, before) && !info.state.OutboundPoisoned? && deactivated == phase.Deactivated?
      modifies this`outbound, this`outboundDelay, this`eventsOut, this`ledger, this`trace
      ensures Valid() && Grew(old(trace), trace, 4, event.Some?)
      ensures ledger.delivered == old(ledger).delivered + (if event.Some? then [event.value] else [])
      ensures Touched(before.outbound, outbound, id)
      ensures deactivated && id in outbound ==> outbound[id].state.Closing?
    {
      event := None;
      match info.state {
        case RequestPending(_) =>
          if deactivated {
            CloseDeactivated(id, info, before);
            GrewBy(old(trace), old(trace), OutboundDeactivated(id));
          } else {
            event := ServePending(id, info, before);
          }
        case Closing =>
          ServeClosing(id, info, before);
        case OutboundPoisoned =>
          assert false; // "Coding Error: Outbound substream is poisoned"
      }
    }

    /** The outbound loop, over a snapshot of the keys, until something is to be reported. `visited` are
        the entries looked at: all of them if nothing is. */
    method ServeOutbound() returns (event: Option<Event>, ghost visited: set<SubstreamId>)
      requires Valid()
      modifies this`outbound, this`outboundDelay, this`eventsOut, this`ledger, this`trace
      ensures Valid() && Grew(old(trace), trace, 4, event.Some?)
      ensures ledger.delivered == old(ledger).delivered + (if event.Some? then [event.value] else [])
      ensures event.None? ==> visited == old(outbound).Keys && OutboundSettled()
    {
      var todo := outbound.Keys;
      visited := {};
      while todo != {}
        invariant Valid() && Grew(old(trace), trace, 4, false) && ledger.delivered == old(ledger).delivered
        invariant visited == old(outbound).Keys - todo && ClosingBut(todo)
        decreases todo
      {
        var id :| id in todo;
        ghost var before := trace;
        event := ServeOne(id, phase.Deactivated?);
        todo, visited := todo - {id}, visited + {id};
        GrewReturning(old(trace), before, trace, 4, event.Some?);
        if event.Some? {
          return;
        }
      }
      event := None;
    }

    /** Deactivated, every entry outside `todo` is closing. */
    ghost predicate ClosingBut(todo: set<SubstreamId>)
      reads this
    {
      && todo <= outbound.Keys
      && forall id :: id in outbound && id !in todo && phase.Deactivated? ==> outbound[id].state.Closing?
    }

    ghost predicate OutboundSettled()
      reads this
    {
      phase.Deactivated? ==> forall id :: id in outbound ==> outbound[id].state.Closing?
    }

    /** The last part of `poll`: dial if there is a request and a slot. */
    method DialNext() returns (dialing: Option<Dialing>)
      requires Valid()
      modifies this`dialQueue, this`dialNegotiated, this`ledger, this`trace
      ensures Valid() && Grew(old(trace), trace, 5, dialing.Some?) && ledger.delivered == old(ledger).delivered
      ensures dialing.None? ==> View() == old(View()) && (dialQueue == [] || dialNegotiated >= 8)
      ensures dialing.Some? ==> old(dialNegotiated) < 8
      ensures dialing.Some? ==>
                && old(dialQueue) == [dialing.value] + dialQueue && dialNegotiated == old(dialNegotiated) + 1
                && JustDialled(dialing.value)
    {
      dialing := None;
      if dialQueue != [] && dialNegotiated < MAX_DIAL_NEGOTIATED {
        ghost var before := View();
        dialNegotiated := dialNegotiated + 1;
        dialing := Some(dialQueue[0]);
        dialQueue := dialQueue[1..];
        assert inbound - {} == inbound;
        Commit(before, Dial, {});
        assert trace[..|trace| - 1] == old(trace);
      }
    }

    /** Nothing is left poisoned between calls. */
    lemma NothingPoisoned()
      requires Valid()
      ensures forall id :: id in inbound ==> !inbound[id].state.InboundPoisoned?
      ensures forall id :: id in outbound ==> !outbound[id].state.OutboundPoisoned?
    {
      TimersMatchSubstreams(View());
    }

    /** `poll`, from its first section to whichever return it takes. `timersFailed` tells a timer queue failure,
        which closes the connection, from the other ways to close it. */
    method Poll() returns (r: PollResult, ghost timersFailed: bool)
      requires Valid()
      modifies this
      ensures Valid()
      ensures InOrder(old(trace), trace, 5, r.Custom? || r.OutboundSubstreamRequest? || phase != old(phase))
      ensures ledger.delivered == old(ledger).delivered + (if r.Custom? then [r.event] else [])
      ensures old(eventsOut) != [] ==> r == Custom(old(eventsOut)[0]) && trace == old(trace) + [PopEvent]
      ensures r.OutboundSubstreamRequest? ==> JustDialled(r.dialing)
      ensures r.Close? && !timersFailed ==> phase.Deactivated? || (phase.ShuttingDown? && NothingLeft())
      ensures phase != old(phase) ==> old(phase).ShuttingDown? && phase.Deactivated? && r.Close?
      ensures r.Pending? ==> Settled() && QueuedSince(old(ledger).issued)
      ensures forall id :: id in inbound ==> !inbound[id].state.InboundPoisoned?
      ensures forall id :: id in outbound ==> !outbound[id].state.OutboundPoisoned?
    {
      if eventsOut != [] {
        var event := Deliver();
        NothingPoisoned();
        return Custom(event), false;
      }
      if phase.ShuttingDown? {
        var elapsed := *;
        if elapsed {
          Deactivate();
          NothingPoisoned();
          return Close, false;
        }
      }
      r, timersFailed := PollSubstreams();
      NothingPoisoned();
      if r.Pending? { OnlyQueued(old(trace), old(View())); }
    }

    /** The queue holds exactly the events issued since, in order. */
    ghost predicate QueuedSince(issued: seq<Issue>)
      reads this
    {
      issued <= ledger.issued && eventsOut == EventsOf(ledger.issued[|issued|..])
    }

    lemma OnlyQueued(start: seq<Step>, before: Handler)
      requires Valid() && IsRun(INITIAL, start) && After(INITIAL, start) == before && before.eventsOut == []
      requires InOrder(start, trace, 5, false)
      ensures QueuedSince(before.ledger.issued)
    {
      var more := RunQueues(start, trace);
      assert ledger.issued[|before.ledger.issued|..] == more;
    }

    method Deliver() returns (event: Event)
      requires Valid() && eventsOut != []
      modifies this`eventsOut, this`ledger, this`trace
      ensures Valid() && trace == old(trace) + [PopEvent]
      ensures event == old(eventsOut)[0] && ledger.delivered == old(ledger).delivered + [event]
    {
      ghost var before := View();
      event := eventsOut[0];
      eventsOut := eventsOut[1..];
      assert inbound - {} == inbound;
      Commit(before, PopEvent, {});
    }

    method Deactivate()
      requires Valid() && phase.ShuttingDown?
      modifies this`phase, this`ledger, this`trace
      ensures Valid() && trace == old(trace) + [ShutdownElapsed] && phase.Deactivated? && ledger == old(ledger)
    {
      ghost var before := View();
      phase := Deactivated;
      assert inbound - {} == inbound;
      Commit(before, ShutdownElapsed, {});
    }

    /** `poll` past its first two early returns. */
    method PollSubstreams() returns (r: PollResult, ghost timersFailed: bool)
      requires Valid()
      modifies this
      ensures Valid() && phase == old(phase)
      ensures InOrder(old(trace), trace, 5, r.Custom? || r.OutboundSubstreamRequest?)
      ensures ledger.delivered == old(ledger).delivered + (if r.Custom? then [r.event] else [])
      ensures r.OutboundSubstreamRequest? ==> JustDialled(r.dialing)
      ensures r.Close? && !timersFailed ==> phase.ShuttingDown? && NothingLeft()
      ensures r.Pending? ==> Settled()
    {
      ghost var start := trace;
      var failed, event := PollTimers();
      if event.Some? {
        return Custom(event.value), false;
      }
      if failed {
        return Close, true;
      }
      r := PollStreams(start);
      timersFailed := false;
    }

    /** Nothing left that this `poll` could have done. */
    ghost predicate Settled()
      reads this
    {
      && (dialQueue == [] || dialNegotiated >= 8)
      && !(phase.ShuttingDown? && NothingLeft())
      && InboundSettled() && OutboundSettled()
    }

    /** No substream that could send has anything to send. */
    ghost predicate InboundSettled()
      reads this
    {
      forall id :: id in inbound && inbound[id].state.Idle? && !phase.Deactivated? ==> inbound[id].pending == []
    }

    /** The last step took `dialing` off the dial queue, as the longest waiting. */
    ghost predicate JustDialled(dialing: Dialing)
      reads this
    {
      && trace != [] && trace[|trace| - 1] == Dial && dialing.ticket in ledger.negotiating
      && IsRun(INITIAL, trace[..|trace| - 1])
      && var h := After(INITIAL, trace[..|trace| - 1]); h.dialQueue != [] && h.dialQueue[0] == dialing
    }

    method PollTimers() returns (failed: bool, event: Option<Event>)
      requires Valid()
      modifies this
      ensures Valid() && phase == old(phase) && InOrder(old(trace), trace, 2, event.Some?)
      ensures ledger.delivered == old(ledger).delivered + (if event.Some? then [event.value] else [])
    {
      ghost var start := trace;
      failed := ExpireInbound();
      event := None;
      ghost var t1 := trace;
      NextSection(start, start, t1, 0, 1, false);
      if !failed {
        failed, event := ExpireOutbound();
        NextSection(start, t1, trace, 1, 2, event.Some?);
      }
    }

    method PollStreams(ghost start: seq<Step>) returns (r: PollResult)
      requires Valid() && InOrder(start, trace, 2, false)
      modifies this
      ensures Valid() && phase == old(phase)
      ensures InOrder(start, trace, 5, r.Custom? || r.OutboundSubstreamRequest?)
      ensures ledger.delivered == old(ledger).delivered + (if r.Custom? then [r.event] else [])
      ensures r.OutboundSubstreamRequest? ==> JustDialled(r.dialing)
      ensures r.Close? ==> phase.ShuttingDown? && NothingLeft()
      ensures r.Pending? ==> Settled()
    {
      ghost var t2 := trace;
      ServeInbound();
      NextSection(start, t2, trace, 2, 3, false);
      r := PollOutbound(start);
    }

    method PollOutbound(ghost start: seq<Step>) returns (r: PollResult)
      requires Valid() && InOrder(start, trace, 3, false) && InboundSettled()
      modifies this
      ensures Valid() && phase == old(phase)
      ensures InOrder(start, trace, 5, r.Custom? || r.OutboundSubstreamRequest?)
      ensures ledger.delivered == old(ledger).delivered + (if r.Custom? then [r.event] else [])
      ensures r.OutboundSubstreamRequest? ==> JustDialled(r.dialing)
      ensures r.Close? ==> phase.ShuttingDown? && NothingLeft()
      ensures r.Pending? ==> Settled()
    {
      ghost var t3 := trace;
      var event;
      ghost var visited;
      event, visited := ServeOutbound();
      ghost var t4 := trace;
      NextSection(start, t3, t4, 3, 4, event.Some?);
      if event.Some? {
        return Custom(event.value);
      }
      var dialing := DialNext();
      NextSection(start, t4, trace, 4, 5, dialing.Some?);
      if dialing.Some? {
        return OutboundSubstreamRequest(dialing.value);
      }
      if phase.ShuttingDown? && dialQueue == [] && outbound == map[] && inbound == map[] && eventsOut == []
         && dialNegotiated == 0
      {
        return Close;
      }
      return Pending;
    }
  }
}
