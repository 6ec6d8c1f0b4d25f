/** What holds of the handler over whole runs, whatever the order of calls, wake-ups and failures. */
module HandlerRuns {
  import opened Messages
  import opened HandlerMachine
  import opened HandlerInvariant

  /** Every run from a good state ends in a good state. */
  lemma {:induction false} RunKeeps(h: Handler, steps: seq<Step>)
    requires Inv(h) && IsRun(h, steps)
    ensures Inv(After(h, steps))
    decreases |steps|
  {
    if steps != [] {
      var before := steps[..|steps| - 1];
      RunKeeps(h, before);
      StepKeeps(After(h, before), steps[|steps| - 1]);
    }
  }

  lemma InitialIsGood()
    ensures Inv(INITIAL)
  {
    assert EventsOf([]) == [];
  }

  ghost predicate Reachable(h: Handler) {
    exists steps :: IsRun(INITIAL, steps) && After(INITIAL, steps) == h
  }

  /** The handler's invariant holds in every reachable state. */
  lemma ReachableIsGood(h: Handler)
    requires Reachable(h)
    ensures Inv(h)
  {
    var steps :| IsRun(INITIAL, steps) && After(INITIAL, steps) == h;
    InitialIsGood();
    RunKeeps(INITIAL, steps);
  }

  // ---------------------------------------------------------------------------------------------
  // Reachable states

  /** Live timers and substreams match one to one, so no timer is removed or reset through a dead
      key, and an expired outbound timer always finds its substream. */
  lemma TimersMatchSubstreams(h: Handler)
    requires Reachable(h)
    ensures forall id :: id in h.inbound && h.inbound[id].delayKey.Some? ==>
              h.inbound[id].delayKey.value in h.inboundDelay.live && h.inboundDelay.live[h.inbound[id].delayKey.value] == id
    ensures forall key :: key in h.inboundDelay.live ==>
              h.inboundDelay.live[key] in h.inbound && h.inbound[h.inboundDelay.live[key]].delayKey == Some(key)
    ensures forall id :: id in h.outbound ==>
              h.outbound[id].delayKey in h.outboundDelay.live && h.outboundDelay.live[h.outbound[id].delayKey] == id
    ensures forall key :: key in h.outboundDelay.live ==>
              h.outboundDelay.live[key] in h.outbound && h.outbound[h.outboundDelay.live[key]].delayKey == key
    ensures |h.inbound| <= 32
    ensures forall id :: id in h.inbound ==> !h.inbound[id].state.InboundPoisoned?
    ensures forall id :: id in h.outbound ==> !h.outbound[id].state.OutboundPoisoned?
  {
    ReachableIsGood(h);
    forall id | id in h.outbound ensures !h.outbound[id].state.OutboundPoisoned? {
      assert PlaceOk(h, h.outbound[id].ticket);
    }
  }

  /** How many times a request is held by the dial queue, the swarm or an outbound substream. */
  ghost function Holders(h: Handler, t: Ticket): nat {
    |set i | 0 <= i < |h.dialQueue| && h.dialQueue[i].ticket == t|
    + (if t in h.ledger.negotiating then 1 else 0)
    + |set id | id in h.outbound && h.outbound[id].ticket == t|
  }

  /** No accepted request is lost or duplicated: it is held exactly once until it is done, and one
      that expects a response is not done before an event was issued for it. */
  lemma RequestsConserved(h: Handler, t: Ticket)
    requires Reachable(h) && t < |h.ledger.accepted|
    ensures t < |h.ledger.places|
    ensures Holders(h, t) + (if h.ledger.places[t].Done? then 1 else 0) == 1
    ensures Holders(h, t) == 0 && 0 < h.ledger.accepted[t].query.expected ==> Reports(h.ledger.issued, t) != []
  {
    ReachableIsGood(h);
    assert PlaceOk(h, t);
    HeldOnce(h, t);
  }

  lemma HeldOnce(h: Handler, t: Ticket)
    requires Placed(h.ledger.places, h.ledger.accepted, h.dialQueue, h.ledger.negotiating, h.outbound)
    requires t < |h.ledger.accepted| && PlaceOk(h, t)
    ensures Holders(h, t) + (if h.ledger.places[t].Done? then 1 else 0) == 1
  {
    var queued := set i | 0 <= i < |h.dialQueue| && h.dialQueue[i].ticket == t;
    var open := set id | id in h.outbound && h.outbound[id].ticket == t;
    match h.ledger.places[t]
    case InQueue =>
      var i :| 0 <= i < |h.dialQueue| && h.dialQueue[i] == h.ledger.accepted[t];
      assert queued == {i} && open == {};
    case OnSubstream(id) =>
      assert queued == {} && open == {id};
    case _ =>
      assert queued == {} && open == {};
  }

  /** For each request: at most as many responses as it expects, all under its id, and none after a
      failure was reported for it. */
  lemma ResponsesOrdered(h: Handler, t: Ticket)
    requires Reachable(h) && t < |h.ledger.accepted|
    ensures var log, request := Reports(h.ledger.issued, t), h.ledger.accepted[t];
            && Responses(log) <= request.query.expected
            && (forall i :: 0 <= i < |log| && log[i].Ok? ==>
                  log[i].received.ResponseReceived? && log[i].received.id == request.id)
            && (forall i, j :: 0 <= i < j < |log| && log[i].Err? ==> log[j].Err?)
  {
    ReachableIsGood(h);
    assert PlaceOk(h, t);
  }

  /** The slot counter counts dials under way plus all retries ever taken, and stays in range, so
      neither decrement underflows. */
  lemma DialSlots(h: Handler)
    requires Reachable(h)
    ensures h.dialNegotiated == |h.ledger.negotiating| + h.ledger.leakedSlots <= 8
    ensures h.ledger.negotiating != {} ==> 1 <= h.dialNegotiated
    ensures h.ioErrorRetries <= 2
  {
    ReachableIsGood(h);
  }

  // ---------------------------------------------------------------------------------------------
  // Continuations: what can never happen any more

  lemma ReachableRun(h: Handler, steps: seq<Step>)
    requires Inv(h) && IsRun(h, steps) && steps != []
    ensures var before := steps[..|steps| - 1];
            && IsRun(h, before) && Inv(After(h, before)) && Enabled(After(h, before), steps[|steps| - 1])
            && After(h, steps) == Apply(After(h, before), steps[|steps| - 1])
  {
    RunKeeps(h, steps[..|steps| - 1]);
  }

  /** Work left: a queued request is three units of it, a dial two, a substream one. */
  ghost function Work(h: Handler): nat {
    3 * |h.dialQueue| + 2 * |h.ledger.negotiating| + |h.outbound| + |h.inbound|
  }

  /** Steps that dial, resolve a dial, or remove a substream. */
  predicate IsProgress(step: Step) {
    step.Dial? || step.NegotiatedOutbound? || step.DialFailed? || step.OutboundExpired? || step.InboundDone?
    || step.InboundFailed? || step.InboundClosed? || step.OutboundEnded? || step.OutboundClosed?
  }

  /** How a later state compares with an earlier one, `progress` units of work apart. */
  ghost predicate Onward(h: Handler, h': Handler, progress: nat) {
    && (!h.phase.Active? ==> !h'.phase.Active?)
    && (h.phase.Deactivated? ==> h'.phase.Deactivated?)
    && h.ledger.leakedSlots <= h'.ledger.leakedSlots
    && h.nextInbound <= h'.nextInbound && h.nextOutbound <= h'.nextOutbound
    && (forall id :: id in h'.inbound ==> id in h.inbound || h.nextInbound <= id)
    && (forall id :: id in h'.outbound ==> id in h.outbound || h.nextOutbound <= id)
    && (!h.phase.Active? ==> h'.inbound.Keys <= h.inbound.Keys && Work(h') + progress <= Work(h))
  }

  lemma WithoutOne<V>(m: map<nat, V>, k: nat)
    requires k in m
    ensures |m - {k}| == |m| - 1
  {
    assert (m - {k}).Keys == m.Keys - {k};
    assert |(m - {k}).Keys| == |m - {k}|;
  }

  lemma SameSize<V>(m: map<nat, V>, k: nat, v: V)
    requires k in m
    ensures |m[k := v]| == |m|
  {
    assert m[k := v].Keys == m.Keys;
    assert |m[k := v].Keys| == |m[k := v]| && |m.Keys| == |m|;
  }

  lemma WithOne<V>(m: map<nat, V>, k: nat, v: V)
    requires k !in m
    ensures |m[k := v]| == |m| + 1
  {
    assert m[k := v].Keys == m.Keys + {k};
    assert |m[k := v].Keys| == |m[k := v]|;
  }

  lemma ShutdownOnward(h: Handler, goodbye: Option<RequestId>)
    ensures Onward(h, Shutdown(h, goodbye), 0)
  {
    if h.phase.Active? { DropQueueFrame(h); }
  }

  lemma NegotiatedInboundOnward(h: Handler, query: Query, key: Key)
    requires key !in h.inboundDelay.live
    ensures Onward(h, NegotiatedInboundStep(h, query, key), 0)
  {
    if h.phase.Active? {
      if query.expected > 0 && |h.inbound| >= MAX_INBOUND_SUBSTREAMS {
        ShutdownOnward(Push(h, Err(HandlerRejected), None), None);
      } else {
        TakenIn(h, query, key);
        var entered := if query.expected > 0 then OpenInbound(h, query.expected, key) else h;
        ShutdownOnward(entered.(nextInbound := h.nextInbound + 1), None);
      }
    }
  }

  lemma ResolvedOnward(h: Handler, t: Ticket)
    requires t in h.ledger.negotiating
    ensures Onward(h, Resolved(h, t), 2)
  {
  }

  lemma OpenOutboundOnward(h: Handler, h': Handler, request: Dialing, key: Key)
    requires Onward(h, h', 2) && h'.nextOutbound !in h'.outbound && key !in h'.outboundDelay.live
    ensures Onward(h, OpenOutbound(h', request, key), 1)
  {
    var after := OpenOutbound(h', request, key);
    WithOne(h'.outbound, h'.nextOutbound, after.outbound[h'.nextOutbound]);
  }

  lemma Weaker(h: Handler, h': Handler)
    requires Onward(h, h', 2)
    ensures Onward(h, h', 1)
  {
  }

  lemma PlaceOutboundOnward(h: Handler, t: Ticket, key: Key)
    requires t in h.ledger.negotiating && key !in h.outboundDelay.live && t < |h.ledger.accepted|
    requires h.nextOutbound !in h.outbound
    ensures Onward(h, PlaceOutbound(h, t, key), 1)
  {
    var request, freed, event := h.ledger.accepted[t], Resolved(h, t), Err(HandlerStateDeactivated);
    ResolvedOnward(h, t);
    EventOnward(h, freed, 2, event, Some(t));
    var told := if h.phase.Deactivated? then Push(freed, event, Some(t)) else freed;
    if request.query.expected > 0 {
      OpenOutboundOnward(h, told, request, key);
      MoveOnward(h, OpenOutbound(told, request, key), 1, t, OnSubstream(h.nextOutbound));
    } else {
      Weaker(h, told);
      MoveOnward(h, told, 1, t, Done);
    }
  }

  lemma NegotiatedOutboundOnward(h: Handler, t: Ticket, key: Key)
    requires Inv(h) && t in h.ledger.negotiating && key !in h.outboundDelay.live && t < |h.ledger.accepted|
    ensures Onward(h, NegotiatedOutboundStep(h, t, key), 1)
  {
    FreeSlotKeeps(h);
    PlaceOutboundOnward(FreeSlot(h), t, key);
    FreeSlotOnward(h, NegotiatedOutboundStep(h, t, key));
  }

  lemma FreeSlotOnward(h: Handler, h': Handler)
    requires Onward(FreeSlot(h), h', 1)
    ensures Onward(h, h', 1)
  {
  }

  lemma DialFailedOnward(h: Handler, t: Ticket, ioError: bool)
    requires t in h.ledger.negotiating && t < |h.ledger.accepted|
    ensures Onward(h, DialFailedStep(h, t, ioError), 1)
  {
  }

  /** Issuing events and moving tickets is bookkeeping. */
  lemma EventOnward(h: Handler, h': Handler, progress: nat, event: Event, ticket: Option<Ticket>)
    requires Onward(h, h', progress)
    ensures Onward(h, Push(h', event, ticket), progress) && Onward(h, Emit(h', event, ticket), progress)
  {
  }

  lemma MoveOnward(h: Handler, h': Handler, progress: nat, t: Ticket, place: Place)
    requires Onward(h, h', progress)
    ensures Onward(h, Move(h', t, place), progress)
  {
  }

  lemma InboundUpdateOnward(h: Handler, h': Handler, id: SubstreamId)
    requires id in h.inbound && id in h'.inbound
    requires h' == h.(inbound := h.inbound[id := h'.inbound[id]], inboundDelay := h'.inboundDelay,
                      ledger := h.ledger.(streams := h'.ledger.streams))
    ensures Onward(h, h', 0)
  {
    SameSize(h.inbound, id, h'.inbound[id]);
  }

  lemma InboundRemoveOnward(h: Handler, id: SubstreamId)
    requires id in h.inbound
    ensures Onward(h, RemoveInbound(h, id), 1)
  {
    WithoutOne(h.inbound, id);
  }

  lemma OutboundUpdateOnward(h: Handler, id: SubstreamId, info: OutboundInfo)
    requires id in h.outbound
    ensures Onward(h, h.(outbound := h.outbound[id := info]), 0)
  {
    SameSize(h.outbound, id, info);
  }

  lemma OutboundRemoveOnward(h: Handler, id: SubstreamId)
    requires id in h.outbound
    ensures Onward(h, RemoveOutbound(h, id), 1)
  {
    WithoutOne(h.outbound, id);
  }

  lemma SendResponseOnward(h: Handler, id: SubstreamId, response: CodedResponse)
    ensures Onward(h, SendResponseStep(h, id, response), 0)
  {
    if id in h.inbound {
      InboundUpdateOnward(h, Enqueue(h, id, response), id);
    }
  }

  lemma DialOnward(h: Handler)
    requires Inv(h) && h.dialQueue != []
    ensures Onward(h, DialStep(h), 1)
  {
    assert h.dialQueue[0].ticket !in h.ledger.negotiating;
  }

  lemma InboundExpiredOnward(h: Handler, key: Key)
    requires key in h.inboundDelay.live
    ensures Onward(h, InboundExpiredStep(h, key), 0)
  {
    var h' := InboundExpiredStep(h, key);
    assert h'.inbound.Keys == h.inbound.Keys;
    assert |h'.inbound.Keys| == |h'.inbound| && |h.inbound.Keys| == |h.inbound|;
  }

  lemma InboundClosedOnward(h: Handler, id: SubstreamId, failed: bool)
    requires id in h.inbound
    ensures Onward(h, InboundClosedStep(h, id, failed), 1)
  {
    var removed := RemoveInbound(h, id);
    InboundRemoveOnward(h, id);
    EventOnward(h, removed, 1, Err(ShutdownSubstreamError), None);
    var told := if failed then Push(removed, Err(ShutdownSubstreamError), None) else removed;
    EventOnward(h, told, 1, Err(CancelRequest), None);
  }

  lemma OutboundEndedOnward(h: Handler, id: SubstreamId, failure: Failure)
    requires id in h.outbound
    ensures Onward(h, OutboundEndedStep(h, id, failure), 1)
  {
    var t := h.outbound[id].ticket;
    OutboundRemoveOnward(h, id);
    EventOnward(h, RemoveOutbound(h, id), 1, Err(failure), Some(t));
    MoveOnward(h, Emit(RemoveOutbound(h, id), Err(failure), Some(t)), 1, t, Done);
  }

  lemma OutboundChangedOnward(h: Handler, id: SubstreamId, response: CodedResponse)
    requires OutboundIs(h, id, true)
    ensures Onward(h, OutboundDeactivatedStep(h, id), 0) && Onward(h, OutboundResponseStep(h, id, response), 0)
  {
    var info := h.outbound[id];
    var closing, next := info.(state := Closing), AfterResponse(info, response);
    OutboundUpdateOnward(h, id, closing);
    EventOnward(h, h.(outbound := h.outbound[id := closing]), 0, Err(HandlerDeactivated), Some(info.ticket));
    OutboundUpdateOnward(h, id, next);
    EventOnward(h, h.(outbound := h.outbound[id := next]), 0, ReceivedEvent(info.reqId, response), Some(info.ticket));
  }

  lemma EntryOnward(h: Handler, step: Step)
    requires Inv(h) && Enabled(h, step) && IsCall(step)
    ensures Onward(h, Apply(h, step), if IsProgress(step) then 1 else 0)
  {
    match step
    case SendRequest(_, _) =>
    case SendResponse(id, response) => SendResponseOnward(h, id, response);
    case BeginShutdown(goodbye) => ShutdownOnward(h, goodbye);
    case NegotiatedInbound(query, key) => NegotiatedInboundOnward(h, query, key);
    case NegotiatedOutbound(ticket, key) => NegotiatedOutboundOnward(h, ticket, key);
    case DialFailed(ticket, ioError) => DialFailedOnward(h, ticket, ioError);
  }

  lemma InboundSendOnward(h: Handler, id: SubstreamId)
    ensures Enabled(h, InboundStart(id)) ==> Onward(h, InboundStartStep(h, id), 0)
    ensures Enabled(h, InboundSent(id)) ==> Onward(h, InboundSentStep(h, id), 0)
  {
    if Enabled(h, InboundStart(id)) { InboundUpdateOnward(h, InboundStartStep(h, id), id); }
    if Enabled(h, InboundSent(id)) { InboundUpdateOnward(h, InboundSentStep(h, id), id); }
  }

  lemma InboundFailedOnward(h: Handler, id: SubstreamId)
    requires id in h.inbound
    ensures Onward(h, Push(RemoveInbound(h, id), Err(ResponseError), None), 1)
  {
    InboundRemoveOnward(h, id);
    EventOnward(h, RemoveInbound(h, id), 1, Err(ResponseError), None);
  }

  lemma InboundOnward(h: Handler, step: Step)
    requires Enabled(h, step) && IsInboundAction(step)
    ensures Onward(h, Apply(h, step), if IsProgress(step) then 1 else 0)
  {
    match step
    case InboundExpired(key) => InboundExpiredOnward(h, key);
    case InboundStart(id) => InboundSendOnward(h, id);
    case InboundSent(id) => InboundSendOnward(h, id);
    case InboundDone(id) => InboundRemoveOnward(h, id);
    case InboundFailed(id) => InboundFailedOnward(h, id);
    case InboundClosed(id, failed) => InboundClosedOnward(h, id, failed);
  }

  lemma OutboundOnward(h: Handler, step: Step)
    requires Inv(h) && Enabled(h, step) && !IsCall(step) && !IsInboundAction(step)
    ensures Onward(h, Apply(h, step), if IsProgress(step) then 1 else 0)
  {
    match step
    case PopEvent =>
    case ShutdownElapsed =>
    case OutboundExpired(key) =>
      OutboundExpiredKeeps(h, key);
      OutboundEndedOnward(h, h.outboundDelay.live[key], StreamTimeout);
    case OutboundDeactivated(id) => OutboundChangedOnward(h, id, Error);
    case OutboundResponse(id, response) => OutboundChangedOnward(h, id, response);
    case OutboundEnded(id, dropped) => OutboundEndedOnward(h, id, if dropped then StreamDropped else IncompleteResponse);
    case OutboundClosed(id) =>
      OutboundRemoveOnward(h, id);
      MoveOnward(h, RemoveOutbound(h, id), 1, h.outbound[id].ticket, Done);
    case Dial => DialOnward(h);
  }

  lemma StepOnward(h: Handler, step: Step)
    requires Inv(h) && Enabled(h, step)
    ensures Onward(h, Apply(h, step), if IsProgress(step) then 1 else 0)
  {
    if IsCall(step) { EntryOnward(h, step); }
    else if IsInboundAction(step) { InboundOnward(h, step); }
    else { OutboundOnward(h, step); }
  }

  ghost function Progress(steps: seq<Step>): nat {
    if steps == [] then 0
    else Progress(steps[..|steps| - 1]) + if IsProgress(steps[|steps| - 1]) then 1 else 0
  }

  lemma {:induction false} RunOnward(h: Handler, steps: seq<Step>)
    requires Inv(h) && IsRun(h, steps)
    ensures Onward(h, After(h, steps), if h.phase.Active? then 0 else Progress(steps))
    decreases |steps|
  {
    if steps != [] {
      ReachableRun(h, steps);
      RunOnward(h, steps[..|steps| - 1]);
      StepOnward(After(h, steps[..|steps| - 1]), steps[|steps| - 1]);
    }
  }

  /** A handler that left Active never becomes Active again and takes in no new substream; each
      dial, dial result and removal uses up work that is never replenished, so there are at most
      `Work(h)` of them in any continuation. */
  lemma ShutdownDrains(h: Handler, steps: seq<Step>)
    requires Reachable(h) && IsRun(h, steps) && !h.phase.Active?
    ensures var h' := After(h, steps);
            && !h'.phase.Active? && (h.phase.Deactivated? ==> h'.phase.Deactivated?)
            && h'.inbound.Keys <= h.inbound.Keys
            && Work(h') + Progress(steps) <= Work(h)
  {
    ReachableIsGood(h);
    RunOnward(h, steps);
  }

  lemma PhaseStep(h: Handler, step: Step)
    requires Enabled(h, step)
    ensures Apply(h, step).phase.Deactivated? <==> h.phase.Deactivated? || step.ShutdownElapsed?
    ensures step.ShutdownElapsed? ==> h.phase.ShuttingDown?
  {
  }

  /** A handler becomes Deactivated exactly by its shutdown timer, once, and never from Active. */
  lemma {:induction false} OnlyShutdownDeactivates(h: Handler, steps: seq<Step>)
    requires IsRun(h, steps) && !h.phase.Deactivated?
    ensures After(h, steps).phase.Deactivated? <==> ShutdownElapsed in steps
    ensures forall i, j :: 0 <= i < j < |steps| && steps[i].ShutdownElapsed? ==> !steps[j].ShutdownElapsed?
    decreases |steps|
  {
    if steps != [] {
      var before, last := steps[..|steps| - 1], steps[|steps| - 1];
      assert steps == before + [last];
      RunSplits(h, steps);
      OnlyShutdownDeactivates(h, before);
      PhaseStep(After(h, before), last);
      forall i, j | 0 <= i < j < |steps| && steps[i].ShutdownElapsed? ensures !steps[j].ShutdownElapsed? {
        assert steps[i] == before[i] && before[i] in before;
      }
    }
  }

  /** A substream id that is gone never names a substream again. */
  lemma IdsNeverReused(h: Handler, steps: seq<Step>, id: SubstreamId)
    requires Reachable(h) && IsRun(h, steps)
    ensures id < h.nextInbound && id !in h.inbound ==> id !in After(h, steps).inbound
    ensures id < h.nextOutbound && id !in h.outbound ==> id !in After(h, steps).outbound
  {
    ReachableIsGood(h);
    RunOnward(h, steps);
  }

  /** The idle test of `connection_keep_alive` and of the end of `poll`. */
  predicate Drained(h: Handler) {
    h.dialQueue == [] && h.outbound == map[] && h.inbound == map[] && h.eventsOut == [] && h.dialNegotiated == 0
  }

  lemma NoSlot(h: Handler, later: Handler)
    requires Onward(h, later, 0) && Slots(later) && MAX_DIAL_NEGOTIATED <= h.ledger.leakedSlots
    ensures !Enabled(later, Dial)
  {
  }

  lemma StaysFull(h: Handler, steps: seq<Step>)
    requires Inv(h) && IsRun(h, steps) && MAX_DIAL_NEGOTIATED <= h.ledger.leakedSlots
    ensures !Enabled(After(h, steps), Dial)
  {
    RunKeeps(h, steps);
    RunOnward(h, steps);
    NoSlot(h, After(h, steps));
  }

  /** Eight retries, over the whole life of the connection, and no request is dialled again. */
  lemma {:induction false} NoDial(h: Handler, steps: seq<Step>)
    requires Inv(h) && IsRun(h, steps) && MAX_DIAL_NEGOTIATED <= h.ledger.leakedSlots
    ensures Dial !in steps
    decreases |steps|
  {
    if steps != [] {
      var before, last := steps[..|steps| - 1], steps[|steps| - 1];
      NoDial(h, before);
      StaysFull(h, before);
      assert steps == before + [last];
    }
  }

  lemma ReachNext(h: Handler, step: Step)
    requires Reachable(h) && Enabled(h, step)
    ensures Reachable(Apply(h, step))
  {
    var steps :| IsRun(INITIAL, steps) && After(INITIAL, steps) == h;
    RunExtends(INITIAL, steps, step);
  }

  /** One request waits, no dial is under way, and `n` slots are taken all the same. */
  ghost predicate Clogged(h: Handler, n: nat) {
    && Reachable(h) && h.phase.Active?
    && h.dialNegotiated == n && h.ledger.leakedSlots == n && h.ledger.negotiating == {}
    && |h.dialQueue| == 1 && h.dialQueue[0].ticket < |h.ledger.accepted|
    && h.dialQueue[0] == h.ledger.accepted[h.dialQueue[0].ticket]
  }

  lemma FailedDial(h: Handler, n: nat)
    requires Clogged(h, n) && n < MAX_DIAL_NEGOTIATED
    ensures var t := h.dialQueue[0].ticket;
            t < |DialStep(h).ledger.accepted| && Reachable(DialFailedStep(DialStep(h), t, true))
  {
    var t := h.dialQueue[0].ticket;
    ReachNext(h, Dial);
    ReachNext(DialStep(h), DialFailed(t, true));
  }

  lemma Leak(h: Handler, n: nat) returns (next: Handler)
    requires Clogged(h, n) && n < MAX_DIAL_NEGOTIATED && h.ioErrorRetries < 2
    ensures Clogged(next, n + 1) && next.ioErrorRetries == h.ioErrorRetries + 1
  {
    FailedDial(h, n);
    next := DialFailedStep(DialStep(h), h.dialQueue[0].ticket, true);
  }

  lemma GiveUp(h: Handler, n: nat) returns (next: Handler)
    requires Clogged(h, n) && n < MAX_DIAL_NEGOTIATED && h.ioErrorRetries == 2
    ensures Clogged(next, n) && next.ioErrorRetries == 0
  {
    FailedDial(h, n);
    var failed := DialFailedStep(DialStep(h), h.dialQueue[0].ticket, true);
    ReachNext(failed, SendRequest(Internal, Query(MetaDataRequest, 1)));
    next := SendRequestStep(failed, Internal, Query(MetaDataRequest, 1));
  }

  lemma {:induction false} CanClog(n: nat) returns (h: Handler)
    requires n <= MAX_DIAL_NEGOTIATED
    ensures Clogged(h, n)
  {
    if n == 0 {
      assert IsRun(INITIAL, []);
      ReachNext(INITIAL, SendRequest(Internal, Query(MetaDataRequest, 1)));
      h := SendRequestStep(INITIAL, Internal, Query(MetaDataRequest, 1));
    } else {
      h := CanClog(n - 1);
      DialSlots(h);
      if h.ioErrorRetries == 2 {
        h := GiveUp(h, n - 1);
      }
      h := Leak(h, n - 1);
    }
  }

  /** Nothing but failing dials is needed: an active handler with a request waiting that is never
      dialled, whatever happens next. */
  lemma DiallingCanStarve() returns (h: Handler)
    ensures Reachable(h) && h.phase.Active? && h.dialQueue != [] && h.ledger.negotiating == {}
    ensures forall steps :: IsRun(h, steps) ==> Dial !in steps
  {
    h := CanClog(MAX_DIAL_NEGOTIATED);
    ReachableIsGood(h);
    forall steps | IsRun(h, steps) ensures Dial !in steps {
      NoDial(h, steps);
    }
  }
}
