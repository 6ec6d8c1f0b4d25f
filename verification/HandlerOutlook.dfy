/** What a handler can still do, decided by its present state: whether some continuation dials, and
    whether some continuation ends in a graceful close. */
module HandlerOutlook {
  import opened Messages
  import opened HandlerMachine
  import opened HandlerInvariant
  import opened HandlerRuns

  // ---------------------------------------------------------------------------------------------
  // Dialling

  /** The slots that no dial under way accounts for: those kept by retries. */
  ghost function LostSlots(h: Handler): int {
    h.dialNegotiated - |h.ledger.negotiating|
  }

  ghost predicate CanDial(h: Handler) {
    exists steps :: IsRun(h, steps) && Dial in steps
  }

  lemma NoRefill(h: Handler, step: Step)
    requires Enabled(h, step) && !h.phase.Active? && h.dialQueue == []
    ensures Apply(h, step).dialQueue == []
  {
  }

  /** Outside Active an empty dial queue stays empty. */
  lemma {:induction false} NothingToDial(h: Handler, steps: seq<Step>)
    requires Inv(h) && IsRun(h, steps) && !h.phase.Active? && h.dialQueue == []
    ensures Dial !in steps && After(h, steps).dialQueue == []
    decreases |steps|
  {
    if steps != [] {
      var before, last := steps[..|steps| - 1], steps[|steps| - 1];
      assert steps == before + [last];
      RunSplits(h, steps);
      NothingToDial(h, before);
      RunOnward(h, before);
      NoRefill(After(h, before), last);
    }
  }

  lemma FreeASlot(h: Handler) returns (steps: seq<Step>)
    requires Inv(h) && h.ledger.leakedSlots < MAX_DIAL_NEGOTIATED
    ensures IsRun(h, steps)
    ensures var h' := After(h, steps);
            h'.dialNegotiated < MAX_DIAL_NEGOTIATED && h'.dialQueue == h.dialQueue && h'.phase == h.phase
  {
    steps := [];
    if h.dialNegotiated == MAX_DIAL_NEGOTIATED {
      var t :| t in h.ledger.negotiating;
      RunExtends(h, [], DialFailed(t, false));
      steps := [] + [DialFailed(t, false)];
    }
  }

  lemma QueueARequest(h: Handler, steps: seq<Step>) returns (more: seq<Step>)
    requires IsRun(h, steps) && After(h, steps).dialNegotiated < MAX_DIAL_NEGOTIATED
    requires After(h, steps).phase.Active? || After(h, steps).dialQueue != []
    ensures IsRun(h, more) && Enabled(After(h, more), Dial)
  {
    more := steps;
    if After(h, steps).dialQueue == [] {
      var request := SendRequest(Internal, Query(MetaDataRequest, 1));
      RunExtends(h, steps, request);
      more := steps + [request];
    }
  }

  lemma ReachADial(h: Handler) returns (steps: seq<Step>)
    requires Inv(h) && h.ledger.leakedSlots < MAX_DIAL_NEGOTIATED && (h.phase.Active? || h.dialQueue != [])
    ensures IsRun(h, steps) && Dial in steps
  {
    steps := FreeASlot(h);
    steps := QueueARequest(h, steps);
    RunExtends(h, steps, Dial);
    steps := steps + [Dial];
  }

  /** Some continuation dials if and only if retries have not taken all eight slots, and there is
      something to dial or may still be. */
  lemma DiallingPossible(h: Handler)
    requires Reachable(h)
    ensures CanDial(h) <==> LostSlots(h) < 8 && (h.phase.Active? || h.dialQueue != [])
  {
    ReachableIsGood(h);
    if h.ledger.leakedSlots < MAX_DIAL_NEGOTIATED && (h.phase.Active? || h.dialQueue != []) {
      var _ := ReachADial(h);
    } else {
      forall steps | IsRun(h, steps) ensures Dial !in steps {
        if MAX_DIAL_NEGOTIATED <= h.ledger.leakedSlots { NoDial(h, steps); } else { NothingToDial(h, steps); }
      }
    }
  }

  // ---------------------------------------------------------------------------------------------
  // Closing

  /** The idle test of `poll` and `connection_keep_alive` is passed at the end of some continuation. */
  ghost predicate CanCloseGracefully(h: Handler) {
    exists steps :: IsRun(h, steps) && ClosesGracefully(After(h, steps))
  }

  predicate ClosesGracefully(h: Handler) {
    && h.phase.ShuttingDown? && h.dialQueue == [] && h.outbound == map[] && h.inbound == map[] && h.eventsOut == []
    && h.dialNegotiated == 0
  }

  /** A handler on its way to a graceful close. */
  ghost predicate WindingDown(h: Handler) {
    Inv(h) && h.phase.ShuttingDown? && h.ledger.leakedSlots == 0
  }

  /** The steps that wind a handler down. */
  predicate Orderly(step: Step) {
    step.PopEvent? || step.SendResponse? || step.InboundStart? || step.InboundFailed? || step.Dial?
    || (step.DialFailed? && !step.ioError) || step.OutboundEnded? || step.OutboundClosed?
  }

  lemma OrderlyFrame(h: Handler, step: Step)
    requires Enabled(h, step) && Orderly(step)
    ensures Apply(h, step).ledger.leakedSlots == h.ledger.leakedSlots && Apply(h, step).phase == h.phase
  {
  }

  lemma WindsDown(h: Handler, step: Step)
    requires WindingDown(h) && Enabled(h, step) && Orderly(step)
    ensures WindingDown(Apply(h, step))
    ensures Work(Apply(h, step)) + (if IsProgress(step) then 1 else 0) <= Work(h)
  {
    StepKeeps(h, step);
    StepOnward(h, step);
    OrderlyFrame(h, step);
  }

  lemma {:induction false} Prepend(h: Handler, step: Step, rest: seq<Step>)
    requires Enabled(h, step) && IsRun(Apply(h, step), rest)
    ensures IsRun(h, [step] + rest) && After(h, [step] + rest) == After(Apply(h, step), rest)
    decreases |rest|
  {
    var whole := [step] + rest;
    if rest == [] {
      RunExtends(h, [], step);
      assert whole == [] + [step];
    } else {
      var before, last := rest[..|rest| - 1], rest[|rest| - 1];
      Prepend(h, step, before);
      RunExtends(h, [step] + before, last);
      assert whole == ([step] + before) + [last];
    }
  }

  /** A move that winds the handler down further, while there is anything but inbound substreams and
      queued events. */
  lemma NextMove(h: Handler) returns (step: Step)
    requires WindingDown(h) && (h.ledger.negotiating != {} || h.dialQueue != [] || h.outbound != map[])
    ensures Enabled(h, step) && Orderly(step) && IsProgress(step)
  {
    if h.ledger.negotiating != {} {
      var t :| t in h.ledger.negotiating;
      step := DialFailed(t, false);
    } else if h.dialQueue != [] {
      step := Dial;
    } else {
      var id :| id in h.outbound;
      assert PlaceOk(h, h.outbound[id].ticket);
      step := if h.outbound[id].state.RequestPending? then OutboundEnded(id, true) else OutboundClosed(id);
    }
  }

  /** An inbound substream is given something to send, if it has nothing. */
  lemma GetAnswer(h: Handler, id: SubstreamId) returns (steps: seq<Step>)
    requires WindingDown(h) && id in h.inbound
    ensures IsRun(h, steps) && WindingDown(After(h, steps)) && Work(After(h, steps)) <= Work(h)
    ensures var later := After(h, steps); id in later.inbound && (later.inbound[id].state.Idle? ==> later.inbound[id].pending != [])
  {
    steps := [];
    if h.inbound[id].pending == [] {
      var answer := SendResponse(id, Error);
      WindsDown(h, answer);
      RunExtends(h, [], answer);
      steps := [] + [answer];
    }
  }

  /** It is made busy, if it is not, so that its send can fail. */
  lemma GetBusy(h: Handler, id: SubstreamId) returns (steps: seq<Step>)
    requires WindingDown(h) && id in h.inbound
    ensures IsRun(h, steps) && WindingDown(After(h, steps)) && Work(After(h, steps)) <= Work(h)
    ensures Enabled(After(h, steps), InboundFailed(id))
  {
    steps := GetAnswer(h, id);
    var here := After(h, steps);
    NotPoisoned(here, id);
    if here.inbound[id].state.Idle? {
      WindsDown(here, InboundStart(id));
      RunExtends(h, steps, InboundStart(id));
      steps := steps + [InboundStart(id)];
    }
  }

  lemma NotPoisoned(h: Handler, id: SubstreamId)
    requires Inv(h) && id in h.inbound
    ensures h.inbound[id].state.Idle? || h.inbound[id].state.Busy?
  {
  }

  lemma {:induction false} Join(h: Handler, first: seq<Step>, second: seq<Step>)
    requires IsRun(h, first) && IsRun(After(h, first), second)
    ensures IsRun(h, first + second) && After(h, first + second) == After(After(h, first), second)
    decreases |second|
  {
    if second == [] {
      assert first + second == first;
    } else {
      var before, last := second[..|second| - 1], second[|second| - 1];
      assert first + second == (first + before) + [last];
      RunSplits(After(h, first), second);
      Join(h, first, before);
      RunExtends(h, first + before, last);
    }
  }

  /** Winding down comes to an end: everything is answered, failed or closed, and all events fetched. */
  lemma {:induction false} DrainsAway(h: Handler) returns (steps: seq<Step>)
    requires WindingDown(h)
    ensures IsRun(h, steps) && ClosesGracefully(After(h, steps))
    decreases Work(h), |h.eventsOut|
  {
    if h.ledger.negotiating != {} || h.dialQueue != [] || h.outbound != map[] {
      var step := NextMove(h);
      WindsDown(h, step);
      steps := DrainsAway(Apply(h, step));
      Prepend(h, step, steps);
      steps := [step] + steps;
    } else if h.inbound != map[] {
      steps := DrainInbound(h);
    } else if h.eventsOut != [] {
      WindsDown(h, PopEvent);
      steps := DrainsAway(Apply(h, PopEvent));
      Prepend(h, PopEvent, steps);
      steps := [PopEvent] + steps;
    } else {
      steps := [];
    }
  }

  lemma {:induction false} DrainInbound(h: Handler) returns (steps: seq<Step>)
    requires WindingDown(h) && h.inbound != map[]
    ensures IsRun(h, steps) && ClosesGracefully(After(h, steps))
    decreases Work(h), |h.eventsOut|, 0
  {
    var id :| id in h.inbound;
    var first := GetBusy(h, id);
    var busy := After(h, first);
    WindsDown(busy, InboundFailed(id));
    var rest := DrainsAway(Apply(busy, InboundFailed(id)));
    Prepend(busy, InboundFailed(id), rest);
    Join(h, first, [InboundFailed(id)] + rest);
    steps := first + ([InboundFailed(id)] + rest);
  }

  lemma StartShutdown(h: Handler)
    requires Inv(h) && h.phase.Active? && h.ledger.leakedSlots == 0
    ensures WindingDown(Apply(h, BeginShutdown(None)))
  {
    StepKeeps(h, BeginShutdown(None));
    DropQueueFrame(h);
  }

  lemma ReachAClose(h: Handler) returns (steps: seq<Step>)
    requires Inv(h) && h.ledger.leakedSlots == 0 && !h.phase.Deactivated?
    ensures IsRun(h, steps) && ClosesGracefully(After(h, steps))
  {
    if h.phase.Active? {
      StartShutdown(h);
      steps := DrainsAway(Apply(h, BeginShutdown(None)));
      Prepend(h, BeginShutdown(None), steps);
      steps := [BeginShutdown(None)] + steps;
    } else {
      steps := DrainsAway(h);
    }
  }

  /** Once a single dial was retried, some slot is taken ever after. */
  lemma NoGracefulClose(h: Handler, steps: seq<Step>)
    requires Inv(h) && IsRun(h, steps) && (h.ledger.leakedSlots > 0 || h.phase.Deactivated?)
    ensures !ClosesGracefully(After(h, steps))
    ensures h.ledger.leakedSlots > 0 ==> After(h, steps).dialNegotiated > 0 && !Drained(After(h, steps))
  {
    RunKeeps(h, steps);
    RunOnward(h, steps);
    LostMeansBusy(h, After(h, steps));
  }

  lemma LostMeansBusy(h: Handler, later: Handler)
    requires Onward(h, later, 0) && Slots(later) && (h.ledger.leakedSlots > 0 || h.phase.Deactivated?)
    ensures !ClosesGracefully(later)
    ensures h.ledger.leakedSlots > 0 ==> later.dialNegotiated > 0 && !Drained(later)
  {
  }

  /** Some continuation closes the handler gracefully if and only if no retry has kept a slot and the
      handler is not deactivated yet. */
  lemma GracefulClosePossible(h: Handler)
    requires Reachable(h)
    ensures CanCloseGracefully(h) <==> LostSlots(h) == 0 && !h.phase.Deactivated?
  {
    ReachableIsGood(h);
    if h.ledger.leakedSlots == 0 && !h.phase.Deactivated? {
      var _ := ReachAClose(h);
    } else {
      forall steps | IsRun(h, steps) ensures !ClosesGracefully(After(h, steps)) {
        NoGracefulClose(h, steps);
      }
    }
  }
}
