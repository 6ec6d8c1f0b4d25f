/** The order in which a handler's events reach its caller. `poll` hands some out at once and takes the
    others from a queue, so they do not come in the order in which they were issued. */
module HandlerDelivery {
  import opened Messages
  import opened HandlerMachine
  import opened HandlerInvariant
  import opened HandlerRuns

  // ---------------------------------------------------------------------------------------------
  // What a step issues

  /** From `h` to `h'` the events `more` were issued and queued, and nothing was delivered. Only
      failures are queued for an accepted request. */
  ghost predicate Queued(h: Handler, h': Handler, more: seq<Issue>) {
    && h'.ledger.issued == h.ledger.issued + more && h'.ledger.delivered == h.ledger.delivered
    && h'.eventsOut == h.eventsOut + EventsOf(more)
    && Failures(more)
  }

  ghost predicate Failures(issues: seq<Issue>) {
    forall i :: 0 <= i < |issues| && issues[i].ticket.Some? ==> issues[i].event.Err?
  }

  lemma QueuedNone(h: Handler, h': Handler)
    requires h'.ledger.issued == h.ledger.issued && h'.ledger.delivered == h.ledger.delivered && h'.eventsOut == h.eventsOut
    ensures Queued(h, h', [])
  {
    assert EventsOf([]) == [];
  }

  /** `h''` differs from `h'` by one queued event, as far as events go. */
  lemma QueuedOne(h: Handler, h': Handler, more: seq<Issue>, event: Event, ticket: Option<Ticket>, h'': Handler)
    requires Queued(h, h', more) && (event.Err? || ticket.None?)
    requires h''.ledger.issued == h'.ledger.issued + [Issue(event, ticket)] && h''.eventsOut == h'.eventsOut + [event]
    requires h''.ledger.delivered == h'.ledger.delivered
    ensures Queued(h, h'', more + [Issue(event, ticket)])
  {
    EventsPush(more, Issue(event, ticket));
  }

  lemma QueuedPush(h: Handler, event: Event, ticket: Option<Ticket>, h': Handler)
    requires event.Err? || ticket.None?
    requires h'.ledger.issued == h.ledger.issued + [Issue(event, ticket)] && h'.eventsOut == h.eventsOut + [event]
    requires h'.ledger.delivered == h.ledger.delivered
    ensures Queued(h, h', [Issue(event, ticket)])
  {
    QueuedNone(h, h);
    QueuedOne(h, h, [], event, ticket, h');
    assert [] + [Issue(event, ticket)] == [Issue(event, ticket)];
  }

  lemma {:induction false} DropQueueQueues(h: Handler, h': Handler, more: seq<Issue>) returns (all: seq<Issue>)
    requires Queued(h, h', more)
    ensures Queued(h, DropQueue(h'), all)
    decreases |h'.dialQueue|
  {
    if h'.dialQueue == [] {
      all := more;
    } else {
      var t := h'.dialQueue[|h'.dialQueue| - 1].ticket;
      QueuedOne(h, h', more, Err(HandlerError), Some(t), DropLast(h'));
      all := DropQueueQueues(h, DropLast(h'), more + [Issue(Err(HandlerError), Some(t))]);
    }
  }

  lemma ShutdownQueues(h: Handler, h': Handler, more: seq<Issue>, goodbye: Option<RequestId>) returns (all: seq<Issue>)
    requires Queued(h, h', more)
    ensures Queued(h, Shutdown(h', goodbye), all)
  {
    all := more;
    if h'.phase.Active? { all := DropQueueQueues(h, h', more); }
  }

  lemma NegotiatedInboundQueues(h: Handler, query: Query, key: Key) returns (more: seq<Issue>)
    requires key !in h.inboundDelay.live
    ensures Queued(h, NegotiatedInboundStep(h, query, key), more)
  {
    if !h.phase.Active? {
      QueuedNone(h, h);
      more := [];
    } else if query.expected > 0 && |h.inbound| >= MAX_INBOUND_SUBSTREAMS {
      QueuedPush(h, Err(HandlerRejected), None, Push(h, Err(HandlerRejected), None));
      more := ShutdownQueues(h, Push(h, Err(HandlerRejected), None), [Issue(Err(HandlerRejected), None)], None);
    } else {
      more := TakenInQueues(h, query, key);
    }
  }

  lemma TakenInQueues(h: Handler, query: Query, key: Key) returns (more: seq<Issue>)
    requires key !in h.inboundDelay.live && h.phase.Active?
    requires query.expected > 0 ==> |h.inbound| < MAX_INBOUND_SUBSTREAMS
    ensures Queued(h, NegotiatedInboundStep(h, query, key), more)
  {
    var entered := if query.expected > 0 then OpenInbound(h, query.expected, key) else h;
    var told := if query.request.Goodbye? then Shutdown(entered, None) else entered;
    QueuedNone(h, entered);
    more := [];
    if query.request.Goodbye? { more := ShutdownQueues(h, entered, [], None); }
    var event := Ok(RequestReceived(h.nextInbound, query.request));
    QueuedOne(h, told, more, event, None, NegotiatedInboundStep(h, query, key));
    more := more + [Issue(event, None)];
  }

  lemma NegotiatedOutboundQueues(h: Handler, t: Ticket, key: Key) returns (more: seq<Issue>)
    requires t < |h.ledger.accepted| && key !in h.outboundDelay.live
    ensures Queued(h, NegotiatedOutboundStep(h, t, key), more)
  {
    var h' := NegotiatedOutboundStep(h, t, key);
    if h.phase.Deactivated? {
      QueuedPush(h, Err(HandlerStateDeactivated), Some(t), h');
      more := [Issue(Err(HandlerStateDeactivated), Some(t))];
    } else {
      QueuedNone(h, h');
      more := [];
    }
  }

  lemma DialFailedQueues(h: Handler, t: Ticket, ioError: bool) returns (more: seq<Issue>)
    requires t < |h.ledger.accepted|
    ensures Queued(h, DialFailedStep(h, t, ioError), more)
  {
    var h' := DialFailedStep(h, t, ioError);
    if !(ioError && h.ioErrorRetries + 1 < IO_ERROR_RETRIES) {
      QueuedPush(h, Err(DialUpgradeError), Some(t), h');
      more := [Issue(Err(DialUpgradeError), Some(t))];
    } else if h.phase.Active? {
      QueuedNone(h, h');
      more := [];
    } else {
      QueuedPush(h, Err(HandlerError), Some(t), h');
      more := [Issue(Err(HandlerError), Some(t))];
    }
  }

  lemma CallQueues(h: Handler, step: Step) returns (more: seq<Issue>)
    requires Enabled(h, step) && IsCall(step)
    ensures Queued(h, Apply(h, step), more)
  {
    QueuedNone(h, h);
    match step
    case SendRequest(id, query) => more := SendRequestQueues(h, id, query);
    case SendResponse(id, response) => more := SendResponseQueues(h, id, response);
    case BeginShutdown(goodbye) => more := ShutdownQueues(h, h, [], goodbye);
    case NegotiatedInbound(query, key) => more := NegotiatedInboundQueues(h, query, key);
    case NegotiatedOutbound(ticket, key) => more := NegotiatedOutboundQueues(h, ticket, key);
    case DialFailed(ticket, ioError) => more := DialFailedQueues(h, ticket, ioError);
  }

  lemma SendRequestQueues(h: Handler, id: RequestId, query: Query) returns (more: seq<Issue>)
    ensures Queued(h, SendRequestStep(h, id, query), more)
  {
    var h' := SendRequestStep(h, id, query);
    if h.phase.Active? {
      QueuedNone(h, h');
      more := [];
    } else {
      QueuedPush(h, Err(HandlerError), None, h');
      more := [Issue(Err(HandlerError), None)];
    }
  }

  lemma SendResponseQueues(h: Handler, id: SubstreamId, response: CodedResponse) returns (more: seq<Issue>)
    ensures Queued(h, SendResponseStep(h, id, response), more)
  {
    var h' := SendResponseStep(h, id, response);
    if id in h.inbound && response.Error? {
      QueuedPush(h, Err(HandlerError), None, h');
      more := [Issue(Err(HandlerError), None)];
    } else {
      QueuedNone(h, h');
      more := [];
    }
  }

  /** Expired timers find their substreams. */
  ghost predicate TimersFind(h: Handler) {
    && (forall key :: key in h.inboundDelay.live ==> h.inboundDelay.live[key] in h.inbound)
    && (forall key :: key in h.outboundDelay.live ==> h.outboundDelay.live[key] in h.outbound)
  }

  lemma InvFinds(h: Handler)
    requires Inv(h)
    ensures TimersFind(h)
  {
  }

  lemma InboundQueues(h: Handler, step: Step) returns (more: seq<Issue>)
    requires TimersFind(h) && Enabled(h, step) && IsInboundAction(step)
    ensures Queued(h, Apply(h, step), more)
  {
    var h' := Apply(h, step);
    match step
    case InboundExpired(key) =>
      QueuedPush(h, Err(StreamTimeout), None, h');
      more := [Issue(Err(StreamTimeout), None)];
    case InboundFailed(id) =>
      QueuedPush(h, Err(ResponseError), None, h');
      more := [Issue(Err(ResponseError), None)];
    case InboundClosed(id, failed) => more := InboundClosedQueues(h, id, failed);
    case _ =>
      QueuedNone(h, h');
      more := [];
  }

  lemma InboundClosedQueues(h: Handler, id: SubstreamId, failed: bool) returns (more: seq<Issue>)
    requires id in h.inbound
    ensures Queued(h, InboundClosedStep(h, id, failed), more)
  {
    var removed := RemoveInbound(h, id);
    var told := if failed then Push(removed, Err(ShutdownSubstreamError), None) else removed;
    QueuedNone(h, removed);
    more := [];
    if failed {
      QueuedOne(h, removed, more, Err(ShutdownSubstreamError), None, told);
      more := more + [Issue(Err(ShutdownSubstreamError), None)];
    }
    if LastStaysOpen(h.inbound[id].pending) {
      QueuedOne(h, told, more, Err(CancelRequest), None, InboundClosedStep(h, id, failed));
      more := more + [Issue(Err(CancelRequest), None)];
    }
  }

  /** Steps whose event is the result of the `poll` that performs them. */
  predicate Emits(step: Step) {
    step.OutboundExpired? || step.OutboundResponse? || step.OutboundEnded?
  }

  /** Every step but these and `PopEvent` only queues. */
  lemma StepQueues(h: Handler, step: Step) returns (more: seq<Issue>)
    requires TimersFind(h) && Enabled(h, step) && !Emits(step) && !step.PopEvent?
    ensures Queued(h, Apply(h, step), more)
  {
    if IsCall(step) {
      more := CallQueues(h, step);
    } else if IsInboundAction(step) {
      more := InboundQueues(h, step);
    } else if step.OutboundDeactivated? {
      var t := h.outbound[step.substream].ticket;
      QueuedPush(h, Err(HandlerDeactivated), Some(t), Apply(h, step));
      more := [Issue(Err(HandlerDeactivated), Some(t))];
    } else {
      QueuedNone(h, Apply(h, step));
      more := [];
    }
  }

  /** Those deliver the one event they issue, past the queue. */
  lemma StepEmits(h: Handler, step: Step) returns (issue: Issue)
    requires TimersFind(h) && Enabled(h, step) && Emits(step)
    ensures var h' := Apply(h, step);
            && h'.ledger.issued == h.ledger.issued + [issue] && h'.ledger.delivered == h.ledger.delivered + [issue.event]
            && h'.eventsOut == h.eventsOut
  {
    match step
    case OutboundExpired(key) =>
      issue := Issue(Err(StreamTimeout), Some(h.outbound[h.outboundDelay.live[key]].ticket));
    case OutboundResponse(id, response) =>
      issue := Issue(ReceivedEvent(h.outbound[id].reqId, response), Some(h.outbound[id].ticket));
    case OutboundEnded(id, dropped) =>
      issue := Issue(Err(if dropped then StreamDropped else IncompleteResponse), Some(h.outbound[id].ticket));
  }

  lemma QueuedTrans(h: Handler, h1: Handler, h2: Handler, first: seq<Issue>, second: seq<Issue>)
    requires Queued(h, h1, first) && Queued(h1, h2, second)
    ensures Queued(h, h2, first + second)
  {
    EventsJoin(first, second);
  }

  lemma EventsJoin(a: seq<Issue>, b: seq<Issue>)
    ensures EventsOf(a + b) == EventsOf(a) + EventsOf(b)
  {
  }

  /** A run prolonged by steps that deliver nothing. */
  lemma {:induction false} RunQueues(start: seq<Step>, end: seq<Step>) returns (more: seq<Issue>)
    requires IsRun(INITIAL, end) && start <= end
    requires forall i :: |start| <= i < |end| ==> !Emits(end[i]) && !end[i].PopEvent?
    ensures IsRun(INITIAL, start) && Queued(After(INITIAL, start), After(INITIAL, end), more)
    decreases |end|
  {
    if end == start {
      QueuedNone(After(INITIAL, start), After(INITIAL, start));
      more := [];
    } else {
      var before := end[..|end| - 1];
      RunSplits(INITIAL, end);
      var first := RunQueues(start, before);
      InitialIsGood();
      RunKeeps(INITIAL, before);
      InvFinds(After(INITIAL, before));
      var second := StepQueues(After(INITIAL, before), end[|end| - 1]);
      QueuedTrans(After(INITIAL, start), After(INITIAL, before), After(INITIAL, end), first, second);
      more := first + second;
    }
  }

  // ---------------------------------------------------------------------------------------------
  // The mail

  /** What a run does with its events: `posted` are those ever queued and `fetched` those taken from the
      queue, each in order; `queue` is what waits, and `seen` all that was delivered, in order. */
  datatype Mail = Mail(posted: seq<Issue>, fetched: seq<Issue>, queue: seq<Issue>, seen: seq<Issue>)

  ghost function NewIssues(h: Handler, h': Handler): seq<Issue> {
    if |h.ledger.issued| <= |h'.ledger.issued| then h'.ledger.issued[|h.ledger.issued|..] else []
  }

  ghost function MailStep(mail: Mail, h: Handler, step: Step): Mail
    requires Enabled(h, step)
  {
    var more := NewIssues(h, Apply(h, step));
    if step.PopEvent? then
      if mail.queue == [] then mail
      else mail.(fetched := mail.fetched + [mail.queue[0]], queue := mail.queue[1..], seen := mail.seen + [mail.queue[0]])
    else if Emits(step) then mail.(seen := mail.seen + more)
    else mail.(posted := mail.posted + more, queue := mail.queue + more)
  }

  ghost function MailAfter(steps: seq<Step>): Mail
    requires IsRun(INITIAL, steps)
    decreases |steps|
  {
    if steps == [] then Mail([], [], [], [])
    else
      var before := steps[..|steps| - 1];
      MailStep(MailAfter(before), After(INITIAL, before), steps[|steps| - 1])
  }

  /** The mail is what the code delivered and still has queued. */
  ghost predicate Books(h: Handler, mail: Mail) {
    && EventsOf(mail.queue) == h.eventsOut && EventsOf(mail.seen) == h.ledger.delivered
    && mail.posted == mail.fetched + mail.queue
    && multiset(mail.seen) + multiset(mail.queue) == multiset(h.ledger.issued)
    && Failures(mail.queue)
  }

  ghost predicate NoneAfterFailure(log: seq<Event>) {
    forall i, j :: 0 <= i < j < |log| && log[i].Err? ==> log[j].Err?
  }

  /** What was seen of one request against what was issued for it. */
  ghost predicate SeenOk(issued: seq<Issue>, queue: seq<Issue>, seen: seq<Issue>, t: Ticket) {
    && (forall e :: e in Reports(seen, t) ==> e in Reports(issued, t))
    && (forall i :: 0 <= i < |queue| && queue[i].ticket == Some(t) ==> queue[i].event in Reports(issued, t))
    && Responses(Reports(seen, t)) == Responses(Reports(issued, t))
    && NoneAfterFailure(Reports(seen, t))
  }

  /** `ReportsGrow`, by whether the issue is about the request. */
  lemma Grows(issued: seq<Issue>, issue: Issue, t: Ticket)
    ensures issue.ticket != Some(t) ==> Reports(issued + [issue], t) == Reports(issued, t)
    ensures issue.ticket == Some(t) ==>
              && Reports(issued + [issue], t) == Reports(issued, t) + [issue.event]
              && Responses(Reports(issued + [issue], t)) == Responses(Reports(issued, t)) + (if issue.event.Ok? then 1 else 0)
  {
    ReportsGrow(issued, issue, t);
    ResponsesGrow(Reports(issued, t), issue.event);
    assert Reports(issued, t) + [] == Reports(issued, t);
  }

  lemma SeenPost(issued: seq<Issue>, queue: seq<Issue>, seen: seq<Issue>, issue: Issue, t: Ticket)
    requires SeenOk(issued, queue, seen, t) && (issue.ticket.Some? ==> issue.event.Err?)
    ensures SeenOk(issued + [issue], queue + [issue], seen, t)
  {
    Grows(issued, issue, t);
  }

  lemma {:induction false} SeenPostAll(issued: seq<Issue>, queue: seq<Issue>, seen: seq<Issue>, more: seq<Issue>, t: Ticket)
    requires SeenOk(issued, queue, seen, t) && Failures(more)
    ensures SeenOk(issued + more, queue + more, seen, t)
    decreases |more|
  {
    if more == [] {
      assert issued + more == issued && queue + more == queue;
    } else {
      var before, last := more[..|more| - 1], more[|more| - 1];
      SeenPostAll(issued, queue, seen, before, t);
      SeenPost(issued + before, queue + before, seen, last, t);
      assert issued + more == (issued + before) + [last] && queue + more == (queue + before) + [last];
    }
  }

  lemma SeenFetch(issued: seq<Issue>, queue: seq<Issue>, seen: seq<Issue>, t: Ticket)
    requires SeenOk(issued, queue, seen, t) && queue != [] && Failures(queue)
    ensures SeenOk(issued, queue[1..], seen + [queue[0]], t)
  {
    Grows(seen, queue[0], t);
  }

  lemma SeenEmit(issued: seq<Issue>, queue: seq<Issue>, seen: seq<Issue>, issue: Issue, t: Ticket)
    requires SeenOk(issued, queue, seen, t) && NoneAfterFailure(Reports(issued + [issue], t))
    ensures SeenOk(issued + [issue], queue, seen + [issue], t)
  {
    Grows(issued, issue, t);
    Grows(seen, issue, t);
    if issue.ticket == Some(t) && issue.event.Ok? {
      var log := Reports(issued, t);
      forall e | e in Reports(seen, t) ensures e.Ok? {
        var i :| 0 <= i < |log| && log[i] == e;
        assert (log + [issue.event])[i] == e && (log + [issue.event])[|log|] == issue.event;
      }
    }
  }

  ghost predicate MailOk(h: Handler, mail: Mail) {
    Books(h, mail) && forall t: Ticket :: SeenOk(h.ledger.issued, mail.queue, mail.seen, t)
  }

  lemma PostKeeps(h: Handler, mail: Mail, h': Handler, more: seq<Issue>)
    requires MailOk(h, mail) && Queued(h, h', more)
    ensures MailOk(h', mail.(posted := mail.posted + more, queue := mail.queue + more))
  {
    EventsJoin(mail.queue, more);
    forall t: Ticket ensures SeenOk(h'.ledger.issued, mail.queue + more, mail.seen, t) {
      SeenPostAll(h.ledger.issued, mail.queue, mail.seen, more, t);
    }
  }

  lemma FetchKeeps(h: Handler, mail: Mail)
    requires MailOk(h, mail) && h.eventsOut != []
    ensures mail.queue != []
    ensures MailOk(PopEventStep(h), mail.(fetched := mail.fetched + [mail.queue[0]], queue := mail.queue[1..],
                                          seen := mail.seen + [mail.queue[0]]))
  {
    assert |EventsOf(mail.queue)| == |mail.queue|;
    var head, rest := mail.queue[0], mail.queue[1..];
    assert mail.queue == [head] + rest;
    EventsPush(mail.seen, head);
    assert EventsOf(rest) == h.eventsOut[1..];
    forall t: Ticket ensures SeenOk(h.ledger.issued, rest, mail.seen + [head], t) {
      SeenFetch(h.ledger.issued, mail.queue, mail.seen, t);
    }
  }

  lemma EmitKeeps(h: Handler, mail: Mail, h': Handler, issue: Issue)
    requires MailOk(h, mail) && TicketInv(h')
    requires h'.ledger.issued == h.ledger.issued + [issue] && h'.ledger.delivered == h.ledger.delivered + [issue.event]
    requires h'.eventsOut == h.eventsOut
    ensures MailOk(h', mail.(seen := mail.seen + [issue]))
  {
    EventsPush(mail.seen, issue);
    forall t: Ticket ensures SeenOk(h'.ledger.issued, mail.queue, mail.seen + [issue], t) {
      if t < |h'.ledger.accepted| { assert PlaceOk(h', t); }
      SeenEmit(h.ledger.issued, mail.queue, mail.seen, issue, t);
    }
  }

  lemma MailStepKeeps(h: Handler, mail: Mail, step: Step)
    requires Inv(h) && MailOk(h, mail) && Enabled(h, step)
    ensures MailOk(Apply(h, step), MailStep(mail, h, step))
  {
    var h' := Apply(h, step);
    InvFinds(h);
    if step.PopEvent? {
      FetchKeeps(h, mail);
    } else if Emits(step) {
      var issue := StepEmits(h, step);
      assert NewIssues(h, h') == [issue];
      StepKeeps(h, step);
      EmitKeeps(h, mail, h', issue);
    } else {
      var more := StepQueues(h, step);
      assert NewIssues(h, h') == more;
      PostKeeps(h, mail, h', more);
    }
  }

  lemma {:induction false} MailRun(steps: seq<Step>)
    requires IsRun(INITIAL, steps)
    ensures MailOk(After(INITIAL, steps), MailAfter(steps))
    decreases |steps|
  {
    if steps == [] {
      assert EventsOf([]) == [];
    } else {
      var before := steps[..|steps| - 1];
      RunSplits(INITIAL, steps);
      MailRun(before);
      InitialIsGood();
      RunKeeps(INITIAL, before);
      MailStepKeeps(After(INITIAL, before), MailAfter(before), steps[|steps| - 1]);
    }
  }

  /** Over every run: what was delivered and what is queued together are what was issued, and queued
      events are delivered in the order in which they were queued. */
  lemma EventsInOrder(steps: seq<Step>)
    requires IsRun(INITIAL, steps)
    ensures var h, mail := After(INITIAL, steps), MailAfter(steps);
            && EventsOf(mail.seen) == h.ledger.delivered && EventsOf(mail.queue) == h.eventsOut
            && multiset(mail.seen) + multiset(mail.queue) == multiset(h.ledger.issued)
            && mail.posted == mail.fetched + mail.queue
  {
    MailRun(steps);
  }

  /** As the caller sees them: per request at most the expected number of responses, all under its id,
      and none after a failure. All responses issued have been seen. */
  lemma ResponsesSeenInOrder(steps: seq<Step>, t: Ticket)
    requires IsRun(INITIAL, steps) && t < |After(INITIAL, steps).ledger.accepted|
    ensures var h, log := After(INITIAL, steps), Reports(MailAfter(steps).seen, t);
            && Responses(log) == Responses(Reports(h.ledger.issued, t)) <= h.ledger.accepted[t].query.expected
            && (forall i :: 0 <= i < |log| && log[i].Ok? ==>
                  log[i].received.ResponseReceived? && log[i].received.id == h.ledger.accepted[t].id)
            && NoneAfterFailure(log)
  {
    MailRun(steps);
    SeenLikeIssued(After(INITIAL, steps), MailAfter(steps), steps, t);
  }

  lemma SeenLikeIssued(h: Handler, mail: Mail, steps: seq<Step>, t: Ticket)
    requires IsRun(INITIAL, steps) && h == After(INITIAL, steps) && t < |h.ledger.accepted|
    requires SeenOk(h.ledger.issued, mail.queue, mail.seen, t)
    ensures Responses(Reports(mail.seen, t)) <= h.ledger.accepted[t].query.expected
    ensures forall e :: e in Reports(mail.seen, t) && e.Ok? ==>
              e.received.ResponseReceived? && e.received.id == h.ledger.accepted[t].id
  {
    ResponsesOrdered(h, t);
  }
}
