/** What a handler does in terms of its inputs: the requests it accepts, the line they wait in, the
    events it reports and the messages it sends are told from the steps of the run, without looking at
    what the handler stores. */
module HandlerTranscript {
  import opened Messages
  import opened HandlerMachine
  import opened HandlerInvariant
  import opened HandlerRuns
  import opened HandlerDelivery

  // ---------------------------------------------------------------------------------------------
  // Requests, their line, and the events

  /** The step ends the Active phase: a shutdown, a goodbye from the peer, or a request for which there
      is no room. */
  predicate EndsActive(h: Handler, step: Step) {
    h.phase.Active? &&
    (step.BeginShutdown? ||
     (step.NegotiatedInbound? && (step.query.request.Goodbye? || NoRoomFor(h, step.query))))
  }

  predicate NoRoomFor(h: Handler, query: Query) {
    query.expected > 0 && |h.inbound| >= 32
  }

  /** A failed dial is tried again: an I/O error, and not the third in a row. */
  predicate TriesAgain(retries: nat, step: Step) {
    step.DialFailed? && step.ioError && retries < 2
  }

  /** `requested` are the requests taken on so far, `line` the numbers of those waiting to be dialled, in
      order; `retries` counts I/O errors in a row and `kept` all retries. */
  datatype Book = Book(requested: seq<Dialing>, line: seq<Ticket>, retries: nat, kept: nat, issued: seq<Issue>)

  function Request(book: Book, id: RequestId, query: Query): Book {
    var t := |book.requested|;
    book.(requested := book.requested + [Dialing(id, query, t)], line := book.line + [t])
  }

  /** The events for requests dropped from a line, last first. */
  function Dropped(line: seq<Ticket>): seq<Issue> {
    if line == [] then []
    else [Issue(Err(HandlerError), Some(line[|line| - 1]))] + Dropped(line[..|line| - 1])
  }

  function Requests(book: Book, h: Handler, step: Step): Book {
    match step
    case SendRequest(id, query) => if h.phase.Active? then Request(book, id, query) else book
    case BeginShutdown(goodbye) =>
      if !h.phase.Active? then book
      else if goodbye.Some? then Request(book.(line := []), goodbye.value, Query(Goodbye(1), 0))
      else book.(line := [])
    case NegotiatedInbound(_, _) => if EndsActive(h, step) then book.(line := []) else book
    case DialFailed(t, _) =>
      if !TriesAgain(book.retries, step) then book.(retries := 0)
      else book.(retries := book.retries + 1, kept := book.kept + 1, line := if h.phase.Active? then book.line + [t] else book.line)
    case Dial => book.(line := if book.line == [] then [] else book.line[1..])
    case _ => book
  }

  /** The failure that a response or the end of a stream is reported as, or the response itself. */
  function Reported(book: Book, h: Handler, step: Step): seq<Issue>
    requires Enabled(h, step) && TimersFind(h)
  {
    match step
    case SendRequest(_, _) => if h.phase.Active? then [] else [Issue(Err(HandlerError), None)]
    case SendResponse(id, response) => if id in h.inbound && response.Error? then [Issue(Err(HandlerError), None)] else []
    case BeginShutdown(_) => if h.phase.Active? then Dropped(book.line) else []
    case NegotiatedInbound(query, _) =>
      if !h.phase.Active? then []
      else if NoRoomFor(h, query) then [Issue(Err(HandlerRejected), None)] + Dropped(book.line)
      else (if query.request.Goodbye? then Dropped(book.line) else [])
           + [Issue(Ok(RequestReceived(h.nextInbound, query.request)), None)]
    case NegotiatedOutbound(t, _) => if h.phase.Deactivated? then [Issue(Err(HandlerStateDeactivated), Some(t))] else []
    case DialFailed(t, _) =>
      if !TriesAgain(book.retries, step) then [Issue(Err(DialUpgradeError), Some(t))]
      else if h.phase.Active? then [] else [Issue(Err(HandlerError), Some(t))]
    case InboundExpired(_) => [Issue(Err(StreamTimeout), None)]
    case InboundFailed(_) => [Issue(Err(ResponseError), None)]
    case InboundClosed(id, failed) =>
      (if failed then [Issue(Err(ShutdownSubstreamError), None)] else [])
      + (if EndsOpen(h.inbound[id].pending) then [Issue(Err(CancelRequest), None)] else [])
    case OutboundExpired(key) => [Issue(Err(StreamTimeout), Some(h.outbound[h.outboundDelay.live[key]].ticket))]
    case OutboundDeactivated(id) => [Issue(Err(HandlerDeactivated), Some(h.outbound[id].ticket))]
    case OutboundResponse(id, response) =>
      [Issue(if response.Success? then Ok(ResponseReceived(h.outbound[id].reqId, response.response)) else Err(RpcError),
             Some(h.outbound[id].ticket))]
    case OutboundEnded(id, dropped) =>
      [Issue(Err(if dropped then StreamDropped else IncompleteResponse), Some(h.outbound[id].ticket))]
    case _ => []
  }

  /** A queue whose last message is not an error. */
  predicate EndsOpen(pending: seq<CodedResponse>) {
    pending != [] && pending[|pending| - 1].Success?
  }

  ghost function BookAfter(steps: seq<Step>): Book
    requires IsRun(INITIAL, steps)
    decreases |steps|
  {
    if steps == [] then Book([], [], 0, 0, [])
    else
      var before, step := steps[..|steps| - 1], steps[|steps| - 1];
      var book, h := BookAfter(before), After(INITIAL, before);
      var more := if TimersFind(h) then Reported(book, h, step) else [];
      Requests(book, h, step).(issued := book.issued + more)
  }

  /** The handler does what the book says. */
  ghost predicate Follows(h: Handler, book: Book) {
    && h.ledger.accepted == book.requested && h.ledger.issued == book.issued
    && Lines(h.dialQueue, book.line)
    && h.ioErrorRetries == book.retries && h.ledger.leakedSlots == book.kept
  }

  ghost predicate Lines(queue: seq<Dialing>, line: seq<Ticket>) {
    |queue| == |line| && forall i :: 0 <= i < |line| ==> queue[i].ticket == line[i]
  }

  // ---------------------------------------------------------------------------------------------

  lemma {:induction false} DropQueueTells(h: Handler, line: seq<Ticket>)
    requires Lines(h.dialQueue, line)
    ensures DropQueue(h).ledger.issued == h.ledger.issued + Dropped(line)
    ensures DropQueue(h).ledger.accepted == h.ledger.accepted && DropQueue(h).ledger.leakedSlots == h.ledger.leakedSlots
    ensures DropQueue(h).ioErrorRetries == h.ioErrorRetries && DropQueue(h).nextInbound == h.nextInbound
    decreases |line|
  {
    if line != [] {
      var rest, issue := line[..|line| - 1], Issue(Err(HandlerError), Some(line[|line| - 1]));
      DropLastTells(h, line);
      DropQueueTells(DropLast(h), rest);
      Regroup(h.ledger.issued, issue, Dropped(rest));
    } else {
      assert h.ledger.issued + [] == h.ledger.issued;
    }
  }

  lemma DropLastTells(h: Handler, line: seq<Ticket>)
    requires Lines(h.dialQueue, line) && line != []
    ensures var h' := DropLast(h);
            && Lines(h'.dialQueue, line[..|line| - 1])
            && h'.ledger.issued == h.ledger.issued + [Issue(Err(HandlerError), Some(line[|line| - 1]))]
            && h'.ledger.accepted == h.ledger.accepted && h'.ledger.leakedSlots == h.ledger.leakedSlots
            && h'.ioErrorRetries == h.ioErrorRetries && h'.nextInbound == h.nextInbound
  {
  }

  lemma Regroup(a: seq<Issue>, x: Issue, b: seq<Issue>)
    ensures (a + [x]) + b == a + ([x] + b)
  {
  }

  lemma ShutdownTells(h: Handler, line: seq<Ticket>, goodbye: Option<RequestId>)
    requires Lines(h.dialQueue, line) && h.phase.Active?
    ensures var h' := Shutdown(h, goodbye);
            && h'.ledger.issued == h.ledger.issued + Dropped(line) && h'.ledger.leakedSlots == h.ledger.leakedSlots
            && h'.ioErrorRetries == h.ioErrorRetries
            && (goodbye.None? ==> h'.ledger.accepted == h.ledger.accepted && h'.dialQueue == [])
            && (goodbye.Some? ==>
                  var request := Dialing(goodbye.value, Query(Goodbye(1), 0), |h.ledger.accepted|);
                  h'.ledger.accepted == h.ledger.accepted + [request] && h'.dialQueue == [request])
  {
    DropQueueTells(h, line);
  }

  /** The book after a step. */
  ghost function Entered(book: Book, h: Handler, step: Step): Book
    requires Enabled(h, step) && TimersFind(h)
  {
    Requests(book, h, step).(issued := book.issued + Reported(book, h, step))
  }

  lemma RejectedTells(h: Handler, book: Book, query: Query, key: Key)
    requires Follows(h, book) && key !in h.inboundDelay.live && TimersFind(h) && h.phase.Active? && NoRoomFor(h, query)
    ensures Follows(NegotiatedInboundStep(h, query, key), Entered(book, h, NegotiatedInbound(query, key)))
  {
    ShutdownTells(Push(h, Err(HandlerRejected), None), book.line, None);
    Regroup(book.issued, Issue(Err(HandlerRejected), None), Dropped(book.line));
  }

  lemma TakenTells(h: Handler, book: Book, query: Query, key: Key)
    requires Follows(h, book) && key !in h.inboundDelay.live && TimersFind(h) && h.phase.Active? && !NoRoomFor(h, query)
    ensures Follows(NegotiatedInboundStep(h, query, key), Entered(book, h, NegotiatedInbound(query, key)))
  {
    var entered := if query.expected > 0 then OpenInbound(h, query.expected, key) else h;
    var received := Issue(Ok(RequestReceived(h.nextInbound, query.request)), None);
    if query.request.Goodbye? {
      ShutdownTells(entered, book.line, None);
      assert (book.issued + Dropped(book.line)) + [received] == book.issued + (Dropped(book.line) + [received]);
    } else {
      assert [] + [received] == [received];
    }
  }

  lemma InboundTells(h: Handler, book: Book, query: Query, key: Key)
    requires Follows(h, book) && key !in h.inboundDelay.live && TimersFind(h)
    ensures Follows(NegotiatedInboundStep(h, query, key), Entered(book, h, NegotiatedInbound(query, key)))
  {
    if !h.phase.Active? {
      assert book.issued + [] == book.issued;
    } else if NoRoomFor(h, query) {
      RejectedTells(h, book, query, key);
    } else {
      TakenTells(h, book, query, key);
    }
  }

  lemma RetryTells(h: Handler, book: Book, t: Ticket)
    requires Follows(h, book) && Enabled(h, DialFailed(t, true)) && h.ledger.accepted[t].ticket == t && TimersFind(h)
    requires h.ioErrorRetries < 2
    ensures Follows(RetryDial(h, t), Entered(book, h, DialFailed(t, true)))
  {
    assert book.issued + [] == book.issued;
  }

  lemma DialFailedTells(h: Handler, book: Book, t: Ticket, ioError: bool)
    requires Follows(h, book) && Enabled(h, DialFailed(t, ioError)) && h.ledger.accepted[t].ticket == t && TimersFind(h)
    ensures Follows(DialFailedStep(h, t, ioError), Entered(book, h, DialFailed(t, ioError)))
  {
    if ioError && h.ioErrorRetries < 2 { RetryTells(h, book, t); }
  }

  lemma NegotiatedTells(h: Handler, book: Book, t: Ticket, key: Key)
    requires Follows(h, book) && TimersFind(h) && Enabled(h, NegotiatedOutbound(t, key))
    ensures Follows(NegotiatedOutboundStep(h, t, key), Entered(book, h, NegotiatedOutbound(t, key)))
  {
    assert book.issued + [] == book.issued;
  }

  lemma SendTells(h: Handler, book: Book, step: Step)
    requires Follows(h, book) && TimersFind(h) && (step.SendRequest? || step.SendResponse?)
    ensures Follows(Apply(h, step), Entered(book, h, step))
  {
    assert book.issued + [] == book.issued;
  }

  lemma BeginTells(h: Handler, book: Book, goodbye: Option<RequestId>)
    requires Follows(h, book) && TimersFind(h)
    ensures Follows(Shutdown(h, goodbye), Entered(book, h, BeginShutdown(goodbye)))
  {
    assert book.issued + [] == book.issued;
    if h.phase.Active? { ShutdownTells(h, book.line, goodbye); }
  }

  lemma CallTells(h: Handler, book: Book, step: Step)
    requires Follows(h, book) && Enabled(h, step) && IsCall(step) && TicketInv(h) && TimersFind(h)
    ensures Follows(Apply(h, step), Entered(book, h, step))
  {
    match step
    case SendRequest(_, _) => SendTells(h, book, step);
    case SendResponse(_, _) => SendTells(h, book, step);
    case BeginShutdown(goodbye) => BeginTells(h, book, goodbye);
    case NegotiatedInbound(query, key) => InboundTells(h, book, query, key);
    case NegotiatedOutbound(t, key) => NegotiatedTells(h, book, t, key);
    case DialFailed(t, ioError) => DialFailedTells(h, book, t, ioError);
  }

  lemma ActionTells(h: Handler, book: Book, step: Step)
    requires Follows(h, book) && Enabled(h, step) && !IsCall(step) && TimersFind(h)
    ensures Follows(Apply(h, step), Entered(book, h, step))
  {
    assert book.issued + [] == book.issued;
    match step
    case InboundClosed(id, failed) => ClosedTells(h, book, id, failed);
    case _ =>
  }

  lemma ClosedTells(h: Handler, book: Book, id: SubstreamId, failed: bool)
    requires Follows(h, book) && TimersFind(h) && Enabled(h, InboundClosed(id, failed))
    ensures Follows(InboundClosedStep(h, id, failed), Entered(book, h, InboundClosed(id, failed)))
  {
    assert book.issued + [] == book.issued;
    var first, second := Issue(Err(ShutdownSubstreamError), None), Issue(Err(CancelRequest), None);
    assert (book.issued + [first]) + [second] == book.issued + ([first] + [second]);
    assert [first] + [] == [first] && [] + [second] == [second];
  }

  lemma StepTells(h: Handler, book: Book, step: Step)
    requires Follows(h, book) && Enabled(h, step) && Inv(h) && TimersFind(h)
    ensures Follows(Apply(h, step), Entered(book, h, step))
  {
    if IsCall(step) { CallTells(h, book, step); } else { ActionTells(h, book, step); }
  }

  lemma {:induction false} BookRun(steps: seq<Step>)
    requires IsRun(INITIAL, steps)
    ensures Follows(After(INITIAL, steps), BookAfter(steps))
    decreases |steps|
  {
    if steps != [] {
      var before, step := steps[..|steps| - 1], steps[|steps| - 1];
      RunSplits(INITIAL, steps);
      BookRun(before);
      InitialIsGood();
      RunKeeps(INITIAL, before);
      InvFinds(After(INITIAL, before));
      StepTells(After(INITIAL, before), BookAfter(before), step);
    }
  }

  /** Over every run: the requests accepted are those the application sent while the handler was Active,
      and a goodbye; they wait to be dialled in the order in which they were sent, behind those a retry
      puts back at the end; and the events are exactly those of the book. */
  lemma HandlerFollowsItsInputs(steps: seq<Step>)
    requires IsRun(INITIAL, steps)
    ensures var h, book := After(INITIAL, steps), BookAfter(steps);
            && h.ledger.accepted == book.requested
            && |h.dialQueue| == |book.line| && (forall i :: 0 <= i < |book.line| ==> h.dialQueue[i].ticket == book.line[i])
            && h.ledger.issued == book.issued
            && h.ioErrorRetries == book.retries && h.ledger.leakedSlots == book.kept
  {
    BookRun(steps);
  }

  /** Active ends exactly as the book assumes. */
  lemma ActiveUntil(h: Handler, step: Step)
    requires Enabled(h, step)
    ensures Apply(h, step).phase.Active? <==> h.phase.Active? && !EndsActive(h, step)
  {
  }

  // ---------------------------------------------------------------------------------------------
  // Answers to requests

  /** The responses that came in on the substream of a request. */
  ghost function Heard(steps: seq<Step>, t: Ticket): seq<CodedResponse>
    requires IsRun(INITIAL, steps)
    decreases |steps|
  {
    if steps == [] then []
    else
      var before, step := steps[..|steps| - 1], steps[|steps| - 1];
      Heard(before, t) + HeardBy(After(INITIAL, before), step, t)
  }

  function HeardBy(h: Handler, step: Step, t: Ticket): seq<CodedResponse>
    requires Enabled(h, step)
  {
    if step.OutboundResponse? && h.outbound[step.substream].ticket == t then [step.response] else []
  }

  /** The caller is told each response under the id of its request, or that the peer reported an error;
      whatever else it is told are failures, afterwards. */
  ghost predicate Told(log: seq<Event>, heard: seq<CodedResponse>, id: RequestId) {
    && |heard| <= |log|
    && (forall k :: 0 <= k < |heard| && heard[k].Success? ==> log[k] == Ok(ResponseReceived(id, heard[k].response)))
    && (forall k :: 0 <= k < |heard| && heard[k].Error? ==> log[k] == Err(RpcError))
    && (forall k :: |heard| <= k < |log| ==> log[k].Err?)
  }

  lemma {:induction false} ReportsMore(issued: seq<Issue>, more: seq<Issue>, t: Ticket)
    requires Failures(more)
    ensures Reports(issued, t) <= Reports(issued + more, t)
    ensures forall k :: |Reports(issued, t)| <= k < |Reports(issued + more, t)| ==> Reports(issued + more, t)[k].Err?
    decreases |more|
  {
    if more == [] {
      assert issued + more == issued;
    } else {
      var before, last := more[..|more| - 1], more[|more| - 1];
      ReportsMore(issued, before, t);
      assert issued + more == (issued + before) + [last];
      Grows(issued + before, last, t);
    }
  }

  /** What is heard and told so far, of one request. */
  ghost predicate Spoken(h: Handler, mail: Mail, heard: seq<CodedResponse>, t: Ticket) {
    if t < |h.ledger.accepted| then
      && Told(Reports(h.ledger.issued, t), heard, h.ledger.accepted[t].id)
      && Told(Reports(mail.seen, t), heard, h.ledger.accepted[t].id)
    else
      heard == [] && Reports(h.ledger.issued, t) == [] && Reports(mail.seen, t) == []
  }

  lemma PostSpeaks(h: Handler, mail: Mail, h': Handler, more: seq<Issue>, heard: seq<CodedResponse>, t: Ticket)
    requires Spoken(h, mail, heard, t) && Queued(h, h', more) && h.ledger.accepted <= h'.ledger.accepted && TicketInv(h')
    ensures Spoken(h', mail.(posted := mail.posted + more, queue := mail.queue + more), heard, t)
  {
    ReportsMore(h.ledger.issued, more, t);
  }

  lemma FetchSpeaks(h: Handler, mail: Mail, heard: seq<CodedResponse>, t: Ticket)
    requires Spoken(h, mail, heard, t) && h.eventsOut != [] && mail.queue != [] && Failures(mail.queue)
    requires SeenOk(h.ledger.issued, mail.queue, mail.seen, t)
    ensures Spoken(PopEventStep(h), mail.(fetched := mail.fetched + [mail.queue[0]], queue := mail.queue[1..],
                                          seen := mail.seen + [mail.queue[0]]), heard, t)
  {
    var head := mail.queue[0];
    Grows(mail.seen, head, t);
    assert head.ticket == Some(t) ==> head.event.Err? && head.event in Reports(h.ledger.issued, t);
  }

  /** A response for the request: nothing else was told before it. */
  lemma NothingElseYet(h: Handler, mail: Mail, heard: seq<CodedResponse>, id: SubstreamId)
    requires Inv(h) && id in h.outbound && h.outbound[id].state.RequestPending? && !h.phase.Deactivated?
    requires var t := h.outbound[id].ticket; Spoken(h, mail, heard, t) && SeenOk(h.ledger.issued, mail.queue, mail.seen, t)
    ensures var t := h.outbound[id].ticket;
            && t < |h.ledger.accepted| && h.outbound[id].reqId == h.ledger.accepted[t].id
            && |Reports(h.ledger.issued, t)| == |heard| && |Reports(mail.seen, t)| == |heard|
  {
    var t := h.outbound[id].ticket;
    assert PlaceOk(h, t);
    var log, seen := Reports(h.ledger.issued, t), Reports(mail.seen, t);
    assert forall k :: 0 <= k < |log| ==> log[k].Ok?;
    forall k | 0 <= k < |seen| ensures seen[k].Ok? {
      assert seen[k] in seen && seen[k] in log;
    }
  }

  /** A failure told at once. */
  lemma FailureSpoken(h: Handler, mail: Mail, h': Handler, issue: Issue, heard: seq<CodedResponse>, t: Ticket)
    requires Spoken(h, mail, heard, t) && issue.event.Err? && issue.ticket.Some? && issue.ticket.value < |h.ledger.accepted|
    requires h'.ledger.issued == h.ledger.issued + [issue] && h'.ledger.accepted == h.ledger.accepted
    ensures Spoken(h', mail.(seen := mail.seen + [issue]), heard, t)
  {
    Grows(h.ledger.issued, issue, t);
    Grows(mail.seen, issue, t);
  }

  /** The event of a response. */
  predicate Renders(event: Event, id: RequestId, response: CodedResponse) {
    if response.Success? then event == Ok(ResponseReceived(id, response.response)) else event == Err(RpcError)
  }

  lemma ResponseSpoken(
    h: Handler, mail: Mail, h': Handler, issue: Issue, response: CodedResponse, heard: seq<CodedResponse>, t: Ticket)
    requires Spoken(h, mail, heard, t) && t < |h.ledger.accepted| && issue.ticket == Some(t)
    requires Renders(issue.event, h.ledger.accepted[t].id, response)
    requires h'.ledger.issued == h.ledger.issued + [issue] && h'.ledger.accepted == h.ledger.accepted
    requires |Reports(h.ledger.issued, t)| == |heard| && |Reports(mail.seen, t)| == |heard|
    ensures Spoken(h', mail.(seen := mail.seen + [issue]), heard + [response], t)
  {
    Grows(h.ledger.issued, issue, t);
    Grows(mail.seen, issue, t);
  }

  lemma ElseSpoken(h: Handler, mail: Mail, h': Handler, issue: Issue, heard: seq<CodedResponse>, t: Ticket)
    requires Spoken(h, mail, heard, t) && issue.ticket != Some(t)
    requires h'.ledger.issued == h.ledger.issued + [issue] && h'.ledger.accepted == h.ledger.accepted
    ensures Spoken(h', mail.(seen := mail.seen + [issue]), heard, t)
  {
    Grows(h.ledger.issued, issue, t);
    Grows(mail.seen, issue, t);
  }

  /** What an emitting step emits. */
  lemma EmitIs(h: Handler, step: Step) returns (issue: Issue)
    requires TimersFind(h) && Enabled(h, step) && Emits(step)
    ensures var h' := Apply(h, step);
            && NewIssues(h, h') == [issue] && h'.ledger.issued == h.ledger.issued + [issue] && h'.ledger.accepted == h.ledger.accepted
    ensures var id := if step.OutboundExpired? then h.outboundDelay.live[step.key] else step.substream;
            && issue.ticket == Some(h.outbound[id].ticket)
            && (step.OutboundResponse? ==> Renders(issue.event, h.outbound[id].reqId, step.response))
            && (!step.OutboundResponse? ==> issue.event.Err?)
  {
    var h' := Apply(h, step);
    issue := StepEmits(h, step);
    assert NewIssues(h, h') == [issue];
    assert h'.ledger.issued[|h.ledger.issued|] == issue;
  }

  lemma MailEmits(mail: Mail, h: Handler, step: Step, issue: Issue)
    requires Enabled(h, step) && Emits(step) && NewIssues(h, Apply(h, step)) == [issue]
    ensures MailStep(mail, h, step) == mail.(seen := mail.seen + [issue])
  {
  }

  lemma TicketAccepted(h: Handler, id: SubstreamId)
    requires Inv(h) && id in h.outbound
    ensures h.outbound[id].ticket < |h.ledger.accepted|
  {
  }

  lemma ResponseSpeaks(
    h: Handler, mail: Mail, h': Handler, issue: Issue, id: SubstreamId, response: CodedResponse, heard: seq<CodedResponse>)
    requires Inv(h) && id in h.outbound && h.outbound[id].state.RequestPending? && !h.phase.Deactivated?
    requires var t := h.outbound[id].ticket; Spoken(h, mail, heard, t) && SeenOk(h.ledger.issued, mail.queue, mail.seen, t)
    requires issue.ticket == Some(h.outbound[id].ticket) && Renders(issue.event, h.outbound[id].reqId, response)
    requires h'.ledger.issued == h.ledger.issued + [issue] && h'.ledger.accepted == h.ledger.accepted
    ensures Spoken(h', mail.(seen := mail.seen + [issue]), heard + [response], h.outbound[id].ticket)
  {
    NothingElseYet(h, mail, heard, id);
    ResponseSpoken(h, mail, h', issue, response, heard, h.outbound[id].ticket);
  }

  lemma EmitSpeaks(h: Handler, mail: Mail, step: Step, heard: seq<CodedResponse>, t: Ticket)
    requires Inv(h) && TimersFind(h) && Enabled(h, step) && Emits(step)
    requires Spoken(h, mail, heard, t) && SeenOk(h.ledger.issued, mail.queue, mail.seen, t)
    ensures Spoken(Apply(h, step), MailStep(mail, h, step), heard + HeardBy(h, step, t), t)
  {
    var id := if step.OutboundExpired? then h.outboundDelay.live[step.key] else step.substream;
    var issue := EmitIs(h, step);
    TicketAccepted(h, id);
    MailEmits(mail, h, step, issue);
    assert heard + [] == heard;
    if issue.ticket != Some(t) {
      ElseSpoken(h, mail, Apply(h, step), issue, heard, t);
    } else if step.OutboundResponse? {
      ResponseSpeaks(h, mail, Apply(h, step), issue, id, step.response, heard);
    } else {
      FailureSpoken(h, mail, Apply(h, step), issue, heard, t);
    }
  }

  lemma StepSpeaks(h: Handler, mail: Mail, step: Step, heard: seq<CodedResponse>, t: Ticket)
    requires Inv(h) && MailOk(h, mail) && Enabled(h, step) && Spoken(h, mail, heard, t)
    requires h.ledger.accepted <= Apply(h, step).ledger.accepted
    ensures Spoken(Apply(h, step), MailStep(mail, h, step), heard + HeardBy(h, step, t), t)
  {
    assert heard + [] == heard;
    assert SeenOk(h.ledger.issued, mail.queue, mail.seen, t);
    InvFinds(h);
    if step.PopEvent? {
      FetchKeeps(h, mail);
      FetchSpeaks(h, mail, heard, t);
    } else if Emits(step) {
      EmitSpeaks(h, mail, step, heard, t);
    } else {
      var more := StepQueues(h, step);
      assert NewIssues(h, Apply(h, step)) == more;
      StepKeeps(h, step);
      PostSpeaks(h, mail, Apply(h, step), more, heard, t);
    }
  }

  lemma BookGrows(book: Book, h: Handler, step: Step)
    ensures book.requested <= Requests(book, h, step).requested
  {
  }

  lemma AcceptedGrows(h: Handler, book: Book, step: Step)
    requires Follows(h, book) && Inv(h) && Enabled(h, step)
    ensures h.ledger.accepted <= Apply(h, step).ledger.accepted
  {
    InvFinds(h);
    BookGrows(book, h, step);
    StepTells(h, book, step);
  }

  lemma {:induction false} SpokenRun(steps: seq<Step>, t: Ticket)
    requires IsRun(INITIAL, steps)
    ensures Spoken(After(INITIAL, steps), MailAfter(steps), Heard(steps, t), t)
    decreases |steps|
  {
    if steps != [] {
      var before, step := steps[..|steps| - 1], steps[|steps| - 1];
      RunSplits(INITIAL, steps);
      SpokenRun(before, t);
      InitialIsGood();
      RunKeeps(INITIAL, before);
      MailRun(before);
      BookRun(before);
      AcceptedGrows(After(INITIAL, before), BookAfter(before), step);
      StepSpeaks(After(INITIAL, before), MailAfter(before), step, Heard(before, t), t);
    }
  }

  /** Over every run the k-th response to a request is reported, and delivered, as the k-th event about
      it, as it came in: a success under the request's own id, an error as a failure. All other events
      about the request are failures and come later. No more responses than expected are delivered, and
      none after a failure. */
  lemma AnswersAreReported(steps: seq<Step>, t: Ticket)
    requires IsRun(INITIAL, steps) && t < |After(INITIAL, steps).ledger.accepted|
    ensures var h, seen := After(INITIAL, steps), Reports(MailAfter(steps).seen, t);
            && Told(Reports(h.ledger.issued, t), Heard(steps, t), h.ledger.accepted[t].id)
            && Told(seen, Heard(steps, t), h.ledger.accepted[t].id)
            && Responses(seen) <= h.ledger.accepted[t].query.expected && NoneAfterFailure(seen)
  {
    SpokenRun(steps, t);
    ResponsesSeenInOrder(steps, t);
  }

  /** All that was heard are successes, fewer than expected. */
  ghost predicate MoreToCome(heard: seq<CodedResponse>, expected: nat) {
    |heard| < expected && forall k :: 0 <= k < |heard| ==> heard[k].Success?
  }

  /** The substream of a request is being closed only for a reason. */
  ghost predicate ClosedForAReason(h: Handler, heard: seq<CodedResponse>, t: Ticket) {
    forall id :: id in h.outbound && h.outbound[id].ticket == t && h.outbound[id].state.Closing? && !h.phase.Deactivated? ==>
      t < |h.ledger.accepted| && !MoreToCome(heard, h.ledger.accepted[t].query.expected)
  }

  lemma PendingMeansMore(h: Handler, mail: Mail, heard: seq<CodedResponse>, id: SubstreamId)
    requires Inv(h) && id in h.outbound && h.outbound[id].state.RequestPending? && !h.phase.Deactivated?
    requires var t := h.outbound[id].ticket; Spoken(h, mail, heard, t) && SeenOk(h.ledger.issued, mail.queue, mail.seen, t)
    ensures var t := h.outbound[id].ticket;
            && t < |h.ledger.accepted| && MoreToCome(heard, h.ledger.accepted[t].query.expected)
            && h.outbound[id].state.query == h.ledger.accepted[t].query
            && (h.ledger.accepted[t].query.expected > 1 ==>
                  h.outbound[id].remaining == Some(h.ledger.accepted[t].query.expected - |heard|))
  {
    var t := h.outbound[id].ticket;
    NothingElseYet(h, mail, heard, id);
    assert PlaceOk(h, t);
    var log := Reports(h.ledger.issued, t);
    AllResponses(log, |log|);
    forall k | 0 <= k < |heard| ensures heard[k].Success? {
      assert log[k].Ok?;
    }
  }

  lemma {:induction false} AllResponses(log: seq<Event>, n: nat)
    requires n <= |log| && forall k :: 0 <= k < |log| ==> log[k].Ok?
    ensures ResponsesIn(log, n) == n
  {
    if n > 0 { AllResponses(log, n - 1); }
  }

  /** After one more response the substream is closed exactly if there is no more to come. */
  lemma ClosesWhenDone(h: Handler, mail: Mail, heard: seq<CodedResponse>, id: SubstreamId, response: CodedResponse)
    requires Inv(h) && id in h.outbound && h.outbound[id].state.RequestPending? && !h.phase.Deactivated?
    requires var t := h.outbound[id].ticket; Spoken(h, mail, heard, t) && SeenOk(h.ledger.issued, mail.queue, mail.seen, t)
    ensures var t, info := h.outbound[id].ticket, OutboundResponseStep(h, id, response).outbound[id];
            && t < |h.ledger.accepted|
            && (info.state.Closing? <==> !MoreToCome(heard + [response], h.ledger.accepted[t].query.expected))
  {
    PendingMeansMore(h, mail, heard, id);
    var more := heard + [response];
    assert more[|heard|] == response;
    assert forall k :: 0 <= k < |heard| ==> more[k] == heard[k];
  }

  lemma OpensPending(h: Handler, t: Ticket, key: Key, id: SubstreamId)
    requires Enabled(h, NegotiatedOutbound(t, key))
    requires var h' := NegotiatedOutboundStep(h, t, key); id in h'.outbound && h'.outbound[id].state.Closing?
    ensures id in h.outbound && h.outbound[id] == NegotiatedOutboundStep(h, t, key).outbound[id]
  {
  }

  lemma InboundOutbound(h: Handler, query: Query, key: Key)
    requires key !in h.inboundDelay.live
    ensures NegotiatedInboundStep(h, query, key).outbound == h.outbound
  {
    DropQueueFrame(Push(h, Err(HandlerRejected), None));
    DropQueueFrame(h);
    if query.expected > 0 { DropQueueFrame(OpenInbound(h, query.expected, key)); }
  }

  /** Only a response, or deactivation, closes a substream that was open. */
  lemma ClosingFrame(h: Handler, step: Step, id: SubstreamId)
    requires Enabled(h, step) && !(step.OutboundResponse? && step.substream == id)
    requires var h' := Apply(h, step); id in h'.outbound && h'.outbound[id].state.Closing? && !h'.phase.Deactivated?
    ensures id in h.outbound && h.outbound[id] == Apply(h, step).outbound[id] && !h.phase.Deactivated?
  {
    PhaseStep(h, step);
    if IsCall(step) { ClosingCall(h, step, id); } else { ClosingAction(h, step, id); }
  }

  lemma ClosingCall(h: Handler, step: Step, id: SubstreamId)
    requires Enabled(h, step) && IsCall(step)
    requires id in Apply(h, step).outbound && Apply(h, step).outbound[id].state.Closing?
    ensures id in h.outbound && h.outbound[id] == Apply(h, step).outbound[id]
  {
    match step
    case NegotiatedOutbound(t, key) => OpensPending(h, t, key, id);
    case NegotiatedInbound(query, key) => InboundOutbound(h, query, key);
    case BeginShutdown(_) => DropQueueFrame(h);
    case _ =>
  }

  lemma ClosingAction(h: Handler, step: Step, id: SubstreamId)
    requires Enabled(h, step) && !IsCall(step) && !h.phase.Deactivated? && !(step.OutboundResponse? && step.substream == id)
    requires id in Apply(h, step).outbound
    ensures id in h.outbound && h.outbound[id] == Apply(h, step).outbound[id]
  {
  }

  lemma StepCloses(h: Handler, mail: Mail, step: Step, heard: seq<CodedResponse>, t: Ticket)
    requires Inv(h) && MailOk(h, mail) && Enabled(h, step) && Spoken(h, mail, heard, t) && ClosedForAReason(h, heard, t)
    requires h.ledger.accepted <= Apply(h, step).ledger.accepted
    ensures ClosedForAReason(Apply(h, step), heard + HeardBy(h, step, t), t)
  {
    var h', more := Apply(h, step), heard + HeardBy(h, step, t);
    forall id | id in h'.outbound && h'.outbound[id].ticket == t && h'.outbound[id].state.Closing? && !h'.phase.Deactivated?
      ensures t < |h'.ledger.accepted| && !MoreToCome(more, h'.ledger.accepted[t].query.expected)
    {
      CloseHasReason(h, mail, step, heard, t, id);
    }
  }

  lemma CloseHasReason(h: Handler, mail: Mail, step: Step, heard: seq<CodedResponse>, t: Ticket, id: SubstreamId)
    requires Inv(h) && MailOk(h, mail) && Enabled(h, step) && Spoken(h, mail, heard, t) && ClosedForAReason(h, heard, t)
    requires h.ledger.accepted <= Apply(h, step).ledger.accepted
    requires var h' := Apply(h, step);
             id in h'.outbound && h'.outbound[id].ticket == t && h'.outbound[id].state.Closing? && !h'.phase.Deactivated?
    ensures var h' := Apply(h, step);
            && t < |h'.ledger.accepted|
            && !MoreToCome(heard + HeardBy(h, step, t), h'.ledger.accepted[t].query.expected)
  {
    assert SeenOk(h.ledger.issued, mail.queue, mail.seen, t);
    if step.OutboundResponse? && step.substream == id {
      ClosesWhenDone(h, mail, heard, id, step.response);
    } else {
      ClosingFrame(h, step, id);
      StaysDone(heard, HeardBy(h, step, t), h.ledger.accepted[t].query.expected);
    }
  }

  lemma StaysDone(heard: seq<CodedResponse>, more: seq<CodedResponse>, expected: nat)
    ensures MoreToCome(heard + more, expected) ==> MoreToCome(heard, expected)
  {
    assert forall k :: 0 <= k < |heard| ==> (heard + more)[k] == heard[k];
  }

  lemma {:induction false} ReasonRun(steps: seq<Step>, t: Ticket)
    requires IsRun(INITIAL, steps)
    ensures ClosedForAReason(After(INITIAL, steps), Heard(steps, t), t)
    decreases |steps|
  {
    if steps != [] {
      var before, step := steps[..|steps| - 1], steps[|steps| - 1];
      RunSplits(INITIAL, steps);
      ReasonRun(before, t);
      SpokenRun(before, t);
      InitialIsGood();
      RunKeeps(INITIAL, before);
      MailRun(before);
      BookRun(before);
      AcceptedGrows(After(INITIAL, before), BookAfter(before), step);
      StepCloses(After(INITIAL, before), MailAfter(before), step, Heard(before, t), t);
    }
  }

  /** Over every run, unless the handler is deactivated: a substream goes on waiting for responses if and
      only if fewer than its request expects came in, and no error. */
  lemma OpenWhileMoreToCome(steps: seq<Step>, id: SubstreamId)
    requires IsRun(INITIAL, steps) && id in After(INITIAL, steps).outbound && !After(INITIAL, steps).phase.Deactivated?
    ensures var h := After(INITIAL, steps);
            var t := h.outbound[id].ticket;
            && t < |h.ledger.accepted|
            && (h.outbound[id].state.RequestPending? <==> MoreToCome(Heard(steps, t), h.ledger.accepted[t].query.expected))
  {
    var h := After(INITIAL, steps);
    var t := h.outbound[id].ticket;
    InitialIsGood();
    RunKeeps(INITIAL, steps);
    SpokenRun(steps, t);
    MailRun(steps);
    ReasonRun(steps, t);
    OpenOrDone(h, MailAfter(steps), Heard(steps, t), id);
  }

  lemma OpenOrDone(h: Handler, mail: Mail, heard: seq<CodedResponse>, id: SubstreamId)
    requires Inv(h) && MailOk(h, mail) && id in h.outbound && !h.phase.Deactivated?
    requires var t := h.outbound[id].ticket; Spoken(h, mail, heard, t) && ClosedForAReason(h, heard, t)
    ensures var t := h.outbound[id].ticket;
            && t < |h.ledger.accepted|
            && (h.outbound[id].state.RequestPending? <==> MoreToCome(heard, h.ledger.accepted[t].query.expected))
  {
    var t := h.outbound[id].ticket;
    TicketAccepted(h, id);
    assert SeenOk(h.ledger.issued, mail.queue, mail.seen, t);
    if h.outbound[id].state.RequestPending? { PendingMeansMore(h, mail, heard, id); }
    else { assert PlaceOk(h, t); }
  }

  // ---------------------------------------------------------------------------------------------
  // Inbound substreams

  /** The request that a substream was opened for, and what the application, or a timeout, gave it to
      send; `completed` counts the messages that went out and left it open. */
  datatype Story = Story(query: Option<Query>, offered: seq<CodedResponse>, completed: nat)

  /** The step opens this substream. */
  predicate Opens(h: Handler, step: Step, id: SubstreamId) {
    step.NegotiatedInbound? && h.phase.Active? && step.query.expected > 0 && |h.inbound| < 32 && h.nextInbound == id
  }

  /** The timer of this substream runs out while its last message would leave it open. */
  predicate TimesOut(h: Handler, step: Step, id: SubstreamId) {
    && step.InboundExpired? && step.key in h.inboundDelay.live && h.inboundDelay.live[step.key] == id
    && id in h.inbound && EndsOpen(h.inbound[id].pending)
  }

  function Continued(story: Story, h: Handler, step: Step, id: SubstreamId): Story {
    if Opens(h, step, id) then story.(query := Some(step.query))
    else if step.SendResponse? && step.substream == id && id in h.inbound && !h.phase.Deactivated? then
      story.(offered := story.offered + [step.response])
    else if TimesOut(h, step, id) then story.(offered := story.offered + [Error])
    else if step == InboundSent(id) then story.(completed := story.completed + 1)
    else story
  }

  ghost function StoryOf(steps: seq<Step>, id: SubstreamId): Story
    requires IsRun(INITIAL, steps)
    decreases |steps|
  {
    if steps == [] then Story(None, [], 0)
    else
      var before := steps[..|steps| - 1];
      Continued(StoryOf(before, id), After(INITIAL, before), steps[|steps| - 1], id)
  }

  /** The handler's log of a substream is its story. */
  ghost predicate Matches(h: Handler, story: Story, id: SubstreamId) {
    && (id in h.ledger.streams <==> story.query.Some?)
    && (id !in h.ledger.streams ==> story == Story(None, [], 0))
    && (id in h.ledger.streams ==>
          var log := h.ledger.streams[id];
          && log.expected == story.query.value.expected && log.queued == story.offered
          && (id in h.inbound ==> story.completed == |log.sent| - if h.inbound[id].state.Busy? then 1 else 0))
  }

  /** Nothing about the substream changes. */
  ghost predicate SameStream(h: Handler, h': Handler, id: SubstreamId) {
    && (id in h'.ledger.streams <==> id in h.ledger.streams)
    && (id in h.ledger.streams ==> h'.ledger.streams[id] == h.ledger.streams[id])
    && (id in h'.inbound ==> id in h.inbound && h'.inbound[id].state == h.inbound[id].state)
  }

  lemma SameMatches(h: Handler, h': Handler, story: Story, id: SubstreamId)
    requires Matches(h, story, id) && SameStream(h, h', id)
    ensures Matches(h', story, id)
  {
  }

  lemma OpenFrame(h: Handler, query: Query, key: Key)
    requires key !in h.inboundDelay.live
    ensures var h' := NegotiatedInboundStep(h, query, key);
            var opens := h.phase.Active? && query.expected > 0 && |h.inbound| < 32;
            && h'.ledger.streams == (if opens then h.ledger.streams[h.nextInbound := StreamLog(query.expected, [], [])] else h.ledger.streams)
            && h'.inbound == (if opens then h.inbound[h.nextInbound := InboundInfo(Idle, [], query.expected, Some(key))] else h.inbound)
  {
    DropQueueFrame(Push(h, Err(HandlerRejected), None));
    DropQueueFrame(h);
    if query.expected > 0 { DropQueueFrame(OpenInbound(h, query.expected, key)); }
  }

  lemma OpenContinues(h: Handler, story: Story, query: Query, key: Key, id: SubstreamId)
    requires Matches(h, story, id) && key !in h.inboundDelay.live && h.nextInbound !in h.ledger.streams
    ensures Matches(NegotiatedInboundStep(h, query, key), Continued(story, h, NegotiatedInbound(query, key), id), id)
  {
    OpenFrame(h, query, key);
  }

  lemma ResponseContinues(h: Handler, story: Story, sub: SubstreamId, response: CodedResponse, id: SubstreamId)
    requires Matches(h, story, id) && (sub in h.inbound ==> sub in h.ledger.streams)
    ensures Matches(SendResponseStep(h, sub, response), Continued(story, h, SendResponse(sub, response), id), id)
  {
  }

  lemma TimeoutContinues(h: Handler, story: Story, key: Key, id: SubstreamId)
    requires Matches(h, story, id) && key in h.inboundDelay.live && TimersFind(h)
    requires forall sub :: sub in h.inbound ==> sub in h.ledger.streams
    ensures Matches(InboundExpiredStep(h, key), Continued(story, h, InboundExpired(key), id), id)
  {
  }

  lemma StartContinues(h: Handler, story: Story, sub: SubstreamId, id: SubstreamId)
    requires Matches(h, story, id) && Enabled(h, InboundStart(sub)) && (sub in h.inbound ==> sub in h.ledger.streams)
    ensures Matches(InboundStartStep(h, sub), Continued(story, h, InboundStart(sub), id), id)
  {
  }

  lemma SentContinues(h: Handler, story: Story, sub: SubstreamId, id: SubstreamId)
    requires Matches(h, story, id) && Enabled(h, InboundSent(sub)) && (sub in h.inbound ==> sub in h.ledger.streams)
    ensures Matches(InboundSentStep(h, sub), Continued(story, h, InboundSent(sub), id), id)
  {
  }

  /** No other step has to do with what inbound substreams send. */
  predicate Streaming(step: Step) {
    step.NegotiatedInbound? || step.SendResponse? || step.InboundExpired? || step.InboundStart? || step.InboundSent?
  }

  lemma NegotiatedFrame(h: Handler, t: Ticket, key: Key)
    requires Enabled(h, NegotiatedOutbound(t, key))
    ensures var h' := NegotiatedOutboundStep(h, t, key); h'.ledger.streams == h.ledger.streams && h'.inbound == h.inbound
  {
  }

  lemma DialFailedFrame(h: Handler, t: Ticket, ioError: bool)
    requires t < |h.ledger.accepted|
    ensures var h' := DialFailedStep(h, t, ioError); h'.ledger.streams == h.ledger.streams && h'.inbound == h.inbound
  {
  }

  lemma ShutdownFrame(h: Handler, goodbye: Option<RequestId>)
    ensures var h' := Shutdown(h, goodbye); h'.ledger.streams == h.ledger.streams && h'.inbound == h.inbound
  {
    DropQueueFrame(h);
  }

  lemma CallFrame(h: Handler, step: Step)
    requires Enabled(h, step) && IsCall(step) && !Streaming(step)
    ensures Apply(h, step).ledger.streams == h.ledger.streams && Apply(h, step).inbound == h.inbound
  {
    match step
    case SendRequest(_, _) =>
    case BeginShutdown(goodbye) => ShutdownFrame(h, goodbye);
    case NegotiatedOutbound(t, key) => NegotiatedFrame(h, t, key);
    case DialFailed(t, ioError) => DialFailedFrame(h, t, ioError);
  }

  lemma RemovalFrame(h: Handler, step: Step)
    requires Enabled(h, step) && IsInboundAction(step) && !Streaming(step)
    ensures Apply(h, step).ledger.streams == h.ledger.streams && Apply(h, step).inbound == h.inbound - {step.substream}
  {
  }

  lemma OutboundFrame(h: Handler, step: Step)
    requires Enabled(h, step) && !IsCall(step) && !IsInboundAction(step)
    ensures Apply(h, step).ledger.streams == h.ledger.streams && Apply(h, step).inbound == h.inbound
  {
  }

  lemma OtherFrame(h: Handler, step: Step, id: SubstreamId)
    requires Enabled(h, step) && !Streaming(step)
    ensures SameStream(h, Apply(h, step), id)
  {
    if IsCall(step) { CallFrame(h, step); }
    else if IsInboundAction(step) { RemovalFrame(h, step); }
    else { OutboundFrame(h, step); }
  }

  /** Every substream has its log, and the next number has none yet. */
  ghost predicate Logged(h: Handler) {
    (forall id :: id in h.inbound ==> id in h.ledger.streams) && h.nextInbound !in h.ledger.streams
  }

  lemma InvLogged(h: Handler)
    requires Inv(h)
    ensures Logged(h)
  {
  }

  lemma StepContinues(h: Handler, story: Story, step: Step, id: SubstreamId)
    requires TimersFind(h) && Logged(h) && Enabled(h, step) && Matches(h, story, id)
    ensures Matches(Apply(h, step), Continued(story, h, step, id), id)
  {
    match step
    case NegotiatedInbound(query, key) => OpenContinues(h, story, query, key, id);
    case SendResponse(sub, response) => ResponseContinues(h, story, sub, response, id);
    case InboundExpired(key) => TimeoutContinues(h, story, key, id);
    case InboundStart(sub) => StartContinues(h, story, sub, id);
    case InboundSent(sub) => SentContinues(h, story, sub, id);
    case _ => OtherContinues(h, story, step, id);
  }

  lemma OtherContinues(h: Handler, story: Story, step: Step, id: SubstreamId)
    requires Enabled(h, step) && Matches(h, story, id) && !Streaming(step)
    ensures Matches(Apply(h, step), Continued(story, h, step, id), id)
  {
    OtherFrame(h, step, id);
    SameMatches(h, Apply(h, step), story, id);
  }

  lemma {:induction false} StoryRun(steps: seq<Step>, id: SubstreamId)
    requires IsRun(INITIAL, steps)
    ensures Matches(After(INITIAL, steps), StoryOf(steps, id), id)
    decreases |steps|
  {
    if steps != [] {
      var before := steps[..|steps| - 1];
      RunSplits(INITIAL, steps);
      StoryRun(before, id);
      InitialIsGood();
      RunKeeps(INITIAL, before);
      InvFinds(After(INITIAL, before));
      InvLogged(After(INITIAL, before));
      StepContinues(After(INITIAL, before), StoryOf(before, id), steps[|steps| - 1], id);
    }
  }

  /** What was handed to the wire of a substream is a prefix of what it was given, at most as many
      messages as its request expects, with none after an error. While it is open, the rest waits; it has
      sent fewer messages than expected, and closes after the one under way exactly if that is an error
      or makes up the number. */
  ghost predicate SendsWhatItIsGiven(h: Handler, story: Story, id: SubstreamId)
    requires story.query.Some? && id in h.ledger.streams
  {
    var sent, expected := h.ledger.streams[id].sent, story.query.value.expected;
    && sent <= story.offered && |sent| <= expected
    && (forall i :: 0 <= i < |sent| - 1 ==> sent[i].Success?)
    && (id in h.inbound ==>
          var info := h.inbound[id];
          && sent + info.pending == story.offered
          && story.completed + info.remaining == expected && story.completed < expected
          && (info.state.Idle? ==> |sent| == story.completed)
          && (info.state.Busy? ==>
                && |sent| == story.completed + 1 && info.state.message == sent[story.completed]
                && (ClosesAfter(info.state) <==> info.state.message.Error? || |sent| == expected)))
  }

  lemma StoryTold(h: Handler, story: Story, id: SubstreamId)
    requires Matches(h, story, id) && Streams(h.inbound, h.ledger.streams, h.nextInbound) && story.query.Some?
    ensures SendsWhatItIsGiven(h, story, id)
  {
  }

  /** Over every run: each substream that was opened sends only what the application gave it, and the
      error of a timeout, for the request it was opened for. */
  lemma SubstreamsSendWhatTheyAreGiven(steps: seq<Step>, id: SubstreamId)
    requires IsRun(INITIAL, steps) && StoryOf(steps, id).query.Some?
    ensures id in After(INITIAL, steps).ledger.streams && SendsWhatItIsGiven(After(INITIAL, steps), StoryOf(steps, id), id)
  {
    StoryRun(steps, id);
    InitialIsGood();
    RunKeeps(INITIAL, steps);
    StoryTold(After(INITIAL, steps), StoryOf(steps, id), id);
  }

  /** Only those substreams exist. */
  lemma SubstreamsHaveStories(steps: seq<Step>, id: SubstreamId)
    requires IsRun(INITIAL, steps) && id in After(INITIAL, steps).inbound
    ensures StoryOf(steps, id).query.Some?
  {
    StoryRun(steps, id);
    InitialIsGood();
    RunKeeps(INITIAL, steps);
    InvLogged(After(INITIAL, steps));
  }
}
