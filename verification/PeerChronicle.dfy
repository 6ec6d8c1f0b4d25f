/** The peer manager in terms of its inputs: the record of every peer, and the average over it, are told
    from the steps of the run and their times alone, one peer at a time. */
module PeerChronicle {
  import opened Messages
  import opened PeerMachine
  import opened RunningMean
  import opened PeerRuns

  // ---------------------------------------------------------------------------------------------
  // Records

  /** What the steps say of one peer: its attempts, and the address it was first found with, if it was. */
  datatype Page = Page(attempts: seq<Attempt>, found: Option<Option<Multiaddr>>) {
    function Last(): Attempt
      requires attempts != []
    {
      attempts[|attempts| - 1]
    }

    function Closing(last: Attempt): Page
      requires attempts != []
    {
      this.(attempts := attempts[..|attempts| - 1] + [last])
    }
  }

  const BLANK := Page([], None)

  /** A dial of more than five seconds ago is given up. */
  function Waited(page: Page, at: Millis): Page {
    if page.attempts == [] then page
    else
      var a := page.Last();
      if a.status == Connecting && at - a.dialAt > 5000
      then page.Closing(Attempt(Timeout, a.dialAt, a.establishedAt, Some(at), a.disconnectedAt))
      else page
  }

  function Turned(page: Page, step: Step, p: PeerId): Page {
    match step
    case Establish(q, at) =>
      if q != p || page.attempts == [] then page
      else var a := page.Last(); page.Closing(Attempt(Connected, a.dialAt, Some(at), a.failedAt, a.disconnectedAt))
    case Fail(q, at) =>
      if q != p || page.attempts == [] then page
      else var a := page.Last(); page.Closing(Attempt(Failed, a.dialAt, a.establishedAt, Some(at), a.disconnectedAt))
    case Hangup(q, at) =>
      if q != p || page.attempts == [] then page
      else var a := page.Last(); page.Closing(Attempt(Disconnected, a.dialAt, a.establishedAt, a.failedAt, Some(at)))
    case Find(found) => if page.found.None? && p in found then page.(found := Some(found[p])) else page
    case Ask => page
    case Beat(at, redial, added) =>
      var waited := Waited(page, at);
      if p in redial || p in added then waited.(attempts := waited.attempts + [Attempt(Connecting, at, None, None, None)])
      else waited
  }

  function PageOf(steps: seq<Step>, p: PeerId): Page {
    if steps == [] then BLANK else Turned(PageOf(steps[..|steps| - 1], p), steps[|steps| - 1], p)
  }

  /** The manager's record of a peer is its page. */
  ghost predicate OnRecord(m: Manager, p: PeerId, page: Page) {
    && (p in m.data <==> page.found.Some?)
    && (p in m.data ==> m.data[p].history == page.attempts && m.data[p].multiaddr == page.found.value)
    && (p !in m.data ==> page.attempts == [])
  }

  lemma EventTurns(w: World, step: Step, p: PeerId, page: Page)
    requires Inv(w) && Enabled(w, step) && OnRecord(w.manager, p, page) && (step.Establish? || step.Fail? || step.Hangup?)
    ensures OnRecord(Apply(w, step).manager, p, Turned(page, step, p))
  {
    assert Known(w.manager, step.peer);
  }

  lemma FindTurns(w: World, found: map<PeerId, Option<Multiaddr>>, p: PeerId, page: Page)
    requires OnRecord(w.manager, p, page)
    ensures OnRecord(AddPeers(w.manager, found), p, Turned(page, Find(found), p))
  {
  }

  lemma TimeOutTurns(w: World, at: Millis, p: PeerId, page: Page)
    requires Inv(w) && w.now <= at && OnRecord(w.manager, p, page)
    ensures OnRecord(TimeOut(w.manager, at), p, Waited(page, at))
  {
    if p in w.manager.data { assert GoodData(w.manager.data[p], w.now); }
  }

  lemma DialTurns(w: World, redial: seq<PeerId>, added: seq<PeerId>, p: PeerId, page: Page)
    requires Inv(w) && IsChoice(w.manager, redial, added) && OnRecord(w.manager, p, page)
    ensures OnRecord(Beaten(w, redial + added).manager, p,
              if p in redial || p in added then page.(attempts := page.attempts + [Attempt(Connecting, w.now, None, None, None)])
              else page)
  {
    ChoiceFits(w, redial, added);
  }

  lemma StepTurns(w: World, step: Step, p: PeerId, page: Page)
    requires Inv(w) && Enabled(w, step) && OnRecord(w.manager, p, page)
    ensures OnRecord(Apply(w, step).manager, p, Turned(page, step, p))
  {
    match step
    case Find(found) => FindTurns(w, found, p, page);
    case Ask =>
    case Beat(at, redial, added) =>
      TimeOutTurns(w, at, p, page);
      TimeOutKeeps(w, at);
      DialTurns(TimedOut(w, at), redial, added, p, Waited(page, at));
    case _ => EventTurns(w, step, p, page);
  }

  lemma StartIsGood(target: nat)
    ensures Inv(Start(target))
  {
  }

  lemma {:induction false} PageRun(target: nat, steps: seq<Step>, p: PeerId)
    requires IsRun(Start(target), steps)
    ensures OnRecord(After(Start(target), steps).manager, p, PageOf(steps, p))
    decreases |steps|
  {
    if steps != [] {
      var before := steps[..|steps| - 1];
      RunSplits(Start(target), steps);
      PageRun(target, before, p);
      StartIsGood(target);
      RunKeeps(Start(target), before);
      StepTurns(After(Start(target), before), steps[|steps| - 1], p, PageOf(before, p));
    }
  }

  /** Over every run a peer is on record if and only if it was found, with the address it was first found
      with, and its history is that of the dials, answers, failures, hang-ups and heartbeats of the run,
      each at the time it happened. */
  lemma RecordsAreWhatHappened(target: nat, steps: seq<Step>, p: PeerId)
    requires IsRun(Start(target), steps)
    ensures var m, page := After(Start(target), steps).manager, PageOf(steps, p);
            && (p in m.data <==> page.found.Some?)
            && (p in m.data ==> m.data[p].history == page.attempts && m.data[p].multiaddr == page.found.value)
  {
    PageRun(target, steps, p);
  }

  // ---------------------------------------------------------------------------------------------
  // Durations

  /** When the peer was last connected to. */
  function ConnectedAt(steps: seq<Step>, p: PeerId): Millis {
    if steps == [] then 0
    else
      var step := steps[|steps| - 1];
      if step.Establish? && step.peer == p then step.at else ConnectedAt(steps[..|steps| - 1], p)
  }

  /** How long each attempt to connect to the peer that came to an end lasted: from the answer to the
      hang-up, or not at all. */
  function Lasted(steps: seq<Step>, p: PeerId): seq<nat> {
    if steps == [] then []
    else
      var before, step := steps[..|steps| - 1], steps[|steps| - 1];
      Lasted(before, p) + LastedBy(step, p, ConnectedAt(before, p))
  }

  function LastedBy(step: Step, p: PeerId, since: Millis): seq<nat> {
    if step.Hangup? && step.peer == p then [if since <= step.at then step.at - since else 0]
    else if step.Fail? && step.peer == p then [0]
    else []
  }

  /** The ended attempts on record lasted so long, and one that lasts began then. */
  ghost predicate Timed(m: Manager, p: PeerId, lasted: seq<nat>, since: Millis) {
    && (p !in m.data ==> lasted == [])
    && (p in m.data ==>
          var d := m.data[p];
          && |lasted| == SettledCount(d)
          && (forall i :: 0 <= i < |lasted| ==> Duration(d.history[i]) == lasted[i])
          && (d.history != [] && d.Last().status.Connected? ==> d.Last().establishedAt == Some(since)))
  }

  function SinceAfter(step: Step, p: PeerId, since: Millis): Millis {
    if step.Establish? && step.peer == p then step.at else since
  }

  /** The record of a peer whose ended attempts are untouched. */
  ghost predicate SameEnded(d: PeerData, d': PeerData) {
    && SettledCount(d') == SettledCount(d)
    && (forall i :: 0 <= i < SettledCount(d) ==> d'.history[i] == d.history[i])
    && (d'.history != [] && d'.Last().status.Connected? ==>
          d.history != [] && d.Last().status.Connected? && d'.Last().establishedAt == d.Last().establishedAt)
  }

  lemma EventTimed(w: World, step: Step, p: PeerId, lasted: seq<nat>, since: Millis)
    requires Inv(w) && Enabled(w, step) && Timed(w.manager, p, lasted, since) && (step.Establish? || step.Fail? || step.Hangup?)
    ensures Timed(Apply(w, step).manager, p, lasted + LastedBy(step, p, since), SinceAfter(step, p, since))
  {
    var q := step.peer;
    assert Known(w.manager, q) && !w.manager.data[q].Last().Resolved();
    assert GoodData(w.manager.data[q], w.now);
    assert lasted + [] == lasted;
  }

  lemma SameTimed(m: Manager, m': Manager, p: PeerId, lasted: seq<nat>, since: Millis)
    requires Timed(m, p, lasted, since) && (p in m'.data <==> p in m.data)
    requires p in m.data ==> SameEnded(m.data[p], m'.data[p])
    ensures Timed(m', p, lasted, since)
  {
  }

  lemma TimeOutSame(w: World, at: Millis, p: PeerId)
    requires Inv(w) && p in w.manager.data
    ensures SameEnded(w.manager.data[p], TimeOut(w.manager, at).data[p])
  {
  }

  lemma DialledSame(d: PeerData, now: Millis)
    requires d.history == [] || d.Last().Resolved()
    ensures SameEnded(d, DialledData(d, now))
  {
  }

  lemma DialSame(w: World, redial: seq<PeerId>, added: seq<PeerId>, p: PeerId)
    requires Agree(w) && IsChoice(w.manager, redial, added) && p in w.manager.data
    ensures var m' := Beaten(w, redial + added).manager; p in m'.data && SameEnded(w.manager.data[p], m'.data[p])
  {
    ChoiceFits(w, redial, added);
    var list := redial + added;
    if p in list {
      assert Diallable(w.manager, p);
      DialledSame(w.manager.data[p], w.now);
    }
    DialIs(w, list, p);
  }

  lemma DialIs(w: World, list: seq<PeerId>, p: PeerId)
    requires p in w.manager.data
    ensures var m' := Beaten(w, list).manager;
            p in m'.data && (m'.data[p] == w.manager.data[p] || (p in list && m'.data[p] == DialledData(w.manager.data[p], w.now)))
  {
  }

  lemma BeatTimed(w: World, at: Millis, redial: seq<PeerId>, added: seq<PeerId>, p: PeerId, lasted: seq<nat>, since: Millis)
    requires Inv(w) && Enabled(w, Beat(at, redial, added)) && Timed(w.manager, p, lasted, since)
    ensures Timed(Apply(w, Beat(at, redial, added)).manager, p, lasted, since)
  {
    var timed := TimedOut(w, at);
    TimeOutKeeps(w, at);
    if p in w.manager.data {
      TimeOutSame(w, at, p);
      SameTimed(w.manager, timed.manager, p, lasted, since);
      DialSame(timed, redial, added, p);
    }
    SameTimed(timed.manager, Apply(w, Beat(at, redial, added)).manager, p, lasted, since);
  }

  lemma StepTimed(w: World, step: Step, p: PeerId, lasted: seq<nat>, since: Millis)
    requires Inv(w) && Enabled(w, step) && Timed(w.manager, p, lasted, since)
    ensures Timed(Apply(w, step).manager, p, lasted + LastedBy(step, p, since), SinceAfter(step, p, since))
  {
    assert lasted + [] == lasted;
    match step
    case Find(_) =>
    case Ask =>
    case Beat(at, redial, added) => BeatTimed(w, at, redial, added, p, lasted, since);
    case _ => EventTimed(w, step, p, lasted, since);
  }

  lemma {:induction false} TimedRun(target: nat, steps: seq<Step>, p: PeerId)
    requires IsRun(Start(target), steps)
    ensures Timed(After(Start(target), steps).manager, p, Lasted(steps, p), ConnectedAt(steps, p))
    decreases |steps|
  {
    if steps != [] {
      var before := steps[..|steps| - 1];
      RunSplits(Start(target), steps);
      TimedRun(target, before, p);
      StartIsGood(target);
      RunKeeps(Start(target), before);
      StepTimed(After(Start(target), before), steps[|steps| - 1], p, Lasted(before, p), ConnectedAt(before, p));
    }
  }

  // ---------------------------------------------------------------------------------------------
  // Averages

  function Sum(lasted: seq<nat>, n: nat): nat
    requires n <= |lasted|
  {
    if n == 0 then 0 else Sum(lasted, n - 1) + lasted[n - 1]
  }

  /** The running mean of the first `n` durations, rounded down each time. */
  function MeanOf(lasted: seq<nat>, n: nat): nat
    requires 1 <= n <= |lasted|
  {
    if n == 1 then lasted[0] else FloorMean(MeanOf(lasted, n - 1), n, lasted[n - 1])
  }

  function FloorMean(earlier: nat, n: nat, duration: nat): nat
    requires 1 <= n
  {
    var sum: nat := (n - 1) * earlier + duration;
    sum / n
  }

  lemma {:induction false} FoldedIs(history: seq<Attempt>, lasted: seq<nat>, n: nat)
    requires n <= |lasted| && n <= |history| && forall i :: 0 <= i < n ==> Duration(history[i]) == lasted[i]
    ensures Total(history, n) == Sum(lasted, n)
    ensures Folded(history, n) == if n == 0 then None else Some(MeanOf(lasted, n))
  {
    if n > 0 {
      FoldedIs(history, lasted, n - 1);
      if n > 1 { NextMeanIs(MeanOf(lasted, n - 1), n, lasted[n - 1]); }
    }
  }

  /** The running mean of durations; with n of them lasting S in all, S − n(n−1)/2 ≤ n·average ≤ S. */
  ghost predicate IsRunningMean(average: Option<nat>, lasted: seq<nat>) {
    var n := |lasted|;
    if n == 0 then average == None
    else
      && average == Some(MeanOf(lasted, n))
      && Sum(lasted, n) - n * (n - 1) / 2 <= n * average.value <= Sum(lasted, n)
  }

  /** Over every run the cached average of a peer is the running mean of the times its connections
      lasted, from the answer to the hang-up, a failure counting as no time. */
  lemma AverageIsMeanOfTimes(target: nat, steps: seq<Step>, p: PeerId)
    requires IsRun(Start(target), steps) && p in After(Start(target), steps).manager.data
    ensures IsRunningMean(After(Start(target), steps).manager.data[p].average, Lasted(steps, p))
  {
    TimedRun(target, steps, p);
    StartIsGood(target);
    RunKeeps(Start(target), steps);
    AverageInWorld(After(Start(target), steps), p, Lasted(steps, p), ConnectedAt(steps, p));
  }

  lemma AverageInWorld(w: World, p: PeerId, lasted: seq<nat>, since: Millis)
    requires Inv(w) && p in w.manager.data && Timed(w.manager, p, lasted, since)
    ensures IsRunningMean(w.manager.data[p].average, lasted)
  {
    AverageOfRecord(w.manager.data[p], w.now, lasted);
  }

  lemma AverageOfRecord(d: PeerData, now: Millis, lasted: seq<nat>)
    requires GoodData(d, now) && |lasted| == SettledCount(d)
    requires forall i :: 0 <= i < |lasted| ==> Duration(d.history[i]) == lasted[i]
    ensures IsRunningMean(d.average, lasted)
  {
    FoldedIs(d.history, lasted, |lasted|);
    if lasted != [] { MeanError(d.history, |lasted|); }
  }

  /** It lies between the shortest and the longest of them. */
  lemma AverageIsBetweenTimes(target: nat, steps: seq<Step>, p: PeerId, lo: nat, hi: nat)
    requires IsRun(Start(target), steps) && p in After(Start(target), steps).manager.data && Lasted(steps, p) != []
    requires forall i :: 0 <= i < |Lasted(steps, p)| ==> lo <= Lasted(steps, p)[i] <= hi
    ensures var average := After(Start(target), steps).manager.data[p].average; average.Some? && lo <= average.value <= hi
  {
    TimedRun(target, steps, p);
    StartIsGood(target);
    RunKeeps(Start(target), steps);
    BetweenInWorld(After(Start(target), steps), p, Lasted(steps, p), ConnectedAt(steps, p), lo, hi);
  }

  lemma BetweenInWorld(w: World, p: PeerId, lasted: seq<nat>, since: Millis, lo: nat, hi: nat)
    requires Inv(w) && p in w.manager.data && Timed(w.manager, p, lasted, since) && lasted != []
    requires forall i :: 0 <= i < |lasted| ==> lo <= lasted[i] <= hi
    ensures var average := w.manager.data[p].average; average.Some? && lo <= average.value <= hi
  {
    var d := w.manager.data[p];
    assert GoodData(d, w.now);
    MeanBetween(d.history, |lasted|, lo, hi);
  }

  /** A peer waits to be redialled only if its connections lasted more than three seconds on average. */
  lemma EligibleLastedLong(target: nat, steps: seq<Step>, p: PeerId)
    requires IsRun(Start(target), steps) && p in EligiblePeers(After(Start(target), steps).manager)
    ensures var lasted := Lasted(steps, p); lasted != [] && 3001 * |lasted| <= Sum(lasted, |lasted|)
  {
    TimedRun(target, steps, p);
    StartIsGood(target);
    RunKeeps(Start(target), steps);
    EligibleInWorld(After(Start(target), steps), p, Lasted(steps, p), ConnectedAt(steps, p));
  }

  lemma EligibleInWorld(w: World, p: PeerId, lasted: seq<nat>, since: Millis)
    requires Inv(w) && p in EligiblePeers(w.manager) && Timed(w.manager, p, lasted, since)
    ensures lasted != [] && 3001 * |lasted| <= Sum(lasted, |lasted|)
  {
    EligibleLasted(w.manager.data[p], w.now, lasted);
  }

  lemma EligibleLasted(d: PeerData, now: Millis, lasted: seq<nat>)
    requires GoodData(d, now) && |lasted| == SettledCount(d) && Eligible(d)
    requires forall i :: 0 <= i < |lasted| ==> Duration(d.history[i]) == lasted[i]
    ensures lasted != [] && 3001 * |lasted| <= Sum(lasted, |lasted|)
  {
    FoldedIs(d.history, lasted, |lasted|);
    EligibleRecord(d, now);
  }

  // ---------------------------------------------------------------------------------------------
  // The gap

  /** What each step does to the number of peers to discover and to the wait for them. A heartbeat refills
      if and only if four times the peers missing exceed the number already to be discovered. */
  lemma GapFollows(w: World, target: nat, step: Step)
    requires Reachable(w, target) && Enabled(w, step)
    ensures var m, m' := w.manager, Apply(w, step).manager;
            && m'.waiting == (step.Ask? || (m.waiting && !step.Find?))
            && (step.Ask? ==> m'.toDiscover == 0)
            && (!step.Ask? && !step.Beat? ==> m'.toDiscover == m.toDiscover)
    ensures step.Beat? && !Apply(w, step).crashed ==>
              var m, m', timed := w.manager, Apply(w, step).manager, TimeOut(w.manager, step.at);
              var missing := m.target - |Busy(timed)|;
              if m.toDiscover < 4 * missing
              then m'.toDiscover + |step.redial| + |step.added| == missing
              else m'.toDiscover == m.toDiscover && step.redial == [] && step.added == []
  {
    ReachableIsGood(w, target);
    if step.Beat? {
      TimeOutAgrees(w, step.at);
      ChoiceFits(TimedOut(w, step.at), step.redial, step.added);
    }
  }
}
