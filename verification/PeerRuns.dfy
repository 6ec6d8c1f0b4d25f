/** The integer running average of `update_average_connection_duration`, against the exact total. */
module RunningMean {
  import opened Messages
  import opened PeerMachine

  /** The left fold of the floor-mean update over the first `n` attempts. */
  function Folded(history: seq<Attempt>, n: nat): Option<nat>
    requires n <= |history|
  {
    if n == 0 then None else Some(NextMean(Folded(history, n - 1), n, Duration(history[n - 1])))
  }

  function Total(history: seq<Attempt>, n: nat): nat
    requires n <= |history|
  {
    if n == 0 then 0 else Total(history, n - 1) + Duration(history[n - 1])
  }

  lemma {:induction false} SamePrefix(a: seq<Attempt>, b: seq<Attempt>, n: nat)
    requires n <= |a| && n <= |b| && forall i :: 0 <= i < n ==> a[i] == b[i]
    ensures Folded(a, n) == Folded(b, n) && Total(a, n) == Total(b, n)
  {
    if n > 0 { SamePrefix(a, b, n - 1); }
  }

  lemma {:induction false} ProductIs(a: nat, k: nat)
    ensures Product(a, k) == k * a
  {
    if k > 0 {
      ProductIs(a, k - 1);
      assert k * a == (k - 1) * a + a;
    }
  }

  lemma {:induction false} OneMore(a: nat, k: nat)
    ensures Product(a + 1, k) == Product(a, k) + k
  {
    if k > 0 { OneMore(a, k - 1); }
  }

  lemma {:induction false} Scaled(a: nat, b: nat, k: nat)
    requires a <= b
    ensures Product(a, k) <= Product(b, k)
  {
    if k > 0 { Scaled(a, b, k - 1); }
  }

  lemma {:induction false} FloorDivision(x: nat, n: nat)
    requires 1 <= n
    ensures Product(Quotient(x, n), n) <= x < Product(Quotient(x, n), n) + n
    decreases x
  {
    if x < n {
      ProductIs(0, n);
    } else {
      FloorDivision(x - n, n);
      OneMore(Quotient(x - n, n), n);
    }
  }

  lemma QuotientAtLeast(x: nat, n: nat, lo: nat)
    requires 1 <= n
    ensures lo <= Quotient(x, n) <==> Product(lo, n) <= x
  {
    var q := Quotient(x, n);
    FloorDivision(x, n);
    OneMore(q, n);
    if q < lo { Scaled(q + 1, lo, n); } else { Scaled(lo, q, n); }
  }

  lemma Bracketed(x: nat, n: nat, lo: nat, hi: nat)
    requires 1 <= n && Product(lo, n) <= x < Product(hi, n) + n
    ensures lo <= Quotient(x, n) <= hi
  {
    QuotientAtLeast(x, n, lo);
    QuotientAtLeast(x, n, hi + 1);
    OneMore(hi, n);
  }

  /** The update is the formula of the code: the earlier average times the earlier attempts, plus the
      new duration, divided by the attempts. */
  lemma NextMeanIs(earlier: nat, n: nat, d: nat)
    requires 1 <= n
    ensures NextMean(Some(earlier), n, d) == ((n - 1) * earlier + d) / n && NextMean(None, n, d) == d
  {
    ProductIs(earlier, n - 1);
    DivisionIs(Product(earlier, n - 1) + d, n);
  }

  lemma DivisionIs(x: nat, n: nat)
    requires 1 <= n
    ensures Quotient(x, n) == x / n
  {
    var q := x / n;
    assert n * q <= x < n * q + n;
    ProductIs(q, n);
    Bracketed(x, n, q, q);
  }

  /** The sum of the numbers below `n`. */
  function Below(n: nat): nat {
    if n == 0 then 0 else Below(n - 1) + (n - 1)
  }

  lemma {:induction false} Triangle(n: nat)
    ensures 2 * Below(n) == n * (n - 1)
  {
    if n > 0 {
      Triangle(n - 1);
      assert n * (n - 1) == (n - 1) * (n - 2) + 2 * (n - 1);
    }
  }

  lemma {:induction false} RoundingLoss(history: seq<Attempt>, n: nat)
    requires 1 <= n <= |history|
    ensures Folded(history, n).Some?
    ensures Total(history, n) - Below(n) <= Product(Folded(history, n).value, n) <= Total(history, n)
  {
    var d := Duration(history[n - 1]);
    if n == 1 {
      assert Folded(history, 0) == None && Total(history, 0) == 0;
      assert Product(d, 1) == Product(d, 0) + d;
    } else {
      RoundingLoss(history, n - 1);
      FloorDivision(Product(Folded(history, n - 1).value, n - 1) + d, n);
    }
  }

  /** Rounding down at every update loses less than one unit per attempt so far. */
  lemma MeanError(history: seq<Attempt>, n: nat)
    requires 1 <= n <= |history|
    ensures Folded(history, n).Some?
    ensures Total(history, n) - n * (n - 1) / 2 <= n * Folded(history, n).value <= Total(history, n)
  {
    RoundingLoss(history, n);
    Triangle(n);
    ProductIs(Folded(history, n).value, n);
  }

  lemma MeanAtLeast(history: seq<Attempt>, n: nat, lo: nat)
    requires 1 <= n <= |history| && Folded(history, n).Some? && lo <= Folded(history, n).value
    ensures Product(lo, n) <= Total(history, n)
  {
    RoundingLoss(history, n);
    Scaled(lo, Folded(history, n).value, n);
  }

  lemma Weighted(lo: nat, earlier: nat, hi: nat, d: nat, n: nat)
    requires 1 <= n && lo <= earlier <= hi && lo <= d <= hi
    ensures Product(lo, n) <= Product(earlier, n - 1) + d <= Product(hi, n)
  {
    Scaled(lo, earlier, n - 1);
    Scaled(earlier, hi, n - 1);
  }

  /** The average lies between the shortest and the longest duration. */
  lemma {:induction false} MeanBetween(history: seq<Attempt>, n: nat, lo: nat, hi: nat)
    requires 1 <= n <= |history|
    requires forall i :: 0 <= i < n ==> lo <= Duration(history[i]) <= hi
    ensures Folded(history, n).Some? && lo <= Folded(history, n).value <= hi
  {
    if n == 1 {
      assert Folded(history, 0) == None;
    } else {
      MeanBetween(history, n - 1, lo, hi);
      var earlier, d := Folded(history, n - 1).value, Duration(history[n - 1]);
      Weighted(lo, earlier, hi, d, n);
      Bracketed(Product(earlier, n - 1) + d, n, lo, hi);
    }
  }
}

/** What holds of the peer manager over whole runs. */
module PeerRuns {
  import opened Messages
  import opened PeerMachine
  import opened RunningMean

  // ---------------------------------------------------------------------------------------------
  // The invariant

  function SettledCount(d: PeerData): nat
    ensures SettledCount(d) <= |d.history|
  {
    if d.history == [] then 0 else if d.Last().Resolved() then |d.history| else |d.history| - 1
  }

  /** All but the last attempt are resolved, timestamps are in order, and the cached average is the
      fold over the resolved attempts. */
  ghost predicate GoodData(d: PeerData, now: Millis) {
    && (forall i :: 0 <= i < |d.history| - 1 ==> d.history[i].Resolved())
    && (forall i :: 0 <= i < |d.history| ==> GoodTimes(d.history[i], now))
    && d.average == Folded(d.history, SettledCount(d))
  }

  ghost predicate GoodTimes(a: Attempt, now: Millis) {
    && a.dialAt <= now
    && (a.establishedAt.Some? ==> a.establishedAt.value <= now)
    && (a.status.Connected? ==> a.establishedAt.Some?)
    && (a.status.Disconnected? ==>
          && a.establishedAt.Some? && a.disconnectedAt.Some?
          && a.establishedAt.value <= a.disconnectedAt.value <= now)
  }

  predicate Is(m: Manager, p: PeerId, status: Status) {
    Known(m, p) && m.data[p].Last().status == status
  }

  predicate IsNew(m: Manager, p: PeerId) {
    p in m.data && m.data[p].history == []
  }

  /** The three sets, the histories and the swarm's own books agree. */
  ghost predicate Agree(w: World) {
    var m := w.manager;
    && (forall p :: p in m.connected <==> Is(m, p, Connected))
    && (forall p :: p in m.dialling <==> Is(m, p, Connecting))
    && (forall p :: p in m.newPeers <==> IsNew(m, p))
    && (forall p :: p in w.outstanding <==> Is(m, p, Connecting) || Is(m, p, Timeout))
    && (forall p :: p in w.open <==> Is(m, p, Connected))
  }

  ghost predicate GoodPeers(m: Manager, now: Millis) {
    forall p :: p in m.data ==> GoodData(m.data[p], now)
  }

  ghost predicate Inv(w: World) {
    Agree(w) && GoodPeers(w.manager, w.now)
  }

  // ---------------------------------------------------------------------------------------------
  // Preservation

  lemma LaterIsFine(d: PeerData, now: Millis, later: Millis)
    requires GoodData(d, now) && now <= later
    ensures GoodData(d, later)
  {
  }

  lemma EstablishedGood(d: PeerData, now: Millis, at: Millis)
    requires GoodData(d, now) && now <= at && d.history != [] && !d.Last().Resolved()
    ensures GoodData(EstablishedData(d, at), at)
  {
    SamePrefix(d.history, EstablishedData(d, at).history, |d.history| - 1);
  }

  lemma TimeoutGood(d: PeerData, now: Millis, at: Millis)
    requires GoodData(d, now) && now <= at && d.history != [] && !d.Last().Resolved()
    ensures GoodData(TimeoutData(d, at), at)
  {
    SamePrefix(d.history, TimeoutData(d, at).history, |d.history| - 1);
  }

  lemma FailedGood(d: PeerData, now: Millis, at: Millis)
    requires GoodData(d, now) && now <= at && d.history != [] && !d.Last().Resolved()
    ensures GoodData(FailedData(d, at), at)
  {
    SamePrefix(d.history, FailedData(d, at).history, |d.history| - 1);
  }

  lemma ClosedGood(d: PeerData, now: Millis, at: Millis)
    requires GoodData(d, now) && now <= at && d.history != [] && d.Last().status.Connected?
    ensures GoodData(ClosedData(d, at), at)
  {
    SamePrefix(d.history, ClosedData(d, at).history, |d.history| - 1);
  }

  lemma DialledGood(d: PeerData, now: Millis, at: Millis)
    requires GoodData(d, now) && now <= at && (d.history == [] || d.Last().Resolved())
    ensures GoodData(DialledData(d, at), at)
  {
    SamePrefix(d.history, DialledData(d, at).history, |d.history|);
  }

  /** An event about one peer touches that peer only. */
  lemma OnePeer(m: Manager, p: PeerId, d: PeerData, now: Millis, at: Millis)
    requires GoodPeers(m, now) && now <= at && GoodData(d, at)
    ensures GoodPeers(m.(data := m.data[p := d]), at)
  {
    forall q | q in m.data ensures GoodData(m.data[q], at) {
      LaterIsFine(m.data[q], now, at);
    }
  }

  lemma EstablishAgrees(w: World, p: PeerId, at: Millis)
    requires Agree(w) && p in w.outstanding
    ensures Known(w.manager, p) && Agree(Apply(w, Establish(p, at)))
  {
  }

  lemma EstablishKeeps(w: World, p: PeerId, at: Millis)
    requires Inv(w) && p in w.outstanding && w.now <= at
    ensures Known(w.manager, p) && Inv(Apply(w, Establish(p, at)))
  {
    EstablishAgrees(w, p, at);
    EstablishedGood(w.manager.data[p], w.now, at);
    OnePeer(w.manager, p, EstablishedData(w.manager.data[p], at), w.now, at);
  }

  lemma FailAgrees(w: World, p: PeerId, at: Millis)
    requires Agree(w) && p in w.outstanding
    ensures Known(w.manager, p) && Agree(Apply(w, Fail(p, at)))
  {
  }

  lemma FailKeeps(w: World, p: PeerId, at: Millis)
    requires Inv(w) && p in w.outstanding && w.now <= at
    ensures Known(w.manager, p) && Inv(Apply(w, Fail(p, at)))
  {
    FailAgrees(w, p, at);
    FailedGood(w.manager.data[p], w.now, at);
    OnePeer(w.manager, p, FailedData(w.manager.data[p], at), w.now, at);
  }

  lemma HangupAgrees(w: World, p: PeerId, at: Millis)
    requires Agree(w) && p in w.open
    ensures Known(w.manager, p) && Agree(Apply(w, Hangup(p, at)))
  {
  }

  lemma HangupKeeps(w: World, p: PeerId, at: Millis)
    requires Inv(w) && p in w.open && w.now <= at
    ensures Known(w.manager, p) && Inv(Apply(w, Hangup(p, at)))
  {
    HangupAgrees(w, p, at);
    ClosedGood(w.manager.data[p], w.now, at);
    OnePeer(w.manager, p, ClosedData(w.manager.data[p], at), w.now, at);
  }

  lemma FindKeeps(w: World, found: map<PeerId, Option<Multiaddr>>)
    requires Inv(w)
    ensures Inv(Apply(w, Find(found)))
  {
  }

  lemma TimeOutStatus(m: Manager, at: Millis, p: PeerId, status: Status)
    ensures Is(TimeOut(m, at), p, status) <==>
            if p in m.dialling && p in m.data && Overdue(m.data[p], at) then status.Timeout? else Is(m, p, status)
    ensures IsNew(TimeOut(m, at), p) <==> IsNew(m, p)
  {
  }

  lemma TimeOutAgrees(w: World, at: Millis)
    requires Agree(w)
    ensures Agree(TimedOut(w, at))
  {
    forall p: PeerId, status: Status
      ensures Is(TimeOut(w.manager, at), p, status) <==>
              if p in w.manager.dialling && p in w.manager.data && Overdue(w.manager.data[p], at) then status.Timeout?
              else Is(w.manager, p, status)
      ensures IsNew(TimeOut(w.manager, at), p) <==> IsNew(w.manager, p)
    {
      TimeOutStatus(w.manager, at, p, status);
    }
  }

  lemma TimeOutKeeps(w: World, at: Millis)
    requires Inv(w) && w.now <= at
    ensures Inv(TimedOut(w, at))
  {
    var m := w.manager;
    TimeOutAgrees(w, at);
    forall p | p in m.data ensures GoodData(TimeOut(m, at).data[p], at) {
      LaterIsFine(m.data[p], w.now, at);
      if p in m.dialling && Overdue(m.data[p], at) { TimeoutGood(m.data[p], w.now, at); }
    }
  }

  /** A peer may be dialled if it is new or its last attempt is resolved. */
  predicate Diallable(m: Manager, p: PeerId) {
    p in m.data && (m.data[p].history == [] || m.data[p].Last().Resolved())
  }

  ghost predicate AllDiallable(m: Manager, list: seq<PeerId>) {
    forall p :: p in list ==> Diallable(m, p)
  }

  lemma DialledStatus(m: Manager, list: seq<PeerId>, now: Millis, p: PeerId, status: Status)
    requires AllDiallable(m, list)
    ensures Is(Dialled(m, list, now), p, status) <==> if p in list then status.Connecting? else Is(m, p, status)
    ensures IsNew(Dialled(m, list, now), p) <==> IsNew(m, p) && p !in list
  {
  }

  lemma RefillAgrees(w: World, list: seq<PeerId>)
    requires Agree(w) && AllDiallable(w.manager, list) && |Busy(w.manager)| + |list| <= w.manager.target
    ensures Agree(Refilled(w, list))
  {
    var m, m' := w.manager, Refill(w.manager, list, w.now);
    assert m'.data == Dialled(m, list, w.now).data;
    forall p: PeerId, status: Status
      ensures Is(m', p, status) <==> if p in list then status.Connecting? else Is(m, p, status)
      ensures IsNew(m', p) <==> IsNew(m, p) && p !in list
    {
      DialledStatus(m, list, w.now, p, status);
    }
  }

  lemma RefillKeeps(w: World, list: seq<PeerId>)
    requires Inv(w) && AllDiallable(w.manager, list) && |Busy(w.manager)| + |list| <= w.manager.target
    ensures Inv(Refilled(w, list))
  {
    var m := w.manager;
    RefillAgrees(w, list);
    forall p | p in m.data ensures GoodData(Dialled(m, list, w.now).data[p], w.now) {
      if p in list { DialledGood(m.data[p], w.now, w.now); }
    }
  }

  /** What a heartbeat picks is distinct, diallable, not connected or being dialled, and fits. */
  lemma ChoiceFits(w: World, redial: seq<PeerId>, added: seq<PeerId>)
    requires Agree(w) && IsChoice(w.manager, redial, added)
    ensures var list := redial + added;
            && Distinct(list) && AllDiallable(w.manager, list)
            && (forall p :: p in list ==> p !in Busy(w.manager))
            && (|Busy(w.manager)| <= w.manager.target ==> |list| + |Busy(w.manager)| <= w.manager.target)
  {
  }

  lemma BeatenKeeps(w: World, redial: seq<PeerId>, added: seq<PeerId>)
    requires Inv(w) && IsChoice(w.manager, redial, added)
    ensures Inv(Beaten(w, redial + added))
  {
    ChoiceFits(w, redial, added);
    if |Busy(w.manager)| + |redial + added| <= w.manager.target {
      RefillKeeps(w, redial + added);
    }
  }

  lemma AskKeeps(w: World)
    requires Inv(w)
    ensures Inv(Apply(w, Ask))
  {
  }

  /** The invariant is inductive, and no event handler panics: only a heartbeat can overflow. */
  lemma StepKeeps(w: World, step: Step)
    requires Inv(w) && Enabled(w, step)
    ensures Inv(Apply(w, step))
  {
    match step
    case Establish(p, at) => EstablishKeeps(w, p, at);
    case Fail(p, at) => FailKeeps(w, p, at);
    case Hangup(p, at) => HangupKeeps(w, p, at);
    case Find(found) => FindKeeps(w, found);
    case Ask => AskKeeps(w);
    case Beat(at, redial, added) => TimeOutKeeps(w, at); BeatenKeeps(TimedOut(w, at), redial, added);
  }

  lemma {:induction false} RunKeeps(w: World, steps: seq<Step>)
    requires Inv(w) && IsRun(w, steps)
    ensures Inv(After(w, steps))
    decreases |steps|
  {
    if steps != [] {
      RunKeeps(w, steps[..|steps| - 1]);
      StepKeeps(After(w, steps[..|steps| - 1]), steps[|steps| - 1]);
    }
  }

  /** `steps` are a run that leads from one world to another. */
  ghost predicate Leads(start: World, steps: seq<Step>, w: World) {
    IsRun(start, steps) && After(start, steps) == w
  }

  ghost predicate Reachable(w: World, target: nat) {
    exists steps :: Leads(Start(target), steps, w)
  }

  lemma ReachableIsGood(w: World, target: nat)
    requires Reachable(w, target)
    ensures Inv(w)
  {
    var steps :| Leads(Start(target), steps, w);
    RunKeeps(Start(target), steps);
  }

  // ---------------------------------------------------------------------------------------------
  // Reachable states

  /** After every step the three sets are exactly what the histories say, and every attempt before
      the last is resolved. */
  lemma SetsMirrorHistories(w: World, target: nat)
    requires Reachable(w, target)
    ensures var m := w.manager;
            && m.connected == (set p | p in m.data && Is(m, p, Connected))
            && m.dialling == (set p | p in m.data && Is(m, p, Connecting))
            && m.newPeers == (set p | p in m.data && IsNew(m, p))
            && forall p, i :: p in m.data && 0 <= i < |m.data[p].history| - 1 ==> m.data[p].history[i].Resolved()
  {
    ReachableIsGood(w, target);
    var m := w.manager;
    forall p, i | p in m.data && 0 <= i < |m.data[p].history| - 1 ensures m.data[p].history[i].Resolved() {
      assert GoodData(m.data[p], w.now);
    }
  }

  /** No connection event makes the manager panic, however late it comes; only a heartbeat with too
      many busy peers can. */
  lemma EventsNeverPanic(w: World, target: nat, step: Step)
    requires Reachable(w, target) && Enabled(w, step)
    ensures Apply(w, step).crashed <==> step.Beat? && |Busy(TimeOut(w.manager, step.at))| > w.manager.target
  {
    ReachableIsGood(w, target);
  }

  lemma EligibleRecord(d: PeerData, now: Millis)
    requires GoodData(d, now) && Eligible(d)
    ensures 3001 * |d.history| <= Total(d.history, |d.history|)
  {
    MeanAtLeast(d.history, |d.history|, MIN_AVERAGE_CONNECTION_DURATION + 1);
    ProductIs(MIN_AVERAGE_CONNECTION_DURATION + 1, |d.history|);
  }

  // ---------------------------------------------------------------------------------------------
  // Continuations

  predicate Dials(step: Step, p: PeerId) {
    step.Beat? && (p in step.redial || p in step.added)
  }

  predicate Concerns(step: Step, p: PeerId) {
    (step.Establish? || step.Fail?) && step.peer == p
  }

  /** Known for good as not worth dialling. */
  predicate WrittenOff(m: Manager, p: PeerId) {
    Known(m, p) && m.data[p].Last().Resolved() && !Eligible(m.data[p])
  }

  lemma WrittenOffBeat(w: World, at: Millis, redial: seq<PeerId>, added: seq<PeerId>, p: PeerId)
    requires Inv(w) && Enabled(w, Beat(at, redial, added)) && WrittenOff(w.manager, p)
    ensures p !in redial && p !in added && WrittenOff(Apply(w, Beat(at, redial, added)).manager, p)
    ensures Apply(w, Beat(at, redial, added)).manager.data[p] == w.manager.data[p]
  {
    TimeOutAgrees(w, at);
    ChoiceSkips(TimedOut(w, at), redial, added, p);
  }

  lemma WrittenOffStep(w: World, step: Step, p: PeerId)
    requires Inv(w) && Enabled(w, step) && WrittenOff(w.manager, p)
    ensures !Dials(step, p) && WrittenOff(Apply(w, step).manager, p)
    ensures Apply(w, step).manager.data[p] == w.manager.data[p]
  {
    if step.Beat? { WrittenOffBeat(w, step.at, step.redial, step.added, p); }
  }

  /** A peer that is neither new nor eligible is not picked. */
  lemma ChoiceSkips(w: World, redial: seq<PeerId>, added: seq<PeerId>, p: PeerId)
    requires Agree(w) && IsChoice(w.manager, redial, added) && Known(w.manager, p) && !Eligible(w.manager.data[p])
    ensures p !in redial && p !in added
  {
  }

  lemma Unsnoc(steps: seq<Step>)
    requires steps != []
    ensures forall step :: step in steps <==> step in steps[..|steps| - 1] || step == steps[|steps| - 1]
  {
    assert steps == steps[..|steps| - 1] + [steps[|steps| - 1]];
  }

  lemma {:induction false} WrittenOffRun(w: World, steps: seq<Step>, p: PeerId)
    requires Inv(w) && IsRun(w, steps) && WrittenOff(w.manager, p)
    ensures forall step :: step in steps ==> !Dials(step, p)
    ensures WrittenOff(After(w, steps).manager, p) && After(w, steps).manager.data[p] == w.manager.data[p]
    decreases |steps|
  {
    if steps != [] {
      var before, last := steps[..|steps| - 1], steps[|steps| - 1];
      Unsnoc(steps);
      RunSplits(w, steps);
      WrittenOffRun(w, before, p);
      RunKeeps(w, before);
      WrittenOffStep(After(w, before), last, p);
    }
  }

  /** A peer left Failed or Disconnected with an average of 3000 ms or less is never dialled again and
      its record never changes, in any continuation. */
  lemma WrittenOffForever(w: World, target: nat, steps: seq<Step>, p: PeerId)
    requires Reachable(w, target) && IsRun(w, steps) && WrittenOff(w.manager, p)
    ensures forall step :: step in steps ==> !Dials(step, p)
    ensures p in After(w, steps).manager.data && After(w, steps).manager.data[p] == w.manager.data[p]
  {
    ReachableIsGood(w, target);
    WrittenOffRun(w, steps, p);
  }

  lemma TimeoutBeat(w: World, at: Millis, redial: seq<PeerId>, added: seq<PeerId>, p: PeerId)
    requires Inv(w) && Enabled(w, Beat(at, redial, added)) && Is(w.manager, p, Timeout)
    ensures p !in redial && p !in added && Is(Apply(w, Beat(at, redial, added)).manager, p, Timeout)
  {
    TimeOutAgrees(w, at);
    TimeOutStatus(w.manager, at, p, Timeout);
    ChoiceSkips(TimedOut(w, at), redial, added, p);
  }

  lemma TimeoutStep(w: World, step: Step, p: PeerId)
    requires Inv(w) && Enabled(w, step) && Is(w.manager, p, Timeout) && !Concerns(step, p)
    ensures !Dials(step, p) && Is(Apply(w, step).manager, p, Timeout)
  {
    if step.Beat? { TimeoutBeat(w, step.at, step.redial, step.added, p); }
  }

  lemma {:induction false} TimeoutRun(w: World, steps: seq<Step>, p: PeerId)
    requires Inv(w) && IsRun(w, steps) && Is(w.manager, p, Timeout)
    requires forall step :: step in steps ==> !Concerns(step, p)
    ensures forall step :: step in steps ==> !Dials(step, p)
    ensures Is(After(w, steps).manager, p, Timeout)
    decreases |steps|
  {
    if steps != [] {
      var before, last := steps[..|steps| - 1], steps[|steps| - 1];
      Unsnoc(steps);
      RunSplits(w, steps);
      TimeoutRun(w, before, p);
      RunKeeps(w, before);
      TimeoutStep(After(w, before), last, p);
    }
  }

  /** A peer whose dial timed out is not dialled again unless the swarm answers that dial after all. */
  lemma TimeoutNeedsAnswer(w: World, target: nat, steps: seq<Step>, p: PeerId)
    requires Reachable(w, target) && IsRun(w, steps) && Is(w.manager, p, Timeout)
    requires forall step :: step in steps ==> !Concerns(step, p)
    ensures forall step :: step in steps ==> !Dials(step, p)
    ensures Is(After(w, steps).manager, p, Timeout)
  {
    ReachableIsGood(w, target);
    TimeoutRun(w, steps, p);
  }

  // ---------------------------------------------------------------------------------------------
  // The heartbeat

  /** After the timeout pass, whoever is still being dialled was dialled at most 5000 ms ago; whoever is
      not any more is on record as timed out at that moment, and nothing else changed. */
  lemma TimeoutPass(w: World, target: nat, at: Millis)
    requires Reachable(w, target) && w.now <= at
    ensures var m, m' := w.manager, TimeOut(w.manager, at);
            && m'.connected == m.connected && m'.dialling <= m.dialling && m'.data.Keys == m.data.Keys
            && (forall p :: p in m.dialling ==> p in m.data && TimedOutPeer(m, at, p))
            && (forall p :: p in m.data && p !in m.dialling ==> m'.data[p] == m.data[p])
  {
    ReachableIsGood(w, target);
    var m := w.manager;
    forall p | p in m.dialling ensures TimedOutPeer(m, at, p) {
      TimeoutOfOne(w, at, p);
    }
  }

  /** What the timeout pass does to a peer being dialled. */
  ghost predicate TimedOutPeer(m: Manager, at: Millis, p: PeerId)
    requires p in m.data && p in TimeOut(m, at).data
  {
    var m' := TimeOut(m, at);
    if p in m'.dialling then
      Is(m', p, Connecting) && at - m'.data[p].Last().dialAt <= DIAL_TIMEOUT && m'.data[p] == m.data[p]
    else
      && Is(m', p, Timeout) && m'.data[p].Last().failedAt == Some(at) && Known(m, p)
      && m'.data[p].history[..|m'.data[p].history| - 1] == m.data[p].history[..|m.data[p].history| - 1]
  }

  lemma TimeoutOfOne(w: World, at: Millis, p: PeerId)
    requires Inv(w) && w.now <= at && p in w.manager.dialling
    ensures p in w.manager.data && p in TimeOut(w.manager, at).data && TimedOutPeer(w.manager, at, p)
  {
    var m := w.manager;
    assert Is(m, p, Connecting);
    assert GoodData(m.data[p], w.now);
    var d := TimeoutData(m.data[p], at);
    assert d.history[..|d.history| - 1] == m.data[p].history[..|m.data[p].history| - 1];
  }

  /** Right after each refill, busy peers and peers to discover make up the target exactly. */
  lemma RefillMeetsTarget(w: World, target: nat, at: Millis, redial: seq<PeerId>, added: seq<PeerId>)
    requires Reachable(w, target) && Enabled(w, Beat(at, redial, added))
    requires var timed := TimeOut(w.manager, at); |Busy(timed)| <= timed.target && Short(timed)
    ensures var m := Apply(w, Beat(at, redial, added)).manager;
            && |Busy(m)| + m.toDiscover == m.target
            && Distinct(redial + added)
            && forall p :: p in redial + added ==> p !in Busy(TimeOut(w.manager, at)) && p in m.dialling
  {
    ReachableIsGood(w, target);
    TimeOutAgrees(w, at);
    RefillExact(TimedOut(w, at), redial, added);
  }

  lemma RefillExact(w: World, redial: seq<PeerId>, added: seq<PeerId>)
    requires Agree(w) && IsChoice(w.manager, redial, added)
    requires |Busy(w.manager)| <= w.manager.target && Short(w.manager)
    ensures var m := Beaten(w, redial + added).manager;
            && |Busy(m)| + m.toDiscover == m.target && Distinct(redial + added)
            && forall p :: p in redial + added ==> p !in Busy(w.manager) && p in m.dialling
  {
    ChoiceFits(w, redial, added);
    BusyGrows(w.manager, redial + added, w.now);
  }

  function Members(list: seq<PeerId>): set<PeerId> {
    set p | p in list
  }

  lemma {:induction false} DistinctSize(list: seq<PeerId>)
    requires Distinct(list)
    ensures |Members(list)| == |list|
  {
    if list == [] {
      assert Members(list) == {};
    } else {
      var rest, last := list[..|list| - 1], list[|list| - 1];
      DistinctSize(rest);
      assert list == rest + [last];
      assert Members(list) == Members(rest) + {last};
    }
  }

  lemma BusyGrows(m: Manager, list: seq<PeerId>, now: Millis)
    requires Distinct(list) && (forall p :: p in list ==> p !in Busy(m))
    ensures |Busy(Dialled(m, list, now))| == |Busy(m)| + |list|
  {
    DistinctSize(list);
    var added := Members(list);
    assert Busy(Dialled(m, list, now)) == Busy(m) + added && Busy(m) !! added;
  }

  // ---------------------------------------------------------------------------------------------
  // The target

  predicate WithinTarget(w: World) {
    |Busy(w.manager)| <= w.manager.target
  }

  /** An answer that comes after its dial was given up, with no room left. */
  predicate LateAtTarget(w: World, step: Step) {
    step.Establish? && step.peer !in w.manager.dialling && |Busy(w.manager)| == w.manager.target
  }

  lemma TargetEstablish(w: World, p: PeerId, at: Millis)
    requires Inv(w) && Enabled(w, Establish(p, at))
    ensures var w' := Apply(w, Establish(p, at));
            !w'.crashed && |Busy(w'.manager)| == |Busy(w.manager)| + if p in w.manager.dialling then 0 else 1
  {
    var m, m' := w.manager, Apply(w, Establish(p, at)).manager;
    if p in m.dialling { assert Busy(m') == Busy(m); } else { assert Busy(m') == Busy(m) + {p}; }
  }

  lemma TargetLeave(w: World, step: Step)
    requires Inv(w) && Enabled(w, step) && (step.Fail? || step.Hangup?)
    ensures var w' := Apply(w, step); !w'.crashed && |Busy(w'.manager)| <= |Busy(w.manager)|
  {
    Fewer(Busy(Apply(w, step).manager), Busy(w.manager));
  }

  /** A step keeps the number of busy peers within the target if and only if it is not a late
      establishment at a moment when the target is met. */
  lemma TargetStep(w: World, step: Step)
    requires Inv(w) && Enabled(w, step) && WithinTarget(w)
    ensures WithinTarget(Apply(w, step)) <==> !LateAtTarget(w, step)
    ensures !Apply(w, step).crashed
  {
    match step
    case Establish(p, at) => TargetEstablish(w, p, at);
    case Fail(_, _) => TargetLeave(w, step);
    case Hangup(_, _) => TargetLeave(w, step);
    case Find(_) =>
    case Ask =>
    case Beat(at, redial, added) => TargetBeat(w, at, redial, added);
  }

  lemma TargetBeat(w: World, at: Millis, redial: seq<PeerId>, added: seq<PeerId>)
    requires Inv(w) && Enabled(w, Beat(at, redial, added)) && WithinTarget(w)
    ensures WithinTarget(Apply(w, Beat(at, redial, added))) && !Apply(w, Beat(at, redial, added)).crashed
  {
    TimeOutAgrees(w, at);
    Fewer(Busy(TimeOut(w.manager, at)), Busy(w.manager));
    TargetRefill(TimedOut(w, at), redial, added);
  }

  lemma TargetRefill(w: World, redial: seq<PeerId>, added: seq<PeerId>)
    requires Agree(w) && IsChoice(w.manager, redial, added) && WithinTarget(w) && !w.crashed
    ensures WithinTarget(Beaten(w, redial + added)) && !Beaten(w, redial + added).crashed
  {
    ChoiceFits(w, redial, added);
    BusyGrows(w.manager, redial + added, w.now);
  }

  lemma Fewer(a: set<PeerId>, b: set<PeerId>)
    requires a <= b
    ensures |a| <= |b|
  {
    assert b == a + (b - a);
  }

  /** The run never exceeds the target. */
  predicate StaysWithin(w: World, steps: seq<Step>)
    decreases |steps|
  {
    WithinTarget(After(w, steps)) && (steps != [] ==> StaysWithin(w, steps[..|steps| - 1]))
  }

  predicate NeverLateAtTarget(w: World, steps: seq<Step>)
    decreases |steps|
  {
    steps != [] ==>
      !LateAtTarget(After(w, steps[..|steps| - 1]), steps[|steps| - 1]) && NeverLateAtTarget(w, steps[..|steps| - 1])
  }

  /** Over whole runs: the target is respected throughout if and only if no establishment comes late
      while the target is met; and then no heartbeat overflows. */
  lemma {:induction false} TargetRespected(target: nat, steps: seq<Step>)
    requires IsRun(Start(target), steps)
    ensures StaysWithin(Start(target), steps) <==> NeverLateAtTarget(Start(target), steps)
    ensures NeverLateAtTarget(Start(target), steps) ==> !After(Start(target), steps).crashed
    decreases |steps|
  {
    if steps != [] {
      var before := steps[..|steps| - 1];
      TargetRespected(target, before);
      RunKeeps(Start(target), before);
      TargetKept(target, before);
      if StaysWithin(Start(target), before) {
        TargetStep(After(Start(target), before), steps[|steps| - 1]);
      }
    }
  }

  lemma {:induction false} TargetKept(target: nat, steps: seq<Step>)
    requires IsRun(Start(target), steps)
    ensures After(Start(target), steps).manager.target == target
    decreases |steps|
  {
    if steps != [] { TargetKept(target, steps[..|steps| - 1]); }
  }

  // ---------------------------------------------------------------------------------------------
  // A run that exceeds the target

  // Two peers are found; the first is dialled and given up, then the second is dialled; the first
  // answers late.

  function FoundBoth(p: PeerId, q: PeerId): World {
    Start(1).(manager := Manager({}, {}, {p, q}, map[p := NO_RECORD, q := NO_RECORD], 1, 0, false))
  }

  function DiallingFirst(p: PeerId, q: PeerId): World {
    World(Manager({}, {p}, {q}, map[p := DialledData(NO_RECORD, 0), q := NO_RECORD], 1, 0, false), 0, {p}, {}, false)
  }

  function DiallingSecond(p: PeerId, q: PeerId): World {
    var records := map[p := TimeoutData(DialledData(NO_RECORD, 0), 6000), q := DialledData(NO_RECORD, 6000)];
    World(Manager({}, {q}, {}, records, 1, 0, false), 6000, {p, q}, {}, false)
  }

  lemma FindBoth(p: PeerId, q: PeerId)
    requires p != q
    ensures Apply(Start(1), Find(map[p := None, q := None])) == FoundBoth(p, q)
  {
    var m := AddPeers(Fresh(1), map[p := None, q := None]);
    assert m.data == map[p := NO_RECORD, q := NO_RECORD];
    assert m.newPeers == {p, q};
  }

  lemma LoneChoice(m: Manager, p: PeerId)
    requires Busy(m) == {} && EligiblePeers(m) == {} && m.target == 1 && m.toDiscover == 0 && p in m.newPeers
    ensures IsChoice(m, [], [p])
  {
    assert m.newPeers == (m.newPeers - {p}) + {p};
  }

  lemma FirstTimeout(p: PeerId, q: PeerId)
    requires p != q
    ensures var m := FoundBoth(p, q).manager; TimeOut(m, 0) == m && EligiblePeers(m) == {}
  {
    var m := FoundBoth(p, q).manager;
    assert TimeOut(m, 0).data == m.data && TimeOut(m, 0).dialling == {};
  }

  lemma FirstDial(p: PeerId, q: PeerId)
    requires p != q
    ensures var w := FoundBoth(p, q); Enabled(w, Beat(0, [], [p])) && Apply(w, Beat(0, [], [p])) == DiallingFirst(p, q)
  {
    var m := FoundBoth(p, q).manager;
    FirstTimeout(p, q);
    LoneChoice(m, p);
    var dialled := Dialled(m, [] + [p], 0);
    assert dialled.data == map[p := DialledData(NO_RECORD, 0), q := NO_RECORD];
    assert dialled.dialling == {p} && dialled.newPeers == {q} && (set x | x in [] + [p]) == {p};
  }

  lemma SecondTimeout(p: PeerId, q: PeerId)
    requires p != q
    ensures var m := TimeOut(DiallingFirst(p, q).manager, 6000);
            && m == Manager({}, {}, {q}, map[p := TimeoutData(DialledData(NO_RECORD, 0), 6000), q := NO_RECORD], 1, 0, false)
            && EligiblePeers(m) == {}
  {
    var m := TimeOut(DiallingFirst(p, q).manager, 6000);
    assert m.data == map[p := TimeoutData(DialledData(NO_RECORD, 0), 6000), q := NO_RECORD];
    assert m.dialling == {};
  }

  lemma SecondRefill(m: Manager, p: PeerId, q: PeerId)
    requires p != q
    requires m == Manager({}, {}, {q}, map[p := TimeoutData(DialledData(NO_RECORD, 0), 6000), q := NO_RECORD], 1, 0, false)
    ensures Busy(m) == {} && Short(m) && Refill(m, [] + [q], 6000) == DiallingSecond(p, q).manager
    ensures (set x | x in [] + [q]) == {q}
  {
    var dialled := Dialled(m, [] + [q], 6000);
    assert dialled.data == map[p := TimeoutData(DialledData(NO_RECORD, 0), 6000), q := DialledData(NO_RECORD, 6000)];
    assert dialled.dialling == {q} && dialled.newPeers == {} && (set x | x in [] + [q]) == {q};
  }

  lemma SecondDial(p: PeerId, q: PeerId)
    requires p != q
    ensures var w := DiallingFirst(p, q); Enabled(w, Beat(6000, [], [q])) && Apply(w, Beat(6000, [], [q])) == DiallingSecond(p, q)
  {
    var m := TimeOut(DiallingFirst(p, q).manager, 6000);
    SecondTimeout(p, q);
    LoneChoice(m, q);
    SecondRefill(m, p, q);
  }

  lemma LateAnswer(p: PeerId, q: PeerId)
    requires p != q
    ensures var w := DiallingSecond(p, q); Enabled(w, Establish(p, 7000)) && !Apply(w, Establish(p, 7000)).crashed
    ensures var w := Apply(DiallingSecond(p, q), Establish(p, 7000));
            Enabled(w, Beat(7000, [], [])) && Apply(w, Beat(7000, [], [])).crashed
  {
    var w := Apply(DiallingSecond(p, q), Establish(p, 7000));
    var m := w.manager;
    assert m.data[q] == DialledData(NO_RECORD, 6000) && !Overdue(m.data[q], 7000);
    assert m.connected == {p} && m.dialling == {q};
    assert TimeOut(m, 7000).dialling == {q};
    assert Busy(TimeOut(m, 7000)) == {p, q};
  }

  lemma ReachNext(w: World, target: nat, step: Step)
    requires Reachable(w, target) && Enabled(w, step)
    ensures Reachable(Apply(w, step), target)
  {
    var steps :| Leads(Start(target), steps, w);
    assert (steps + [step])[..|steps|] == steps;
    assert Leads(Start(target), steps + [step], Apply(w, step));
  }

  lemma DiallingSecondReached(p: PeerId, q: PeerId)
    requires p != q
    ensures Reachable(DiallingSecond(p, q), 1)
  {
    assert Leads(Start(1), [], Start(1));
    FindBoth(p, q);
    ReachNext(Start(1), 1, Find(map[p := None, q := None]));
    FirstDial(p, q);
    ReachNext(FoundBoth(p, q), 1, Beat(0, [], [p]));
    SecondDial(p, q);
    ReachNext(DiallingFirst(p, q), 1, Beat(6000, [], [q]));
  }

  /** The target bound is not a property of the code on its own: with a target of one, a run whose
      every event is legitimate ends in an arithmetic overflow. */
  lemma LateAnswerOverflows(p: PeerId, q: PeerId) returns (w: World)
    requires p != q
    ensures Reachable(w, 1) && w.crashed
  {
    DiallingSecondReached(p, q);
    LateAnswer(p, q);
    ReachNext(DiallingSecond(p, q), 1, Establish(p, 7000));
    w := Apply(DiallingSecond(p, q), Establish(p, 7000));
    ReachNext(w, 1, Beat(7000, [], []));
    w := Apply(w, Beat(7000, [], []));
  }
}
