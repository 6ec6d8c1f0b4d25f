/** Which peers the manager takes, and which it may still take: the redial choice against the "best
    peers" it is documented to make, and who is dialled in some continuation. */
module PeerOutlook {
  import opened Messages
  import opened PeerMachine
  import opened RunningMean
  import opened PeerRuns

  // ---------------------------------------------------------------------------------------------
  // The best peers

  /** The documented choice: nobody left out scores higher than anybody taken. */
  ghost predicate TakesBest(m: Manager, list: seq<PeerId>)
    requires forall p :: p in list ==> p in m.data
  {
    forall p, q :: p in list && q in EligiblePeers(m) && q !in list ==> Score(m.data[q]) <= Score(m.data[p])
  }

  ghost predicate AllAlike(m: Manager) {
    forall p, q :: p in EligiblePeers(m) && q in EligiblePeers(m) ==> Score(m.data[p]) == Score(m.data[q])
  }

  lemma Taken(m: Manager, wanted: nat, list: seq<PeerId>)
    requires IsRedial(m, wanted, list)
    ensures Members(list) <= EligiblePeers(m) && |Members(list)| == |list|
    ensures |EligiblePeers(m)| <= wanted ==> Members(list) == EligiblePeers(m)
    ensures wanted < |EligiblePeers(m)| ==> EligiblePeers(m) - Members(list) != {}
  {
    DistinctSize(list);
    SubsetSize(Members(list), EligiblePeers(m));
  }

  lemma SubsetSize(a: set<PeerId>, b: set<PeerId>)
    requires a <= b
    ensures |b - a| == |b| - |a| && (|a| == |b| ==> a == b)
  {
    assert b == a + (b - a);
  }

  lemma BestMeansAlike(m: Manager, wanted: nat, list: seq<PeerId>)
    requires IsRedial(m, wanted, list) && TakesBest(m, list) && 0 < wanted < |EligiblePeers(m)|
    ensures AllAlike(m)
  {
    Taken(m, wanted, list);
    var left :| left in EligiblePeers(m) - Members(list);
    forall p | p in EligiblePeers(m) ensures Score(m.data[p]) == Score(m.data[left]) {
      if p in list {
        var i :| 0 <= i < |list| && list[i] == p;
      } else {
        assert Score(m.data[list[0]]) <= Score(m.data[left]) && Score(m.data[list[0]]) <= Score(m.data[p]);
        assert list[0] in list;
      }
    }
  }

  /** The code's choice is the documented one if and only if there is nothing to choose: nobody or
      everybody eligible is wanted, or all of them score the same. */
  lemma BestOnlyWithoutChoice(m: Manager, wanted: nat, list: seq<PeerId>)
    requires IsRedial(m, wanted, list)
    ensures forall p :: p in list ==> p in m.data
    ensures TakesBest(m, list) <==> wanted == 0 || |EligiblePeers(m)| <= wanted || AllAlike(m)
  {
    Taken(m, wanted, list);
    forall p | p in list ensures p in m.data {
      assert p in Members(list);
    }
    if |EligiblePeers(m)| <= wanted {
      forall q | q in EligiblePeers(m) ensures q in list {
        assert q in Members(list);
      }
    } else if 0 < wanted && TakesBest(m, list) {
      BestMeansAlike(m, wanted, list);
    } else if AllAlike(m) {
      assert forall p :: p in list ==> p in Members(list);
    }
  }

  // ---------------------------------------------------------------------------------------------
  // A choice always exists

  lemma {:induction false} Lowest(m: Manager, from: set<PeerId>) returns (p: PeerId)
    requires from != {} && from <= m.data.Keys
    ensures p in from && forall q :: q in from ==> Score(m.data[p]) <= Score(m.data[q])
    decreases |from|
  {
    var first :| first in from;
    var rest := from - {first};
    p := first;
    if rest != {} {
      var other := Lowest(m, rest);
      p := if Score(m.data[other]) < Score(m.data[first]) then other else first;
    }
    forall q | q in from ensures Score(m.data[p]) <= Score(m.data[q]) {
      assert q == first || q in rest;
    }
  }

  /** `list` are the `k` lowest of `from`, in order. */
  ghost predicate LowestOf(m: Manager, from: set<PeerId>, k: nat, list: seq<PeerId>)
    requires from <= m.data.Keys
  {
    && |list| == k && Distinct(list) && (forall i :: 0 <= i < k ==> list[i] in from)
    && (forall i, j :: 0 <= i < j < k ==> Score(m.data[list[i]]) <= Score(m.data[list[j]]))
    && (forall i, q :: 0 <= i < k && q in from && q !in list ==> Score(m.data[list[i]]) <= Score(m.data[q]))
  }

  lemma {:induction false} TakeLowest(m: Manager, from: set<PeerId>, k: nat) returns (list: seq<PeerId>)
    requires from <= m.data.Keys && k <= |from|
    ensures LowestOf(m, from, k, list)
  {
    if k == 0 {
      list := [];
    } else {
      var fewer := TakeLowest(m, from, k - 1);
      DistinctSize(fewer);
      SubsetSize(Members(fewer), from);
      var next := Lowest(m, from - Members(fewer));
      list := fewer + [next];
      LowestNext(m, from, k - 1, fewer, next);
    }
  }

  lemma LowestNext(m: Manager, from: set<PeerId>, k: nat, list: seq<PeerId>, next: PeerId)
    requires from <= m.data.Keys && LowestOf(m, from, k, list)
    requires next in from && next !in list
    requires forall q :: q in from && q !in list ==> Score(m.data[next]) <= Score(m.data[q])
    ensures LowestOf(m, from, k + 1, list + [next])
  {
  }

  lemma PickRedial(m: Manager, wanted: nat) returns (list: seq<PeerId>)
    ensures IsRedial(m, wanted, list)
  {
    list := TakeLowest(m, EligiblePeers(m), Least(wanted, |EligiblePeers(m)|));
  }

  /** New peers are taken in any order, so any one of them may be among them. */
  lemma PickFresh(m: Manager, wanted: nat, p: PeerId) returns (list: seq<PeerId>)
    requires m.newPeers <= m.data.Keys
    ensures IsFresh(m, wanted, list) && (p in m.newPeers && wanted > 0 ==> p in list)
  {
    if p in m.newPeers && wanted > 0 {
      var others := m.newPeers - {p};
      var rest := TakeLowest(m, others, Least(wanted, |m.newPeers|) - 1);
      list := [p] + rest;
    } else {
      list := TakeLowest(m, m.newPeers, Least(wanted, |m.newPeers|));
    }
  }

  // ---------------------------------------------------------------------------------------------
  // Who may still be dialled

  /** Some continuation dials the peer. */
  ghost predicate MayDial(w: World, p: PeerId) {
    exists steps :: DialsIn(w, steps, p)
  }

  ghost predicate DialsIn(w: World, steps: seq<Step>, p: PeerId) {
    IsRun(w, steps) && Among(steps, p)
  }

  ghost predicate Among(steps: seq<Step>, p: PeerId) {
    exists i :: 0 <= i < |steps| && Dials(steps[i], p)
  }

  lemma {:induction false} Join(w: World, first: seq<Step>, mid: World, second: seq<Step>, last: World)
    requires Leads(w, first, mid) && Leads(mid, second, last)
    ensures Leads(w, first + second, last)
    decreases |second|
  {
    if second == [] {
      assert first + second == first;
    } else {
      var before, end := second[..|second| - 1], second[|second| - 1];
      assert (first + before) + [end] == first + second;
      RunSplits(mid, second);
      Join(w, first, mid, before, After(mid, before));
      RunGrows(w, first + before, end);
    }
  }

  lemma Prepend(w: World, step: Step, next: World, rest: seq<Step>, last: World)
    requires Enabled(w, step) && next == Apply(w, step) && Leads(next, rest, last)
    ensures Leads(w, [step] + rest, last)
  {
    RunGrows(w, [], step);
    assert [] + [step] == [step];
    Join(w, [step], next, rest, last);
  }

  lemma Prefixed(w: World, step: Step, next: World, rest: seq<Step>)
    requires Enabled(w, step) && next == Apply(w, step) && IsRun(next, rest)
    ensures IsRun(w, [step] + rest)
  {
    Prepend(w, step, next, rest, After(next, rest));
  }

  lemma AmongMore(step: Step, rest: seq<Step>, p: PeerId)
    ensures Dials(step, p) || Among(rest, p) ==> Among([step] + rest, p)
  {
    assert ([step] + rest)[0] == step;
    if Among(rest, p) {
      var i :| 0 <= i < |rest| && Dials(rest[i], p);
      assert ([step] + rest)[i + 1] == rest[i];
    }
  }

  lemma DialledAtOnce(w: World, step: Step, p: PeerId)
    requires Enabled(w, step) && Dials(step, p)
    ensures MayDial(w, p)
  {
    Prefixed(w, step, Apply(w, step), []);
    AmongMore(step, [], p);
    assert DialsIn(w, [step] + [], p);
  }

  lemma DialledLater(w: World, step: Step, next: World, p: PeerId)
    requires Enabled(w, step) && next == Apply(w, step) && MayDial(next, p)
    ensures MayDial(w, p)
  {
    var rest :| DialsIn(next, rest, p);
    Prefixed(w, step, next, rest);
    AmongMore(step, rest, p);
    assert DialsIn(w, [step] + rest, p);
  }

  /** A manager that is up, with room for a peer and no more to discover than that. */
  ghost predicate Running(w: World) {
    Inv(w) && !w.crashed && 1 <= w.manager.target && w.manager.toDiscover <= w.manager.target
  }

  /** A peer that a heartbeat with room enough would dial. */
  predicate Waiting(m: Manager, p: PeerId) {
    p in EligiblePeers(m) || p in m.newPeers
  }

  /** With nobody connected, a heartbeat after the dial timeout finds nobody busy. */
  lemma NobodyBusy(w: World, at: Millis)
    requires Running(w) && w.manager.connected == {} && w.now + DIAL_TIMEOUT < at
    ensures var m := TimeOut(w.manager, at);
            && Busy(m) == {} && Short(m) && m.target == w.manager.target && m.newPeers == w.manager.newPeers
            && m.newPeers <= m.data.Keys
            && EligiblePeers(m) == EligiblePeers(w.manager)
  {
    var m, m' := w.manager, TimeOut(w.manager, at);
    forall p | p in m.dialling ensures GivenUp(m, p, at) {
      assert Is(m, p, Connecting) && GoodData(m.data[p], w.now);
      assert GoodTimes(m.data[p].Last(), w.now);
    }
    forall p ensures p in EligiblePeers(m') <==> p in EligiblePeers(m) {
    }
  }

  /** Peers that are dialled are no longer eligible, the others stay as they are. */
  lemma DialledLeave(m: Manager, redial: seq<PeerId>, added: seq<PeerId>, at: Millis)
    requires forall q :: q in m.newPeers ==> IsNew(m, q)
    requires forall q :: q in added ==> q in m.newPeers
    ensures EligiblePeers(Dialled(m, redial + added, at)) == EligiblePeers(m) - Members(redial)
  {
    var m' := Dialled(m, redial + added, at);
    forall q ensures q in EligiblePeers(m') <==> q in EligiblePeers(m) - Members(redial) {
      assert q in m.data ==> m'.data[q] == DialledEntry(m, redial + added, q, at);
    }
  }

  lemma StillWaiting(m: Manager, redial: seq<PeerId>, added: seq<PeerId>, at: Millis, p: PeerId)
    requires Waiting(m, p) && p !in redial && p !in added
    ensures Waiting(Dialled(m, redial + added, at), p)
  {
  }

  /** What one more heartbeat does to the peers that wait: those it redials leave, the others stay. */
  lemma OneBeat(w: World, at: Millis, redial: seq<PeerId>, added: seq<PeerId>, p: PeerId)
    requires Running(w) && w.manager.connected == {} && w.now + DIAL_TIMEOUT < at && Waiting(w.manager, p)
    requires IsChoice(TimeOut(w.manager, at), redial, added)
    ensures var step := Beat(at, redial, added);
            var w' := Apply(w, step);
            && Enabled(w, step) && Running(w') && w'.manager.connected == {}
            && EligiblePeers(w'.manager) == EligiblePeers(w.manager) - Members(redial)
            && (p !in redial && p !in added ==> Waiting(w'.manager, p))
  {
    NobodyBusy(w, at);
    BeatRefills(w, at, redial, added);
    StepKeeps(w, Beat(at, redial, added));
    var m := TimeOut(w.manager, at);
    DialledLeave(m, redial, added, at);
    if p !in redial && p !in added { StillWaiting(m, redial, added, at, p); }
  }

  lemma BeatRefills(w: World, at: Millis, redial: seq<PeerId>, added: seq<PeerId>)
    requires Inv(w) && !w.crashed && w.now <= at
    requires var m := TimeOut(w.manager, at); Busy(m) == {} && Short(m) && IsChoice(m, redial, added)
    ensures var m, step := TimeOut(w.manager, at), Beat(at, redial, added);
            && |redial + added| <= m.target
            && Enabled(w, step) && Apply(w, step).manager == Refill(m, redial + added, at) && !Apply(w, step).crashed
            && (forall q :: q in m.newPeers ==> IsNew(m, q)) && (forall q :: q in added ==> q in m.newPeers)
  {
    TimeOutAgrees(w, at);
    ChoiceFits(TimedOut(w, at), redial, added);
  }

  /** A heartbeat that dials a waiting peer, or leaves it fewer peers to wait for. */
  lemma NextBeat(w: World, p: PeerId) returns (step: Step)
    requires Running(w) && w.manager.connected == {} && Waiting(w.manager, p)
    ensures Enabled(w, step)
    ensures var w' := Apply(w, step);
            || Dials(step, p)
            || (&& Running(w') && w'.manager.connected == {} && Waiting(w'.manager, p)
                && |EligiblePeers(w'.manager)| < |EligiblePeers(w.manager)|)
  {
    var at := w.now + DIAL_TIMEOUT + 1;
    var m := TimeOut(w.manager, at);
    NobodyBusy(w, at);
    var redial := PickRedial(m, m.target);
    var added := PickFresh(m, m.target - |redial|, p);
    step := Beat(at, redial, added);
    OneBeat(w, at, redial, added, p);
    if p !in redial && p !in added {
      SomeRedialled(m, redial, added, p);
      SubsetSize(Members(redial), EligiblePeers(m));
    }
  }

  /** With nobody connected, a waiting peer gets its turn: every heartbeat dials some of those before
      it, and unanswered dials time out. */
  lemma {:induction false} GetsItsTurn(w: World, p: PeerId)
    requires Running(w) && w.manager.connected == {} && Waiting(w.manager, p)
    ensures MayDial(w, p)
    decreases |EligiblePeers(w.manager)|
  {
    var step := NextBeat(w, p);
    if Dials(step, p) {
      DialledAtOnce(w, step, p);
    } else {
      GetsItsTurn(Apply(w, step), p);
      DialledLater(w, step, Apply(w, step), p);
    }
  }

  /** A waiting peer that is passed over is passed over for others. */
  lemma SomeRedialled(m: Manager, redial: seq<PeerId>, added: seq<PeerId>, p: PeerId)
    requires IsRedial(m, m.target, redial) && Waiting(m, p) && p !in redial && 1 <= m.target
    requires p in m.newPeers && m.target - |redial| > 0 ==> p in added
    requires p !in added
    ensures Members(redial) <= EligiblePeers(m) && |Members(redial)| > 0
  {
    Taken(m, m.target, redial);
    if |EligiblePeers(m)| == 0 { assert EligiblePeers(m) == {}; }
  }

  /** A peer that waits may be dialled: the others are hung up first. */
  lemma {:induction false} WaitingIsDialled(w: World, p: PeerId)
    requires Running(w) && Waiting(w.manager, p)
    ensures MayDial(w, p)
    decreases |w.manager.connected|
  {
    if w.manager.connected == {} {
      GetsItsTurn(w, p);
    } else {
      var q :| q in w.manager.connected;
      var step := Hangup(q, w.now);
      HangupOther(w, q, p);
      WaitingIsDialled(Apply(w, step), p);
      DialledLater(w, step, Apply(w, step), p);
    }
  }

  lemma HangupOther(w: World, q: PeerId, p: PeerId)
    requires Running(w) && q in w.manager.connected && Waiting(w.manager, p)
    ensures var step := Hangup(q, w.now);
            && Enabled(w, step) && Running(Apply(w, step)) && Waiting(Apply(w, step).manager, p)
            && Apply(w, step).manager.connected == w.manager.connected - {q}
  {
    assert Is(w.manager, q, Connected);
    HangupKeeps(w, q, w.now);
  }

  /** The least average that makes a peer eligible. */
  const GOOD_AVERAGE := MIN_AVERAGE_CONNECTION_DURATION + 1

  lemma LongEnough(earlier: Option<nat>, n: nat, d: nat)
    requires 1 <= n && Product(GOOD_AVERAGE, n) <= d
    ensures GOOD_AVERAGE <= NextMean(earlier, n, d)
  {
    assert Product(GOOD_AVERAGE, n) == Product(GOOD_AVERAGE, n - 1) + GOOD_AVERAGE;
    if earlier.Some? { QuotientAtLeast(Product(earlier.value, n - 1) + d, n, GOOD_AVERAGE); }
  }

  /** A connection that lasts long enough makes its peer eligible, whatever went before. */
  lemma LongConnection(w: World, p: PeerId, at: Millis)
    requires Running(w) && Is(w.manager, p, Connected) && w.now + Product(GOOD_AVERAGE, |w.manager.data[p].history|) <= at
    ensures var step := Hangup(p, at);
            Enabled(w, step) && Running(Apply(w, step)) && Waiting(Apply(w, step).manager, p)
  {
    var d := w.manager.data[p];
    HangupKeeps(w, p, at);
    assert GoodData(d, w.now);
    assert GoodTimes(d.Last(), w.now);
    LongEnough(d.average, |d.history|, at - d.Last().establishedAt.value);
    assert ClosedData(d, at).average.value >= GOOD_AVERAGE;
  }

  lemma ConnectedIsDialled(w: World, p: PeerId)
    requires Running(w) && Is(w.manager, p, Connected)
    ensures MayDial(w, p)
  {
    var at := w.now + Product(GOOD_AVERAGE, |w.manager.data[p].history|);
    LongConnection(w, p, at);
    WaitingIsDialled(Apply(w, Hangup(p, at)), p);
    DialledLater(w, Hangup(p, at), Apply(w, Hangup(p, at)), p);
  }

  lemma Answered(w: World, p: PeerId)
    requires Running(w) && p in w.outstanding
    ensures var step := Establish(p, w.now);
            Enabled(w, step) && Running(Apply(w, step)) && Is(Apply(w, step).manager, p, Connected)
  {
    EstablishKeeps(w, p, w.now);
  }

  lemma OutstandingIsDialled(w: World, p: PeerId)
    requires Running(w) && p in w.outstanding
    ensures MayDial(w, p)
  {
    Answered(w, p);
    ConnectedIsDialled(Apply(w, Establish(p, w.now)), p);
    DialledLater(w, Establish(p, w.now), Apply(w, Establish(p, w.now)), p);
  }

  lemma Cases(w: World, p: PeerId)
    requires Agree(w) && p in w.manager.data && !WrittenOff(w.manager, p)
    ensures Waiting(w.manager, p) || Is(w.manager, p, Connected) || p in w.outstanding
  {
  }

  lemma {:induction false} RoomKept(target: nat, steps: seq<Step>)
    requires IsRun(Start(target), steps)
    ensures var m := After(Start(target), steps).manager; m.target == target && m.toDiscover <= target
    decreases |steps|
  {
    if steps != [] {
      RunSplits(Start(target), steps);
      RoomKept(target, steps[..|steps| - 1]);
    }
  }

  lemma ReachableRoom(w: World, target: nat)
    requires Reachable(w, target)
    ensures w.manager.target == target && w.manager.toDiscover <= target
  {
    var steps :| Leads(Start(target), steps, w);
    RoomKept(target, steps);
  }

  lemma NoRoom(w: World, step: Step, p: PeerId)
    requires Enabled(w, step) && w.manager.target == 0
    ensures !Dials(step, p) && Apply(w, step).manager.target == 0
  {
  }

  lemma {:induction false} NoRoomEver(w: World, steps: seq<Step>, p: PeerId)
    requires IsRun(w, steps) && w.manager.target == 0
    ensures (forall step :: step in steps ==> !Dials(step, p)) && After(w, steps).manager.target == 0
    decreases |steps|
  {
    if steps != [] {
      Unsnoc(steps);
      RunSplits(w, steps);
      NoRoomEver(w, steps[..|steps| - 1], p);
      NoRoom(After(w, steps[..|steps| - 1]), steps[|steps| - 1], p);
    }
  }

  lemma {:induction false} CrashedIsOver(w: World, steps: seq<Step>)
    requires IsRun(w, steps) && w.crashed
    ensures steps == []
    decreases |steps|
  {
    if steps != [] {
      RunSplits(w, steps);
      CrashedIsOver(w, steps[..|steps| - 1]);
    }
  }

  lemma NeverDialled(w: World, target: nat, p: PeerId)
    requires Reachable(w, target) && (w.crashed || target == 0 || WrittenOff(w.manager, p))
    ensures !MayDial(w, p)
  {
    ReachableRoom(w, target);
    forall steps | IsRun(w, steps) ensures !DialsIn(w, steps, p) {
      if w.crashed { CrashedIsOver(w, steps); }
      else if target == 0 { NoRoomEver(w, steps, p); }
      else { WrittenOffForever(w, target, steps, p); }
    }
  }

  /** A peer on record is dialled in some continuation if and only if the program is up, its target
      is not zero, and the peer is not written off. */
  lemma DialledAgain(w: World, target: nat, p: PeerId)
    requires Reachable(w, target) && p in w.manager.data
    ensures MayDial(w, p) <==> !w.crashed && 1 <= target && !WrittenOff(w.manager, p)
  {
    if w.crashed || target == 0 || WrittenOff(w.manager, p) {
      NeverDialled(w, target, p);
    } else {
      ReachableIsGood(w, target);
      ReachableRoom(w, target);
      Cases(w, p);
      if Waiting(w.manager, p) { WaitingIsDialled(w, p); }
      else if p in w.outstanding { OutstandingIsDialled(w, p); }
      else { ConnectedIsDialled(w, p); }
    }
  }

  // ---------------------------------------------------------------------------------------------
  // Failures

  /** A failed dial writes its peer off if and only if the average so far, over all attempts but this
      one, does not make up for it. A first dial never does. */
  lemma FailureIsFinal(w: World, target: nat, p: PeerId, at: Millis)
    requires Reachable(w, target) && Enabled(w, Fail(p, at))
    ensures Known(w.manager, p)
    ensures var d := w.manager.data[p];
            WrittenOff(Apply(w, Fail(p, at)).manager, p) <==>
            d.average.None? || (|d.history| - 1) * d.average.value < 3001 * |d.history|
    ensures |w.manager.data[p].history| == 1 ==> WrittenOff(Apply(w, Fail(p, at)).manager, p)
  {
    ReachableIsGood(w, target);
    assert Is(w.manager, p, Connecting) || Is(w.manager, p, Timeout);
    assert GoodData(w.manager.data[p], w.now);
    FailedAverage(w.manager.data[p], at);
  }

  lemma FailedAverage(d: PeerData, at: Millis)
    requires d.history != []
    ensures !Eligible(FailedData(d, at)) <==>
            d.average.None? || (|d.history| - 1) * d.average.value < 3001 * |d.history|
  {
    var n := |d.history|;
    if d.average.Some? {
      QuotientAtLeast(Product(d.average.value, n - 1) + 0, n, GOOD_AVERAGE);
      ProductIs(d.average.value, n - 1);
      ProductIs(GOOD_AVERAGE, n);
    }
  }

  /** How often a run dials a peer. */
  function DialCount(steps: seq<Step>, p: PeerId): nat {
    if steps == [] then 0 else DialCount(steps[..|steps| - 1], p) + if Dials(steps[|steps| - 1], p) then 1 else 0
  }

  /** Whatever happens to the peer is a failed dial. */
  predicate FailsOnly(step: Step, p: PeerId) {
    !((step.Establish? || step.Hangup?) && step.peer == p)
  }

  ghost predicate AllFail(steps: seq<Step>, p: PeerId) {
    forall i :: 0 <= i < |steps| ==> FailsOnly(steps[i], p)
  }

  lemma {:induction false} SameTotal(a: seq<Attempt>, b: seq<Attempt>, n: nat)
    requires n <= |a| && n <= |b| && forall i :: 0 <= i < n ==> Duration(a[i]) == Duration(b[i])
    ensures Total(a, n) == Total(b, n)
  {
    if n > 0 { SameTotal(a, b, n - 1); }
  }

  /** The time a peer was connected for, all in all. */
  function Lasted(d: PeerData): nat {
    Total(d.history, |d.history|)
  }

  lemma FailedLasts(d: PeerData, at: Millis)
    requires d.history != [] && !d.Last().Resolved()
    ensures |FailedData(d, at).history| == |d.history| && Lasted(FailedData(d, at)) == Lasted(d)
  {
    SameTotal(d.history, FailedData(d, at).history, |d.history|);
  }

  lemma TimeoutLasts(d: PeerData, at: Millis)
    requires d.history != [] && !d.Last().Resolved()
    ensures |TimeoutData(d, at).history| == |d.history| && Lasted(TimeoutData(d, at)) == Lasted(d)
  {
    SameTotal(d.history, TimeoutData(d, at).history, |d.history|);
  }

  lemma DialledLasts(d: PeerData, at: Millis)
    ensures |DialledData(d, at).history| == |d.history| + 1 && Lasted(DialledData(d, at)) == Lasted(d)
  {
    SameTotal(d.history, DialledData(d, at).history, |d.history|);
  }

  /** One step in which a peer at most fails: its record grows exactly by a dial, no time is added, and
      a dial takes a long time on record. */
  ghost predicate Spent(d: PeerData, d': PeerData, dialled: bool) {
    && |d'.history| == |d.history| + (if dialled then 1 else 0) && Lasted(d') == Lasted(d)
    && (dialled ==> Product(GOOD_AVERAGE, |d.history|) <= Lasted(d))
  }

  lemma FailingEvent(w: World, step: Step, p: PeerId)
    requires Inv(w) && Enabled(w, step) && p in w.manager.data && FailsOnly(step, p) && !step.Beat?
    ensures p in Apply(w, step).manager.data && Spent(w.manager.data[p], Apply(w, step).manager.data[p], false)
  {
    if step.Fail? && step.peer == p { FailedLasts(w.manager.data[p], step.at); }
  }

  lemma TimeOutSpends(w: World, at: Millis, p: PeerId)
    requires Inv(w) && p in w.manager.data
    ensures p in TimeOut(w.manager, at).data && Spent(w.manager.data[p], TimeOut(w.manager, at).data[p], false)
  {
    var d := w.manager.data[p];
    if p in w.manager.dialling && Overdue(d, at) { TimeoutLasts(d, at); }
  }

  lemma BeatSpends(w: World, redial: seq<PeerId>, added: seq<PeerId>, p: PeerId)
    requires Inv(w) && IsChoice(w.manager, redial, added) && p in w.manager.data
    ensures var w' := Beaten(w, redial + added);
            p in w'.manager.data && Spent(w.manager.data[p], w'.manager.data[p], p in redial || p in added)
  {
    var d := w.manager.data[p];
    ChoiceFits(w, redial, added);
    if p in redial || p in added {
      DialledLasts(d, w.now);
      assert GoodData(d, w.now);
      if d.history != [] { MeanAtLeast(d.history, |d.history|, GOOD_AVERAGE); }
    }
  }

  lemma FailingStep(w: World, step: Step, p: PeerId)
    requires Inv(w) && Enabled(w, step) && p in w.manager.data && FailsOnly(step, p)
    ensures p in Apply(w, step).manager.data
    ensures Spent(w.manager.data[p], Apply(w, step).manager.data[p], Dials(step, p))
  {
    if step.Beat? {
      TimeOutKeeps(w, step.at);
      TimeOutSpends(w, step.at, p);
      BeatSpends(TimedOut(w, step.at), step.redial, step.added, p);
    } else {
      FailingEvent(w, step, p);
    }
  }

  /** The same over `k` dials. */
  ghost predicate SpentAll(d: PeerData, d': PeerData, k: nat) {
    && |d'.history| == |d.history| + k && Lasted(d') == Lasted(d)
    && (k > 0 ==> Product(GOOD_AVERAGE, |d.history| + k - 1) <= Lasted(d))
  }

  lemma FailingOn(d: PeerData, k: nat, w: World, step: Step, next: World, p: PeerId)
    requires Inv(w) && Enabled(w, step) && next == Apply(w, step) && FailsOnly(step, p)
    requires p in w.manager.data && SpentAll(d, w.manager.data[p], k)
    ensures p in next.manager.data && SpentAll(d, next.manager.data[p], k + if Dials(step, p) then 1 else 0)
  {
    FailingStep(w, step, p);
    SpentOn(d, w.manager.data[p], k, next.manager.data[p], Dials(step, p));
  }

  lemma SpentOn(d: PeerData, d1: PeerData, k: nat, d2: PeerData, dialled: bool)
    requires SpentAll(d, d1, k) && Spent(d1, d2, dialled)
    ensures SpentAll(d, d2, k + if dialled then 1 else 0)
  {
  }

  lemma {:induction false} FailingRun(w: World, steps: seq<Step>, p: PeerId)
    requires Inv(w) && IsRun(w, steps) && p in w.manager.data && AllFail(steps, p)
    ensures p in After(w, steps).manager.data
    ensures SpentAll(w.manager.data[p], After(w, steps).manager.data[p], DialCount(steps, p))
    decreases |steps|
  {
    if steps != [] {
      var before, last := steps[..|steps| - 1], steps[|steps| - 1];
      RunSplits(w, steps);
      FailingRun(w, before, p);
      RunKeeps(w, before);
      FailingOn(w.manager.data[p], DialCount(before, p), After(w, before), last, After(w, steps), p);
    }
  }

  /** Failures exclude a peer: with `n` attempts that lasted `S` in all on record, a continuation in
      which it only fails dials it `k` times only if 3001·(n + k − 1) ≤ S. */
  lemma FailuresExclude(w: World, target: nat, steps: seq<Step>, p: PeerId)
    requires Reachable(w, target) && IsRun(w, steps) && p in w.manager.data && AllFail(steps, p)
    ensures var d, k := w.manager.data[p], DialCount(steps, p);
            k > 0 ==> 3001 * (|d.history| + k - 1) <= Total(d.history, |d.history|)
  {
    ReachableIsGood(w, target);
    if DialCount(steps, p) > 0 { FailuresBound(w, steps, p, DialCount(steps, p)); }
  }

  lemma FailuresBound(w: World, steps: seq<Step>, p: PeerId, k: nat)
    requires Inv(w) && IsRun(w, steps) && p in w.manager.data && AllFail(steps, p)
    requires k == DialCount(steps, p) && k > 0
    ensures var d := w.manager.data[p];
            3001 * (|d.history| + k - 1) <= Total(d.history, |d.history|)
  {
    FailingRun(w, steps, p);
    SpentAmounts(w.manager.data[p], After(w, steps).manager.data[p], k);
  }

  lemma SpentAmounts(d: PeerData, d': PeerData, k: nat)
    requires SpentAll(d, d', k) && k > 0
    ensures 3001 * (|d.history| + k - 1) <= Total(d.history, |d.history|)
  {
    ProductIs(MIN_AVERAGE_CONNECTION_DURATION + 1, |d.history| + k - 1);
  }

  // ---------------------------------------------------------------------------------------------
  // A worse peer taken over a better one

  // Both peers of the run that exceeds the target answer, late or not; the second stays twice as long.

  function Held(status: Status, dialAt: Millis, failedAt: Option<Millis>, gone: Option<Millis>): Attempt {
    Attempt(status, dialAt, Some(6000), failedAt, gone)
  }

  function BothConnected(p: PeerId, q: PeerId): World {
    var records := map[p := PeerData([Held(Connected, 0, Some(6000), None)], None, None),
                       q := PeerData([Held(Connected, 6000, None, None)], None, None)];
    World(Manager({p, q}, {}, {}, records, 1, 0, false), 6000, {}, {p, q}, false)
  }

  function BothGone(p: PeerId, q: PeerId): World {
    var records := map[p := PeerData([Held(Disconnected, 0, Some(6000), Some(10000))], Some(4000), None),
                       q := PeerData([Held(Disconnected, 6000, None, Some(14000))], Some(8000), None)];
    World(Manager({}, {}, {}, records, 1, 0, false), 14000, {}, {}, false)
  }

  lemma AnsweredRecords()
    ensures EstablishedData(TimeoutData(DialledData(NO_RECORD, 0), 6000), 6000) ==
            PeerData([Held(Connected, 0, Some(6000), None)], None, None)
    ensures EstablishedData(DialledData(NO_RECORD, 6000), 6000) == PeerData([Held(Connected, 6000, None, None)], None, None)
  {
    assert EstablishedData(TimeoutData(DialledData(NO_RECORD, 0), 6000), 6000).history == [Held(Connected, 0, Some(6000), None)];
    assert EstablishedData(DialledData(NO_RECORD, 6000), 6000).history == [Held(Connected, 6000, None, None)];
  }

  lemma ClosedRecord(dialAt: Millis, failedAt: Option<Millis>, at: Millis)
    requires 6000 <= at
    ensures ClosedData(PeerData([Held(Connected, dialAt, failedAt, None)], None, None), at) ==
            PeerData([Held(Disconnected, dialAt, failedAt, Some(at))], Some(at - 6000), None)
  {
    var d := PeerData([Held(Connected, dialAt, failedAt, None)], None, None);
    assert ClosedData(d, at).history == [Held(Disconnected, dialAt, failedAt, Some(at))];
  }

  lemma BothAnswer(p: PeerId, q: PeerId)
    requires p != q
    ensures var w := DiallingSecond(p, q);
            && Enabled(w, Establish(p, 6000)) && Enabled(Apply(w, Establish(p, 6000)), Establish(q, 6000))
            && Apply(Apply(w, Establish(p, 6000)), Establish(q, 6000)) == BothConnected(p, q)
  {
    var w := DiallingSecond(p, q);
    var w' := Apply(Apply(w, Establish(p, 6000)), Establish(q, 6000));
    AnsweredRecords();
    assert w'.manager.data == BothConnected(p, q).manager.data;
    assert w'.manager.connected == {p, q} && w'.manager.dialling == {};
    assert w'.open == {p, q} && w'.outstanding == {};
  }

  lemma BothHangUp(p: PeerId, q: PeerId)
    requires p != q
    ensures var w := BothConnected(p, q);
            && Enabled(w, Hangup(p, 10000)) && Enabled(Apply(w, Hangup(p, 10000)), Hangup(q, 14000))
            && Apply(Apply(w, Hangup(p, 10000)), Hangup(q, 14000)) == BothGone(p, q)
  {
    var w := BothConnected(p, q);
    var w' := Apply(Apply(w, Hangup(p, 10000)), Hangup(q, 14000));
    ClosedRecord(0, Some(6000), 10000);
    ClosedRecord(6000, None, 14000);
    assert w'.manager.data == BothGone(p, q).manager.data;
    assert w'.manager.connected == {} && w'.open == {};
  }

  lemma BothGoneReached(p: PeerId, q: PeerId)
    requires p != q
    ensures Reachable(BothGone(p, q), 1)
  {
    DiallingSecondReached(p, q);
    BothAnswer(p, q);
    var w := DiallingSecond(p, q);
    ReachNext(w, 1, Establish(p, 6000));
    ReachNext(Apply(w, Establish(p, 6000)), 1, Establish(q, 6000));
    BothHangUp(p, q);
    var w' := BothConnected(p, q);
    ReachNext(w', 1, Hangup(p, 10000));
    ReachNext(Apply(w', Hangup(p, 10000)), 1, Hangup(q, 14000));
  }

  lemma BothEligible(p: PeerId, q: PeerId)
    requires p != q
    ensures var m := BothGone(p, q).manager;
            && TimeOut(m, 14000) == m && EligiblePeers(m) == {p, q} && Busy(m) == {} && Short(m)
            && IsRedial(m, 1, [p]) && IsFresh(m, 0, [])
  {
    var m := BothGone(p, q).manager;
    assert TimeOut(m, 14000).data == m.data && TimeOut(m, 14000).dialling == {};
    assert EligiblePeers(m) == {p, q};
  }

  /** With a target of one and two eligible peers, the heartbeat takes the one that scores half as
      much. */
  lemma WorsePeerTaken(p: PeerId, q: PeerId) returns (w: World)
    requires p != q
    ensures Reachable(w, 1) && Enabled(w, Beat(14000, [p], [])) && IsRedial(w.manager, 1, [p])
    ensures p in EligiblePeers(w.manager) && q in EligiblePeers(w.manager)
    ensures Score(w.manager.data[p]) < Score(w.manager.data[q])
    ensures !TakesBest(w.manager, [p])
  {
    w := BothGone(p, q);
    BothGoneReached(p, q);
    BothEligible(p, q);
    assert p in [p] && q !in [p];
  }
}
