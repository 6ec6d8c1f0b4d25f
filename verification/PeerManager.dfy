/** The peer manager in its own form: an object that updates its sets, records and counters in
    place, with loops over sets and maps in whatever order they are iterated. Each method is tied to
    the corresponding function or relation of `PeerMachine`. */
module PeerManagerClass {
  import opened Messages
  import opened PeerMachine
  import opened PeerRuns

  datatype PollResult = Pending | DiscoverPeers(count: nat) | DialPeers(peers: seq<PeerId>) | Overflow

  // ---------------------------------------------------------------------------------------------
  // Sorting by score

  ghost predicate Ascending(list: seq<PeerId>, data: map<PeerId, PeerData>) {
    && (forall i :: 0 <= i < |list| ==> list[i] in data)
    && forall i, j :: 0 <= i < j < |list| ==> Score(data[list[i]]) <= Score(data[list[j]])
  }

  function AtSpliced(list: seq<PeerId>, i: nat, p: PeerId, k: nat): PeerId
    requires i <= |list| && k <= |list|
  {
    if k < i then list[k] else if k == i then p else list[k - 1]
  }

  lemma Spliced(list: seq<PeerId>, i: nat, p: PeerId)
    requires i <= |list|
    ensures var s := list[..i] + [p] + list[i..];
            && |s| == |list| + 1 && multiset(s) == multiset(list) + multiset{p}
            && forall k :: 0 <= k < |s| ==> s[k] == AtSpliced(list, i, p, k)
  {
    assert list == list[..i] + list[i..];
  }

  lemma InsertedAt(list: seq<PeerId>, i: nat, p: PeerId, data: map<PeerId, PeerData>, s: seq<PeerId>)
    requires p in data && Ascending(list, data) && i <= |list| && |s| == |list| + 1
    requires forall k :: 0 <= k < |s| ==> s[k] == AtSpliced(list, i, p, k)
    requires i > 0 ==> Score(data[list[i - 1]]) <= Score(data[p])
    requires forall j :: i <= j < |list| ==> Score(data[list[j]]) > Score(data[p])
    ensures Ascending(s, data)
  {
    forall a, b | 0 <= a < b < |s| ensures s[a] in data && s[b] in data && Score(data[s[a]]) <= Score(data[s[b]]) {
      if b == i { assert a < i - 1 ==> Score(data[list[a]]) <= Score(data[list[i - 1]]); }
    }
    assert forall k :: 0 <= k < |s| ==> s[k] in data;
  }

  /** Stable insertion: `p` goes behind every peer that does not score higher. */
  method Insert(p: PeerId, list: seq<PeerId>, data: map<PeerId, PeerData>) returns (sorted: seq<PeerId>)
    requires p in data && Ascending(list, data)
    ensures Ascending(sorted, data) && multiset(sorted) == multiset(list) + multiset{p}
  {
    var i := |list|;
    while i > 0 && Score(data[list[i - 1]]) > Score(data[p])
      invariant 0 <= i <= |list|
      invariant forall j :: i <= j < |list| ==> Score(data[list[j]]) > Score(data[p])
    {
      i := i - 1;
    }
    sorted := list[..i] + [p] + list[i..];
    Spliced(list, i, p);
    InsertedAt(list, i, p, data, sorted);
  }

  method SortByScore(list: seq<PeerId>, data: map<PeerId, PeerData>) returns (sorted: seq<PeerId>)
    requires forall i :: 0 <= i < |list| ==> list[i] in data
    ensures Ascending(sorted, data) && multiset(sorted) == multiset(list)
  {
    sorted := [];
    for k := 0 to |list|
      invariant Ascending(sorted, data) && multiset(sorted) == multiset(list[..k])
    {
      sorted := Insert(list[k], sorted, data);
      assert list[..k + 1] == list[..k] + [list[k]];
    }
    assert list[..|list|] == list;
  }

  // ---------------------------------------------------------------------------------------------

  class PeerManager {
    var connected: set<PeerId>
    var dialling: set<PeerId>
    var newPeers: set<PeerId>
    var data: map<PeerId, PeerData>
    const target: nat
    var toDiscover: nat
    var waiting: bool

    ghost function View(): Manager
      reads this
    {
      Manager(connected, dialling, newPeers, data, target, toDiscover, waiting)
    }

    /** Whoever is connected or being dialled has a record of it, and new peers have none. */
    ghost predicate Valid()
      reads this
    {
      && (forall p :: p in connected || p in dialling ==> Known(View(), p))
      && (forall p :: p in newPeers ==> IsNew(View(), p))
    }

    constructor (target: nat)
      ensures Valid() && View() == Fresh(target)
    {
      connected, dialling, newPeers, data := {}, {}, {}, map[];
      this.target, toDiscover, waiting := target, 0, false;
    }

    /** Panics, leaving everything as it was, exactly if there is no record of a dial. */
    method OnConnectionEstablished(p: PeerId, now: Millis) returns (panicked: bool)
      requires Valid()
      modifies this
      ensures Valid() && panicked == !Known(old(View()), p)
      ensures View() == if panicked then old(View()) else Established(old(View()), p, now)
    {
      if p !in data || data[p].history == [] {
        return true;
      }
      data := data[p := data[p].WithLast(data[p].Last().(establishedAt := Some(now), status := Connected))];
      connected := connected + {p};
      dialling := dialling - {p};
      return false;
    }

    method OnConnectionClosed(p: PeerId, now: Millis) returns (panicked: bool)
      requires Valid()
      modifies this
      ensures Valid() && panicked == !Known(old(View()), p)
      ensures View() == if panicked then old(View()) else Closed(old(View()), p, now)
    {
      if p !in data || data[p].history == [] {
        return true;
      }
      var record := data[p].WithLast(data[p].Last().(status := Disconnected, disconnectedAt := Some(now)));
      data := data[p := UpdateAverage(record)];
      connected := connected - {p};
      return false;
    }

    method OnDialFailure(peer: Option<PeerId>, now: Millis) returns (panicked: bool)
      requires Valid()
      modifies this
      ensures Valid() && panicked == (peer.Some? && !Known(old(View()), peer.value))
      ensures View() == if peer.None? || panicked then old(View()) else DialFailed(old(View()), peer.value, now)
    {
      if peer.None? {
        return false;
      }
      var p := peer.value;
      if p !in data || data[p].history == [] {
        return true;
      }
      var record := data[p].WithLast(data[p].Last().(status := Failed, failedAt := Some(now)));
      data := data[p := UpdateAverage(record)];
      dialling := dialling - {p};
      return false;
    }

    method AddPeers(found: map<PeerId, Option<Multiaddr>>)
      requires Valid()
      modifies this
      ensures Valid() && View() == PeerMachine.AddPeers(old(View()), found)
    {
      var todo := found.Keys;
      AddedAll(old(View()), found);
      while todo != {}
        invariant todo <= found.Keys && Valid()
        invariant View() == AddedBut(old(View()), found, todo)
        decreases todo
      {
        var p :| p in todo;
        ghost var before := todo;
        todo := todo - {p};
        AddPeer(p, found[p]);
        AddedOne(old(View()), found, before, p);
      }
      waiting := false;
    }

    method AddPeer(p: PeerId, multiaddr: Option<Multiaddr>)
      requires Valid()
      modifies this`data, this`newPeers
      ensures Valid()
      ensures data == if p in old(data) then old(data) else old(data)[p := PeerData([], None, multiaddr)]
      ensures newPeers == if p in old(data) then old(newPeers) else old(newPeers) + {p}
    {
      if p !in data {
        data := data[p := PeerData([], None, multiaddr)];
        newPeers := newPeers + {p};
      }
    }

    /** `disconnect_all_peers`: every connection is closed and averaged in, once. */
    method DisconnectAll(now: Millis)
      requires Valid()
      modifies this
      ensures Valid() && connected == {}
      ensures data.Keys == old(data).Keys
      ensures forall p :: p in data ==>
                data[p] == if p in old(connected) then ClosedData(old(data)[p], now) else old(data)[p]
      ensures View() == old(View()).(data := data, connected := {})
    {
      var todo := connected;
      while todo != {}
        invariant Valid() && todo == connected && todo <= old(connected) && data.Keys == old(data).Keys
        invariant forall p :: p in data ==>
                    data[p] == if p in old(connected) && p !in todo then ClosedData(old(data)[p], now) else old(data)[p]
        invariant View() == old(View()).(data := data, connected := connected)
        decreases todo
      {
        var p :| p in todo;
        todo := todo - {p};
        var panicked := OnConnectionClosed(p, now);
      }
    }

    /** The timeout pass: overdue records are marked in place, their peers dropped afterwards. */
    method TimeoutDiallingPeers(now: Millis)
      requires Valid()
      modifies this
      ensures Valid() && View() == TimeOut(old(View()), now)
    {
      var timedOutPeers := [];
      var todo := dialling;
      while todo != {}
        invariant todo <= dialling && data.Keys == old(data).Keys
        invariant View() == old(View()).(data := data)
        invariant forall p :: p in data ==>
                    data[p] == if p in todo then old(data)[p] else TimeoutEntry(old(View()), p, now)
        invariant forall p :: p in timedOutPeers <==> p in dialling && p !in todo && GivenUp(old(View()), p, now)
        decreases todo
      {
        var p :| p in todo;
        todo := todo - {p};
        var givenUp := CheckDial(p, now);
        if givenUp {
          timedOutPeers := timedOutPeers + [p];
        }
      }
      assert data == TimeOut(old(View()), now).data;
      DropDialling(timedOutPeers);
      assert dialling == TimeOut(old(View()), now).dialling;
    }

    /** One dial: marked if overdue, given up if overdue or without a record. */
    method CheckDial(p: PeerId, now: Millis) returns (givenUp: bool)
      requires p in dialling
      modifies this`data
      ensures data.Keys == old(data).Keys && givenUp == GivenUp(old(View()), p, now)
      ensures forall q :: q in data ==> data[q] == if q == p then TimeoutEntry(old(View()), p, now) else old(data)[q]
    {
      if p in data {
        if data[p].history != [] {
          var attempt := data[p].Last();
          givenUp := attempt.status.Connecting? && Since(now, attempt.dialAt) > DIAL_TIMEOUT;
          if givenUp {
            data := data[p := data[p].WithLast(attempt.(status := Timeout, failedAt := Some(now)))];
          }
        } else {
          givenUp := true;
        }
      } else {
        givenUp := true;
      }
    }

    method DropDialling(peers: seq<PeerId>)
      modifies this`dialling
      ensures dialling == old(dialling) - (set p | p in peers)
    {
      for i := 0 to |peers|
        invariant dialling == old(dialling) - (set p | p in peers[..i])
      {
        dialling := dialling - {peers[i]};
        assert peers[..i + 1] == peers[..i] + [peers[i]];
      }
      assert peers[..|peers|] == peers;
    }

    /** The eligible peers, in the order in which the map happens to be iterated. */
    method CollectEligible() returns (list: seq<PeerId>)
      ensures Distinct(list) && Members(list) == EligiblePeers(View())
    {
      list := [];
      var todo := data.Keys;
      while todo != {}
        invariant todo <= data.Keys && Distinct(list)
        invariant forall p :: p in list <==> p in data && p !in todo && Eligible(data[p])
        decreases todo
      {
        var p :| p in todo;
        todo := todo - {p};
        if Eligible(data[p]) {
          list := list + [p];
        }
      }
    }

    method GetBestPeersForRedial(wanted: nat) returns (list: seq<PeerId>)
      ensures IsRedial(View(), wanted, list)
    {
      var eligible := CollectEligible();
      forall i | 0 <= i < |eligible| ensures eligible[i] in data {
        assert eligible[i] in Members(eligible);
      }
      var sorted := SortByScore(eligible, data);
      Rearranged(eligible, sorted);
      DistinctSize(sorted);
      list := sorted[..Least(wanted, |sorted|)];
      FirstOnes(View(), wanted, sorted);
    }

    method GetNewPeersForDialling(wanted: nat) returns (list: seq<PeerId>)
      ensures IsFresh(View(), wanted, list)
    {
      list := [];
      var todo := newPeers;
      while todo != {} && |list| != wanted
        invariant |list| <= wanted && |list| + |todo| == |newPeers| && todo <= newPeers
        invariant Distinct(list) && forall i :: 0 <= i < |list| ==> list[i] in newPeers && list[i] !in todo
        decreases todo
      {
        var p :| p in todo;
        todo := todo - {p};
        list := list + [p];
      }
    }

    /** `peer_connecting`, whose `unwrap` is safe for a peer on record. */
    method PeerConnecting(p: PeerId, now: Millis)
      requires p in data
      modifies this`data, this`newPeers
      ensures data == old(data)[p := DialledData(old(data)[p], now)] && newPeers == old(newPeers) - {p}
    {
      data := data[p := data[p].(history := data[p].history + [Attempt(Connecting, now, None, None, None)])];
      newPeers := newPeers - {p};
    }

    /** Dialling a list of known peers, one at a time. */
    method DialAll(peers: seq<PeerId>, now: Millis)
      requires Valid() && Distinct(peers) && forall i :: 0 <= i < |peers| ==> peers[i] in data
      modifies this
      ensures View() == Dialled(old(View()), peers, now)
    {
      DialledNone(View(), now);
      for i := 0 to |peers|
        invariant View() == Dialled(old(View()), peers[..i], now)
      {
        DialledNext(old(View()), peers, i, now);
        dialling := dialling + {peers[i]};
        PeerConnecting(peers[i], now);
      }
      assert peers[..|peers|] == peers;
    }

    /** The lists it dials are an admissible choice, and no subtraction in it overflows. */
    method GetPeersToDial(missing: nat, now: Millis) returns (list: seq<PeerId>, ghost redial: seq<PeerId>, ghost added: seq<PeerId>)
      requires Valid()
      modifies this
      ensures Valid() && list == redial + added && |list| <= missing
      ensures IsRedial(old(View()), missing, redial) && IsFresh(old(View()), missing - |redial|, added)
      ensures View() == Dialled(old(View()), list, now)
    {
      list := GetBestPeersForRedial(missing);
      redial, added := list, [];
      if missing - |list| > 0 {
        var others := GetNewPeersForDialling(missing - |list|);
        added := others;
        list := list + others;
      }
      ChoiceDistinct(View(), missing, redial, added);
      DialAll(list, now);
      DialledValid(old(View()), list, now);
    }

    /** The rest of a heartbeat, after its timeout pass. */
    method Refilling(now: Millis) returns (overflow: bool, list: seq<PeerId>, ghost redial: seq<PeerId>, ghost added: seq<PeerId>)
      requires Valid()
      modifies this
      ensures Valid() && IsChoice(old(View()), redial, added) && list == redial + added
      ensures overflow <==> |Busy(old(View()))| > target
      ensures View() == if !overflow && Short(old(View())) && |Busy(old(View()))| + |list| <= target
                        then Refill(old(View()), list, now) else old(View())
    {
      overflow, list, redial, added := false, [], [], [];
      var busy := |connected + dialling|;
      assert busy == |Busy(View())|;
      if busy > target {
        overflow := true;
      } else if target - busy > toDiscover / 4 {
        list, redial, added := FillGap(target - busy, now);
      }
    }

    method FillGap(missing: nat, now: Millis) returns (list: seq<PeerId>, ghost redial: seq<PeerId>, ghost added: seq<PeerId>)
      requires Valid() && missing + |Busy(View())| == target && Short(View())
      modifies this
      ensures Valid() && IsChoice(old(View()), redial, added) && list == redial + added && |list| <= missing
      ensures View() == Refill(old(View()), list, now)
    {
      list, redial, added := GetPeersToDial(missing, now);
      SomeChoice(old(View()), redial, added);
      toDiscover := missing - |list|;
    }

    /** One heartbeat is one `Beat` of the machine, with what was dialled as its choice; it overflows
        exactly if more peers than the target are still busy after the timeout pass. */
    method Heartbeat(now: Millis, ghost w: World) returns (overflow: bool, list: seq<PeerId>, ghost step: Step)
      requires Valid() && w.manager == View() && !w.crashed && w.now <= now
      modifies this
      ensures Valid() && Enabled(w, step) && IsBeat(step, now, list)
      ensures View() == Apply(w, step).manager && overflow == Apply(w, step).crashed && Apply(w, step).now == now
      ensures overflow <==> |Busy(TimeOut(old(View()), now))| > target
    {
      TimeoutDiallingPeers(now);
      ghost var redial, added;
      overflow, list, redial, added := Refilling(now);
      step := Beat(now, redial, added);
      BeatIs(w, now, redial, added);
    }

    /** A poll asks for discovery if it may; otherwise it takes the ready `ticks` one by one and stops
        at the first that dials. What it did is a run of the machine. */
    method Poll(ticks: seq<Millis>, ghost w: World) returns (result: PollResult, ghost steps: seq<Step>)
      requires Valid() && w.manager == View() && !w.crashed && InTime(w, ticks)
      modifies this
      ensures Valid() && IsRun(w, steps) && View() == After(w, steps).manager
      ensures result.Overflow? <==> After(w, steps).crashed
      ensures result.DiscoverPeers? <==> !old(waiting) && old(toDiscover) > 0
      ensures result.DiscoverPeers? ==> result.count == old(toDiscover) && steps == [Ask]
      ensures !result.DiscoverPeers? ==> BeatsAt(steps, ticks)
      ensures result.Pending? ==> |steps| == |ticks| && Idle(steps, |steps|)
      ensures result.DialPeers? ==> result.peers != [] && EndsDialling(steps, result.peers)
    {
      if !waiting && toDiscover > 0 {
        result := DiscoverPeers(toDiscover);
        RunGrows(w, [], Ask);
        steps := [] + [Ask];
        toDiscover, waiting := 0, true;
      } else {
        result, steps := TakeTicks(ticks, w);
      }
    }

    method TakeTicks(ticks: seq<Millis>, ghost w: World) returns (result: PollResult, ghost steps: seq<Step>)
      requires Valid() && w.manager == View() && !w.crashed && InTime(w, ticks)
      modifies this
      ensures Valid() && IsRun(w, steps) && View() == After(w, steps).manager
      ensures result.Overflow? <==> After(w, steps).crashed
      ensures !result.DiscoverPeers? && BeatsAt(steps, ticks)
      ensures result.Pending? ==> |steps| == |ticks| && Idle(steps, |steps|)
      ensures result.DialPeers? ==> result.peers != [] && EndsDialling(steps, result.peers)
    {
      steps := [];
      ghost var here := w;
      for i := 0 to |ticks|
        invariant Valid() && View() == here.manager && !here.crashed && |steps| == i
        invariant IsRun(w, steps) && here == After(w, steps)
        invariant BeatsAt(steps, ticks) && Idle(steps, i) && InTime(here, ticks[i..])
      {
        var overflow, list;
        ghost var step, before := Ask, steps;
        overflow, list, step := Heartbeat(ticks[i], here);
        RunGrows(w, steps, step);
        here, steps := Apply(here, step), steps + [step];
        BeatsOn(before, ticks, step, list);
        if overflow {
          return Overflow, steps;
        }
        if list != [] {
          return DialPeers(list), steps;
        }
      }
      result := Pending;
    }
  }

  /** Clock readings from now on, never going back. */
  ghost predicate InTime(w: World, ticks: seq<Millis>) {
    && (forall i :: 0 <= i < |ticks| ==> w.now <= ticks[i])
    && forall i, j :: 0 <= i < j < |ticks| ==> ticks[i] <= ticks[j]
  }

  ghost predicate IsBeat(step: Step, at: Millis, list: seq<PeerId>) {
    step.Beat? && step.at == at && step.redial + step.added == list
  }

  lemma SomeChoice(m: Manager, redial: seq<PeerId>, added: seq<PeerId>)
    requires |Busy(m)| <= m.target && Short(m)
    requires IsRedial(m, m.target - |Busy(m)|, redial) && IsFresh(m, m.target - |Busy(m)| - |redial|, added)
    ensures IsChoice(m, redial, added)
  {
  }

  lemma BeatIs(w: World, at: Millis, redial: seq<PeerId>, added: seq<PeerId>)
    requires !w.crashed && w.now <= at && IsChoice(TimeOut(w.manager, at), redial, added)
    ensures var m, list, step := TimeOut(w.manager, at), redial + added, Beat(at, redial, added);
            && Enabled(w, step) && Apply(w, step).now == at
            && Apply(w, step).crashed == (|Busy(m)| > m.target)
            && Apply(w, step).manager ==
               if |Busy(m)| <= m.target && Short(m) && |Busy(m)| + |list| <= m.target then Refill(m, list, at) else m
  {
  }

  lemma BeatsOn(steps: seq<Step>, ticks: seq<Millis>, step: Step, list: seq<PeerId>)
    requires BeatsAt(steps, ticks) && |steps| < |ticks| && Idle(steps, |steps|) && IsBeat(step, ticks[|steps|], list)
    ensures var longer := steps + [step];
            && BeatsAt(longer, ticks) && EndsDialling(longer, list) && (list == [] ==> Idle(longer, |longer|))
  {
  }

  /** The steps are heartbeats at the first so many ticks. */
  ghost predicate BeatsAt(steps: seq<Step>, ticks: seq<Millis>) {
    |steps| <= |ticks| && forall i :: 0 <= i < |steps| ==> steps[i].Beat? && steps[i].at == ticks[i]
  }

  /** The first `n` steps are heartbeats that dial nobody. */
  ghost predicate Idle(steps: seq<Step>, n: nat) {
    n <= |steps| && forall i :: 0 <= i < n ==> steps[i].Beat? && steps[i].redial + steps[i].added == []
  }

  ghost predicate EndsDialling(steps: seq<Step>, list: seq<PeerId>) {
    && steps != [] && Idle(steps, |steps| - 1)
    && var last := steps[|steps| - 1]; last.Beat? && last.redial + last.added == list
  }

  lemma DialledNone(m: Manager, now: Millis)
    ensures Dialled(m, [], now) == m
  {
    var none := Dialled(m, [], now);
    assert none.data == m.data && none.dialling == m.dialling && none.newPeers == m.newPeers;
  }

  lemma DialledNext(m: Manager, list: seq<PeerId>, i: nat, now: Millis)
    requires Distinct(list) && i < |list| && list[i] in m.data
    ensures var before, p := Dialled(m, list[..i], now), list[i];
            && p in before.data
            && Dialled(m, list[..i + 1], now) ==
               before.(dialling := before.dialling + {p}, newPeers := before.newPeers - {p},
                       data := before.data[p := DialledData(before.data[p], now)])
  {
    var p := list[i];
    var before, after := Dialled(m, list[..i], now), Dialled(m, list[..i + 1], now);
    assert list[..i + 1] == list[..i] + [p];
    assert p !in list[..i];
    assert after.data == before.data[p := DialledData(before.data[p], now)];
    assert after.dialling == before.dialling + {p};
    assert after.newPeers == before.newPeers - {p};
  }

  lemma ChoiceDistinct(m: Manager, missing: nat, redial: seq<PeerId>, added: seq<PeerId>)
    requires forall p :: p in m.newPeers ==> IsNew(m, p)
    requires IsRedial(m, missing, redial) && IsFresh(m, missing - |redial|, added)
    ensures Distinct(redial + added) && forall i :: 0 <= i < |redial + added| ==> (redial + added)[i] in m.data
  {
  }

  lemma DialledValid(m: Manager, list: seq<PeerId>, now: Millis)
    requires forall p :: p in list ==> p in m.data
    requires forall p :: p in Busy(m) ==> Known(m, p)
    requires forall p :: p in m.newPeers ==> IsNew(m, p)
    ensures var m' := Dialled(m, list, now);
            && (forall p :: p in Busy(m') ==> Known(m', p)) && forall p :: p in m'.newPeers ==> IsNew(m', p)
  {
    forall p | p in Busy(Dialled(m, list, now)) ensures Known(Dialled(m, list, now), p) {
      assert p in list || p in Busy(m);
    }
  }

  /** `AddPeers` with only the peers outside `todo` added so far. */
  ghost function AddedBut(m: Manager, found: map<PeerId, Option<Multiaddr>>, todo: set<PeerId>): Manager {
    m.(data := m.data + (map p | p in found && p !in m.data && p !in todo :: NewEntry(found, m.data.Keys + todo, p)),
       newPeers := m.newPeers + (found.Keys - todo - m.data.Keys))
  }

  lemma AddedOne(m: Manager, found: map<PeerId, Option<Multiaddr>>, todo: set<PeerId>, p: PeerId)
    requires p in todo && p in found
    ensures var before, after := AddedBut(m, found, todo), AddedBut(m, found, todo - {p});
            after == if p in before.data then before
                     else before.(data := before.data[p := PeerData([], None, found[p])], newPeers := before.newPeers + {p})
  {
    var before, after := AddedBut(m, found, todo), AddedBut(m, found, todo - {p});
    if p in m.data {
      assert after.data == before.data;
      assert after.newPeers == before.newPeers;
    } else {
      assert after.data == before.data[p := PeerData([], None, found[p])];
      assert after.newPeers == before.newPeers + {p};
    }
  }

  lemma AddedAll(m: Manager, found: map<PeerId, Option<Multiaddr>>)
    ensures AddedBut(m, found, {}).(waiting := false) == PeerMachine.AddPeers(m, found)
    ensures AddedBut(m, found, found.Keys) == m
  {
    var none := AddedBut(m, found, found.Keys);
    assert none.data == m.data && none.newPeers == m.newPeers;
    var all := AddedBut(m, found, {});
    assert all.data == PeerMachine.AddPeers(m, found).data;
    assert all.newPeers == PeerMachine.AddPeers(m, found).newPeers;
  }

  lemma Rearranged(a: seq<PeerId>, b: seq<PeerId>)
    requires multiset(a) == multiset(b) && Distinct(a)
    ensures Distinct(b) && Members(b) == Members(a)
  {
    forall p ensures p in b <==> p in a {
      assert p in multiset(b) <==> p in multiset(a);
    }
    forall i, j | 0 <= i < j < |b| ensures b[i] != b[j] {
      Once(a, b[i]);
      assert b == b[..i] + [b[i]] + b[i + 1..];
      assert b[j] in b[i + 1..];
    }
  }

  lemma {:induction false} Once(a: seq<PeerId>, p: PeerId)
    requires Distinct(a)
    ensures multiset(a)[p] <= 1
    decreases |a|
  {
    if a != [] {
      var rest, last := a[..|a| - 1], a[|a| - 1];
      Once(rest, p);
      assert a == rest + [last];
      assert last !in rest;
    }
  }

  /** The first so many of the eligible peers in ascending order are what the redial asks for. */
  lemma FirstOnes(m: Manager, wanted: nat, sorted: seq<PeerId>)
    requires Distinct(sorted) && Members(sorted) == EligiblePeers(m) && |sorted| == |EligiblePeers(m)|
    requires Ascending(sorted, m.data)
    ensures IsRedial(m, wanted, sorted[..Least(wanted, |sorted|)])
  {
    var list := sorted[..Least(wanted, |sorted|)];
    forall i | 0 <= i < |list| ensures list[i] in EligiblePeers(m) {
      assert list[i] == sorted[i] && sorted[i] in Members(sorted);
    }
    forall i, q | 0 <= i < |list| && q in EligiblePeers(m) && q !in list
      ensures Score(m.data[list[i]]) <= Score(m.data[q])
    {
      assert q in Members(sorted);
      var j :| 0 <= j < |sorted| && sorted[j] == q;
      assert forall k :: 0 <= k < |list| ==> list[k] == sorted[k];
    }
  }
}
