/** Peer discovery of `src/discovery.rs`: an object that holds a number of peers to look for and the
    queries under way. The network's answers are what a poll finds `ready`. */
module DiscoveryClass {
  import opened Messages
  import opened PeerMachine

  /** What is used of a node record. */
  datatype Enr = Enr(peer: PeerId, ip4: Option<nat>, tcp4: Option<nat>)

  /** The output of a query's future. */
  datatype QueryResult = Found(enrs: seq<Enr>) | QueryError

  type Discovered = map<PeerId, Option<Multiaddr>>

  datatype DiscoveryState = DiscoveryState(pending: nat, queries: nat)

  function Address(enr: Enr): Option<Multiaddr> {
    if enr.ip4.Some? && enr.tcp4.Some? then Some(Multiaddr(enr.ip4.value, enr.tcp4.value)) else None
  }

  /** The peers in the first `n` records; a later record of the same peer wins. */
  function Peers(enrs: seq<Enr>, n: nat): Discovered
    requires n <= |enrs|
  {
    if n == 0 then map[] else Peers(enrs, n - 1)[enrs[n - 1].peer := Address(enrs[n - 1])]
  }

  /** The record's address and port, if it has both. */
  predicate HasAddress(a: Option<Multiaddr>, enr: Enr) {
    && (a.Some? <==> enr.ip4 != None && enr.tcp4 != None)
    && (a.Some? ==> Some(a.value.ip4) == enr.ip4 && Some(a.value.tcp4) == enr.tcp4)
  }

  /** A peer is reported exactly if some record names it, with the address of the last such record. */
  lemma {:induction false} PeersLastWins(enrs: seq<Enr>, n: nat, p: PeerId)
    requires n <= |enrs|
    ensures p in Peers(enrs, n) <==> exists i :: 0 <= i < n && enrs[i].peer == p
    ensures forall i :: 0 <= i < n && enrs[i].peer == p && (forall j :: i < j < n ==> enrs[j].peer != p) ==>
              p in Peers(enrs, n) && HasAddress(Peers(enrs, n)[p], enrs[i])
  {
    if n > 0 {
      PeersLastWins(enrs, n - 1, p);
      assert enrs[n - 1].peer == p ==> p in Peers(enrs, n);
    }
  }

  /** The first successful query among the ready ones, from `i` on. */
  function FirstFound(ready: seq<QueryResult>, i: nat): (k: nat)
    requires i <= |ready|
    ensures i <= k <= |ready|
    ensures k < |ready| ==> ready[k].Found?
    ensures forall j :: i <= j < k ==> ready[j].QueryError?
    decreases |ready| - i
  {
    if i == |ready| || ready[i].Found? then i else FirstFound(ready, i + 1)
  }

  /** What a poll does to the queries: failed ones are forgotten, a successful one replaces the whole
      collection by an empty one. */
  function AfterQueries(d: DiscoveryState, ready: seq<QueryResult>): DiscoveryState
    requires |ready| <= d.queries
  {
    if FirstFound(ready, 0) < |ready| then d.(queries := 0) else d.(queries := d.queries - |ready|)
  }

  /** What a poll reports. */
  function Reported(ready: seq<QueryResult>): Option<Discovered> {
    var k := FirstFound(ready, 0);
    if k < |ready| then Some(Peers(ready[k].enrs, |ready[k].enrs|)) else None
  }

  lemma {:induction false} FirstIs(ready: seq<QueryResult>, i: nat, k: nat)
    requires i <= k <= |ready| && (forall j :: i <= j < k ==> ready[j].QueryError?) && (k < |ready| ==> ready[k].Found?)
    ensures FirstFound(ready, i) == k
    decreases k - i
  {
    if i < k { FirstIs(ready, i + 1, k); }
  }

  /** The first query that succeeded is reported, with the peers of its records; failures before it are
      not, and without a success nothing is. */
  lemma FirstSuccessReported(ready: seq<QueryResult>, k: nat)
    requires k <= |ready| && (forall j :: 0 <= j < k ==> ready[j].QueryError?) && (k < |ready| ==> ready[k].Found?)
    ensures k == |ready| ==> Reported(ready) == None
    ensures k < |ready| ==> Reported(ready) == Some(Peers(ready[k].enrs, |ready[k].enrs|))
  {
    FirstIs(ready, 0, k);
  }

  /** The queries thrown away unanswered when the collection is replaced. */
  function Discarded(d: DiscoveryState, ready: seq<QueryResult>): nat
    requires |ready| <= d.queries
  {
    var k := FirstFound(ready, 0);
    if k < |ready| then d.queries - (k + 1) else 0
  }

  function Polled(d: DiscoveryState, ready: seq<QueryResult>): DiscoveryState
    requires |ready| <= d.queries
  {
    if d.pending > 0 then DiscoveryState(0, d.queries + 1) else AfterQueries(d, ready)
  }

  class Discovery {
    var peersToDiscover: nat
    var queries: nat

    ghost function View(): DiscoveryState
      reads this
    {
      DiscoveryState(peersToDiscover, queries)
    }

    constructor ()
      ensures View() == DiscoveryState(0, 0)
    {
      peersToDiscover, queries := 0, 0;
    }

    method SetPeersToDiscover(count: nat)
      modifies this
      ensures View() == old(View()).(pending := count)
    {
      peersToDiscover := count;
    }

    method FindPeers(count: nat)
      modifies this`queries
      ensures queries == old(queries) + 1
    {
      queries := queries + 1;
    }

    method CollectPeers(enrs: seq<Enr>) returns (peers: Discovered)
      ensures peers == Peers(enrs, |enrs|)
    {
      peers := map[];
      for i := 0 to |enrs|
        invariant peers == Peers(enrs, i)
      {
        var multiaddr := None;
        if enrs[i].ip4.Some? && enrs[i].tcp4.Some? {
          multiaddr := Some(Multiaddr(enrs[i].ip4.value, enrs[i].tcp4.value));
        }
        peers := peers[enrs[i].peer := multiaddr];
      }
    }

    /** `get_peers`, with the queries that complete while it loops, in the order they do. */
    method GetPeers(ready: seq<QueryResult>) returns (found: Option<Discovered>)
      requires |ready| <= queries
      modifies this
      ensures View() == AfterQueries(old(View()), ready) && found == Reported(ready)
    {
      var i := 0;
      while i < |ready|
        invariant 0 <= i <= |ready| && queries == old(queries) - i && peersToDiscover == old(peersToDiscover)
        invariant FirstFound(ready, 0) == FirstFound(ready, i)
      {
        queries := queries - 1;
        if ready[i].Found? {
          queries := 0;
          var peers := CollectPeers(ready[i].enrs);
          return Some(peers);
        }
        i := i + 1;
      }
      return None;
    }

    /** A poll with a pending count starts a query and looks at no answer. */
    method Poll(ready: seq<QueryResult>) returns (found: Option<Discovered>)
      requires |ready| <= queries
      modifies this
      ensures View() == Polled(old(View()), ready)
      ensures found == if old(peersToDiscover) > 0 then None else Reported(ready)
    {
      if peersToDiscover > 0 {
        FindPeers(peersToDiscover);
        peersToDiscover := 0;
        return None;
      }
      found := GetPeers(ready);
    }
  }
}

/** The discovery handshake: the peer manager, the main event loop and discovery passing one token
    round. `asks` are `DiscoverPeers` events and `results` discovered peers on their way through the
    event loop; the counters are history. */
module Handshake {
  import opened Messages
  import M = PeerMachine
  import R = PeerRuns
  import opened DiscoveryClass

  /** `asked` and `searched`: the counts asked for and searched for, in order; `delivered` and `failed`
      count results handed over and queries that failed; `discarded` and `overwritten` count live
      queries and pending counts that were dropped. */
  datatype Tally = Tally(
    asked: seq<nat>,
    searched: seq<nat>,
    delivered: nat,
    failed: nat,
    discarded: nat,
    overwritten: nat)

  datatype System = System(
    world: M.World,
    asks: seq<nat>,
    discovery: DiscoveryState,
    results: seq<Discovered>,
    tally: Tally)

  function Boot(target: nat): System {
    System(M.Start(target), [], DiscoveryState(0, 0), [], Tally([], [], 0, 0, 0, 0))
  }

  /** `Manage`: any step of the peer manager and its swarm that does not concern discovery. `Ask` and
      `Poll` are polls of the two behaviours; `Dispatch` and `Hand` are the event loop's two arms. */
  datatype Move =
    | Manage(step: M.Step)
    | Ask
    | Dispatch
    | Poll(ready: seq<QueryResult>)
    | Hand

  ghost predicate Enabled(s: System, move: Move) {
    !s.world.crashed &&
    match move
    case Manage(step) => !step.Ask? && !step.Find? && M.Enabled(s.world, step)
    case Ask => M.Enabled(s.world, M.Ask)
    case Dispatch => s.asks != []
    case Poll(ready) => |ready| <= s.discovery.queries
    case Hand => s.results != []
  }

  function Asked(s: System): System {
    var count := s.world.manager.toDiscover;
    s.(world := M.Apply(s.world, M.Ask),
       asks := s.asks + [count],
       tally := s.tally.(asked := s.tally.asked + [count]))
  }

  function Dispatched(s: System): System
    requires s.asks != []
  {
    s.(asks := s.asks[1..],
       discovery := s.discovery.(pending := s.asks[0]),
       tally := s.tally.(overwritten := s.tally.overwritten + if s.discovery.pending > 0 then 1 else 0))
  }

  function Launched(s: System): System {
    s.(discovery := Polled(s.discovery, []), tally := s.tally.(searched := s.tally.searched + [s.discovery.pending]))
  }

  function Answered(s: System, ready: seq<QueryResult>): System
    requires |ready| <= s.discovery.queries
  {
    var found := Reported(ready);
    s.(discovery := AfterQueries(s.discovery, ready),
       results := s.results + (if found.Some? then [found.value] else []),
       tally := s.tally.(failed := s.tally.failed + FirstFound(ready, 0),
                         discarded := s.tally.discarded + Discarded(s.discovery, ready)))
  }

  function Handed(s: System): System
    requires s.results != []
  {
    s.(world := M.Apply(s.world, M.Find(s.results[0])),
       results := s.results[1..],
       tally := s.tally.(delivered := s.tally.delivered + 1))
  }

  function Apply(s: System, move: Move): System
    requires move.Dispatch? ==> s.asks != []
    requires move.Poll? ==> |move.ready| <= s.discovery.queries
    requires move.Hand? ==> s.results != []
  {
    match move
    case Manage(step) => s.(world := M.Apply(s.world, step))
    case Ask => Asked(s)
    case Dispatch => Dispatched(s)
    case Poll(ready) => if s.discovery.pending > 0 then Launched(s) else Answered(s, ready)
    case Hand => Handed(s)
  }

  /** `moves` lead from `s` to `t`. */
  ghost predicate Leads(s: System, moves: seq<Move>, t: System)
    decreases |moves|
  {
    if moves == [] then s == t
    else Enabled(s, moves[0]) && Leads(Apply(s, moves[0]), moves[1..], t)
  }

  ghost predicate Reachable(s: System, target: nat) {
    exists moves :: Leads(Boot(target), moves, s)
  }

  // ---------------------------------------------------------------------------------------------
  // One token

  /** Where a round of the handshake may be: an event in transit, a pending count, a query, a result in
      transit. */
  function Tokens(s: System): nat {
    |s.asks| + (if s.discovery.pending > 0 then 1 else 0) + s.discovery.queries + |s.results|
  }

  /** The counts still on their way to a search. */
  function Unsearched(s: System): seq<nat> {
    (if s.discovery.pending > 0 then [s.discovery.pending] else []) + s.asks
  }

  ghost predicate Inv(s: System) {
    && Tokens(s) + s.tally.failed == (if s.world.manager.waiting then 1 else 0)
    && (forall i :: 0 <= i < |s.asks| ==> s.asks[i] > 0)
    && s.tally.asked == s.tally.searched + Unsearched(s)
    && |s.tally.asked| == s.tally.delivered + s.tally.failed + Tokens(s)
    && s.tally.discarded == 0 && s.tally.overwritten == 0
  }

  lemma ManageWaits(w: M.World, step: M.Step)
    requires M.Enabled(w, step) && !step.Ask? && !step.Find?
    ensures M.Apply(w, step).manager.waiting == w.manager.waiting
  {
  }

  lemma AskKeeps(s: System)
    requires Inv(s) && Enabled(s, Ask)
    ensures Inv(Asked(s))
  {
  }

  lemma DispatchKeeps(s: System)
    requires Inv(s) && s.asks != []
    ensures Inv(Dispatched(s))
  {
    assert s.asks == [s.asks[0]] && s.discovery == DiscoveryState(0, 0) && s.results == [];
  }

  lemma LaunchKeeps(s: System)
    requires Inv(s) && s.discovery.pending > 0
    ensures Inv(Launched(s))
  {
    assert s.asks == [] && s.results == [] && s.discovery.queries == 0;
  }

  lemma AnswerKeeps(s: System, ready: seq<QueryResult>)
    requires Inv(s) && |ready| <= s.discovery.queries && s.discovery.pending == 0
    ensures Inv(Answered(s, ready))
  {
    assert |ready| <= 1;
  }

  lemma HandKeeps(s: System)
    requires Inv(s) && s.results != []
    ensures Inv(Handed(s))
  {
    assert |s.results| == 1;
  }

  lemma MoveKeeps(s: System, move: Move)
    requires Inv(s) && Enabled(s, move)
    ensures Inv(Apply(s, move))
  {
    match move
    case Manage(step) => ManageWaits(s.world, step);
    case Ask => AskKeeps(s);
    case Dispatch => DispatchKeeps(s);
    case Poll(ready) => if s.discovery.pending > 0 { LaunchKeeps(s); } else { AnswerKeeps(s, ready); }
    case Hand => HandKeeps(s);
  }

  lemma {:induction false} RunKeeps(s: System, moves: seq<Move>, t: System)
    requires Inv(s) && Leads(s, moves, t)
    ensures Inv(t)
    decreases |moves|
  {
    if moves != [] {
      MoveKeeps(s, moves[0]);
      RunKeeps(Apply(s, moves[0]), moves[1..], t);
    }
  }

  lemma ReachableIsGood(s: System, target: nat)
    requires Reachable(s, target)
    ensures Inv(s)
  {
    var moves :| Leads(Boot(target), moves, s);
    RunKeeps(Boot(target), moves, s);
  }

  /** Over all interleavings there is at most one token; a token means the manager is waiting; and a
      manager that waits without a token has lost it to the one query that ever failed. */
  lemma OneToken(s: System, target: nat)
    requires Reachable(s, target)
    ensures Tokens(s) <= 1
    ensures Tokens(s) == 1 ==> s.world.manager.waiting
    ensures s.world.manager.waiting && Tokens(s) == 0 <==> s.tally.failed == 1
    ensures s.tally.failed <= 1
  {
    ReachableIsGood(s, target);
  }

  /** Replacing the collection of queries never discards a live one, and setting the pending count
      never overwrites one. */
  lemma NothingDiscarded(s: System, target: nat, move: Move)
    requires Reachable(s, target) && Enabled(s, move)
    ensures s.tally.discarded == 0 && s.tally.overwritten == 0
    ensures move.Poll? ==> Discarded(s.discovery, move.ready) == 0
    ensures move.Dispatch? ==> s.discovery.pending == 0
  {
    ReachableIsGood(s, target);
  }

  /** Every round is accounted for, and what is searched for is what was asked for, in order, at most
      one request behind. */
  lemma RoundsConserved(s: System, target: nat)
    requires Reachable(s, target)
    ensures |s.tally.asked| == s.tally.delivered + s.tally.failed + Tokens(s)
    ensures s.tally.searched <= s.tally.asked && |s.tally.asked| <= |s.tally.searched| + 1
  {
    ReachableIsGood(s, target);
  }

  // ---------------------------------------------------------------------------------------------
  // What the manager learns

  /** The peers that a poll of discovery finds. */
  function FoundBy(s: System, move: Move): seq<Discovered> {
    if move.Poll? && s.discovery.pending == 0 && FirstFound(move.ready, 0) < |move.ready| then
      var enrs := move.ready[FirstFound(move.ready, 0)].enrs;
      [Peers(enrs, |enrs|)]
    else []
  }

  /** All that queries found, and all that was handed to the manager, in order. */
  ghost function Answers(s: System, moves: seq<Move>, t: System): seq<Discovered>
    requires Leads(s, moves, t)
    decreases |moves|
  {
    if moves == [] then [] else FoundBy(s, moves[0]) + Answers(Apply(s, moves[0]), moves[1..], t)
  }

  ghost function Given(s: System, moves: seq<Move>, t: System): seq<Discovered>
    requires Leads(s, moves, t)
    decreases |moves|
  {
    if moves == [] then []
    else (if moves[0].Hand? then [s.results[0]] else []) + Given(Apply(s, moves[0]), moves[1..], t)
  }

  lemma ResultsMove(s: System, move: Move)
    requires Enabled(s, move)
    ensures s.results + FoundBy(s, move) == (if move.Hand? then [s.results[0]] else []) + Apply(s, move).results
  {
    if move.Hand? { assert s.results == [s.results[0]] + s.results[1..]; }
  }

  lemma {:induction false} AnswersAreGiven(s: System, moves: seq<Move>, t: System)
    requires Leads(s, moves, t)
    ensures s.results + Answers(s, moves, t) == Given(s, moves, t) + t.results
    decreases |moves|
  {
    if moves == [] {
      assert s.results + [] == [] + t.results;
    } else {
      var next := Apply(s, moves[0]);
      var handed := if moves[0].Hand? then [s.results[0]] else [];
      ResultsMove(s, moves[0]);
      AnswersAreGiven(next, moves[1..], t);
      Regroup(s.results, FoundBy(s, moves[0]), handed, next.results,
              Answers(next, moves[1..], t), Given(next, moves[1..], t), t.results);
    }
  }

  lemma Regroup<T>(a: seq<T>, found: seq<T>, handed: seq<T>, b: seq<T>, answers: seq<T>, given: seq<T>, c: seq<T>)
    requires a + found == handed + b && b + answers == given + c
    ensures a + (found + answers) == (handed + given) + c
  {
    assert a + (found + answers) == (a + found) + answers;
    assert (handed + b) + answers == handed + (b + answers);
    assert handed + (given + c) == (handed + given) + c;
  }

  /** The address a peer is known with, if it is known. */
  function KnownAs(m: M.Manager, p: M.PeerId): Option<Option<M.Multiaddr>> {
    if p in m.data then Some(m.data[p].multiaddr) else None
  }

  /** The first of the results that names the peer, from `i` on. */
  function FirstNamed(given: seq<Discovered>, i: nat, p: M.PeerId): Option<Option<M.Multiaddr>>
    requires i <= |given|
    decreases |given| - i
  {
    if i == |given| then None else if p in given[i] then Some(given[i][p]) else FirstNamed(given, i + 1, p)
  }

  lemma {:induction false} NamedBehind(x: Discovered, given: seq<Discovered>, i: nat, p: M.PeerId)
    requires i <= |given|
    ensures FirstNamed([x] + given, i + 1, p) == FirstNamed(given, i, p)
    decreases |given| - i
  {
    if i < |given| { NamedBehind(x, given, i + 1, p); }
  }

  lemma AddressKept(w: M.World, step: M.Step, p: M.PeerId)
    requires M.Enabled(w, step) && !step.Find?
    ensures KnownAs(M.Apply(w, step).manager, p) == KnownAs(w.manager, p)
  {
  }

  lemma {:induction false} LearnsWhatIsGiven(s: System, moves: seq<Move>, t: System, p: M.PeerId)
    requires Leads(s, moves, t)
    ensures KnownAs(t.world.manager, p) ==
            if KnownAs(s.world.manager, p).Some? then KnownAs(s.world.manager, p) else FirstNamed(Given(s, moves, t), 0, p)
    decreases |moves|
  {
    if moves != [] {
      var move, next := moves[0], Apply(s, moves[0]);
      var rest := Given(next, moves[1..], t);
      LearnsWhatIsGiven(next, moves[1..], t, p);
      match move
      case Manage(step) => AddressKept(s.world, step, p); assert [] + rest == rest;
      case Ask => AddressKept(s.world, M.Ask, p); assert [] + rest == rest;
      case Hand => NamedBehind(s.results[0], rest, 0, p);
      case _ => assert [] + rest == rest;
    }
  }

  /** Over every interleaving: what is handed to the manager is what queries found, in order, but for what
      is still in transit; and the manager knows exactly the peers so handed, with the address that came
      first. */
  lemma PeersLearntWereFound(target: nat, moves: seq<Move>, t: System, p: M.PeerId)
    requires Leads(Boot(target), moves, t)
    ensures var given := Given(Boot(target), moves, t);
            && given <= Answers(Boot(target), moves, t) && Answers(Boot(target), moves, t) == given + t.results
            && KnownAs(t.world.manager, p) == FirstNamed(given, 0, p)
  {
    AnswersAreGiven(Boot(target), moves, t);
    assert [] + Answers(Boot(target), moves, t) == Answers(Boot(target), moves, t);
    LearnsWhatIsGiven(Boot(target), moves, t, p);
  }

  // ---------------------------------------------------------------------------------------------
  // A failed query

  lemma {:induction false} SilentRun(s: System, moves: seq<Move>, t: System)
    requires Inv(s) && Leads(s, moves, t) && s.tally.failed == 1
    ensures t.tally == s.tally && t.world.manager.waiting && Tokens(t) == 0
    ensures t.world.manager.data.Keys == s.world.manager.data.Keys
    decreases |moves|
  {
    if moves != [] {
      var next := Apply(s, moves[0]);
      MoveKeeps(s, moves[0]);
      SilentMove(s, moves[0]);
      SilentRun(next, moves[1..], t);
    }
  }

  lemma SilentMove(s: System, move: Move)
    requires Inv(s) && Enabled(s, move) && s.tally.failed == 1
    ensures Apply(s, move).tally == s.tally && Apply(s, move).world.manager.data.Keys == s.world.manager.data.Keys
  {
    match move
    case Manage(step) => KeysKept(s.world, step);
    case Ask =>
    case Dispatch =>
    case Poll(ready) => assert ready == [];
    case Hand =>
  }

  lemma KeysKept(w: M.World, step: M.Step)
    requires M.Enabled(w, step) && !step.Ask? && !step.Find?
    ensures M.Apply(w, step).manager.data.Keys == w.manager.data.Keys
  {
  }

  /** After a failed query nothing is ever asked, searched or delivered again and no further peer
      becomes known, in any continuation. */
  lemma FailureSilencesDiscovery(s: System, target: nat, moves: seq<Move>, t: System)
    requires Reachable(s, target) && Leads(s, moves, t) && s.tally.failed > 0
    ensures t.tally == s.tally && t.world.manager.waiting && Tokens(t) == 0
    ensures t.world.manager.data.Keys == s.world.manager.data.Keys
  {
    ReachableIsGood(s, target);
    SilentRun(s, moves, t);
  }

  lemma {:induction false} Append(s: System, moves: seq<Move>, t: System, move: Move)
    requires Leads(s, moves, t) && Enabled(t, move)
    ensures Leads(s, moves + [move], Apply(t, move))
    decreases |moves|
  {
    if moves == [] {
      assert Leads(Apply(s, move), [], Apply(t, move));
    } else {
      Append(Apply(s, moves[0]), moves[1..], t, move);
      assert (moves + [move])[1..] == moves[1..] + [move];
    }
  }

  lemma ReachNext(s: System, target: nat, move: Move)
    requires Reachable(s, target) && Enabled(s, move)
    ensures Reachable(Apply(s, move), target)
  {
    var moves :| Leads(Boot(target), moves, s);
    Append(Boot(target), moves, s, move);
  }

  lemma FirstBeat(target: nat)
    requires target >= 1
    ensures var w, beat := M.Start(target), M.Beat(0, [], []);
            && M.Enabled(w, beat)
            && M.Apply(w, beat) == w.(manager := M.Fresh(target).(toDiscover := target))
  {
    var m := M.Fresh(target);
    assert M.TimeOut(m, 0) == m by {
      assert M.TimeOut(m, 0).data == map[] && M.TimeOut(m, 0).dialling == {};
    }
    assert M.Busy(m) == {} && M.EligiblePeers(m) == {};
    var none: seq<M.PeerId> := [];
    assert none + none == none;
    var dialled := M.Dialled(m, [], 0);
    assert dialled.data == map[] && dialled.dialling == {} && dialled.newPeers == {};
  }

  /** The system after the first heartbeat asked for all the peers. */
  function FirstAsk(target: nat): System {
    System(M.Start(target).(manager := M.Fresh(target).(waiting := true)), [target], DiscoveryState(0, 0), [],
           Tally([target], [], 0, 0, 0, 0))
  }

  lemma FirstAskReached(target: nat)
    requires target >= 1
    ensures Reachable(FirstAsk(target), target)
  {
    assert Leads(Boot(target), [], Boot(target));
    FirstBeat(target);
    ReachNext(Boot(target), target, Manage(M.Beat(0, [], [])));
    var short := Boot(target).(world := M.Start(target).(manager := M.Fresh(target).(toDiscover := target)));
    assert short == Apply(Boot(target), Manage(M.Beat(0, [], [])));
    AskFrom(short, target);
  }

  lemma AskFrom(s: System, target: nat)
    requires target >= 1 && Reachable(s, target)
    requires s == Boot(target).(world := M.Start(target).(manager := M.Fresh(target).(toDiscover := target)))
    ensures Reachable(FirstAsk(target), target)
  {
    ReachNext(s, target, Ask);
    FirstAskIs(s, target);
  }

  lemma FirstAskIs(s: System, target: nat)
    requires s == Boot(target).(world := M.Start(target).(manager := M.Fresh(target).(toDiscover := target)))
    ensures Asked(s) == FirstAsk(target)
  {
    assert Asked(s).asks == [target] && Asked(s).tally.asked == [target];
  }

  lemma FirstQueryFails(s: System, target: nat) returns (t: System)
    requires Reachable(s, target) && s == FirstAsk(target) && target >= 1
    ensures Reachable(t, target) && t.tally.failed == 1 && t.world == s.world
  {
    ReachNext(s, target, Dispatch);
    var pending := Apply(s, Dispatch);
    ReachNext(pending, target, Poll([]));
    var launched := Apply(pending, Poll([]));
    ReachNext(launched, target, Poll([QueryError]));
    t := Apply(launched, Poll([QueryError]));
  }

  /** It can happen at once: the first heartbeat asks for all peers, the query fails, and the program
      knows no peer and never will. */
  lemma FirstQueryMayFail(target: nat) returns (s: System)
    requires target >= 1
    ensures Reachable(s, target) && s.tally.failed == 1 && !s.world.crashed && s.world.manager.data == map[]
    ensures forall moves, t :: Leads(s, moves, t) ==> t.world.manager.data == map[]
  {
    FirstAskReached(target);
    s := FirstQueryFails(FirstAsk(target), target);
    forall moves, t | Leads(s, moves, t) ensures t.world.manager.data == map[] {
      FailureSilencesDiscovery(s, target, moves, t);
      assert t.world.manager.data.Keys == {};
    }
  }

  // ---------------------------------------------------------------------------------------------
  // A round that is answered

  /** Some continuation hands a result to the manager. */
  ghost predicate MayDeliver(s: System) {
    exists moves, t :: Leads(s, moves, t) && t.tally.delivered > s.tally.delivered
  }

  lemma DeliversLater(s: System, move: Move, next: System)
    requires Enabled(s, move) && next == Apply(s, move) && next.tally.delivered == s.tally.delivered && MayDeliver(next)
    ensures MayDeliver(s)
  {
    var moves, t :| Leads(next, moves, t) && t.tally.delivered > next.tally.delivered;
    assert ([move] + moves)[1..] == moves;
    assert Leads(s, [move] + moves, t);
  }

  lemma ResultDelivers(s: System)
    requires !s.world.crashed && s.results != []
    ensures MayDeliver(s)
  {
    assert Leads(Apply(s, Hand), [], Apply(s, Hand));
    assert [Hand][1..] == [];
    assert Leads(s, [Hand], Apply(s, Hand));
  }

  lemma QueryDelivers(s: System)
    requires !s.world.crashed && s.discovery.pending == 0 && s.discovery.queries > 0
    ensures MayDeliver(s)
  {
    var move := Poll([Found([])]);
    ResultDelivers(Apply(s, move));
    DeliversLater(s, move, Apply(s, move));
  }

  lemma CountDelivers(s: System)
    requires !s.world.crashed && s.discovery.pending > 0
    ensures MayDeliver(s)
  {
    QueryDelivers(Apply(s, Poll([])));
    DeliversLater(s, Poll([]), Apply(s, Poll([])));
  }

  lemma AskDelivers(s: System)
    requires !s.world.crashed && s.asks != [] && s.asks[0] > 0
    ensures MayDeliver(s)
  {
    CountDelivers(Apply(s, Dispatch));
    DeliversLater(s, Dispatch, Apply(s, Dispatch));
  }

  /** A manager that waits may still get its answer, wherever the round is, if and only if no query
      failed. */
  lemma RoundMayEnd(s: System, target: nat)
    requires Reachable(s, target) && !s.world.crashed && s.world.manager.waiting
    ensures MayDeliver(s) <==> s.tally.failed == 0
  {
    ReachableIsGood(s, target);
    if s.tally.failed > 0 {
      forall moves, t | Leads(s, moves, t) ensures t.tally.delivered == s.tally.delivered {
        FailureSilencesDiscovery(s, target, moves, t);
      }
    } else if s.results != [] {
      ResultDelivers(s);
    } else if s.discovery.pending > 0 {
      CountDelivers(s);
    } else if s.discovery.queries > 0 {
      QueryDelivers(s);
    } else {
      AskDelivers(s);
    }
  }

  // ---------------------------------------------------------------------------------------------
  // The composition and the peer manager's own runs

  /** What the peer manager sees of a move. */
  function Seen(s: System, move: Move): seq<M.Step> {
    match move
    case Manage(step) => [step]
    case Ask => [M.Ask]
    case Hand => if s.results == [] then [] else [M.Find(s.results[0])]
    case _ => []
  }

  lemma ReachOn(w: M.World, target: nat, seen: seq<M.Step>)
    requires R.Reachable(w, target) && |seen| <= 1 && (seen != [] ==> M.Enabled(w, seen[0]))
    ensures R.Reachable(if seen == [] then w else M.Apply(w, seen[0]), target)
  {
    if seen != [] { R.ReachNext(w, target, seen[0]); }
  }

  lemma {:induction false} WorldsReachable(s: System, moves: seq<Move>, t: System, target: nat)
    requires R.Reachable(s.world, target) && Leads(s, moves, t)
    ensures R.Reachable(t.world, target)
    decreases |moves|
  {
    if moves != [] {
      ReachOn(s.world, target, Seen(s, moves[0]));
      WorldsReachable(Apply(s, moves[0]), moves[1..], t, target);
    }
  }

  /** Whatever the interleaving, the peer manager only ever sees a run of its own world, so all that
      holds of such runs holds in the composition. */
  lemma ManagerRunsItsOwnWorld(s: System, target: nat)
    requires Reachable(s, target)
    ensures R.Reachable(s.world, target)
  {
    var moves :| Leads(Boot(target), moves, s);
    assert R.Leads(M.Start(target), [], M.Start(target));
    WorldsReachable(Boot(target), moves, s, target);
  }
}
