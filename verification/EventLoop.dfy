/** The event loop of `src/main.rs` as far as it connects the peer manager and discovery: the objects
    themselves, and the events it carries between them. The ghost `system` is the handshake's state. */
module EventLoopClass {
  import opened Messages
  import M = PeerMachine
  import R = PeerRuns
  import opened Handshake
  import opened DiscoveryClass
  import opened PeerManagerClass

  /** A run of heartbeats is a run of the composed system. */
  lemma {:induction false} BeatsReach(s: System, target: nat, steps: seq<M.Step>)
    requires Handshake.Reachable(s, target) && M.IsRun(s.world, steps) && forall i :: 0 <= i < |steps| ==> steps[i].Beat?
    ensures Handshake.Reachable(s.(world := M.After(s.world, steps)), target)
    decreases |steps|
  {
    if steps == [] {
      assert s.(world := M.After(s.world, steps)) == s;
    } else {
      var before, last := steps[..|steps| - 1], steps[|steps| - 1];
      M.RunSplits(s.world, steps);
      BeatsReach(s, target, before);
      Handshake.ReachNext(s.(world := M.After(s.world, before)), target, Manage(last));
    }
  }

  class EventLoop {
    const manager: PeerManager
    const discovery: Discovery
    /** Events on their way through the loop. */
    var asks: seq<nat>
    var results: seq<Discovered>
    ghost var system: System

    /** The objects are in a state that the composed system can reach. */
    ghost predicate Valid()
      reads this, manager, discovery
    {
      && manager.Valid() && manager.View() == system.world.manager
      && discovery.View() == system.discovery && asks == system.asks && results == system.results
      && Handshake.Reachable(system, manager.target)
    }

    constructor (target: nat)
      ensures Valid() && system == Boot(target) && fresh(manager) && fresh(discovery)
    {
      var m := new PeerManager(target);
      var d := new Discovery();
      manager, discovery, asks, results := m, d, [], [];
      system := Boot(target);
      new;
      assert Leads(Boot(target), [], Boot(target));
    }

    /** The swarm keeping its side of the bargain, the manager does not panic. */
    method OnSwarmEvent(event: SwarmEvent, now: M.Millis)
      requires Valid() && (!Anonymous(event) ==> M.Enabled(system.world, StepOf(event, now)))
      modifies this, manager
      ensures Valid()
      ensures system == if Anonymous(event) then old(system) else Handshake.Apply(old(system), Manage(StepOf(event, now)))
      ensures !old(system).world.crashed ==> !system.world.crashed
    {
      if !Anonymous(event) {
        ghost var step := StepOf(event, now);
        NoPanic(system, manager.target, step);
        var panicked;
        match event {
          case ConnectionEstablished(p) => panicked := manager.OnConnectionEstablished(p, now);
          case ConnectionClosed(p) => panicked := manager.OnConnectionClosed(p, now);
          case DialFailure(p) => panicked := manager.OnDialFailure(p, now);
        }
        assert !panicked;
        system := Handshake.Apply(system, Manage(step));
      }
    }

    /** A poll of the manager puts at most one event into the loop; it overflows exactly when the
        system crashes. */
    method PollManager(ticks: seq<M.Millis>) returns (result: PollResult, ghost steps: seq<M.Step>)
      requires Valid() && !system.world.crashed && InTime(system.world, ticks)
      modifies this, manager
      ensures Valid() && (result.Overflow? <==> system.world.crashed)
      ensures asks == if result.DiscoverPeers? then old(asks) + [result.count] else old(asks)
      ensures M.IsRun(old(system).world, steps) && system.world == M.After(old(system).world, steps)
      ensures results == old(results) && system.discovery == old(system).discovery
    {
      ghost var before, target := system, manager.target;
      result, steps := manager.Poll(ticks, system.world);
      if result.DiscoverPeers? {
        asks := asks + [result.count];
        AskedBy(before, target, steps);
        system := Asked(before);
      } else {
        BeatsReach(before, target, steps);
        system := before.(world := M.After(before.world, steps));
      }
    }

    /** The `DiscoverPeers` arm: the number handed over is not on top of another. */
    method DispatchAsk()
      requires Valid() && !system.world.crashed && asks != []
      modifies this, discovery
      ensures Valid() && system == Dispatched(old(system)) && old(discovery.peersToDiscover) == 0
    {
      Handshake.ReachNext(system, manager.target, Dispatch);
      NothingDiscarded(system, manager.target, Dispatch);
      discovery.SetPeersToDiscover(asks[0]);
      asks := asks[1..];
      system := Dispatched(system);
    }

    /** A poll of discovery with what the network has ready; it throws no query away. */
    method PollDiscovery(ready: seq<QueryResult>)
      requires Valid() && !system.world.crashed && |ready| <= discovery.queries
      modifies this, discovery
      ensures Valid() && system == Handshake.Apply(old(system), Poll(ready)) && asks == old(asks)
      ensures old(system).discovery.pending == 0 ==>
                results == old(results) + if Reported(ready).Some? then [Reported(ready).value] else []
    {
      Handshake.ReachNext(system, manager.target, Poll(ready));
      var found := discovery.Poll(ready);
      if found.Some? {
        results := results + [found.value];
      }
      system := Handshake.Apply(system, Poll(ready));
    }

    /** The arm for discovered peers. */
    method HandOver()
      requires Valid() && !system.world.crashed && results != []
      modifies this, manager
      ensures Valid() && system == Handed(old(system)) && !manager.waiting
    {
      Handshake.ReachNext(system, manager.target, Hand);
      manager.AddPeers(results[0]);
      results := results[1..];
      system := Handed(system);
    }

    /** What the loop guarantees of the objects at any time: one round of the handshake at most. */
    lemma OneRound()
      requires Valid()
      ensures |asks| + (if discovery.peersToDiscover > 0 then 1 else 0) + discovery.queries + |results| <= 1
      ensures asks != [] || discovery.peersToDiscover > 0 || discovery.queries > 0 || results != [] ==> manager.waiting
    {
      OneToken(system, manager.target);
    }
  }

  datatype SwarmEvent =
    | ConnectionEstablished(peer: M.PeerId)
    | ConnectionClosed(peer: M.PeerId)
    | DialFailure(dialled: Option<M.PeerId>)

  /** A failed dial of an unknown peer, which the manager ignores. */
  predicate Anonymous(event: SwarmEvent) {
    event.DialFailure? && event.dialled.None?
  }

  ghost function StepOf(event: SwarmEvent, now: M.Millis): M.Step
    requires !Anonymous(event)
  {
    match event
    case ConnectionEstablished(p) => M.Establish(p, now)
    case ConnectionClosed(p) => M.Hangup(p, now)
    case DialFailure(p) => M.Fail(p.value, now)
  }

  lemma NoPanic(s: System, target: nat, step: M.Step)
    requires Handshake.Reachable(s, target) && M.Enabled(s.world, step) && (step.Establish? || step.Fail? || step.Hangup?)
    ensures M.Known(s.world.manager, step.peer) && Handshake.Reachable(Handshake.Apply(s, Manage(step)), target)
    ensures !Handshake.Apply(s, Manage(step)).world.crashed
  {
    ManagerRunsItsOwnWorld(s, target);
    R.EventsNeverPanic(s.world, target, step);
    Handshake.ReachNext(s, target, Manage(step));
  }

  lemma AskedBy(s: System, target: nat, steps: seq<M.Step>)
    requires Handshake.Reachable(s, target) && M.IsRun(s.world, steps) && steps == [M.Ask]
    ensures M.Enabled(s.world, M.Ask)
    ensures Handshake.Reachable(Asked(s), target) && Asked(s).world == M.After(s.world, steps)
  {
    M.RunSplits(s.world, steps);
    assert steps[..0] == [];
    Handshake.ReachNext(s, target, Handshake.Ask);
  }
}
