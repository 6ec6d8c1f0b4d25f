/** The peer manager of `src/peer_manager.rs` over values: its bookkeeping operations as functions,
    the peer selections as relations (any map iteration order), and the world it lives in, a swarm
    that answers each dial at most once, however late. */
module PeerMachine {
  import opened Messages

  type PeerId = nat
  type Millis = nat

  datatype Multiaddr = Multiaddr(ip4: nat, tcp4: nat)

  const MIN_AVERAGE_CONNECTION_DURATION := 3000
  const DIAL_TIMEOUT := 5000

  datatype Status = Connecting | Connected | Disconnected | Failed | Timeout

  datatype Attempt = Attempt(
    status: Status,
    dialAt: Millis,
    establishedAt: Option<Millis>,
    failedAt: Option<Millis>,
    disconnectedAt: Option<Millis>)
  {
    predicate Resolved() { status.Failed? || status.Disconnected? }
  }

  datatype PeerData = PeerData(history: seq<Attempt>, average: Option<nat>, multiaddr: Option<Multiaddr>) {
    /** The last attempt, for a peer that was ever dialled. */
    function Last(): Attempt
      requires history != []
    {
      history[|history| - 1]
    }

    function WithLast(attempt: Attempt): PeerData
      requires history != []
    {
      this.(history := history[|history| - 1 := attempt])
    }
  }

  datatype Manager = Manager(
    connected: set<PeerId>,
    dialling: set<PeerId>,
    newPeers: set<PeerId>,
    data: map<PeerId, PeerData>,
    target: nat,
    toDiscover: nat,
    waiting: bool)

  function Fresh(target: nat): Manager {
    Manager({}, {}, {}, map[], target, 0, false)
  }

  /** The peers whose event handlers do not panic: both `unwrap` and `expect` succeed. */
  predicate Known(m: Manager, p: PeerId) {
    p in m.data && m.data[p].history != []
  }

  // ---------------------------------------------------------------------------------------------
  // Connection events

  /** `Instant` subtraction saturates at zero. */
  function Since(later: Millis, earlier: Millis): nat {
    if later >= earlier then later - earlier else 0
  }

  function Duration(a: Attempt): nat {
    if a.status.Disconnected? && a.disconnectedAt.Some? && a.establishedAt.Some?
    then Since(a.disconnectedAt.value, a.establishedAt.value)
    else 0
  }

  // Products and quotients are spelt out as sums and differences; `RunningMean.NextMeanIs` gives the
  // formula.

  function Product(a: nat, k: nat): nat {
    if k == 0 then 0 else Product(a, k - 1) + a
  }

  function Quotient(x: nat, n: nat): nat
    requires 1 <= n
  {
    if x < n then 0 else Quotient(x - n, n) + 1
  }

  /** The floor mean after one more duration, the `n`th. */
  function NextMean(earlier: Option<nat>, n: nat, duration: nat): nat
    requires 1 <= n
  {
    if earlier.Some? then Quotient(Product(earlier.value, n - 1) + duration, n) else duration
  }

  function UpdateAverage(d: PeerData): PeerData
    requires d.history != [] && d.Last().Resolved()
  {
    d.(average := Some(NextMean(d.average, |d.history|, Duration(d.Last()))))
  }

  function EstablishedData(d: PeerData, now: Millis): PeerData
    requires d.history != []
  {
    d.WithLast(d.Last().(status := Connected, establishedAt := Some(now)))
  }

  function ClosedData(d: PeerData, now: Millis): PeerData
    requires d.history != []
  {
    UpdateAverage(d.WithLast(d.Last().(status := Disconnected, disconnectedAt := Some(now))))
  }

  function FailedData(d: PeerData, now: Millis): PeerData
    requires d.history != []
  {
    UpdateAverage(d.WithLast(d.Last().(status := Failed, failedAt := Some(now))))
  }

  function TimeoutData(d: PeerData, now: Millis): PeerData
    requires d.history != []
  {
    d.WithLast(d.Last().(status := Timeout, failedAt := Some(now)))
  }

  function DialledData(d: PeerData, now: Millis): PeerData {
    d.(history := d.history + [Attempt(Connecting, now, None, None, None)])
  }

  function Established(m: Manager, p: PeerId, now: Millis): Manager
    requires Known(m, p)
  {
    m.(data := m.data[p := EstablishedData(m.data[p], now)],
       connected := m.connected + {p},
       dialling := m.dialling - {p})
  }

  function Closed(m: Manager, p: PeerId, now: Millis): Manager
    requires Known(m, p)
  {
    m.(data := m.data[p := ClosedData(m.data[p], now)], connected := m.connected - {p})
  }

  function DialFailed(m: Manager, p: PeerId, now: Millis): Manager
    requires Known(m, p)
  {
    m.(data := m.data[p := FailedData(m.data[p], now)], dialling := m.dialling - {p})
  }

  /** The record of a peer nothing is known about. */
  const NO_RECORD := PeerData([], None, None)

  /** The record of a peer that was found and is not yet known. */
  function NewEntry(found: map<PeerId, Option<Multiaddr>>, known: set<PeerId>, p: PeerId): PeerData {
    if p in found && p !in known then PeerData([], None, found[p]) else NO_RECORD
  }

  function AddPeers(m: Manager, found: map<PeerId, Option<Multiaddr>>): Manager {
    m.(data := m.data + (map p | p in found && p !in m.data :: NewEntry(found, m.data.Keys, p)),
       newPeers := m.newPeers + (found.Keys - m.data.Keys),
       waiting := false)
  }

  // ---------------------------------------------------------------------------------------------
  // The heartbeat

  predicate Overdue(d: PeerData, now: Millis) {
    d.history != [] && d.Last().status.Connecting? && Since(now, d.Last().dialAt) > DIAL_TIMEOUT
  }

  /** A dialling peer to be given up: overdue, or without any record of the dial. */
  predicate GivenUp(m: Manager, p: PeerId, now: Millis) {
    p in m.dialling && (Known(m, p) ==> Overdue(m.data[p], now))
  }

  function TimeoutEntry(m: Manager, p: PeerId, now: Millis): PeerData {
    if p !in m.data then NO_RECORD
    else if p in m.dialling && Overdue(m.data[p], now) then TimeoutData(m.data[p], now)
    else m.data[p]
  }

  function TimeOut(m: Manager, now: Millis): Manager {
    m.(dialling := (set p | p in m.dialling && !GivenUp(m, p, now)),
       data := (map p | p in m.data :: TimeoutEntry(m, p, now)))
  }

  function Busy(m: Manager): set<PeerId> {
    m.connected + m.dialling
  }

  function Score(d: PeerData): nat {
    if d.average.Some? then d.average.value else 0
  }

  predicate Eligible(d: PeerData) {
    d.history != [] && d.Last().Resolved() && Score(d) > MIN_AVERAGE_CONNECTION_DURATION
  }

  function EligiblePeers(m: Manager): set<PeerId> {
    set p | p in m.data && Eligible(m.data[p])
  }

  function Least(a: nat, b: nat): nat {
    if a < b then a else b
  }

  ghost predicate Distinct(list: seq<PeerId>) {
    forall i, j :: 0 <= i < j < |list| ==> list[i] != list[j]
  }

  /** What `get_best_peers_for_redial` may return: as many eligible peers as wanted and available, in
      ascending order of score, with no better-scoring peer before a worse one that was left out. */
  ghost predicate IsRedial(m: Manager, wanted: nat, list: seq<PeerId>) {
    && Distinct(list)
    && (forall i :: 0 <= i < |list| ==> list[i] in EligiblePeers(m))
    && |list| == Least(wanted, |EligiblePeers(m)|)
    && (forall i, j :: 0 <= i < j < |list| ==> Score(m.data[list[i]]) <= Score(m.data[list[j]]))
    && (forall i, q :: 0 <= i < |list| && q in EligiblePeers(m) && q !in list ==>
          Score(m.data[list[i]]) <= Score(m.data[q]))
  }

  /** What `get_new_peers_for_dialling` may return. */
  ghost predicate IsFresh(m: Manager, wanted: nat, list: seq<PeerId>) {
    && Distinct(list)
    && (forall i :: 0 <= i < |list| ==> list[i] in m.newPeers)
    && |list| == Least(wanted, |m.newPeers|)
  }

  function DialledEntry(m: Manager, list: seq<PeerId>, p: PeerId, now: Millis): PeerData {
    if p !in m.data then NO_RECORD else if p in list then DialledData(m.data[p], now) else m.data[p]
  }

  function Dialled(m: Manager, list: seq<PeerId>, now: Millis): Manager {
    m.(dialling := m.dialling + (set p | p in list),
       newPeers := m.newPeers - (set p | p in list),
       data := (map p | p in m.data :: DialledEntry(m, list, p, now)))
  }

  /** The test that decides whether a heartbeat refills. */
  predicate Short(m: Manager)
    requires |Busy(m)| <= m.target
  {
    m.target - |Busy(m)| > m.toDiscover / 4
  }

  // ---------------------------------------------------------------------------------------------
  // The world

  /** `outstanding` are the dials the swarm still owes an answer for, `open` its connections. The
      program has `crashed` once an `unwrap` or `expect` failed or a `u32` subtraction overflowed. */
  datatype World = World(manager: Manager, now: Millis, outstanding: set<PeerId>, open: set<PeerId>, crashed: bool)

  function Start(target: nat): World {
    World(Fresh(target), 0, {}, {}, false)
  }

  datatype Step =
    | Establish(peer: PeerId, at: Millis)
    | Fail(peer: PeerId, at: Millis)
    | Hangup(peer: PeerId, at: Millis)
    | Find(found: map<PeerId, Option<Multiaddr>>)
    | Ask
    | Beat(at: Millis, redial: seq<PeerId>, added: seq<PeerId>)

  /** The swarm's side of the bargain, in terms of the dials it was given, and the choices open to a
      heartbeat. */
  ghost predicate Enabled(w: World, step: Step) {
    var m := w.manager;
    !w.crashed &&
    match step
    case Establish(p, at) => p in w.outstanding && w.now <= at
    case Fail(p, at) => p in w.outstanding && w.now <= at
    case Hangup(p, at) => p in w.open && w.now <= at
    case Find(_) => true
    case Ask => !m.waiting && m.toDiscover > 0
    case Beat(at, redial, added) => w.now <= at && IsChoice(TimeOut(m, at), redial, added)
  }

  /** The peers a heartbeat may pick once the overdue dials are timed out. */
  ghost predicate IsChoice(m: Manager, redial: seq<PeerId>, added: seq<PeerId>) {
    if |Busy(m)| <= m.target && Short(m) then
      var missing := m.target - |Busy(m)|;
      IsRedial(m, missing, redial) && IsFresh(m, missing - |redial|, added)
    else
      redial == [] && added == []
  }

  function TimedOut(w: World, at: Millis): World {
    w.(manager := TimeOut(w.manager, at), now := at)
  }

  /** The refill: dial the chosen peers and leave the rest of the gap to discovery. */
  function Refill(m: Manager, list: seq<PeerId>, now: Millis): Manager
    requires |Busy(m)| + |list| <= m.target
  {
    Dialled(m, list, now).(toDiscover := m.target - |Busy(m)| - |list|)
  }

  function Refilled(w: World, list: seq<PeerId>): World
    requires |Busy(w.manager)| + |list| <= w.manager.target
  {
    w.(manager := Refill(w.manager, list, w.now), outstanding := w.outstanding + (set p | p in list))
  }

  /** A heartbeat after its timeout pass. */
  function Beaten(w: World, list: seq<PeerId>): World {
    var m := w.manager;
    if |Busy(m)| > m.target then Crash(w)
    else if Short(m) && |Busy(m)| + |list| <= m.target then Refilled(w, list)
    else w
  }

  function Crash(w: World): World {
    w.(crashed := true)
  }

  function Apply(w: World, step: Step): World {
    var m := w.manager;
    match step
    case Establish(p, at) =>
      if !Known(m, p) then Crash(w)
      else w.(manager := Established(m, p, at), now := at, outstanding := w.outstanding - {p}, open := w.open + {p})
    case Fail(p, at) =>
      if !Known(m, p) then Crash(w)
      else w.(manager := DialFailed(m, p, at), now := at, outstanding := w.outstanding - {p})
    case Hangup(p, at) =>
      if !Known(m, p) then Crash(w)
      else w.(manager := Closed(m, p, at), now := at, open := w.open - {p})
    case Find(found) => w.(manager := AddPeers(m, found))
    case Ask => w.(manager := m.(toDiscover := 0, waiting := true))
    case Beat(at, redial, added) => Beaten(TimedOut(w, at), redial + added)
  }

  ghost predicate IsRun(w: World, steps: seq<Step>)
    decreases |steps|
  {
    steps == [] ||
    (var before := steps[..|steps| - 1];
     IsRun(w, before) && Enabled(After(w, before), steps[|steps| - 1]))
  }

  function After(w: World, steps: seq<Step>): World
    decreases |steps|
  {
    if steps == [] then w else Apply(After(w, steps[..|steps| - 1]), steps[|steps| - 1])
  }

  lemma RunSplits(w: World, steps: seq<Step>)
    requires IsRun(w, steps) && steps != []
    ensures var before := steps[..|steps| - 1];
            && IsRun(w, before) && Enabled(After(w, before), steps[|steps| - 1])
            && After(w, steps) == Apply(After(w, before), steps[|steps| - 1])
  {
  }

  lemma RunGrows(w: World, steps: seq<Step>, step: Step)
    requires IsRun(w, steps) && Enabled(After(w, steps), step)
    ensures IsRun(w, steps + [step]) && After(w, steps + [step]) == Apply(After(w, steps), step)
  {
    assert (steps + [step])[..|steps|] == steps;
  }
}
