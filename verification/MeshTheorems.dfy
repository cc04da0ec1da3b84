/** The offer/answer exchange in every reachable state of the conference. */
module MeshTheorems {
  import opened Protocol
  import opened SignalingServer
  import RoomNet
  import PeerLane
  import opened Negotiation
  import opened Mesh
  import opened MeshSafety

  lemma StartInv(cfg: Config)
    ensures Inv(cfg, START)
  {}

  lemma Reached(cfg: Config, run: seq<Step>)
    requires cfg.Valid() && IsRun(cfg, START, run)
    ensures Inv(cfg, Final(cfg, START, run))
  {
    StartInv(cfg);
    RunKeeps(cfg, START, run);
  }

  /** x's side of its exchange with y. */
  function Side(m: Mesh, x: Id, y: Id): Lane
    requires x < |m.net.server.owner|
  {
    LaneAt(m, m.net.server.owner[x], y)
  }

  /** Descriptions from x on their way to y. */
  function InTransit(m: Mesh, x: Id, y: Id, offer: bool): nat
    requires x < |m.net.server.owner| && y < |m.net.server.owner|
    requires m.net.server.owner[x] in m.uplinks && m.net.server.owner[y] in m.net.server.conns
  {
    CountSignals(m.uplinks[m.net.server.owner[x]], y, offer)
    + CountRelays(m.net.server.conns[m.net.server.owner[y]].wire, x, offer)
    + CountOps(Side(m, y, x).pending, offer)
  }

  lemma SideInv(m: Mesh, x: Id, y: Id)
    requires LanesOk(m) && RoomNet.IdsOwned(m.net.server) && x < |m.net.server.owner| && y < |m.net.server.owner|
    requires x != y
    ensures LaneInv(Side(m, x, y), y < x)
  {
    LaneFacts(m, m.net.server.owner[x], y);
  }

  /** For any two participants ever admitted: the one that joined earlier never
      offers and the one that joined later never answers; the later one offers
      at most once, and its partner answers at most once, to that offer. No
      description exists anywhere beyond those. */
  lemma OneExchangePerPair(cfg: Config, run: seq<Step>, early: Id, late: Id)
    requires cfg.Valid() && IsRun(cfg, START, run)
    requires early < late < |Final(cfg, START, run).net.server.owner|
    ensures var m := Final(cfg, START, run);
      var a, b := Side(m, late, early), Side(m, early, late);
      var s := m.net.server;
      s.owner[early] in m.uplinks && s.owner[late] in m.uplinks && s.owner[early] in s.conns && s.owner[late] in s.conns
      && b.past.offersSent == 0 && a.past.answersSent == 0
      && b.past.offersTaken + InTransit(m, late, early, true) <= a.past.offersSent <= 1
      && a.past.answersTaken + InTransit(m, early, late, false) <= b.past.answersSent <= b.past.offersTaken
      && a.past.offersTaken + InTransit(m, early, late, true) == 0
      && b.past.answersTaken + InTransit(m, late, early, false) == 0
  {
    Reached(cfg, run);
    var m := Final(cfg, START, run);
    SideInv(m, late, early);
    SideInv(m, early, late);
    assert Flow(m, late, early, true) && Flow(m, early, late, true);
    assert Flow(m, late, early, false) && Flow(m, early, late, false);
  }

  /** Every setLocalDescription and setRemoteDescription a client calls finds a
      signalling state that permits it; offers are only set in the stable state. */
  lemma DescriptionsPermitted(cfg: Config, run: seq<Step>, c: ConnId, q: Id, ev: PeerLane.Event)
    requires cfg.Valid() && IsRun(cfg, START, run) && Enabled(Final(cfg, START, run), Work(c, q, ev))
    requires PeerLane.CallOf(Final(cfg, START, run).lanes[c][q], ev).Some?
    ensures var l := Final(cfg, START, run).lanes[c][q];
      var call := PeerLane.CallOf(l, ev).value;
      PeerLane.Transition(PeerLane.PeerOf(l).state, call).Some?
      && (call.offer ==> PeerLane.PeerOf(l).state == PeerLane.Stable)
  {
    Reached(cfg, run);
    var m := Final(cfg, START, run);
    WorkIsDue(cfg, m, c, q, ev);
    CallsFit(m.lanes[c][q], q < m.net.server.conns[c].me.value.id, ev);
  }

  /** The conference is a run of the room network, so views converge, signals are
      bracketed and chat is one log for it too. */
  function NetStep(m: Mesh, e: Step): seq<RoomNet.Step>
    requires Enabled(m, e)
  {
    match e
    case Open(c, now) => [RoomNet.Open(c, now)]
    case Read(c, at) => [RoomNet.Message(c, m.uplinks[c][0], at)]
    case LoseOpen(c) => [RoomNet.LoseOpen(c)]
    case Close(c) => [RoomNet.Close(c)]
    case Deliver(c) => [RoomNet.Deliver(c)]
    case Leave(c) => [RoomNet.Leave(c)]
    case _ => []
  }

  function NetRun(cfg: Config, m: Mesh, run: seq<Step>): seq<RoomNet.Step>
    requires IsRun(cfg, m, run)
    decreases run
  {
    if run == [] then [] else NetStep(m, run[0]) + NetRun(cfg, Next(cfg, m, run[0]), run[1..])
  }

  lemma {:induction false} RefinesRoomNet(cfg: Config, m: Mesh, run: seq<Step>)
    requires IsRun(cfg, m, run)
    ensures RoomNet.IsRun(cfg, m.net, NetRun(cfg, m, run))
    ensures RoomNet.Final(cfg, m.net, NetRun(cfg, m, run)) == Final(cfg, m, run).net
    decreases run
  {
    if run != [] {
      var rest := NetRun(cfg, Next(cfg, m, run[0]), run[1..]);
      RefinesRoomNet(cfg, Next(cfg, m, run[0]), run[1..]);
      if NetStep(m, run[0]) == [] {
        assert [] + rest == rest;
      } else {
        assert NetRun(cfg, m, run)[1..] == rest;
      }
    }
  }
}
