/** What becomes of the connections to participants who leave: along every run of
    the conference they are closed when the notice is read, and stay closed. */
module Departures {
  import opened JsMap
  import opened Protocol
  import opened SignalingServer
  import RoomNet
  import RoomClient
  import RoomStream
  import PeerLane
  import opened Mesh
  import MeshSafety
  import MeshTheorems

  /** No connection, and none will be made: what is still queued is skipped. */
  predicate Closed(l: Lane) { l.shut && l.peer.None? }

  /** The clients in a call have closed the lane of everybody whose departure they
      read, those that left have closed every lane. */
  ghost predicate LanesClosed(m: Mesh) {
    (forall c, q :: c in m.lanes && c !in m.net.left && ParticipantLeft(q) in RoomNet.ReadBy(m.net, c) ==>
       Closed(LaneAt(m, c, q)))
    && forall c, q :: c in m.lanes && c in m.net.left && q in m.lanes[c] ==> Closed(m.lanes[c][q])
  }

  /** Nothing that happens on a closed lane opens it, calls into a connection or
      sends anything. */
  lemma ClosedIsInert(l: Lane, e: PeerLane.Event)
    requires Closed(l) && PeerLane.Enabled(l, e)
    ensures Closed(PeerLane.Next(l, e)) && PeerLane.Sent(l, e) == None && PeerLane.CallOf(l, e) == None
  {}

  lemma ReactCloses(lanes: map<Id, Lane>, read: seq<ServerMsg>, msg: ServerMsg, q: Id)
    requires ParticipantLeft(q) in read + [msg]
    requires ParticipantLeft(q) in read ==> Closed(LaneIn(lanes, q)) && !msg.RoomJoined?
    ensures Closed(LaneIn(React(lanes, true, msg), q))
  {}

  lemma NoSnapshotAfter(m: Mesh, c: ConnId, q: Id)
    requires RoomStream.StreamsOk(m.net) && c in m.net.server.conns && m.net.server.conns[c].wire != []
    requires ParticipantLeft(q) in RoomNet.ReadBy(m.net, c)
    ensures !m.net.server.conns[c].wire[0].RoomJoined?
  {
    var read, st := RoomNet.ReadBy(m.net, c), RoomStream.Stream(m.net, c);
    var i :| 0 <= i < |read| && read[i] == ParticipantLeft(q);
    assert st[i] == read[i] && st[|read|] == m.net.server.conns[c].wire[0];
    assert RoomStream.StreamOk(m.net.server, m.net.server.conns[c], st);
    assert RoomStream.About(st[|read|], q) ==> false;
  }

  lemma JoinedBefore(m: Mesh, c: ConnId, q: Id)
    requires LanesClosed(m) && LanesOk(m) && c in m.lanes && c in m.net.views && c in m.net.server.conns
    requires c !in m.net.left && ParticipantLeft(q) in RoomNet.ReadBy(m.net, c)
    ensures m.net.views[c].joined
  {
    assert Closed(LaneAt(m, c, q));
  }

  lemma DeliverOne(m: Mesh, c: ConnId, msg: ServerMsg, q: Id)
    requires RoomStream.StreamsOk(m.net) && LanesClosed(m) && LanesOk(m)
    requires c in m.lanes && c in m.net.views && c in m.net.server.conns && c !in m.net.left
    requires m.net.server.conns[c].wire != [] && msg == m.net.server.conns[c].wire[0]
    requires RoomClient.Proper(m.net.views[c], msg) && ParticipantLeft(q) in RoomNet.ReadBy(m.net, c) + [msg]
    ensures Closed(LaneIn(React(m.lanes[c], m.net.views[c].joined, msg), q))
  {
    var read := RoomNet.ReadBy(m.net, c);
    if ParticipantLeft(q) in read {
      assert Closed(LaneAt(m, c, q));
      NoSnapshotAfter(m, c, q);
      JoinedBefore(m, c, q);
    }
    ReactCloses(m.lanes[c], read, msg, q);
  }

  lemma DeliverCloses(cfg: Config, m: Mesh, c: ConnId)
    requires Inv(cfg, m) && RoomStream.StreamsOk(m.net) && LanesClosed(m) && Enabled(m, Deliver(c))
    ensures LanesClosed(Next(cfg, m, Deliver(c)))
  {
    hide RoomStream.StreamsOk, RoomClient.Proper, React, Closed, LanesOk, Inv;
    var m', msg := Next(cfg, m, Deliver(c)), m.net.server.conns[c].wire[0];
    MeshSafety.DeliveryFacts(cfg, m, c);
    assert LanesOk(m) by { LanesAreOk(cfg, m); }
    forall q | ParticipantLeft(q) in RoomNet.ReadBy(m'.net, c) ensures Closed(LaneAt(m', c, q)) {
      DeliverOne(m, c, msg, q);
    }
  }

  lemma LanesAreOk(cfg: Config, m: Mesh)
    requires Inv(cfg, m)
    ensures LanesOk(m)
  {}

  lemma WorkCloses(cfg: Config, m: Mesh, c: ConnId, q: Id, ev: PeerLane.Event)
    requires LanesClosed(m) && Enabled(m, Work(c, q, ev))
    ensures LanesClosed(Next(cfg, m, Work(c, q, ev)))
  {
    if Closed(m.lanes[c][q]) { ClosedIsInert(m.lanes[c][q], ev); }
  }

  lemma StepCloses(cfg: Config, m: Mesh, e: Step)
    requires Inv(cfg, m) && RoomStream.StreamsOk(m.net) && LanesClosed(m) && Enabled(m, e)
    ensures LanesClosed(Next(cfg, m, e))
  {
    hide Inv, RoomStream.StreamsOk, LanesClosed, PeerLane.Next, React, OnMessage, OnClose;
    match e
    case Deliver(c) => DeliverCloses(cfg, m, c);
    case Work(c, q, ev) => WorkCloses(cfg, m, c, q, ev);
    case Leave(c) => LeaveCloses(cfg, m, c);
    case Open(c, now) => OpenCloses(cfg, m, c, now);
    case _ => SameCloses(m, Next(cfg, m, e));
  }

  lemma LeaveCloses(cfg: Config, m: Mesh, c: ConnId)
    requires LanesClosed(m) && Enabled(m, Leave(c))
    ensures LanesClosed(Next(cfg, m, Leave(c)))
  {}

  lemma OpenCloses(cfg: Config, m: Mesh, c: ConnId, now: int)
    requires LanesClosed(m) && Enabled(m, Open(c, now))
    ensures LanesClosed(Next(cfg, m, Open(c, now)))
  {}

  lemma SameCloses(m: Mesh, m': Mesh)
    requires LanesClosed(m) && m'.lanes == m.lanes
    requires (m'.net.left == m.net.left && m'.net.read == m.net.read) || m'.net == RoomNet.START
    ensures LanesClosed(m')
  {}

  lemma StepKeepsStreams(cfg: Config, m: Mesh, e: Step)
    requires Inv(cfg, m) && RoomStream.StreamsOk(m.net) && Enabled(m, e)
    ensures RoomStream.StreamsOk(Next(cfg, m, e).net)
  {
    hide RoomStream.StreamsOk;
    var s := MeshTheorems.NetStep(m, e);
    if s != [] { RoomStream.StepKeepsStreams(cfg, m.net, s[0]); }
  }

  lemma {:induction false} RunCloses(cfg: Config, m: Mesh, run: seq<Step>)
    requires cfg.Valid() && Inv(cfg, m) && RoomStream.StreamsOk(m.net) && LanesClosed(m) && IsRun(cfg, m, run)
    ensures LanesClosed(Final(cfg, m, run))
    decreases run
  {
    hide Inv, RoomStream.StreamsOk, LanesClosed;
    if run != [] {
      MeshSafety.StepKeeps(cfg, m, run[0]);
      StepKeepsStreams(cfg, m, run[0]);
      StepCloses(cfg, m, run[0]);
      RunCloses(cfg, Next(cfg, m, run[0]), run[1..]);
    }
  }

  lemma ClosedWork(cfg: Config, m: Mesh, c: ConnId, q: Id, ev: PeerLane.Event)
    requires Enabled(m, Work(c, q, ev)) && Closed(m.lanes[c][q])
    ensures var m' := Next(cfg, m, Work(c, q, ev));
      PeerLane.CallOf(m.lanes[c][q], ev).None? && m'.uplinks == m.uplinks
      && c in m'.lanes && q in m'.lanes[c] && Closed(m'.lanes[c][q])
  {
    ClosedIsInert(m.lanes[c][q], ev);
  }

  /** In every reachable state: a client in the call that has read that q left has
      closed its connection to q and makes no other, and whatever was or is still
      queued for q runs without a call and without sending anything. */
  lemma DepartedAreClosed(cfg: Config, run: seq<Step>, c: ConnId, q: Id, ev: PeerLane.Event)
    requires cfg.Valid() && IsRun(cfg, START, run)
    requires var m := Final(cfg, START, run);
      c in m.lanes && c !in m.net.left && ParticipantLeft(q) in RoomNet.ReadBy(m.net, c)
    ensures var m := Final(cfg, START, run);
      LaneAt(m, c, q).shut && LaneAt(m, c, q).peer.None?
      && (Enabled(m, Work(c, q, ev)) ==>
            var m' := Next(cfg, m, Work(c, q, ev));
            PeerLane.CallOf(m.lanes[c][q], ev).None? && m'.uplinks == m.uplinks
            && LaneAt(m', c, q).shut && LaneAt(m', c, q).peer.None?)
  {
    hide PeerLane.CallOf, Next, PeerLane.Enabled;
    MeshTheorems.StartInv(cfg);
    RunCloses(cfg, START, run);
    var m := Final(cfg, START, run);
    if Enabled(m, Work(c, q, ev)) { ClosedWork(cfg, m, c, q, ev); }
  }

  /** A client that has left has no connection to anybody, and what its session
      still had queued does nothing any more. */
  lemma LeaversCloseAll(cfg: Config, run: seq<Step>, c: ConnId, q: Id, ev: PeerLane.Event)
    requires cfg.Valid() && IsRun(cfg, START, run)
    requires var m := Final(cfg, START, run); c in m.lanes && c in m.net.left && q in m.lanes[c]
    ensures var m := Final(cfg, START, run);
      m.lanes[c][q].shut && m.lanes[c][q].peer.None?
      && (Enabled(m, Work(c, q, ev)) ==>
            var m' := Next(cfg, m, Work(c, q, ev));
            PeerLane.CallOf(m.lanes[c][q], ev).None? && m'.uplinks == m.uplinks
            && m'.lanes[c][q].shut && m'.lanes[c][q].peer.None?)
  {
    hide PeerLane.CallOf, Next, PeerLane.Enabled;
    MeshTheorems.StartInv(cfg);
    RunCloses(cfg, START, run);
    var m := Final(cfg, START, run);
    if Enabled(m, Work(c, q, ev)) { ClosedWork(cfg, m, c, q, ev); }
  }
}
