/** Every run of the mesh keeps its invariant. */
module MeshSafety {
  import opened Protocol
  import opened RateLimiter
  import opened SignalingServer
  import opened RoomClient
  import RoomNet
  import PeerLane
  import opened Negotiation
  import opened Mesh
  import opened ServerEffects

  // --------------------------------------------------- steps of the server

  /** The server handled an input, which was taken off its connection's uplink
      if it was a message; clients did nothing. */
  ghost predicate ServerStep(m: Mesh, m': Mesh, i: Input) {
    i.c in m.net.server.conns && i.c in m.uplinks && i.c in m'.uplinks
    && Handled(m.net.server, m'.net.server, i)
    && m'.net.views == m.net.views && m'.net.left == m.net.left && m'.lanes == m.lanes
    && m'.uplinks == m.uplinks[i.c := m'.uplinks[i.c]]
    && (m.uplinks[i.c] == [i.from] + m'.uplinks[i.c] || (m.uplinks[i.c] == m'.uplinks[i.c] && !IsSignal(i.from)))
  }

  lemma UplinkShrinks(old': seq<Frame>, new': seq<Frame>, from: Frame, y: Id, offer: bool)
    requires old' == [from] + new' || (old' == new' && !IsSignal(from))
    ensures CountSignals(old', y, offer) == CountSignals(new', y, offer) + if SignalsTo(from, y, offer) then 1 else 0
    ensures forall f :: f in new' ==> f in old'
  {
    if old' == [from] + new' {
      assert old'[1..] == new';
      forall f | f in new' ensures f in old' {
        var i :| 0 <= i < |new'| && new'[i] == f;
        assert old'[i + 1] == f;
      }
    }
  }

  lemma ServerKeepsWires(m: Mesh, m': Mesh, i: Input)
    requires ServerStep(m, m', i) && WiresOk(m.net.server)
    ensures WiresOk(m'.net.server)
  {
    var s, t := m.net.server, m'.net.server;
    forall d, msg | d in t.conns && msg in t.conns[d].wire ensures WireOk(t.conns[d], |t.owner|, msg) {
      assert Grew(s.conns[d], t.conns[d], |s.owner|, |t.owner|, s.conns[i.c].me, i);
      if msg in s.conns[d].wire { assert WireOk(s.conns[d], |s.owner|, msg); }
    }
  }

  lemma ServerKeepsRest(m: Mesh, m': Mesh, i: Input)
    requires ServerStep(m, m', i) && UplinksOk(m) && LanesOk(m)
    ensures UplinksOk(m') && LanesOk(m')
  {
    hide LaneInv;
    var s, t := m.net.server, m'.net.server;
    UplinkShrinks(m.uplinks[i.c], m'.uplinks[i.c], i.from, 0, true);
    forall d, f | d in m'.uplinks && d in t.conns && f in m'.uplinks[d]
      ensures UplinkOk(t.conns[d], |t.owner|, f)
    {
      assert f in m.uplinks[d];
      assert UplinkOk(s.conns[d], |s.owner|, f);
    }
    forall d, q | d in m'.lanes && d in t.conns && q in m'.lanes[d]
      ensures LaneOk(t.conns[d], |t.owner|, q, m'.lanes[d][q])
    {
      assert LaneOk(s.conns[d], |s.owner|, q, m.lanes[d][q]);
    }
  }

  lemma ServerKeepsFlow(m: Mesh, m': Mesh, i: Input, x: Id, y: Id, offer: bool)
    requires ServerStep(m, m', i) && RoomNet.IdsOwned(m.net.server)
    requires x < |m.net.server.owner| && y < |m.net.server.owner| && Flow(m, x, y, offer)
    ensures Flow(m', x, y, offer)
  {
    hide TakenN, SentN, CountOps, CountSignals, CountRelays;
    var s, t := m.net.server, m'.net.server;
    var cx, cy := s.owner[x], s.owner[y];
    assert t.owner[x] == cx && t.owner[y] == cy;
    UplinkShrinks(m.uplinks[i.c], m'.uplinks[i.c], i.from, y, offer);
    assert Grew(s.conns[cy], t.conns[cy], |s.owner|, |t.owner|, s.conns[i.c].me, i);
    if t.conns[cy].wire != s.conns[cy].wire {
      CountRelaysAppend(s.conns[cy].wire, t.conns[cy].wire[|t.conns[cy].wire| - 1], x, offer);
    }
  }

  lemma LaneFacts(m: Mesh, c: ConnId, q: Id)
    requires LanesOk(m) && c in m.net.server.conns
    ensures LaneAt(m, c, q) == PeerLane.IDLE
      || (c in m.lanes && q in m.lanes[c] && LaneOk(m.net.server.conns[c], |m.net.server.owner|, q, LaneAt(m, c, q)))
  {}

  /** Nothing from x, or for y, is under way if either is new. */
  lemma NewIdWire(m: Mesh, m': Mesh, i: Input, x: Id, y: Id, offer: bool)
    requires ServerStep(m, m', i) && m'.net.server.owner == m.net.server.owner + [i.c]
    requires RoomNet.IdsOwned(m.net.server) && WiresOk(m.net.server)
    requires x < |m'.net.server.owner| && y < |m'.net.server.owner|
    requires x == |m.net.server.owner| || y == |m.net.server.owner|
    ensures var cy := m'.net.server.owner[y];
      cy in m'.net.server.conns && CountRelays(m'.net.server.conns[cy].wire, x, offer) == 0
  {
    var s, t := m.net.server, m'.net.server;
    var cy := t.owner[y];
    forall msg | msg in t.conns[cy].wire ensures !(msg.Relay? && msg.sender == x) {
      assert Grew(s.conns[cy], t.conns[cy], |s.owner|, |t.owner|, s.conns[i.c].me, i);
      if msg in s.conns[cy].wire { assert WireOk(s.conns[cy], |s.owner|, msg); }
    }
    NoRelays(t.conns[cy].wire, x, offer);
  }

  lemma NewIdUplink(m: Mesh, m': Mesh, i: Input, x: Id, y: Id, offer: bool)
    requires ServerStep(m, m', i) && m'.net.server.owner == m.net.server.owner + [i.c]
    requires RoomNet.IdsOwned(m.net.server) && UplinksOk(m) && m.uplinks.Keys == m.net.server.conns.Keys
    requires x < |m'.net.server.owner| && y < |m'.net.server.owner|
    requires x == |m.net.server.owner| || y == |m.net.server.owner|
    ensures var cx := m'.net.server.owner[x]; cx in m'.uplinks && CountSignals(m'.uplinks[cx], y, offer) == 0
  {
    var s, t := m.net.server, m'.net.server;
    var cx := t.owner[x];
    UplinkShrinks(m.uplinks[i.c], m'.uplinks[i.c], i.from, y, offer);
    forall f | f in m'.uplinks[cx] ensures !(IsSignal(f) && f.body.target == y) {
      assert f in m.uplinks[cx];
      assert UplinkOk(s.conns[cx], |s.owner|, f);
    }
    NoSignals(m'.uplinks[cx], y, offer);
  }

  /** A participant that has just joined has sent and received nothing. */
  lemma NewIdFlows(m: Mesh, m': Mesh, i: Input, x: Id, y: Id, offer: bool)
    requires ServerStep(m, m', i) && m'.net.server.owner == m.net.server.owner + [i.c]
    requires RoomNet.IdsOwned(m.net.server) && WiresOk(m.net.server) && UplinksOk(m) && LanesOk(m)
    requires m.uplinks.Keys == m.net.server.conns.Keys
    requires x < |m'.net.server.owner| && y < |m'.net.server.owner|
    requires x == |m.net.server.owner| || y == |m.net.server.owner|
    ensures Flow(m', x, y, offer)
  {
    NewIdWire(m, m', i, x, y, offer);
    NewIdUplink(m, m', i, x, y, offer);
    LaneFacts(m, m'.net.server.owner[y], x);
    assert LaneAt(m', m'.net.server.owner[y], x) == PeerLane.IDLE;
  }

  lemma ServerKeeps(cfg: Config, m: Mesh, m': Mesh, i: Input)
    requires Inv(cfg, m) && ServerStep(m, m', i) && RoomNet.Inv(cfg, m'.net)
    ensures Inv(cfg, m')
  {
    ServerKeepsWires(m, m', i);
    ServerKeepsRest(m, m', i);
    forall x, y, offer | 0 <= x < |m'.net.server.owner| && 0 <= y < |m'.net.server.owner|
      ensures Flow(m', x, y, offer)
    {
      if x < |m.net.server.owner| && y < |m.net.server.owner| {
        assert Flow(m, x, y, offer);
        ServerKeepsFlow(m, m', i, x, y, offer);
      } else {
        NewIdFlows(m, m', i, x, y, offer);
      }
    }
  }

  lemma ReadStep(cfg: Config, m: Mesh, c: ConnId, at: Reading)
    requires RoomNet.Registry(m.net.server, cfg) && Enabled(m, Read(c, at))
    ensures ServerStep(m, Next(cfg, m, Read(c, at)), Input(c, m.uplinks[c][0], false))
  {
    MessageHandled(m.net.server, cfg, c, m.uplinks[c][0], at);
    assert m.uplinks[c] == [m.uplinks[c][0]] + m.uplinks[c][1..];
  }

  lemma CloseStep(cfg: Config, m: Mesh, c: ConnId)
    requires RoomNet.Registry(m.net.server, cfg) && Enabled(m, Close(c)) && c in m.uplinks
    ensures ServerStep(m, Next(cfg, m, Close(c)), Input(c, Garbage, true))
  {
    CloseHandled(m.net.server, cfg, c);
    assert m.uplinks[c := m.uplinks[c]] == m.uplinks;
  }

  lemma ReadKeeps(cfg: Config, m: Mesh, c: ConnId, at: Reading)
    requires cfg.Valid() && Inv(cfg, m) && Enabled(m, Read(c, at))
    ensures Inv(cfg, Next(cfg, m, Read(c, at)))
  {
    var from := m.uplinks[c][0];
    RoomNet.StepKeeps(cfg, m.net, RoomNet.Message(c, from, at));
    ReadStep(cfg, m, c, at);
    ServerKeeps(cfg, m, Next(cfg, m, Read(c, at)), Input(c, from, false));
  }

  lemma CloseKeeps(cfg: Config, m: Mesh, c: ConnId)
    requires cfg.Valid() && Inv(cfg, m) && Enabled(m, Close(c))
    ensures Inv(cfg, Next(cfg, m, Close(c)))
  {
    RoomNet.StepKeeps(cfg, m.net, RoomNet.Close(c));
    CloseStep(cfg, m, c);
    ServerKeeps(cfg, m, Next(cfg, m, Close(c)), Input(c, Garbage, true));
  }

  // --------------------------------------------------- steps of the clients

  ghost predicate SameMe(s: State, t: State) {
    t.owner == s.owner && t.conns.Keys == s.conns.Keys
    && forall d :: d in s.conns ==> t.conns[d].me == s.conns[d].me
  }

  lemma WiresFrame(s: State, t: State)
    requires WiresOk(s) && SameMe(s, t)
    requires forall d, msg :: d in s.conns && msg in t.conns[d].wire ==> msg in s.conns[d].wire
    ensures WiresOk(t)
  {
    forall d, msg | d in t.conns && msg in t.conns[d].wire ensures WireOk(t.conns[d], |t.owner|, msg) {
      assert WireOk(s.conns[d], |s.owner|, msg);
    }
  }

  lemma UplinksFrame(m: Mesh, m': Mesh)
    requires UplinksOk(m) && SameMe(m.net.server, m'.net.server) && m'.uplinks == m.uplinks
    ensures UplinksOk(m')
  {
    var s, t := m.net.server, m'.net.server;
    forall d, f | d in m'.uplinks && d in t.conns && f in m'.uplinks[d] ensures UplinkOk(t.conns[d], |t.owner|, f) {
      assert UplinkOk(s.conns[d], |s.owner|, f);
    }
  }

  predicate SameCounts(l: Lane, l': Lane) { l'.past == l.past && l'.pending == l.pending }

  lemma FlowsFrame(m: Mesh, m': Mesh)
    requires Flows(m) && SameMe(m.net.server, m'.net.server) && m'.uplinks == m.uplinks
    requires forall d :: d in m.net.server.conns ==> m'.net.server.conns[d].wire == m.net.server.conns[d].wire
    requires forall c, q :: SameCounts(LaneAt(m, c, q), LaneAt(m', c, q))
    ensures Flows(m')
  {
    var s := m.net.server;
    forall x, y, offer | 0 <= x < |s.owner| && 0 <= y < |s.owner| ensures Flow(m', x, y, offer) {
      assert Flow(m, x, y, offer);
      assert SameCounts(LaneAt(m, s.owner[x], y), LaneAt(m', s.owner[x], y));
      assert SameCounts(LaneAt(m, s.owner[y], x), LaneAt(m', s.owner[y], x));
    }
  }

  lemma OpenParts(m: Mesh, m': Mesh, c: ConnId, k: Conn, v: View)
    requires WiresOk(m.net.server) && UplinksOk(m) && LanesOk(m)
    requires m'.net.server == m.net.server.(conns := m.net.server.conns[c := k]) && k.wire == []
    requires m'.uplinks == m.uplinks[c := []] && m'.lanes == m.lanes[c := map[]]
    requires m'.net.views == m.net.views[c := v] && m'.net.left == m.net.left
    ensures WiresOk(m'.net.server) && UplinksOk(m') && LanesOk(m')
  {
    var s, t := m.net.server, m'.net.server;
    forall d, msg | d in t.conns && msg in t.conns[d].wire ensures WireOk(t.conns[d], |t.owner|, msg) {
      assert WireOk(s.conns[d], |s.owner|, msg);
    }
    forall d, f | d in m'.uplinks && d in t.conns && f in m'.uplinks[d] ensures UplinkOk(t.conns[d], |t.owner|, f) {
      assert UplinkOk(s.conns[d], |s.owner|, f);
    }
    forall d, q | d in m'.lanes && d in t.conns && q in m'.lanes[d]
      ensures LaneOk(t.conns[d], |t.owner|, q, m'.lanes[d][q])
    {
      assert LaneOk(s.conns[d], |s.owner|, q, m.lanes[d][q]);
    }
  }

  lemma OpenFlows(m: Mesh, m': Mesh, c: ConnId, k: Conn)
    requires Flows(m) && RoomNet.IdsOwned(m.net.server) && c !in m.net.server.conns
    requires m'.net.server == m.net.server.(conns := m.net.server.conns[c := k])
    requires m'.uplinks == m.uplinks[c := []] && m'.lanes == m.lanes[c := map[]]
    ensures Flows(m')
  {
    var s := m.net.server;
    forall x, y, offer | 0 <= x < |s.owner| && 0 <= y < |s.owner| ensures Flow(m', x, y, offer) {
      assert Flow(m, x, y, offer);
      assert LaneAt(m', s.owner[x], y) == LaneAt(m, s.owner[x], y);
      assert LaneAt(m', s.owner[y], x) == LaneAt(m, s.owner[y], x);
    }
  }

  lemma OpenKeeps(cfg: Config, m: Mesh, c: ConnId, now: int)
    requires cfg.Valid() && Inv(cfg, m) && Enabled(m, Open(c, now))
    ensures Inv(cfg, Next(cfg, m, Open(c, now)))
  {
    hide LaneInv;
    var m' := Next(cfg, m, Open(c, now));
    RoomNet.StepKeeps(cfg, m.net, RoomNet.Open(c, now));
    OpenParts(m, m', c, m'.net.server.conns[c], LOBBY);
    OpenFlows(m, m', c, m'.net.server.conns[c]);
  }

  lemma SameLanes(m: Mesh, m': Mesh)
    requires m'.lanes == m.lanes
    ensures forall c, q :: SameCounts(LaneAt(m, c, q), LaneAt(m', c, q))
  {}

  lemma LoseKeeps(cfg: Config, m: Mesh, c: ConnId)
    requires cfg.Valid() && Inv(cfg, m) && Enabled(m, LoseOpen(c))
    ensures Inv(cfg, Next(cfg, m, LoseOpen(c)))
  {
    hide RoomNet.Inv, LaneInv;
    var m' := Next(cfg, m, LoseOpen(c));
    RoomNet.StepKeeps(cfg, m.net, RoomNet.LoseOpen(c));
    WiresFrame(m.net.server, m'.net.server);
    UplinksFrame(m, m');
    SameLanes(m, m');
    FlowsFrame(m, m');
    LanesFrame(m, m');
  }

  lemma LanesFrame(m: Mesh, m': Mesh)
    requires LanesOk(m) && SameMe(m.net.server, m'.net.server)
    requires m'.lanes == m.lanes && m'.net.views == m.net.views && m'.net.left == m.net.left
    ensures LanesOk(m')
  {
    var s, t := m.net.server, m'.net.server;
    forall d, q | d in m'.lanes && d in t.conns && q in m'.lanes[d]
      ensures LaneOk(t.conns[d], |t.owner|, q, m'.lanes[d][q])
    {
      assert LaneOk(s.conns[d], |s.owner|, q, m.lanes[d][q]);
    }
  }

  /** A client appends one frame to its uplink; a description is paid for by its
      lane's sent counter. */
  lemma PushKeepsFlow(m: Mesh, m': Mesh, c: ConnId, f: Frame, x: Id, y: Id, offer: bool)
    requires x < |m.net.server.owner| && y < |m.net.server.owner| && Flow(m, x, y, offer)
    requires c in m.uplinks && m'.net == m.net && m'.uplinks == m.uplinks[c := m.uplinks[c] + [f]]
    requires !SignalsTo(f, y, offer) || m.net.server.owner[x] != c
    requires m'.lanes == m.lanes
    ensures Flow(m', x, y, offer)
  {
    CountSignalsAppend(m.uplinks[c], f, y, offer);
  }

  lemma PushKeeps(cfg: Config, m: Mesh, m': Mesh, c: ConnId, f: Frame)
    requires Inv(cfg, m) && c in m.uplinks
    requires m' == m.(uplinks := m.uplinks[c := m.uplinks[c] + [f]])
    requires UplinkOk(m.net.server.conns[c], |m.net.server.owner|, f)
    requires !IsSignal(f)
    ensures Inv(cfg, m')
  {
    forall x, y, offer | 0 <= x < |m'.net.server.owner| && 0 <= y < |m'.net.server.owner|
      ensures Flow(m', x, y, offer)
    {
      assert Flow(m, x, y, offer);
      PushKeepsFlow(m, m', c, f, x, y, offer);
    }
  }

  /** One lane of client c moves on; what it sends goes on c's uplink. */
  ghost predicate LaneStep(m: Mesh, m': Mesh, c: ConnId, q: Id, ev: PeerLane.Event) {
    c in m.lanes && q in m.lanes[c] && c in m.uplinks && c in m.net.server.conns
    && (ev.Begin? || ev.Resume? || ev.Trickle?) && PeerLane.Enabled(m.lanes[c][q], ev)
    && m'.net == m.net
    && m'.lanes == m.lanes[c := SetLane(m.lanes[c], q, PeerLane.Next(m.lanes[c][q], ev))]
    && m'.uplinks == (match PeerLane.Sent(m.lanes[c][q], ev)
                      case None => m.uplinks
                      case Some(sig) => m.uplinks[c := m.uplinks[c] + [ToPeer(q, sig)]])
  }

  /** What the other side must have sent for a description to be waiting here. */
  lemma WorkIsDue(cfg: Config, m: Mesh, c: ConnId, q: Id, ev: PeerLane.Event)
    requires Inv(cfg, m) && Enabled(m, Work(c, q, ev))
    ensures LaneOk(m.net.server.conns[c], |m.net.server.owner|, q, m.lanes[c][q])
    ensures Due(m.lanes[c][q], q < m.net.server.conns[c].me.value.id, ev)
  {
    hide RoomNet.RoomsOk;
    var s := m.net.server;
    assert LaneOk(s.conns[c], |s.owner|, q, m.lanes[c][q]);
    var self := s.conns[c].me.value.id;
    var d := s.owner[q];
    assert s.owner[self] == c;
    LaneFacts(m, d, self);
    assert s.conns[d].me.Some? && s.conns[d].me.value.id == q;
    assert Flow(m, q, self, true) && Flow(m, q, self, false) && Flow(m, self, q, true) && Flow(m, self, q, false);
  }

  lemma WorkKeepsFlow(m: Mesh, m': Mesh, c: ConnId, q: Id, ev: PeerLane.Event, x: Id, y: Id, offer: bool)
    requires LaneStep(m, m', c, q, ev) && RoomNet.IdsOwned(m.net.server)
    requires x < |m.net.server.owner| && y < |m.net.server.owner| && Flow(m, x, y, offer)
    ensures Flow(m', x, y, offer)
  {
    hide PeerLane.Next, TakenN, SentN, CountOps, CountRelays;
    var s := m.net.server;
    var l := m.lanes[c][q];
    var out := PeerLane.Sent(l, ev);
    SentCounted(l, ev, offer);
    TakenCounted(l, ev, offer);
    if out.Some? { CountSignalsAppend(m.uplinks[c], ToPeer(q, out.value), y, offer); }
    var cx, cy := s.owner[x], s.owner[y];
    assert LaneAt(m', cx, y) == if cx == c && y == q then PeerLane.Next(l, ev) else LaneAt(m, cx, y);
    assert LaneAt(m', cy, x) == if cy == c && x == q then PeerLane.Next(l, ev) else LaneAt(m, cy, x);
  }

  lemma WorkParts(m: Mesh, m': Mesh, c: ConnId, q: Id, ev: PeerLane.Event)
    requires LaneStep(m, m', c, q, ev) && UplinksOk(m) && LanesOk(m)
    requires LaneOk(m.net.server.conns[c], |m.net.server.owner|, q, PeerLane.Next(m.lanes[c][q], ev))
    ensures UplinksOk(m') && LanesOk(m')
  {
    hide LaneInv;
    var s := m.net.server;
    forall d, p | d in m'.lanes && d in s.conns && p in m'.lanes[d]
      ensures LaneOk(s.conns[d], |s.owner|, p, m'.lanes[d][p])
    {
      if d != c || p != q { assert LaneOk(s.conns[d], |s.owner|, p, m.lanes[d][p]); }
    }
    forall d, f | d in m'.uplinks && d in s.conns && f in m'.uplinks[d] ensures UplinkOk(s.conns[d], |s.owner|, f) {
      if f in m.uplinks[d] { assert UplinkOk(s.conns[d], |s.owner|, f); }
    }
  }

  lemma WorkFlows(m: Mesh, m': Mesh, c: ConnId, q: Id, ev: PeerLane.Event)
    requires LaneStep(m, m', c, q, ev) && RoomNet.IdsOwned(m.net.server) && Flows(m)
    ensures Flows(m')
  {
    var s := m.net.server;
    forall x, y, offer | 0 <= x < |s.owner| && 0 <= y < |s.owner| ensures Flow(m', x, y, offer) {
      assert Flow(m, x, y, offer);
      WorkKeepsFlow(m, m', c, q, ev, x, y, offer);
    }
  }

  lemma WorkKeeps(cfg: Config, m: Mesh, c: ConnId, q: Id, ev: PeerLane.Event)
    requires cfg.Valid() && Inv(cfg, m) && Enabled(m, Work(c, q, ev))
    ensures Inv(cfg, Next(cfg, m, Work(c, q, ev)))
  {
    hide LaneInv, Flow;
    var m' := Next(cfg, m, Work(c, q, ev));
    WorkIsDue(cfg, m, c, q, ev);
    LaneKeeps(m.lanes[c][q], q < m.net.server.conns[c].me.value.id, ev);
    WorkParts(m, m', c, q, ev);
    WorkFlows(m, m', c, q, ev);
  }

  lemma LeaveParts(m: Mesh, m': Mesh, c: ConnId)
    requires LanesOk(m) && c in m.lanes && m'.net.server == m.net.server
    requires m'.lanes == m.lanes[c := map q | q in m.lanes[c] :: PeerLane.Next(m.lanes[c][q], PeerLane.Shut)]
    requires m'.net.left == m.net.left + {c} && c in m'.net.views && m'.net.views == m.net.views[c := m'.net.views[c]]
    ensures LanesOk(m')
  {
    var s := m.net.server;
    forall d, p | d in m'.lanes && d in s.conns && p in m'.lanes[d]
      ensures LaneOk(s.conns[d], |s.owner|, p, m'.lanes[d][p])
    {
      assert LaneOk(s.conns[d], |s.owner|, p, m.lanes[d][p]);
      LaneKeeps(m.lanes[d][p], p < s.conns[d].me.value.id, PeerLane.Shut);
    }
  }

  lemma LeaveCounts(m: Mesh, m': Mesh, c: ConnId, d: ConnId, q: Id)
    requires c in m.lanes
    requires m'.lanes == m.lanes[c := map p | p in m.lanes[c] :: PeerLane.Next(m.lanes[c][p], PeerLane.Shut)]
    ensures SameCounts(LaneAt(m, d, q), LaneAt(m', d, q))
  {}

  lemma LeaveKeeps(cfg: Config, m: Mesh, c: ConnId)
    requires cfg.Valid() && Inv(cfg, m) && Enabled(m, Leave(c))
    ensures Inv(cfg, Next(cfg, m, Leave(c)))
  {
    hide RoomNet.Inv, LaneInv;
    var m' := Next(cfg, m, Leave(c));
    RoomNet.StepKeeps(cfg, m.net, RoomNet.Leave(c));
    WiresFrame(m.net.server, m'.net.server);
    UplinksFrame(m, m');
    forall d, q ensures SameCounts(LaneAt(m, d, q), LaneAt(m', d, q)) { LeaveCounts(m, m', c, d, q); }
    FlowsFrame(m, m');
    LeaveParts(m, m', c);
  }

  /** c's client handles the first message on its wire. */
  ghost predicate Delivery(m: Mesh, m': Mesh, c: ConnId, msg: ServerMsg, v: View) {
    var s, t := m.net.server, m'.net.server;
    c in m.lanes && c in s.conns && c in m.net.views && c !in m.net.left && v == m.net.views[c]
    && s.conns[c].wire != [] && msg == s.conns[c].wire[0] && WireOk(s.conns[c], |s.owner|, msg)
    && t == s.(conns := s.conns[c := s.conns[c].(wire := s.conns[c].wire[1..])])
    && m'.net.views == m.net.views[c := Apply(v, msg)] && m'.net.left == m.net.left
    && m'.uplinks == m.uplinks
    && m'.lanes == m.lanes[c := React(m.lanes[c], v.joined, msg)]
    && Proper(v, msg)
    && (!v.joined ==> m.lanes[c] == map[])
  }

  lemma NewcomerCounts()
    ensures PeerLane.NEWCOMER.pending == [PeerLane.MakeOffer] && PeerLane.NEWCOMER.past.enqueued == [PeerLane.MakeOffer]
    ensures CountMakes(PeerLane.NEWCOMER.pending) == 1
    ensures forall offer :: CountOps(PeerLane.NEWCOMER.pending, offer) == 0
  {
    assert [] + [PeerLane.MakeOffer] == [PeerLane.MakeOffer];
    CountOpsAppend([], PeerLane.MakeOffer);
  }

  lemma NewcomerFits()
    ensures LaneInv(PeerLane.NEWCOMER, true) && LaneInv(PeerLane.IDLE, true) && LaneInv(PeerLane.IDLE, false)
  {
    NewcomerCounts();
  }

  /** Lanes after a delivery: counters stay, and only a relayed description from
      x makes the chain for x longer. */
  lemma DeliverLane(m: Mesh, m': Mesh, c: ConnId, msg: ServerMsg, v: View, d: ConnId, x: Id, offer: bool)
    requires Delivery(m, m', c, msg, v)
    ensures var l, l' := LaneAt(m, d, x), LaneAt(m', d, x);
      TakenN(l', offer) == TakenN(l, offer) && SentN(l', offer) == SentN(l, offer)
      && CountOps(l'.pending, offer) <= CountOps(l.pending, offer)
         + if d == c && msg.Relay? && msg.sender == x && IsKind(msg.signal, offer) then 1 else 0
  {
    if d == c && msg.Relay? && msg.sender == x {
      RelayedLane(m, m', c, msg, v, offer);
    } else if d == c && msg.RoomJoined? {
      NewcomerCounts();
    }
  }

  lemma RelayedLane(m: Mesh, m': Mesh, c: ConnId, msg: ServerMsg, v: View, offer: bool)
    requires Delivery(m, m', c, msg, v) && msg.Relay?
    ensures var l, l' := LaneAt(m, c, msg.sender), LaneAt(m', c, msg.sender);
      TakenN(l', offer) == TakenN(l, offer) && SentN(l', offer) == SentN(l, offer)
      && CountOps(l'.pending, offer) == CountOps(l.pending, offer) + if IsKind(msg.signal, offer) then 1 else 0
  {
    CountOpsAppend(LaneAt(m, c, msg.sender).pending, PeerLane.Handle(msg.signal));
  }

  lemma DeliverFlows(m: Mesh, m': Mesh, c: ConnId, msg: ServerMsg, v: View)
    requires Delivery(m, m', c, msg, v) && Flows(m)
    ensures Flows(m')
  {
    var s := m.net.server;
    forall x, y, offer | 0 <= x < |s.owner| && 0 <= y < |s.owner| ensures Flow(m', x, y, offer) {
      assert Flow(m, x, y, offer);
      DeliverLane(m, m', c, msg, v, s.owner[x], y, offer);
      DeliverLane(m, m', c, msg, v, s.owner[y], x, offer);
    }
  }

  lemma DeliverLaneOk(m: Mesh, m': Mesh, c: ConnId, msg: ServerMsg, v: View, q: Id)
    requires Delivery(m, m', c, msg, v) && LanesOk(m) && q in m'.lanes[c]
    ensures LaneOk(m.net.server.conns[c], |m.net.server.owner|, q, m'.lanes[c][q])
  {
    hide LaneInv;
    NewcomerFits();
    var s, k := m.net.server, m.net.server.conns[c];
    LaneFacts(m, c, q);
    var l := LaneAt(m, c, q);
    match msg
    case RoomJoined(self, people, _) =>
      var e :| e in people && e.key == q && q != self;
      assert m'.lanes[c][q] == PeerLane.NEWCOMER;
    case Relay(sender, signal) =>
      if q == sender { LaneKeeps(l, q < k.me.value.id, PeerLane.Enqueue(PeerLane.Handle(signal))); }
    case ParticipantLeft(id) =>
      if q == id { LaneKeeps(l, q < k.me.value.id, PeerLane.Shut); }
    case _ =>
  }

  lemma DeliverLanes(m: Mesh, m': Mesh, c: ConnId, msg: ServerMsg, v: View)
    requires Delivery(m, m', c, msg, v) && LanesOk(m)
    ensures LanesOk(m')
  {
    hide LaneInv;
    var s, t := m.net.server, m'.net.server;
    forall d, q | d in m'.lanes && d in t.conns && q in m'.lanes[d]
      ensures LaneOk(t.conns[d], |t.owner|, q, m'.lanes[d][q])
    {
      if d == c { DeliverLaneOk(m, m', c, msg, v, q); } else { assert LaneOk(s.conns[d], |s.owner|, q, m.lanes[d][q]); }
    }
  }

  lemma DeliveryFacts(cfg: Config, m: Mesh, c: ConnId)
    requires Inv(cfg, m) && Enabled(m, Deliver(c))
    ensures Delivery(m, Next(cfg, m, Deliver(c)), c, m.net.server.conns[c].wire[0], m.net.views[c])
  {
    var s := m.net.server;
    assert s.conns[c].wire[0] in s.conns[c].wire;
    assert WireOk(s.conns[c], |s.owner|, s.conns[c].wire[0]);
    assert RoomNet.Synced(s, c, m.net.views[c]);
  }

  lemma DeliverKeeps(cfg: Config, m: Mesh, c: ConnId)
    requires cfg.Valid() && Inv(cfg, m) && Enabled(m, Deliver(c))
    ensures Inv(cfg, Next(cfg, m, Deliver(c)))
  {
    hide RoomNet.Inv, LaneInv;
    var m', s := Next(cfg, m, Deliver(c)), m.net.server;
    RoomNet.StepKeeps(cfg, m.net, RoomNet.Deliver(c));
    DeliveryFacts(cfg, m, c);
    DeliverFlows(m, m', c, s.conns[c].wire[0], m.net.views[c]);
    DeliverLanes(m, m', c, s.conns[c].wire[0], m.net.views[c]);
    WiresFrame(s, m'.net.server);
    UplinksFrame(m, m');
  }

  /** Every step of the conference keeps the invariant. */
  lemma StepKeeps(cfg: Config, m: Mesh, e: Step)
    requires cfg.Valid() && Inv(cfg, m) && Enabled(m, e)
    ensures Inv(cfg, Next(cfg, m, e))
  {
    hide Inv;
    match e
    case Open(c, now) => OpenKeeps(cfg, m, c, now);
    case Say(c, frame) => PushKeeps(cfg, m, Next(cfg, m, e), c, frame);
    case Read(c, at) => ReadKeeps(cfg, m, c, at);
    case LoseOpen(c) => LoseKeeps(cfg, m, c);
    case Close(c) => CloseKeeps(cfg, m, c);
    case Deliver(c) => DeliverKeeps(cfg, m, c);
    case Leave(c) => LeaveKeeps(cfg, m, c);
    case Work(c, q, ev) => WorkKeeps(cfg, m, c, q, ev);
  }

  lemma {:induction false} RunKeeps(cfg: Config, m: Mesh, run: seq<Step>)
    requires cfg.Valid() && Inv(cfg, m) && IsRun(cfg, m, run)
    ensures Inv(cfg, Final(cfg, m, run))
    decreases run
  {
    hide Inv;
    if run != [] {
      StepKeeps(cfg, m, run[0]);
      RunKeeps(cfg, Next(cfg, m, run[0]), run[1..]);
    }
  }
}
