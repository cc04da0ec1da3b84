/** Two members of a room whose own sockets, connections and messages do not
    fail. Whatever everybody else does, what one sends the other takes, in order,
    and when nothing is left to do the two are connected. */
module Connected {
  import opened JsMap
  import opened Protocol
  import opened RateLimiter
  import opened SignalingServer
  import opened RoomClient
  import RoomNet
  import PeerLane
  import opened Negotiation
  import opened Settling
  import opened Mesh
  import opened MeshSafety
  import opened ServerEffects
  import MeshTheorems

  predicate Addresses(f: Frame, y: Id) { IsSignal(f) && f.body.target == y }

  function SignalFor(f: Frame, y: Id): seq<Signal> { if Addresses(f, y) then [f.body.signal] else [] }

  function SignalFrom(m: ServerMsg, x: Id): seq<Signal> { if m.Relay? && m.sender == x then [m.signal] else [] }

  /** Signals for y among the frames. */
  function Outbound(frames: seq<Frame>, y: Id): seq<Signal> {
    if frames == [] then [] else SignalFor(frames[0], y) + Outbound(frames[1..], y)
  }

  /** Signals from x on the wire. */
  function Inbound(wire: seq<ServerMsg>, x: Id): seq<Signal> {
    if wire == [] then [] else SignalFrom(wire[0], x) + Inbound(wire[1..], x)
  }

  lemma NothingAdded(a: seq<Signal>)
    ensures a + [] == a && [] + a == a
  {}

  lemma {:induction false} OutboundAppend(frames: seq<Frame>, f: Frame, y: Id)
    ensures Outbound(frames + [f], y) == Outbound(frames, y) + SignalFor(f, y)
    decreases frames
  {
    if frames == [] {
      assert [] + [f] == [f] && [f][1..] == [];
      NothingAdded(SignalFor(f, y));
    } else {
      OutboundAppend(frames[1..], f, y);
      assert (frames + [f])[1..] == frames[1..] + [f];
      PeerLane.Regroup(SignalFor(frames[0], y), Outbound(frames[1..], y), SignalFor(f, y));
    }
  }

  lemma {:induction false} InboundAppend(wire: seq<ServerMsg>, m: ServerMsg, x: Id)
    ensures Inbound(wire + [m], x) == Inbound(wire, x) + SignalFrom(m, x)
    decreases wire
  {
    if wire == [] {
      assert [] + [m] == [m] && [m][1..] == [];
      NothingAdded(SignalFrom(m, x));
    } else {
      InboundAppend(wire[1..], m, x);
      assert (wire + [m])[1..] == wire[1..] + [m];
      PeerLane.Regroup(SignalFrom(wire[0], x), Inbound(wire[1..], x), SignalFrom(m, x));
    }
  }

  lemma {:induction false} NothingInbound(wire: seq<ServerMsg>, x: Id)
    requires forall m :: m in wire ==> !(m.Relay? && m.sender == x)
    ensures Inbound(wire, x) == []
  {
    if wire != [] { assert wire[0] in wire; NothingInbound(wire[1..], x); }
  }

  lemma {:induction false} NothingOutbound(frames: seq<Frame>, y: Id)
    requires forall f :: f in frames ==> !Addresses(f, y)
    ensures Outbound(frames, y) == []
  {
    if frames != [] { assert frames[0] in frames; NothingOutbound(frames[1..], y); }
  }

  // ---------------------------------------------------------- the pair's state

  predicate Known(s: State, c: ConnId) { c in s.conns && s.conns[c].me.Some? }

  function IdOf(s: State, c: ConnId): Id
    requires Known(s, c)
  {
    s.conns[c].me.value.id
  }

  predicate Together(s: State, c: ConnId, d: ConnId) {
    c != d && RoomNet.Joined(s, c) && RoomNet.Joined(s, d) && s.conns[c].me.value.roomId == s.conns[d].me.value.roomId
  }

  predicate Alive(m: Mesh, c: ConnId) {
    c !in m.net.left && (c in m.net.server.conns ==> m.net.server.conns[c].open && !m.net.server.conns[c].gone)
  }

  /** What the other side was given, what is on its wire and what is on the
      uplink is what was sent. */
  predicate Conveyed(given: seq<Signal>, inbound: seq<Signal>, outbound: seq<Signal>, sent: seq<Signal>) {
    given + inbound + outbound == sent
  }

  function Given(m: Mesh, d: ConnId, x: Id): seq<Signal> { Signals(LaneAt(m, d, x).past.enqueued) }

  /** x's lane for y, and the way from there to y's lane for x; `back` is x's own
      wire. */
  ghost predicate HalfOk(lane: Lane, given: seq<Signal>, inbound: seq<Signal>, outbound: seq<Signal>,
                         back: seq<ServerMsg>, y: Id) {
    Sound(lane) && Conveyed(given, inbound, outbound, lane.past.sent)
    && (forall sig :: sig in outbound ==> ValidSignal(sig))
    && ParticipantLeft(y) !in back
  }

  /** From c to d. */
  ghost predicate Half(m: Mesh, c: ConnId, d: ConnId) {
    var s := m.net.server;
    Known(s, c) && Known(s, d) && c in m.uplinks
    && var x, y := IdOf(s, c), IdOf(s, d);
       HalfOk(LaneAt(m, c, y), Given(m, d, x), Inbound(s.conns[d].wire, x), Outbound(m.uplinks[c], y),
              s.conns[c].wire, y)
  }

  /** Everybody listed who joined before the client has been queued an offer. */
  ghost predicate Covered(m: Mesh, d: ConnId) {
    d in m.net.server.conns && d in m.net.views ==>
      var k, v := m.net.server.conns[d], m.net.views[d];
      (!v.joined ==> v.people == [])
      && (v.joined ==> k.me.Some? && forall q: Id :: Has(v.people, q) && q < k.me.value.id ==>
            PeerLane.MakeOffer in LaneAt(m, d, q).past.enqueued)
  }

  ghost predicate PairInv(m: Mesh, c: ConnId, d: ConnId) {
    Alive(m, c) && Alive(m, d) && Covered(m, c) && Covered(m, d)
    && (Together(m.net.server, c, d) ==> Half(m, c, d) && Half(m, d, c))
  }

  /** A step that goes well for c and d: neither is refused a message, loses its
      socket or leaves, and between the two no promise is rejected and what is
      sent is well formed. Nothing is asked of anybody else. */
  predicate Smooth(cfg: Config, m: Mesh, e: Step, c: ConnId, d: ConnId)
    requires Enabled(m, e)
  {
    var s := m.net.server;
    match e
    case Read(z, at) => z == c || z == d ==> Admits(cfg.limits, s.conns[z].bucket, at)
    case LoseOpen(z) => z != c && z != d
    case Close(z) => z != c && z != d
    case Leave(z) => z != c && z != d
    case Work(z, q, ev) =>
      (z == c && Known(s, d) && q == IdOf(s, d)) || (z == d && Known(s, c) && q == IdOf(s, c)) ==>
        WellDone(m.lanes[z][q], ev)
    case _ => true
  }

  predicate WellDone(l: Lane, ev: PeerLane.Event)
    requires PeerLane.Enabled(l, ev)
  {
    Good(ev) && (PeerLane.Sent(l, ev).Some? ==> ValidSignal(PeerLane.Sent(l, ev).value))
  }

  // ------------------------------------------------------------ server steps

  /** A signal to a fellow member reaches that member's wire, and nothing else
      happens but that the sender's bucket is charged. */
  lemma RelayArrives(cfg: Config, s: State, c: ConnId, d: ConnId, f: Frame, at: Reading)
    requires RoomNet.Registry(s, cfg) && Together(s, c, d) && s.conns[d].open
    requires Admits(cfg.limits, s.conns[c].bucket, at)
    requires Addresses(f, IdOf(s, d)) && ValidSignal(f.body.signal)
    ensures var t := OnMessage(s, cfg, c, f, at);
      t == s.(conns := t.conns) && t.conns.Keys == s.conns.Keys
      && forall e :: e in s.conns ==>
        t.conns[e] == if e == d then s.conns[d].(wire := s.conns[d].wire + [Relay(IdOf(s, c), f.body.signal)])
                      else if e == c then s.conns[c].(bucket := After(cfg.limits, s.conns[c].bucket, at))
                      else s.conns[e]
  {
    var me, you := s.conns[c].me.value, s.conns[d].me.value;
    var room := s.rooms[me.roomId];
    RoomNet.EntryHas(room, Entry(you.id, Member(you.displayName, d)));
    var hit := Find(room, you.id);
    assert RoomNet.Seated(s, me.roomId, Entry(you.id, hit.value));
    assert s.owner[you.id] == d && s.owner[me.id] == c;
  }

  /** A step of the server seen from c and d: a signal taken off c's uplink for d
      arrives. */
  ghost predicate Arrives(m: Mesh, m': Mesh, i: Input, c: ConnId, d: ConnId) {
    var s, t := m.net.server, m'.net.server;
    Known(s, c) && Known(s, d) && d in t.conns
    && (i.c == c && Addresses(i.from, IdOf(s, d)) ==>
          t.conns[d].wire == s.conns[d].wire + [Relay(IdOf(s, c), i.from.body.signal)])
  }

  /** What the server takes off c's uplink for y. */
  function Moved(i: Input, c: ConnId, y: Id): seq<Signal> { if i.c == c then SignalFor(i.from, y) else [] }

  lemma OutboundShrinks(m: Mesh, m': Mesh, i: Input, c: ConnId, y: Id)
    requires ServerStep(m, m', i) && c in m.uplinks
    ensures c in m'.uplinks && Outbound(m.uplinks[c], y) == Moved(i, c, y) + Outbound(m'.uplinks[c], y)
  {
    if i.c == c && m.uplinks[c] == [i.from] + m'.uplinks[c] {
      assert m.uplinks[c][1..] == m'.uplinks[c];
    } else {
      NothingAdded(Outbound(m'.uplinks[c], y));
    }
  }

  lemma InboundGrows(s: State, t: State, i: Input, c: ConnId, d: ConnId)
    requires i.c in s.conns && Handled(s, t, i) && RoomNet.IdsOwned(s) && Known(s, c) && Known(s, d)
    requires i.c == c && Addresses(i.from, IdOf(s, d)) ==>
      t.conns[d].wire == s.conns[d].wire + [Relay(IdOf(s, c), i.from.body.signal)]
    ensures Inbound(t.conns[d].wire, IdOf(s, c)) == Inbound(s.conns[d].wire, IdOf(s, c)) + Moved(i, c, IdOf(s, d))
  {
    NothingAdded(Inbound(s.conns[d].wire, IdOf(s, c)));
    if t.conns[d].wire != s.conns[d].wire {
      RelayHasSource(s, t, i, c, d);
      InboundAppend(s.conns[d].wire, t.conns[d].wire[|t.conns[d].wire| - 1], IdOf(s, c));
    }
  }

  lemma ServerHalf(m: Mesh, m': Mesh, i: Input, c: ConnId, d: ConnId)
    requires ServerStep(m, m', i) && RoomNet.IdsOwned(m.net.server) && c != d
    requires Half(m, c, d) && Alive(m', d) && Arrives(m, m', i, c, d)
    ensures Half(m', c, d)
  {
    hide Sound, Conveyed;
    ServerStream(m, m', i, c, d, IdOf(m.net.server, c), IdOf(m.net.server, d));
    NoDeparture(m.net.server, m'.net.server, i, c, d);
  }

  /** Only d's own close event tells c that d left. */
  lemma NoDeparture(s: State, t: State, i: Input, c: ConnId, d: ConnId)
    requires i.c in s.conns && Handled(s, t, i) && RoomNet.IdsOwned(s) && Known(s, c) && Known(s, d)
    requires !t.conns[d].gone && ParticipantLeft(IdOf(s, d)) !in s.conns[c].wire
    ensures ParticipantLeft(IdOf(s, d)) !in t.conns[c].wire
  {
    assert Grew(s.conns[c], t.conns[c], |s.owner|, |t.owner|, s.conns[i.c].me, i);
    assert s.owner[IdOf(s, d)] == d;
    if Known(s, i.c) { assert s.owner[IdOf(s, i.c)] == i.c; }
  }

  /** A relay from x that the server adds to d's wire was read off c's uplink. */
  lemma RelayHasSource(s: State, t: State, i: Input, c: ConnId, d: ConnId)
    requires i.c in s.conns && Handled(s, t, i) && RoomNet.IdsOwned(s) && Known(s, c) && Known(s, d)
    requires t.conns[d].wire != s.conns[d].wire
    ensures var m := t.conns[d].wire[|t.conns[d].wire| - 1];
      t.conns[d].wire == s.conns[d].wire + [m]
      && (m.Relay? && m.sender == IdOf(s, c) ==> i.c == c && Addresses(i.from, IdOf(s, d)))
  {
    assert Grew(s.conns[d], t.conns[d], |s.owner|, |t.owner|, s.conns[i.c].me, i);
    assert s.owner[IdOf(s, c)] == c;
    if Known(s, i.c) { assert s.owner[IdOf(s, i.c)] == i.c; }
  }

  lemma ServerStream(m: Mesh, m': Mesh, i: Input, c: ConnId, d: ConnId, x: Id, y: Id)
    requires ServerStep(m, m', i) && Half(m, c, d) && Arrives(m, m', i, c, d) && RoomNet.IdsOwned(m.net.server)
    requires x == IdOf(m.net.server, c) && y == IdOf(m.net.server, d)
    ensures Known(m'.net.server, c) && Known(m'.net.server, d) && c in m'.uplinks
    ensures Conveyed(Given(m', d, x), Inbound(m'.net.server.conns[d].wire, x), Outbound(m'.uplinks[c], y),
                     LaneAt(m', c, y).past.sent)
    ensures forall sig :: sig in Outbound(m'.uplinks[c], y) ==> sig in Outbound(m.uplinks[c], y)
  {
    hide Sound;
    OutboundShrinks(m, m', i, c, y);
    InboundGrows(m.net.server, m'.net.server, i, c, d);
    assert Given(m', d, x) == Given(m, d, x) && LaneAt(m', c, y) == LaneAt(m, c, y);
    MoveAlong(Given(m, d, x), Inbound(m.net.server.conns[d].wire, x), Moved(i, c, y), Outbound(m'.uplinks[c], y));
  }

  lemma MoveAlong(a: seq<Signal>, b: seq<Signal>, s: seq<Signal>, c: seq<Signal>)
    ensures a + (b + s) + c == a + b + (s + c)
    ensures (a + s) + b + c == a + (s + b) + c
  {}

  /** Nothing was ever said between c and d. */
  lemma FreshHalf(m: Mesh, c: ConnId, d: ConnId)
    requires Known(m.net.server, c) && Known(m.net.server, d) && c in m.uplinks
    requires LaneAt(m, c, IdOf(m.net.server, d)) == PeerLane.IDLE
    requires LaneAt(m, d, IdOf(m.net.server, c)) == PeerLane.IDLE
    requires forall msg :: msg in m.net.server.conns[d].wire ==> !(msg.Relay? && msg.sender == IdOf(m.net.server, c))
    requires forall f :: f in m.uplinks[c] ==> !Addresses(f, IdOf(m.net.server, d))
    requires ParticipantLeft(IdOf(m.net.server, d)) !in m.net.server.conns[c].wire
    ensures Half(m, c, d)
  {
    SoundStart();
    NothingInbound(m.net.server.conns[d].wire, IdOf(m.net.server, c));
    NothingOutbound(m.uplinks[c], IdOf(m.net.server, d));
  }

  /** The connection that just joined starts afresh with everybody. */
  lemma NewcomerHalves(cfg: Config, m: Mesh, m': Mesh, i: Input, other: ConnId)
    requires Inv(cfg, m) && ServerStep(m, m', i) && m'.net.server.owner == m.net.server.owner + [i.c]
    requires other != i.c && Known(m.net.server, other) && Alive(m', i.c)
    ensures Half(m', other, i.c) && Half(m', i.c, other)
  {
    var s, t, new' := m.net.server, m'.net.server, i.c;
    var x, y := IdOf(s, other), |s.owner|;
    LaneFacts(m, other, y);
    LaneFacts(m, new', x);
    assert LaneAt(m', other, y) == PeerLane.IDLE && LaneAt(m', new', x) == PeerLane.IDLE;
    NewWires(m, m', i, other);
    UplinkShrinks(m.uplinks[new'], m'.uplinks[new'], i.from, 0, true);
    forall f | f in m'.uplinks[other] ensures !Addresses(f, y) { assert UplinkOk(s.conns[other], |s.owner|, f); }
    forall f | f in m'.uplinks[new'] ensures !Addresses(f, x) { assert UplinkOk(s.conns[new'], |s.owner|, f); }
    FreshHalf(m', other, new');
    FreshHalf(m', new', other);
  }

  lemma NewWires(m: Mesh, m': Mesh, i: Input, other: ConnId)
    requires WiresOk(m.net.server) && ServerStep(m, m', i) && m'.net.server.owner == m.net.server.owner + [i.c]
    requires other != i.c && Known(m.net.server, other) && Alive(m', i.c)
    ensures var s, t := m.net.server, m'.net.server;
      (forall msg :: msg in t.conns[i.c].wire ==> !msg.Relay? && !msg.ParticipantLeft?)
      && forall msg :: msg in t.conns[other].wire ==>
        !(msg.Relay? && msg.sender == |s.owner|) && msg != ParticipantLeft(|s.owner|)
  {
    var s, t := m.net.server, m'.net.server;
    forall msg | msg in t.conns[i.c].wire ensures !msg.Relay? && !msg.ParticipantLeft? {
      assert Grew(s.conns[i.c], t.conns[i.c], |s.owner|, |t.owner|, s.conns[i.c].me, i);
      if msg in s.conns[i.c].wire { assert WireOk(s.conns[i.c], |s.owner|, msg); }
    }
    forall msg | msg in t.conns[other].wire
      ensures !(msg.Relay? && msg.sender == |s.owner|) && msg != ParticipantLeft(|s.owner|)
    {
      assert Grew(s.conns[other], t.conns[other], |s.owner|, |t.owner|, s.conns[i.c].me, i);
      if msg in s.conns[other].wire { assert WireOk(s.conns[other], |s.owner|, msg); }
    }
  }

  lemma ServerTogether(cfg: Config, m: Mesh, m': Mesh, i: Input, c: ConnId, d: ConnId)
    requires Inv(cfg, m) && ServerStep(m, m', i) && Alive(m', c) && Alive(m', d)
    requires Together(m.net.server, c, d) ==>
      Half(m, c, d) && Half(m, d, c) && Arrives(m, m', i, c, d) && Arrives(m, m', i, d, c)
    requires Together(m'.net.server, c, d) && !(i.closing && (i.c == c || i.c == d))
    ensures Half(m', c, d) && Half(m', d, c)
  {
    hide HalfOk, Flow, LaneInv;
    var s := m.net.server;
    if Known(s, c) && Known(s, d) {
      assert Together(s, c, d);
      ServerHalf(m, m', i, c, d);
      ServerHalf(m, m', i, d, c);
    } else if Known(s, c) {
      NewcomerHalves(cfg, m, m', i, c);
    } else {
      NewcomerHalves(cfg, m, m', i, d);
    }
  }

  lemma ServerCovered(m: Mesh, m': Mesh, i: Input, d: ConnId)
    requires ServerStep(m, m', i) && Covered(m, d)
    ensures Covered(m', d)
  {
    assert forall z, q :: LaneAt(m', z, q) == LaneAt(m, z, q);
  }

  lemma ServerPair(cfg: Config, m: Mesh, m': Mesh, i: Input, c: ConnId, d: ConnId)
    requires Inv(cfg, m) && ServerStep(m, m', i) && PairInv(m, c, d)
    requires i.closing ==> i.c != c && i.c != d
    requires Together(m.net.server, c, d) ==> Arrives(m, m', i, c, d) && Arrives(m, m', i, d, c)
    ensures PairInv(m', c, d)
  {
    hide Half, Inv, Covered, Arrives;
    ServerCovered(m, m', i, c);
    ServerCovered(m, m', i, d);
    if Together(m'.net.server, c, d) { ServerTogether(cfg, m, m', i, c, d); }
  }

  lemma ReadPair(cfg: Config, m: Mesh, z: ConnId, at: Reading, c: ConnId, d: ConnId)
    requires Inv(cfg, m) && PairInv(m, c, d) && Enabled(m, Read(z, at)) && Smooth(cfg, m, Read(z, at), c, d)
    ensures PairInv(Next(cfg, m, Read(z, at)), c, d)
  {
    var m' := Next(cfg, m, Read(z, at));
    ReadStep(cfg, m, z, at);
    if Together(m.net.server, c, d) {
      ReadArrives(cfg, m, z, at, c, d);
      ReadArrives(cfg, m, z, at, d, c);
    }
    ServerPair(cfg, m, m', Input(z, m.uplinks[z][0], false), c, d);
  }

  lemma ReadArrives(cfg: Config, m: Mesh, z: ConnId, at: Reading, c: ConnId, d: ConnId)
    requires RoomNet.Registry(m.net.server, cfg) && Enabled(m, Read(z, at)) && Together(m.net.server, c, d)
    requires Half(m, c, d) && m.net.server.conns[d].open
    requires z == c ==> Admits(cfg.limits, m.net.server.conns[c].bucket, at)
    requires ServerStep(m, Next(cfg, m, Read(z, at)), Input(z, m.uplinks[z][0], false))
    ensures Arrives(m, Next(cfg, m, Read(z, at)), Input(z, m.uplinks[z][0], false), c, d)
  {
    hide Sound, Conveyed, Grew;
    var s, f := m.net.server, m.uplinks[z][0];
    if z == c && Addresses(f, IdOf(s, d)) {
      assert Outbound(m.uplinks[c], IdOf(s, d))[0] == f.body.signal;
      RelayArrives(cfg, s, c, d, f, at);
    }
  }

  lemma ClosePair(cfg: Config, m: Mesh, z: ConnId, c: ConnId, d: ConnId)
    requires Inv(cfg, m) && PairInv(m, c, d) && Enabled(m, Close(z)) && z != c && z != d
    ensures PairInv(Next(cfg, m, Close(z)), c, d)
  {
    CloseStep(cfg, m, z);
    ServerPair(cfg, m, Next(cfg, m, Close(z)), Input(z, Garbage, true), c, d);
  }

  // ------------------------------------------------------------ client steps

  lemma HasPut<K, V>(t: Table<K, V>, k: K, v: V, q: K)
    ensures Has(Put(t, k, v), q) <==> Has(t, q) || q == k
    decreases t
  {
    if t == [] {
      assert Put(t, k, v)[0].key == k;
    } else {
      TailHas(t, q);
      TailHas(Put(t, k, v), q);
      assert Put(t, k, v)[1..] == if t[0].key == k then t[1..] else Put(t[1..], k, v);
      if t[0].key != k { HasPut(t[1..], k, v, q); }
    }
  }

  lemma {:induction false} HasPutAll<K, V>(t: Table<K, V>, more: Table<K, V>, q: K)
    ensures Has(PutAll(t, more), q) ==> Has(t, q) || exists e :: e in more && e.key == q
    decreases more
  {
    if more != [] {
      HasPut(t, more[0].key, more[0].value, q);
      HasPutAll(Put(t, more[0].key, more[0].value), more[1..], q);
      assert more[0] in more && forall e :: e in more[1..] ==> e in more;
    }
  }

  /** What a delivery does to the client's lane for x. */
  lemma DeliverOneLane(m: Mesh, m': Mesh, d: ConnId, msg: ServerMsg, v: View, x: Id, offerer: bool)
    requires Delivery(m, m', d, msg, v) && LaneInv(LaneAt(m, d, x), offerer) && Sound(LaneAt(m, d, x))
    requires msg != ParticipantLeft(x)
    ensures Sound(LaneAt(m', d, x)) && LaneAt(m', d, x).past.sent == LaneAt(m, d, x).past.sent
    ensures Given(m', d, x) == Given(m, d, x) + SignalFrom(msg, x)
  {
    hide Sound;
    var l, l' := LaneAt(m, d, x), LaneAt(m', d, x);
    NothingAdded(Given(m, d, x));
    if msg.RoomJoined? {
      assert l == PeerLane.IDLE && (l' == PeerLane.IDLE || l' == PeerLane.NEWCOMER);
      SoundStart();
      NoSignalsYet();
    } else if msg.Relay? && msg.sender == x {
      assert l' == PeerLane.Next(l, PeerLane.Enqueue(PeerLane.Handle(msg.signal)));
      EnqueueSound(l, offerer, msg.signal);
    } else {
      assert l' == l;
    }
  }

  lemma NoSignalsYet()
    ensures Signals(PeerLane.IDLE.past.enqueued) == [] && Signals(PeerLane.NEWCOMER.past.enqueued) == []
  {
    SignalsAppend([], PeerLane.MakeOffer);
  }

  lemma EnqueueSound(l: Lane, offerer: bool, s: Signal)
    requires LaneInv(l, offerer) && Sound(l)
    ensures var z := PeerLane.Next(l, PeerLane.Enqueue(PeerLane.Handle(s)));
      Sound(z) && z.past.sent == l.past.sent && Signals(z.past.enqueued) == Signals(l.past.enqueued) + [s]
  {
    SoundKeeps(l, offerer, PeerLane.Enqueue(PeerLane.Handle(s)));
    SignalsAppend(l.past.enqueued, PeerLane.Handle(s));
  }

  lemma LaneFits(m: Mesh, c: ConnId, q: Id)
    requires LanesOk(m) && Known(m.net.server, c)
    ensures LaneInv(LaneAt(m, c, q), q < IdOf(m.net.server, c))
  {
    LaneFacts(m, c, q);
  }

  /** c's own wire got shorter and its lane went on without sending. */
  lemma BackHalf(m: Mesh, m': Mesh, c: ConnId, d: ConnId, x: Id, y: Id)
    requires Half(m, c, d) && c in m'.uplinks && m'.uplinks[c] == m.uplinks[c]
    requires x == IdOf(m.net.server, c) && y == IdOf(m.net.server, d)
    requires Known(m'.net.server, c) && Known(m'.net.server, d) && x == IdOf(m'.net.server, c)
    requires y == IdOf(m'.net.server, d)
    requires m.net.server.conns[c].wire != [] && m'.net.server.conns[c].wire == m.net.server.conns[c].wire[1..]
    requires m'.net.server.conns[d].wire == m.net.server.conns[d].wire
    requires Sound(LaneAt(m', c, y)) && LaneAt(m', c, y).past.sent == LaneAt(m, c, y).past.sent
    requires Given(m', d, x) == Given(m, d, x)
    ensures Half(m', c, d)
  {}

  /** c handles a message while talking to d. */
  lemma SenderDelivers(m: Mesh, m': Mesh, msg: ServerMsg, v: View, c: ConnId, d: ConnId)
    requires Delivery(m, m', c, msg, v) && LanesOk(m) && Half(m, c, d) && c != d
    ensures Half(m', c, d)
  {
    hide Sound, Conveyed;
    var s := m.net.server;
    var x, y := IdOf(s, c), IdOf(s, d);
    LaneFits(m, c, y);
    assert s.conns[c].wire[0] in s.conns[c].wire;
    DeliverOneLane(m, m', c, msg, v, y, y < x);
    assert LaneAt(m', d, x) == LaneAt(m, d, x);
    BackHalf(m, m', c, d, x, y);
  }

  /** The head of d's wire, perhaps a signal from c, becomes part of what d's
      lane was given. */
  lemma WireHalf(m: Mesh, m': Mesh, c: ConnId, d: ConnId, x: Id, y: Id)
    requires Half(m, c, d) && c in m'.uplinks && m'.uplinks[c] == m.uplinks[c]
    requires x == IdOf(m.net.server, c) && y == IdOf(m.net.server, d)
    requires Known(m'.net.server, c) && Known(m'.net.server, d) && x == IdOf(m'.net.server, c)
    requires y == IdOf(m'.net.server, d)
    requires m'.net.server.conns[c].wire == m.net.server.conns[c].wire && m.net.server.conns[d].wire != []
    requires m'.net.server.conns[d].wire == m.net.server.conns[d].wire[1..]
    requires LaneAt(m', c, y) == LaneAt(m, c, y)
    requires Given(m', d, x) == Given(m, d, x) + SignalFrom(m.net.server.conns[d].wire[0], x)
    ensures Half(m', c, d)
  {
    hide Sound, Conveyed;
    TakeFirst(Given(m, d, x), m.net.server.conns[d].wire, Outbound(m.uplinks[c], y), LaneAt(m, c, y).past.sent, x);
  }

  /** d handles a message while c talks to it. */
  lemma ReceiverDelivers(m: Mesh, m': Mesh, msg: ServerMsg, v: View, c: ConnId, d: ConnId)
    requires Delivery(m, m', d, msg, v) && LanesOk(m) && Half(m, c, d) && c != d
    requires Sound(LaneAt(m, d, IdOf(m.net.server, c)))
    requires ParticipantLeft(IdOf(m.net.server, c)) !in m.net.server.conns[d].wire
    ensures Half(m', c, d)
  {
    hide Sound, Conveyed;
    var s := m.net.server;
    var x, y := IdOf(s, c), IdOf(s, d);
    LaneFits(m, d, x);
    assert s.conns[d].wire[0] in s.conns[d].wire;
    DeliverOneLane(m, m', d, msg, v, x, x < y);
    WireHalf(m, m', c, d, x, y);
  }

  lemma TakeFirst(given: seq<Signal>, wire: seq<ServerMsg>, outbound: seq<Signal>, sent: seq<Signal>, x: Id)
    requires wire != [] && Conveyed(given, Inbound(wire, x), outbound, sent)
    ensures Conveyed(given + SignalFrom(wire[0], x), Inbound(wire[1..], x), outbound, sent)
  {
    MoveAlong(given, Inbound(wire[1..], x), SignalFrom(wire[0], x), outbound);
  }

  lemma DeliverCovered(m: Mesh, m': Mesh, d: ConnId, msg: ServerMsg, v: View)
    requires Delivery(m, m', d, msg, v) && Covered(m, d)
    ensures Covered(m', d)
  {
    var k := m.net.server.conns[d];
    var v' := Apply(v, msg);
    if v'.joined {
      forall q: Id | Has(v'.people, q) && q < k.me.value.id
        ensures PeerLane.MakeOffer in LaneAt(m', d, q).past.enqueued
      {
        ListedBefore(m, m', d, msg, v, q);
      }
    }
  }

  lemma ListedBefore(m: Mesh, m': Mesh, d: ConnId, msg: ServerMsg, v: View, q: Id)
    requires Delivery(m, m', d, msg, v) && Covered(m, d) && Known(m.net.server, d)
    requires Apply(v, msg).joined && Has(Apply(v, msg).people, q) && q < IdOf(m.net.server, d)
    ensures PeerLane.MakeOffer in LaneAt(m', d, q).past.enqueued
  {
    match msg
    case RoomJoined(self, people, _) =>
      HasPutAll([], people, q);
      var e :| e in people && e.key == q;
      assert PeerLane.NEWCOMER.past.enqueued == [PeerLane.MakeOffer] by { NewcomerCounts(); }
      assert LaneAt(m', d, q) == PeerLane.NEWCOMER;
    case ParticipantJoined(id, name) => HasPut(v.people, id, name, q);
    case ParticipantLeft(id) => HasDelete(v.people, id);
    case _ =>
  }

  lemma DeliverPair(cfg: Config, m: Mesh, z: ConnId, c: ConnId, d: ConnId)
    requires Inv(cfg, m) && PairInv(m, c, d) && Enabled(m, Deliver(z))
    ensures PairInv(Next(cfg, m, Deliver(z)), c, d)
  {
    var m' := Next(cfg, m, Deliver(z));
    var msg, v := m.net.server.conns[z].wire[0], m.net.views[z];
    DeliveryFacts(cfg, m, z);
    DeliveryPair(m, m', z, msg, v, c, d);
  }

  lemma DeliveryPair(m: Mesh, m': Mesh, z: ConnId, msg: ServerMsg, v: View, c: ConnId, d: ConnId)
    requires Delivery(m, m', z, msg, v) && LanesOk(m) && PairInv(m, c, d)
    ensures PairInv(m', c, d)
  {
    hide Sound, Conveyed;
    if z == c { DeliverCovered(m, m', c, msg, v); } else { CoveredFrame(m, m', c); }
    if z == d { DeliverCovered(m, m', d, msg, v); } else { CoveredFrame(m, m', d); }
    if Together(m'.net.server, c, d) {
      if z == c {
        SenderDelivers(m, m', msg, v, c, d);
        ReceiverDelivers(m, m', msg, v, d, c);
      } else if z == d {
        ReceiverDelivers(m, m', msg, v, c, d);
        SenderDelivers(m, m', msg, v, d, c);
      } else {
        HalfFrame(m, m', c, d);
        HalfFrame(m, m', d, c);
      }
    }
  }

  predicate SameSide(m: Mesh, m': Mesh, d: ConnId) {
    (d in m.lanes <==> d in m'.lanes) && (d in m.lanes ==> m'.lanes[d] == m.lanes[d])
    && (d in m.net.server.conns <==> d in m'.net.server.conns)
    && (d in m.net.server.conns ==> m'.net.server.conns[d].me == m.net.server.conns[d].me)
  }

  /** Nothing that concerns d's offers changed. */
  lemma CoveredFrame(m: Mesh, m': Mesh, d: ConnId)
    requires Covered(m, d) && SameSide(m, m', d)
    requires d in m'.net.views ==> d in m.net.views && m'.net.views[d] == m.net.views[d]
    ensures Covered(m', d)
  {
    forall q ensures LaneAt(m', d, q) == LaneAt(m, d, q) { SameLane(m, m', d, q); }
  }

  lemma SameLane(m: Mesh, m': Mesh, d: ConnId, q: Id)
    requires SameSide(m, m', d)
    ensures LaneAt(m', d, q) == LaneAt(m, d, q)
  {}

  /** Nothing between c and d changed. */
  lemma HalfFrame(m: Mesh, m': Mesh, c: ConnId, d: ConnId)
    requires Half(m, c, d) && c in m'.uplinks && SameSide(m, m', c) && SameSide(m, m', d)
    requires m'.net.server.conns[c].wire == m.net.server.conns[c].wire
    requires m'.net.server.conns[d].wire == m.net.server.conns[d].wire
    requires Outbound(m'.uplinks[c], IdOf(m.net.server, d)) == Outbound(m.uplinks[c], IdOf(m.net.server, d))
    ensures Half(m', c, d)
  {
    hide HalfOk;
    SameLane(m, m', c, IdOf(m.net.server, d));
    SameLane(m, m', d, IdOf(m.net.server, c));
  }

  /** What the step puts on the uplink. */
  function OutOf(l: Lane, ev: PeerLane.Event): seq<Signal>
    requires PeerLane.Enabled(l, ev)
  {
    if PeerLane.Sent(l, ev).Some? then [PeerLane.Sent(l, ev).value] else []
  }

  lemma SentRecorded(l: Lane, ev: PeerLane.Event)
    requires PeerLane.Enabled(l, ev) && !ev.Enqueue?
    ensures var z := PeerLane.Next(l, ev);
      z.past.sent == l.past.sent + OutOf(l, ev) && z.past.enqueued == l.past.enqueued
  {}

  /** Lanes only gain operations when a message is delivered. */
  lemma WorkLane(m: Mesh, m': Mesh, z: ConnId, q: Id, ev: PeerLane.Event, d: ConnId, x: Id)
    requires LaneStep(m, m', z, q, ev)
    ensures LaneAt(m', d, x).past.enqueued == LaneAt(m, d, x).past.enqueued
    ensures z != d || x != q ==> LaneAt(m', d, x) == LaneAt(m, d, x)
  {
    SentRecorded(m.lanes[z][q], ev);
  }

  lemma WorkUplink(m: Mesh, m': Mesh, z: ConnId, q: Id, ev: PeerLane.Event, c: ConnId, y: Id)
    requires LaneStep(m, m', z, q, ev) && c in m.uplinks
    ensures c in m'.uplinks
    ensures z == c && q == y ==> Outbound(m'.uplinks[c], y) == Outbound(m.uplinks[c], y) + OutOf(m.lanes[z][q], ev)
    ensures z != c || q != y ==> Outbound(m'.uplinks[c], y) == Outbound(m.uplinks[c], y)
  {
    var out := PeerLane.Sent(m.lanes[z][q], ev);
    NothingAdded(Outbound(m.uplinks[c], y));
    if z == c && out.Some? { OutboundAppend(m.uplinks[c], ToPeer(q, out.value), y); }
  }

  lemma LaneHalf(l: Lane, offerer: bool, ev: PeerLane.Event, given: seq<Signal>, inbound: seq<Signal>,
                 outbound: seq<Signal>, back: seq<ServerMsg>, y: Id)
    requires LaneInv(l, offerer) && PeerLane.Enabled(l, ev) && Due(l, offerer, ev) && WellDone(l, ev) && !ev.Enqueue?
    requires HalfOk(l, given, inbound, outbound, back, y)
    ensures HalfOk(PeerLane.Next(l, ev), given, inbound, outbound + OutOf(l, ev), back, y)
  {
    SoundKeeps(l, offerer, ev);
    SentRecorded(l, ev);
    PeerLane.Regroup(given + inbound, outbound, OutOf(l, ev));
  }

  lemma WorkHalf(m: Mesh, m': Mesh, z: ConnId, q: Id, ev: PeerLane.Event, offerer: bool, c: ConnId, d: ConnId)
    requires LaneStep(m, m', z, q, ev) && Half(m, c, d) && c != d
    requires LaneInv(m.lanes[z][q], offerer) && Due(m.lanes[z][q], offerer, ev)
    requires z == c && q == IdOf(m.net.server, d) ==> WellDone(m.lanes[z][q], ev)
    ensures Half(m', c, d)
  {
    hide HalfOk;
    var s := m.net.server;
    var x, y := IdOf(s, c), IdOf(s, d);
    WorkLane(m, m', z, q, ev, d, x);
    WorkLane(m, m', z, q, ev, c, y);
    WorkUplink(m, m', z, q, ev, c, y);
    if z == c && q == y {
      LaneHalf(m.lanes[z][q], offerer, ev, Given(m, d, x), Inbound(s.conns[d].wire, x), Outbound(m.uplinks[c], y),
               s.conns[c].wire, y);
    }
  }

  lemma WorkCovered(m: Mesh, m': Mesh, z: ConnId, q: Id, ev: PeerLane.Event, d: ConnId)
    requires LaneStep(m, m', z, q, ev) && Covered(m, d)
    ensures Covered(m', d)
  {
    forall x
      ensures LaneAt(m', d, x).past.enqueued == LaneAt(m, d, x).past.enqueued
    {
      WorkLane(m, m', z, q, ev, d, x);
    }
  }

  lemma WorkPair(cfg: Config, m: Mesh, z: ConnId, q: Id, ev: PeerLane.Event, c: ConnId, d: ConnId)
    requires Inv(cfg, m) && PairInv(m, c, d) && Enabled(m, Work(z, q, ev)) && Smooth(cfg, m, Work(z, q, ev), c, d)
    ensures PairInv(Next(cfg, m, Work(z, q, ev)), c, d)
  {
    hide HalfOk, LaneInv, Flow, Due, Sound;
    var m' := Next(cfg, m, Work(z, q, ev));
    WorkIsDue(cfg, m, z, q, ev);
    WorkCovered(m, m', z, q, ev, c);
    WorkCovered(m, m', z, q, ev, d);
    if Together(m'.net.server, c, d) {
      var offerer := q < IdOf(m.net.server, z);
      WorkHalf(m, m', z, q, ev, offerer, c, d);
      WorkHalf(m, m', z, q, ev, offerer, d, c);
    }
  }

  lemma FramePair(m: Mesh, m': Mesh, c: ConnId, d: ConnId)
    requires PairInv(m, c, d) && Alive(m', c) && Alive(m', d) && Covered(m', c) && Covered(m', d)
    requires Together(m'.net.server, c, d) ==>
      Together(m.net.server, c, d) && SameSide(m, m', c) && SameSide(m, m', d)
      && m'.net.server.conns[c].wire == m.net.server.conns[c].wire
      && m'.net.server.conns[d].wire == m.net.server.conns[d].wire
      && c in m'.uplinks && d in m'.uplinks
      && (forall y :: Outbound(m'.uplinks[c], y) == Outbound(m.uplinks[c], y))
      && forall y :: Outbound(m'.uplinks[d], y) == Outbound(m.uplinks[d], y)
    ensures PairInv(m', c, d)
  {
    hide HalfOk;
    if Together(m'.net.server, c, d) {
      HalfFrame(m, m', c, d);
      HalfFrame(m, m', d, c);
    }
  }

  lemma OpenPair(cfg: Config, m: Mesh, z: ConnId, now: int, c: ConnId, d: ConnId)
    requires PairInv(m, c, d) && Enabled(m, Open(z, now))
    ensures PairInv(Next(cfg, m, Open(z, now)), c, d)
  {
    var m' := Next(cfg, m, Open(z, now));
    if z != c { CoveredFrame(m, m', c); }
    if z != d { CoveredFrame(m, m', d); }
    FramePair(m, m', c, d);
  }

  lemma LosePair(cfg: Config, m: Mesh, z: ConnId, c: ConnId, d: ConnId)
    requires PairInv(m, c, d) && Enabled(m, LoseOpen(z)) && z != c && z != d
    ensures PairInv(Next(cfg, m, LoseOpen(z)), c, d)
  {
    var m' := Next(cfg, m, LoseOpen(z));
    CoveredFrame(m, m', c);
    CoveredFrame(m, m', d);
    FramePair(m, m', c, d);
  }

  lemma LeavePair(cfg: Config, m: Mesh, z: ConnId, c: ConnId, d: ConnId)
    requires PairInv(m, c, d) && Enabled(m, Leave(z)) && z != c && z != d
    ensures PairInv(Next(cfg, m, Leave(z)), c, d)
  {
    var m' := Next(cfg, m, Leave(z));
    CoveredFrame(m, m', c);
    CoveredFrame(m, m', d);
    FramePair(m, m', c, d);
  }

  /** What is not a signal is on nobody's way. */
  lemma SayOutbound(frames: seq<Frame>, f: Frame)
    requires !IsSignal(f)
    ensures forall y :: Outbound(frames + [f], y) == Outbound(frames, y)
  {
    forall y ensures Outbound(frames + [f], y) == Outbound(frames, y) {
      OutboundAppend(frames, f, y);
      NothingAdded(Outbound(frames, y));
    }
  }

  lemma SayPair(cfg: Config, m: Mesh, z: ConnId, f: Frame, c: ConnId, d: ConnId)
    requires PairInv(m, c, d) && Enabled(m, Say(z, f))
    ensures PairInv(Next(cfg, m, Say(z, f)), c, d)
  {
    hide HalfOk;
    var m' := Next(cfg, m, Say(z, f));
    CoveredFrame(m, m', c);
    CoveredFrame(m, m', d);
    SayOutbound(m.uplinks[z], f);
    FramePair(m, m', c, d);
  }

  lemma StepPair(cfg: Config, m: Mesh, e: Step, c: ConnId, d: ConnId)
    requires Inv(cfg, m) && PairInv(m, c, d) && Enabled(m, e) && Smooth(cfg, m, e, c, d)
    ensures PairInv(Next(cfg, m, e), c, d)
  {
    hide PairInv, Inv;
    match e
    case Read(z, at) => ReadPair(cfg, m, z, at, c, d);
    case Close(z) => ClosePair(cfg, m, z, c, d);
    case Deliver(z) => DeliverPair(cfg, m, z, c, d);
    case Work(z, q, ev) => WorkPair(cfg, m, z, q, ev, c, d);
    case Say(z, f) => SayPair(cfg, m, z, f, c, d);
    case Open(z, now) => OpenPair(cfg, m, z, now, c, d);
    case LoseOpen(z) => LosePair(cfg, m, z, c, d);
    case Leave(z) => LeavePair(cfg, m, z, c, d);
  }

  ghost predicate SmoothRun(cfg: Config, m: Mesh, run: seq<Step>, c: ConnId, d: ConnId)
    requires IsRun(cfg, m, run)
    decreases run
  {
    run == [] || (Smooth(cfg, m, run[0], c, d) && SmoothRun(cfg, Next(cfg, m, run[0]), run[1..], c, d))
  }

  lemma {:induction false} RunPair(cfg: Config, m: Mesh, run: seq<Step>, c: ConnId, d: ConnId)
    requires cfg.Valid() && Inv(cfg, m) && PairInv(m, c, d) && IsRun(cfg, m, run) && SmoothRun(cfg, m, run, c, d)
    ensures Inv(cfg, Final(cfg, m, run)) && PairInv(Final(cfg, m, run), c, d)
    decreases run
  {
    hide PairInv, Inv, Smooth;
    if run != [] {
      StepKeeps(cfg, m, run[0]);
      StepPair(cfg, m, run[0], c, d);
      RunPair(cfg, Next(cfg, m, run[0]), run[1..], c, d);
    }
  }

  // --------------------------------------------------------------- the result

  /** Nothing is under way between c and d: no signal from one to the other on its
      uplink or wire, and no operation of theirs for each other left to do.
      Whatever else they send, receive and do may go on. */
  predicate AllQuiet(m: Mesh, c: ConnId, d: ConnId) {
    var s := m.net.server;
    Known(s, c) && Known(s, d) && c in m.uplinks && d in m.uplinks
    && Outbound(m.uplinks[c], IdOf(s, d)) == [] && Outbound(m.uplinks[d], IdOf(s, c)) == []
    && Inbound(s.conns[c].wire, IdOf(s, d)) == [] && Inbound(s.conns[d].wire, IdOf(s, c)) == []
    && Quiet(LaneAt(m, c, IdOf(s, d))) && Quiet(LaneAt(m, d, IdOf(s, c)))
  }

  /** d took exactly what c sent it, in order, and applied its candidates. */
  predicate TookAll(from: Lane, to: Lane) {
    Signals(to.past.begun) == from.past.sent
    && PeerLane.Settled(to.past.fates) == Trickled(from.past.sent)
    && forall f :: f in to.past.fates ==> f.applied
  }

  lemma AllTaken(m: Mesh, c: ConnId, d: ConnId)
    requires Half(m, c, d) && Half(m, d, c) && AllQuiet(m, c, d) && LanesOk(m)
    ensures var s := m.net.server; Complete(LaneAt(m, c, IdOf(s, d)), LaneAt(m, d, IdOf(s, c)))
  {
    hide Sound, LaneInv;
    var x, y := IdOf(m.net.server, c), IdOf(m.net.server, d);
    LaneFits(m, c, y);
    LaneFits(m, d, x);
    assert Given(m, d, x) + [] + [] == Given(m, d, x);
    EndOfLane(LaneAt(m, c, y), y < x, LaneAt(m, d, x), x < y);
  }

  /** Nothing sent is outstanding. */
  predicate Complete(from: Lane, to: Lane) {
    Signals(to.past.enqueued) == from.past.sent && to.past.begun == to.past.enqueued
    && CountKind(from.past.sent, true) == CountMakes(from.past.enqueued)
    && CountKind(to.past.sent, false) == CountKind(from.past.sent, true)
    && (CountKind(from.past.sent, true) + CountKind(from.past.sent, false) > 0 ==> Established(to) && TookAll(from, to))
  }

  lemma EndOfLane(from: Lane, f: bool, to: Lane, o: bool)
    requires LaneInv(from, f) && Sound(from) && Quiet(from) && LaneInv(to, o) && Sound(to) && Quiet(to)
    requires Signals(to.past.enqueued) == from.past.sent
    ensures Complete(from, to)
  {
    QuietLane(from, f);
    QuietLane(to, o);
    assert to.past.begun + [] == to.past.begun;
  }

  lemma StartPair(cfg: Config, c: ConnId, d: ConnId)
    ensures Inv(cfg, START) && PairInv(START, c, d)
  {
    MeshTheorems.StartInv(cfg);
  }

  lemma AtLeastOne(ops: seq<PeerLane.Op>)
    requires PeerLane.MakeOffer in ops
    ensures CountMakes(ops) >= 1
  {
    if ops[0] != PeerLane.MakeOffer { AtLeastOne(ops[1..]); }
  }

  /** Who is listed once a joined client has read its wire, and is not announced
      on it, is listed already. */
  lemma {:induction false} ListedAlready(v: View, wire: seq<ServerMsg>, q: Id)
    requires v.joined && ProperStream(v, wire) && Has(Fold(v, wire).people, q)
    requires forall m :: m in wire ==> !(m.ParticipantJoined? && m.id == q)
    ensures Has(v.people, q)
    decreases wire
  {
    if wire != [] {
      assert wire[0] in wire && forall m :: m in wire[1..] ==> m in wire;
      ListedAlready(Apply(v, wire[0]), wire[1..], q);
      match wire[0]
      case ParticipantJoined(id, name) => HasPut(v.people, id, name, q);
      case ParticipantLeft(id) => HasDelete(v.people, id);
      case _ =>
    }
  }

  /** The later of two members, once it has read its snapshot, was told to make
      the earlier one an offer. */
  lemma LaterOffers(cfg: Config, m: Mesh, early: ConnId, late: ConnId)
    requires Inv(cfg, m) && PairInv(m, early, late) && Together(m.net.server, early, late)
    requires late in m.net.views && m.net.views[late].joined && IdOf(m.net.server, early) < IdOf(m.net.server, late)
    ensures PeerLane.MakeOffer in LaneAt(m, late, IdOf(m.net.server, early)).past.enqueued
  {
    hide Half, Flow, LaneInv;
    var s := m.net.server;
    var me := s.conns[early].me.value;
    assert RoomNet.Synced(s, late, m.net.views[late]);
    RoomNet.EntryHas(s.rooms[me.roomId], Entry(me.id, Member(me.displayName, early)));
    RoomNet.HasPublic(s.rooms[me.roomId]);
    forall msg | msg in s.conns[late].wire ensures !(msg.ParticipantJoined? && msg.id == me.id) {
      assert WireOk(s.conns[late], |s.owner|, msg);
    }
    ListedAlready(m.net.views[late], s.conns[late].wire, me.id);
  }

  /** Two members of a room for whom everything went well, once the later one has
      read its snapshot and nothing is under way between them: they are connected
      to each other, after exactly one offer from the later and one answer from
      the earlier, and each has taken all the other sent in the order it was
      sent, every ICE candidate included. */
  lemma PairConnects(cfg: Config, run: seq<Step>, early: ConnId, late: ConnId)
    requires cfg.Valid() && IsRun(cfg, START, run) && SmoothRun(cfg, START, run, early, late)
    requires var m := Final(cfg, START, run);
      Together(m.net.server, early, late) && IdOf(m.net.server, early) < IdOf(m.net.server, late)
      && AllQuiet(m, early, late)
      && late in m.net.views && m.net.views[late].joined
    ensures var m := Final(cfg, START, run);
      var a, b := LaneAt(m, early, IdOf(m.net.server, late)), LaneAt(m, late, IdOf(m.net.server, early));
      Established(a) && Established(b) && TookAll(a, b) && TookAll(b, a)
      && b.past.offersSent == a.past.offersTaken == 1 && a.past.answersSent == b.past.answersTaken == 1
      && a.past.offersSent == b.past.answersSent == 0
  {
    StartPair(cfg, early, late);
    RunPair(cfg, START, run, early, late);
    var m := Final(cfg, START, run);
    var s := m.net.server;
    var a, b := LaneAt(m, early, IdOf(s, late)), LaneAt(m, late, IdOf(s, early));
    AllTaken(m, early, late);
    AllTaken(m, late, early);
    LaterOffers(cfg, m, early, late);
    AtLeastOne(b.past.enqueued);
    LaneFits(m, early, IdOf(s, late));
    LaneFits(m, late, IdOf(s, early));
    CountsAgree(a);
    CountsAgree(b);
  }

  lemma CountsAgree(l: Lane)
    requires Ledger(l)
    ensures l.past.offersSent == CountKind(l.past.sent, true) && l.past.answersSent == CountKind(l.past.sent, false)
    ensures l.past.offersTaken == CountKind(Signals(l.past.begun), true)
    ensures l.past.answersTaken == CountKind(Signals(l.past.begun), false)
  {
    OnlySignals(l.past.begun);
  }
}
