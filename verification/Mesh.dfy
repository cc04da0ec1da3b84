/** The whole conference: the server, the wires, and clients that run the page's
    code, with one lane per remote participant and an uplink to the server. */
module Mesh {
  import opened JsMap
  import opened Protocol
  import opened RateLimiter
  import opened SignalingServer
  import RoomNet
  import PeerLane
  import opened Negotiation

  type Lane = PeerLane.Lane

  /** `uplinks` holds what each client sent and the server has not read. */
  datatype Mesh = Mesh(net: RoomNet.Net, uplinks: map<ConnId, seq<Frame>>, lanes: map<ConnId, map<Id, Lane>>)

  const START := Mesh(RoomNet.START, map[], map[])

  datatype Step =
    | Open(c: ConnId, now: int)
    // The page sends something other than a signal: room.join, chat, ping.
    | Say(c: ConnId, frame: Frame)
    | Read(c: ConnId, at: Reading)
    | LoseOpen(c: ConnId)
    | Close(c: ConnId)
    | Deliver(c: ConnId)
    | Leave(c: ConnId)
    // On c's lane for q: one synchronous piece of an operation, or a candidate found.
    | Work(c: ConnId, q: Id, e: PeerLane.Event)

  function LaneIn(lanes: map<Id, Lane>, q: Id): Lane { if q in lanes then lanes[q] else PeerLane.IDLE }

  function LaneAt(m: Mesh, c: ConnId, q: Id): Lane {
    if c in m.lanes then LaneIn(m.lanes[c], q) else PeerLane.IDLE
  }

  predicate Enabled(m: Mesh, e: Step) {
    match e
    case Open(c, now) => RoomNet.Enabled(m.net, RoomNet.Open(c, now))
    case Say(c, frame) => c in m.uplinks && c !in m.net.left && !IsSignal(frame)
    case Read(c, at) => c in m.uplinks && m.uplinks[c] != []
                        && RoomNet.Enabled(m.net, RoomNet.Message(c, m.uplinks[c][0], at))
    case LoseOpen(c) => RoomNet.Enabled(m.net, RoomNet.LoseOpen(c))
    case Close(c) => RoomNet.Enabled(m.net, RoomNet.Close(c))
    case Deliver(c) => c in m.lanes && RoomNet.Enabled(m.net, RoomNet.Deliver(c))
    case Leave(c) => c in m.lanes && RoomNet.Enabled(m.net, RoomNet.Leave(c))
    case Work(c, q, ev) => c in m.uplinks && c in m.lanes && q in m.lanes[c] && (ev.Begin? || ev.Resume? || ev.Trickle?)
                           && PeerLane.Enabled(m.lanes[c][q], ev)
  }

  /** `start` queues one offer for everybody in the snapshot but oneself. */
  function Session(self: Id, people: People): map<Id, Lane> {
    map e | e in people && e.key != self :: e.key := PeerLane.NEWCOMER
  }

  /** What the client's session does with a delivered message. */
  function React(lanes: map<Id, Lane>, joined: bool, msg: ServerMsg): map<Id, Lane> {
    match msg
    case RoomJoined(self, people, _) => Session(self, people)
    case Relay(sender, signal) =>
      if joined then SetLane(lanes, sender,
                             PeerLane.Next(LaneIn(lanes, sender), PeerLane.Enqueue(PeerLane.Handle(signal))))
      else lanes
    case ParticipantLeft(id) =>
      if joined then SetLane(lanes, id, PeerLane.Next(LaneIn(lanes, id), PeerLane.Shut)) else lanes
    case _ => lanes
  }

  function ToPeer(q: Id, s: Signal): Frame { Request(None, SignalTo(q, s)) }

  function SetLane(lanes: map<Id, Lane>, q: Id, l: Lane): map<Id, Lane> { lanes[q := l] }

  function Next(cfg: Config, m: Mesh, e: Step): Mesh
    requires Enabled(m, e)
  {
    match e
    case Open(c, now) =>
      Mesh(RoomNet.Next(cfg, m.net, RoomNet.Open(c, now)), m.uplinks[c := []], m.lanes[c := map[]])
    case Say(c, frame) => m.(uplinks := m.uplinks[c := m.uplinks[c] + [frame]])
    case Read(c, at) =>
      m.(net := RoomNet.Next(cfg, m.net, RoomNet.Message(c, m.uplinks[c][0], at)),
         uplinks := m.uplinks[c := m.uplinks[c][1..]])
    case LoseOpen(c) => m.(net := RoomNet.Next(cfg, m.net, RoomNet.LoseOpen(c)))
    case Close(c) => m.(net := RoomNet.Next(cfg, m.net, RoomNet.Close(c)))
    case Deliver(c) =>
      m.(net := RoomNet.Next(cfg, m.net, RoomNet.Deliver(c)),
         lanes := m.lanes[c := React(m.lanes[c], m.net.views[c].joined, m.net.server.conns[c].wire[0])])
    case Leave(c) =>
      m.(net := RoomNet.Next(cfg, m.net, RoomNet.Leave(c)),
         lanes := m.lanes[c := map q | q in m.lanes[c] :: PeerLane.Next(m.lanes[c][q], PeerLane.Shut)])
    case Work(c, q, ev) =>
      var l := m.lanes[c][q];
      var out := PeerLane.Sent(l, ev);
      m.(lanes := m.lanes[c := SetLane(m.lanes[c], q, PeerLane.Next(l, ev))],
         uplinks := if out.None? then m.uplinks else m.uplinks[c := m.uplinks[c] + [ToPeer(q, out.value)]])
  }

  predicate IsRun(cfg: Config, m: Mesh, run: seq<Step>)
    decreases run
  {
    run == [] || (Enabled(m, run[0]) && IsRun(cfg, Next(cfg, m, run[0]), run[1..]))
  }

  function Final(cfg: Config, m: Mesh, run: seq<Step>): Mesh
    requires IsRun(cfg, m, run)
    decreases run
  {
    if run == [] then m else Final(cfg, Next(cfg, m, run[0]), run[1..])
  }

  // ------------------------------------------------------- counting in transit

  function CountRelays(wire: seq<ServerMsg>, x: Id, offer: bool): nat {
    if wire == [] then 0
    else (if wire[0].Relay? && wire[0].sender == x && IsKind(wire[0].signal, offer) then 1 else 0)
         + CountRelays(wire[1..], x, offer)
  }

  predicate SignalsTo(f: Frame, y: Id, offer: bool) {
    IsSignal(f) && f.body.target == y && IsKind(f.body.signal, offer)
  }

  function CountSignals(frames: seq<Frame>, y: Id, offer: bool): nat {
    if frames == [] then 0
    else (if SignalsTo(frames[0], y, offer) then 1 else 0) + CountSignals(frames[1..], y, offer)
  }

  lemma {:induction false} CountRelaysAppend(wire: seq<ServerMsg>, m: ServerMsg, x: Id, offer: bool)
    ensures CountRelays(wire + [m], x, offer)
      == CountRelays(wire, x, offer) + if m.Relay? && m.sender == x && IsKind(m.signal, offer) then 1 else 0
    decreases wire
  {
    if wire == [] {
      assert [] + [m] == [m] && [m][1..] == [];
    } else {
      assert (wire + [m])[1..] == wire[1..] + [m];
      CountRelaysAppend(wire[1..], m, x, offer);
    }
  }

  lemma {:induction false} CountSignalsAppend(frames: seq<Frame>, f: Frame, y: Id, offer: bool)
    ensures CountSignals(frames + [f], y, offer)
      == CountSignals(frames, y, offer) + if SignalsTo(f, y, offer) then 1 else 0
    decreases frames
  {
    if frames == [] {
      assert [] + [f] == [f] && [f][1..] == [];
    } else {
      assert (frames + [f])[1..] == frames[1..] + [f];
      CountSignalsAppend(frames[1..], f, y, offer);
    }
  }

  lemma {:induction false} NoRelays(wire: seq<ServerMsg>, x: Id, offer: bool)
    requires forall m :: m in wire ==> !(m.Relay? && m.sender == x)
    ensures CountRelays(wire, x, offer) == 0
    decreases wire
  {
    if wire != [] { assert wire[0] in wire; NoRelays(wire[1..], x, offer); }
  }

  lemma {:induction false} NoSignals(frames: seq<Frame>, y: Id, offer: bool)
    requires forall f :: f in frames ==> !(IsSignal(f) && f.body.target == y)
    ensures CountSignals(frames, y, offer) == 0
    decreases frames
  {
    if frames != [] { assert frames[0] in frames; NoSignals(frames[1..], y, offer); }
  }

  // ---------------------------------------------------------------- invariants

  /** Ids in a message on connection k's wire were issued, and make sense for k. */
  predicate WireOk(k: Conn, issued: nat, m: ServerMsg) {
    match m
    case RoomJoined(self, people, _) =>
      k.me.Some? && self == k.me.value.id < issued && forall e :: e in people ==> e.key <= self
    case ParticipantJoined(id, _) => k.me.Some? && k.me.value.id < id < issued
    case Relay(sender, _) => k.me.Some? && sender < issued && sender != k.me.value.id
    case ParticipantLeft(id) => k.me.Some? && id < issued && id != k.me.value.id
    case _ => true
  }

  ghost predicate WiresOk(s: State) {
    forall c, m :: c in s.conns && m in s.conns[c].wire ==> WireOk(s.conns[c], |s.owner|, m)
  }

  predicate UplinkOk(k: Conn, issued: nat, f: Frame) {
    IsSignal(f) ==> k.me.Some? && f.body.target < issued
  }

  ghost predicate UplinksOk(m: Mesh) {
    forall c, f :: c in m.uplinks && c in m.net.server.conns && f in m.uplinks[c] ==>
      UplinkOk(m.net.server.conns[c], |m.net.server.owner|, f)
  }

  predicate LaneOk(k: Conn, issued: nat, q: Id, l: Lane) {
    k.me.Some? && q < issued && q != k.me.value.id && LaneInv(l, q < k.me.value.id)
  }

  ghost predicate LanesOk(m: Mesh) {
    (forall c, q :: c in m.lanes && c in m.net.server.conns && q in m.lanes[c] ==>
       LaneOk(m.net.server.conns[c], |m.net.server.owner|, q, m.lanes[c][q]))
    && forall c :: c in m.lanes && c in m.net.views && c !in m.net.left && !m.net.views[c].joined ==>
       m.lanes[c] == map[]
  }

  /** Everything y's side has taken from x, has queued, or may still get, x's
      side has sent. */
  predicate Flow(m: Mesh, x: Id, y: Id, offer: bool)
    requires x < |m.net.server.owner| && y < |m.net.server.owner|
  {
    var s, cx, cy := m.net.server, m.net.server.owner[x], m.net.server.owner[y];
    cx in m.uplinks && cy in s.conns
    && TakenN(LaneAt(m, cy, x), offer) + CountOps(LaneAt(m, cy, x).pending, offer)
       + CountRelays(s.conns[cy].wire, x, offer) + CountSignals(m.uplinks[cx], y, offer)
       <= SentN(LaneAt(m, cx, y), offer)
  }

  ghost predicate Flows(m: Mesh) {
    forall x, y, offer :: 0 <= x < |m.net.server.owner| && 0 <= y < |m.net.server.owner| ==> Flow(m, x, y, offer)
  }

  ghost predicate Inv(cfg: Config, m: Mesh) {
    RoomNet.Inv(cfg, m.net)
    && m.uplinks.Keys == m.net.server.conns.Keys && m.lanes.Keys == m.net.server.conns.Keys
    && WiresOk(m.net.server) && UplinksOk(m) && LanesOk(m) && Flows(m)
  }
}
