/** Work under way in the conference. Every step that brings no new traffic uses
    some of it up, so two members for whom everything goes well do end up connected. */
module Draining {
  import opened JsMap
  import opened Protocol
  import opened RateLimiter
  import opened SignalingServer
  import opened RoomClient
  import RoomNet
  import PeerLane
  import opened Negotiation
  import opened ServerEffects
  import opened Settling
  import opened Mesh
  import opened MeshSafety
  import opened Connected

  /** Bounds on connection numbers, on participant ids, and on the transceivers of
      one connection. */
  datatype Size = Size(conns: nat, ids: nat, transceivers: nat)

  // ------------------------------------------------- what is still to be done

  /** An answer's frame: reading it puts at most one message on every wire. */
  function AnswerFrame(z: Size): nat { 1 + z.conns * 4 }

  /** From the end of the candidate loop to the answer being sent. */
  function AnsweringWork(z: Size): nat { z.transceivers + 3 + AnswerFrame(z) }

  function SignalWork(z: Size, s: Signal): nat {
    match s
    case Candidate(_, _, _) => 2
    case Answer(_) => 3
    case Offer(_) => 3 + AnsweringWork(z)
  }

  /** One more message on a wire, when the frame is read. */
  function Growth(z: Size, f: Frame): nat { if IsSignal(f) then 1 + SignalWork(z, f.body.signal) else 1 }

  function FrameWork(z: Size, f: Frame): nat { 1 + z.conns * Growth(z, f) }

  function OfferFrame(z: Size): nat { 1 + z.conns * (4 + AnsweringWork(z)) }

  function OpWork(z: Size, op: PeerLane.Op): nat {
    match op
    case MakeOffer => 3 + OfferFrame(z)
    case Handle(s) => SignalWork(z, s)
  }

  function MsgWork(z: Size, m: ServerMsg): nat {
    match m
    case RoomJoined(_, _, _) => 1 + z.ids * OpWork(z, PeerLane.MakeOffer)
    case Relay(_, s) => 1 + SignalWork(z, s)
    case _ => 1
  }

  function AwaitWork(z: Size, r: PeerLane.Await): nat {
    match r
    case CreatingOffer => 2 + OfferFrame(z)
    case SettingLocalOffer => 1 + OfferFrame(z)
    case SettingRemote(d) => 2 + if d.Offer? then AnsweringWork(z) else 0
    case Flushing(answering, rest) => 1 + |rest| + if answering then AnsweringWork(z) else 0
    case Attaching(n) => 3 + n + AnswerFrame(z)
    case CreatingAnswer => 2 + AnswerFrame(z)
    case SettingLocalAnswer => 1 + AnswerFrame(z)
    case AddingCandidate(_) => 1
  }

  function OpsWork(z: Size, ops: seq<PeerLane.Op>): nat {
    if ops == [] then 0 else OpWork(z, ops[0]) + OpsWork(z, ops[1..])
  }

  function LaneWork(z: Size, l: Lane): nat {
    OpsWork(z, l.pending) + (if l.running.Some? then AwaitWork(z, l.running.value) else 0)
    + |PeerLane.PeerOf(l).candidates|
  }

  function FramesWork(z: Size, frames: seq<Frame>): nat {
    if frames == [] then 0 else FrameWork(z, frames[0]) + FramesWork(z, frames[1..])
  }

  function WireWork(z: Size, wire: seq<ServerMsg>): nat {
    if wire == [] then 0 else MsgWork(z, wire[0]) + WireWork(z, wire[1..])
  }

  function LanesWork(z: Size, lanes: map<Id, Lane>, k: nat): nat {
    if k == 0 then 0 else LanesWork(z, lanes, k - 1) + LaneWork(z, LaneIn(lanes, k - 1))
  }

  function Uplink(m: Mesh, c: ConnId): seq<Frame> { if c in m.uplinks then m.uplinks[c] else [] }

  function Wire(m: Mesh, c: ConnId): seq<ServerMsg>
  { if c in m.net.server.conns then m.net.server.conns[c].wire else [] }

  function Lanes(m: Mesh, c: ConnId): map<Id, Lane> { if c in m.lanes then m.lanes[c] else map[] }

  function ConnWork(z: Size, m: Mesh, c: ConnId): nat {
    FramesWork(z, Uplink(m, c)) + WireWork(z, Wire(m, c)) + LanesWork(z, Lanes(m, c), z.ids)
  }

  function WorkUpTo(z: Size, m: Mesh, k: nat): nat {
    if k == 0 then 0 else WorkUpTo(z, m, k - 1) + ConnWork(z, m, k - 1)
  }

  function TotalWork(z: Size, m: Mesh): nat { WorkUpTo(z, m, z.conns) }

  predicate Within(m: Mesh, z: Size) {
    (forall c :: c in m.net.server.conns ==> c < z.conns) && |m.net.server.owner| <= z.ids
  }

  /** A step that brings nothing new: no join, no new connection, nothing said, no
      candidate found. */
  predicate Progress(cfg: Config, m: Mesh, e: Step, z: Size)
    requires Enabled(m, e)
  {
    match e
    case Read(_, _) => Next(cfg, m, e).net.server.owner == m.net.server.owner
    case Deliver(_) => true
    case Work(_, _, ev) =>
      ev.Begin? || (ev.Resume? && (ev.outcome.Fulfilled? ==> ev.outcome.transceivers <= z.transceivers))
    case _ => false
  }

  // -------------------------------------------------------------------- sums

  lemma {:induction false} OpsAppend(z: Size, ops: seq<PeerLane.Op>, op: PeerLane.Op)
    ensures OpsWork(z, ops + [op]) == OpsWork(z, ops) + OpWork(z, op)
    decreases ops
  {
    if ops == [] {
      assert [] + [op] == [op] && [op][1..] == [];
    } else {
      assert (ops + [op])[1..] == ops[1..] + [op];
      OpsAppend(z, ops[1..], op);
    }
  }

  lemma {:induction false} FramesAppend(z: Size, frames: seq<Frame>, f: Frame)
    ensures FramesWork(z, frames + [f]) == FramesWork(z, frames) + FrameWork(z, f)
    decreases frames
  {
    if frames == [] {
      assert [] + [f] == [f] && [f][1..] == [];
    } else {
      assert (frames + [f])[1..] == frames[1..] + [f];
      FramesAppend(z, frames[1..], f);
    }
  }

  lemma {:induction false} WireAppend(z: Size, wire: seq<ServerMsg>, m: ServerMsg)
    ensures WireWork(z, wire + [m]) == WireWork(z, wire) + MsgWork(z, m)
    decreases wire
  {
    if wire == [] {
      assert [] + [m] == [m] && [m][1..] == [];
    } else {
      assert (wire + [m])[1..] == wire[1..] + [m];
      WireAppend(z, wire[1..], m);
    }
  }

  lemma {:induction false} OneLane(z: Size, lanes: map<Id, Lane>, lanes': map<Id, Lane>, q: Id, k: nat)
    requires forall p: Id :: p != q ==> LaneIn(lanes', p) == LaneIn(lanes, p)
    ensures LanesWork(z, lanes', k) + (if q < k then LaneWork(z, LaneIn(lanes, q)) else 0)
      == LanesWork(z, lanes, k) + if q < k then LaneWork(z, LaneIn(lanes', q)) else 0
  {
    hide LaneWork;
    if k > 0 { OneLane(z, lanes, lanes', q, k - 1); }
  }

  lemma {:induction false} OneConn(z: Size, m: Mesh, m': Mesh, c: ConnId, k: nat)
    requires forall d: ConnId :: d != c ==> ConnWork(z, m', d) == ConnWork(z, m, d)
    ensures WorkUpTo(z, m', k) + (if c < k then ConnWork(z, m, c) else 0)
      == WorkUpTo(z, m, k) + if c < k then ConnWork(z, m', c) else 0
  {
    hide ConnWork;
    if k > 0 { OneConn(z, m, m', c, k - 1); }
  }

  lemma {:induction false} AllConns(z: Size, m: Mesh, m': Mesh, g: nat, k: nat)
    requires forall d: ConnId :: ConnWork(z, m', d) <= ConnWork(z, m, d) + g
    ensures WorkUpTo(z, m', k) <= WorkUpTo(z, m, k) + k * g
  {
    hide ConnWork;
    if k > 0 {
      AllConns(z, m, m', g, k - 1);
      assert k * g == (k - 1) * g + g;
    }
  }

  lemma {:induction false} NoLanes(z: Size, k: nat)
    ensures LanesWork(z, map[], k) == 0
  {
    if k > 0 { NoLanes(z, k - 1); }
  }

  lemma {:induction false} NewLanes(z: Size, self: Id, people: People, k: nat)
    ensures LanesWork(z, Session(self, people), k) <= k * OpWork(z, PeerLane.MakeOffer)
  {
    if k > 0 {
      NewLanes(z, self, people, k - 1);
      NewcomerWork(z);
      assert k * OpWork(z, PeerLane.MakeOffer)
        == (k - 1) * OpWork(z, PeerLane.MakeOffer) + OpWork(z, PeerLane.MakeOffer);
    }
  }

  lemma NewcomerWork(z: Size)
    ensures LaneWork(z, PeerLane.NEWCOMER) == OpWork(z, PeerLane.MakeOffer) && LaneWork(z, PeerLane.IDLE) == 0
  {
    var l := PeerLane.NEWCOMER;
    NewcomerCounts();
    assert [PeerLane.MakeOffer][1..] == [] && OpsWork(z, []) == 0;
    assert OpsWork(z, l.pending) == OpWork(z, PeerLane.MakeOffer) + OpsWork(z, []);
    assert l.running.None? && PeerLane.PeerOf(l) == PeerLane.NEW_PEER;
  }

  // ------------------------------------------------------------- lane steps

  predicate Bounded(ev: PeerLane.Event, z: Size) {
    ev.Begin? || (ev.Resume? && (ev.outcome.Fulfilled? ==> ev.outcome.transceivers <= z.transceivers))
  }

  function SentWork(z: Size, s: Option<Signal>): nat {
    match s
    case Some(Offer(_)) => OfferFrame(z)
    case Some(Answer(_)) => AnswerFrame(z)
    case _ => 0
  }

  /** One stretch of an operation uses up work, and pays for what it sends. */
  lemma LaneDrains(z: Size, l: Lane, ev: PeerLane.Event)
    requires PeerLane.Enabled(l, ev) && Bounded(ev, z)
    ensures LaneWork(z, PeerLane.Next(l, ev)) + SentWork(z, PeerLane.Sent(l, ev)) < LaneWork(z, l)
  {
    if ev.Begin? {
      BeginDrains(z, l);
    } else if l.peer.Some? && ev.outcome.Fulfilled? && !PeerLane.Refused(l.running.value, l.peer.value) {
      FulfilDrains(z, l, l.peer.value, ev.outcome);
    } else {
      FailDrains(z, l);
    }
  }

  lemma BeginDrains(z: Size, l: Lane)
    requires PeerLane.Enabled(l, PeerLane.Begin)
    ensures LaneWork(z, PeerLane.Next(l, PeerLane.Begin)) < LaneWork(z, l)
  {
    hide AnsweringWork, OfferFrame;
  }

  lemma FailDrains(z: Size, l: Lane)
    requires l.running.Some?
    ensures LaneWork(z, PeerLane.Failed(l)) < LaneWork(z, l)
  {
    hide AnsweringWork, OfferFrame, AnswerFrame;
  }

  lemma FulfilDrains(z: Size, l: Lane, p: PeerLane.Peer, o: PeerLane.Outcome)
    requires l.running.Some? && l.peer == Some(p) && o.Fulfilled? && !PeerLane.Refused(l.running.value, p)
    requires o.transceivers <= z.transceivers
    ensures LaneWork(z, PeerLane.Progress(l, p, o)) + SentWork(z, PeerLane.Sent(l, PeerLane.Resume(o))) < LaneWork(z, l)
  {
    hide OfferFrame, AnswerFrame;
  }

  lemma SentFrame(z: Size, q: Id, s: Signal)
    requires !s.Candidate?
    ensures FrameWork(z, ToPeer(q, s)) == SentWork(z, Some(s))
  {}

  // ----------------------------------------------------------------- steps

  /** Taking the frame off the uplink. */
  lemma HeadTaken(z: Size, m: Mesh, c: ConnId)
    requires c in m.uplinks && m.uplinks[c] != [] && c < z.conns
    ensures TotalWork(z, m) == TotalWork(z, HeadOff(m, c)) + FrameWork(z, m.uplinks[c][0])
  {
    var m1 := HeadOff(m, c);
    forall d: ConnId | d != c ensures ConnWork(z, m1, d) == ConnWork(z, m, d) { SameParts(z, m, m1, d); }
    OneConn(z, m, m1, c, z.conns);
    assert ConnWork(z, m, c) == ConnWork(z, m1, c) + FrameWork(z, m.uplinks[c][0]);
  }

  function HeadOff(m: Mesh, c: ConnId): Mesh
    requires c in m.uplinks && m.uplinks[c] != []
  {
    m.(uplinks := m.uplinks[c := m.uplinks[c][1..]])
  }

  lemma ReadDrains(cfg: Config, m: Mesh, c: ConnId, at: Reading, z: Size)
    requires Inv(cfg, m) && Enabled(m, Read(c, at)) && Progress(cfg, m, Read(c, at), z) && Within(m, z)
    ensures TotalWork(z, Next(cfg, m, Read(c, at))) < TotalWork(z, m)
  {
    hide ConnWork, Flow, LaneInv, Growth;
    var m', f := Next(cfg, m, Read(c, at)), m.uplinks[c][0];
    ReadStep(cfg, m, c, at);
    HeadTaken(z, m, c);
    forall d: ConnId ensures ConnWork(z, m', d) <= ConnWork(z, HeadOff(m, c), d) + Growth(z, f) {
      WireGrowth(z, HeadOff(m, c), m', Input(c, f, false), d);
    }
    AllConns(z, HeadOff(m, c), m', Growth(z, f), z.conns);
  }

  lemma SameParts(z: Size, m: Mesh, m': Mesh, d: ConnId)
    requires Uplink(m', d) == Uplink(m, d) && Wire(m', d) == Wire(m, d) && Lanes(m', d) == Lanes(m, d)
    ensures ConnWork(z, m', d) == ConnWork(z, m, d)
  {}

  /** Handling a frame puts on each wire at most what the frame accounts for. */
  lemma WireGrowth(z: Size, m: Mesh, m': Mesh, i: Input, d: ConnId)
    requires i.c in m.net.server.conns && Handled(m.net.server, m'.net.server, i) && !i.closing
    requires m'.net.server.owner == m.net.server.owner && m'.uplinks == m.uplinks && m'.lanes == m.lanes
    ensures ConnWork(z, m', d) <= ConnWork(z, m, d) + Growth(z, i.from)
  {
    var s, t := m.net.server, m'.net.server;
    if d in s.conns {
      assert Grew(s.conns[d], t.conns[d], |s.owner|, |t.owner|, s.conns[i.c].me, i);
      if t.conns[d].wire != s.conns[d].wire {
        WireAppend(z, s.conns[d].wire, t.conns[d].wire[|t.conns[d].wire| - 1]);
      }
    }
  }

  lemma DeliverConn(z: Size, m: Mesh, m': Mesh, c: ConnId, msg: ServerMsg, v: View)
    requires Delivery(m, m', c, msg, v) && |m.net.server.owner| <= z.ids
    ensures ConnWork(z, m', c) < ConnWork(z, m, c)
  {
    hide React, LanesWork, MsgWork;
    ReactDrains(z, m.lanes[c], v.joined, msg);
  }

  lemma DeliverDrains(cfg: Config, m: Mesh, c: ConnId, z: Size)
    requires Inv(cfg, m) && Enabled(m, Deliver(c)) && Within(m, z)
    ensures TotalWork(z, Next(cfg, m, Deliver(c))) < TotalWork(z, m)
  {
    hide ConnWork, Flow, LaneInv;
    var m' := Next(cfg, m, Deliver(c));
    DeliveryFacts(cfg, m, c);
    DeliverConn(z, m, m', c, m.net.server.conns[c].wire[0], m.net.views[c]);
    forall d: ConnId | d != c ensures ConnWork(z, m', d) == ConnWork(z, m, d) { SameParts(z, m, m', d); }
    OneConn(z, m, m', c, z.conns);
  }

  /** What the lanes take on is less than what the message accounted for. */
  lemma ReactDrains(z: Size, lanes: map<Id, Lane>, joined: bool, msg: ServerMsg)
    requires msg.RoomJoined? ==> lanes == map[]
    requires msg.Relay? ==> msg.sender < z.ids
    requires msg.ParticipantLeft? ==> msg.id < z.ids
    ensures LanesWork(z, React(lanes, joined, msg), z.ids) < LanesWork(z, lanes, z.ids) + MsgWork(z, msg)
  {
    match msg
    case RoomJoined(self, people, _) => NewLanes(z, self, people, z.ids);
    case Relay(sender, signal) =>
      if joined {
        OneLane(z, lanes, React(lanes, joined, msg), sender, z.ids);
        OpsAppend(z, LaneIn(lanes, sender).pending, PeerLane.Handle(signal));
      }
    case ParticipantLeft(id) => if joined { OneLane(z, lanes, React(lanes, joined, msg), id, z.ids); }
    case _ =>
  }

  lemma WorkUplinkWork(z: Size, m: Mesh, m': Mesh, c: ConnId, q: Id, ev: PeerLane.Event)
    requires LaneStep(m, m', c, q, ev) && Bounded(ev, z)
    ensures FramesWork(z, Uplink(m', c)) == FramesWork(z, Uplink(m, c)) + SentWork(z, PeerLane.Sent(m.lanes[c][q], ev))
  {
    hide PeerLane.Next;
    var out := PeerLane.Sent(m.lanes[c][q], ev);
    if out.Some? {
      SentFrame(z, q, out.value);
      FramesAppend(z, m.uplinks[c], ToPeer(q, out.value));
    }
  }

  lemma WorkConn(z: Size, m: Mesh, m': Mesh, c: ConnId, q: Id, ev: PeerLane.Event)
    requires LaneStep(m, m', c, q, ev) && Bounded(ev, z) && q < z.ids
    ensures ConnWork(z, m', c) < ConnWork(z, m, c)
  {
    hide PeerLane.Next, PeerLane.Sent, SentWork, FramesWork, LaneWork;
    LaneDrains(z, m.lanes[c][q], ev);
    WorkUplinkWork(z, m, m', c, q, ev);
    OneLane(z, m.lanes[c], m'.lanes[c], q, z.ids);
  }

  lemma WorkDrains(cfg: Config, m: Mesh, c: ConnId, q: Id, ev: PeerLane.Event, z: Size)
    requires Inv(cfg, m) && Enabled(m, Work(c, q, ev)) && Bounded(ev, z) && Within(m, z)
    ensures TotalWork(z, Next(cfg, m, Work(c, q, ev))) < TotalWork(z, m)
  {
    hide ConnWork, LaneInv;
    var m' := Next(cfg, m, Work(c, q, ev));
    WorkIsDue(cfg, m, c, q, ev);
    WorkConn(z, m, m', c, q, ev);
    forall d: ConnId | d != c ensures ConnWork(z, m', d) == ConnWork(z, m, d) { SameParts(z, m, m', d); }
    OneConn(z, m, m', c, z.conns);
  }

  lemma StepDrains(cfg: Config, m: Mesh, e: Step, z: Size)
    requires cfg.Valid() && Inv(cfg, m) && Enabled(m, e) && Progress(cfg, m, e, z) && Within(m, z)
    ensures TotalWork(z, Next(cfg, m, e)) < TotalWork(z, m) && Within(Next(cfg, m, e), z)
  {
    hide TotalWork, LaneInv, Flow;
    match e
    case Read(c, at) => ReadDrains(cfg, m, c, at, z); ReadStep(cfg, m, c, at);
    case Deliver(c) => DeliverDrains(cfg, m, c, z);
    case Work(c, q, ev) => WorkDrains(cfg, m, c, q, ev, z);
  }

  ghost predicate Quieting(cfg: Config, m: Mesh, run: seq<Step>, z: Size)
    requires IsRun(cfg, m, run)
    decreases run
  {
    run == [] || (Progress(cfg, m, run[0], z) && Quieting(cfg, Next(cfg, m, run[0]), run[1..], z))
  }

  /** Without new traffic the conference comes to rest: a run is no longer than
      the work there is. */
  lemma {:induction false} RunDrains(cfg: Config, m: Mesh, run: seq<Step>, z: Size)
    requires cfg.Valid() && Inv(cfg, m) && Within(m, z) && IsRun(cfg, m, run) && Quieting(cfg, m, run, z)
    ensures |run| + TotalWork(z, Final(cfg, m, run)) <= TotalWork(z, m)
    decreases run
  {
    hide Inv, Within, Progress, TotalWork;
    if run != [] {
      StepDrains(cfg, m, run[0], z);
      StepKeeps(cfg, m, run[0]);
      RunDrains(cfg, Next(cfg, m, run[0]), run[1..], z);
    }
  }

  // -------------------------------------------------------------- the result

  /** No step that goes well for c and d and brings nothing new is possible. */
  ghost predicate AtRest(cfg: Config, m: Mesh, c: ConnId, d: ConnId, z: Size) {
    forall e :: Enabled(m, e) && Progress(cfg, m, e, z) ==> !Smooth(cfg, m, e, c, d)
  }

  /** A moment at which the rate limit admits a message: once the interval is over. */
  function Later(cfg: Config, b: Bucket): Reading {
    var now := b.lastRefill + cfg.limits.interval;
    Reading(now, now)
  }

  lemma LaterAdmits(cfg: Config, b: Bucket)
    requires cfg.Valid()
    ensures Admits(cfg.limits, b, Later(cfg, b))
  {}

  lemma CanRead(cfg: Config, m: Mesh, c: ConnId, d: ConnId, x: ConnId, z: Size)
    requires cfg.Valid() && Inv(cfg, m) && PairInv(m, c, d) && (x == c || x == d)
    requires Known(m.net.server, x) && x in m.uplinks && m.uplinks[x] != []
    ensures var e := Read(x, Later(cfg, m.net.server.conns[x].bucket));
      Enabled(m, e) && Progress(cfg, m, e, z) && Smooth(cfg, m, e, c, d)
  {
    hide Half, Flow, LaneInv;
    LaterAdmits(cfg, m.net.server.conns[x].bucket);
    ReadStep(cfg, m, x, Later(cfg, m.net.server.conns[x].bucket));
  }

  lemma UplinkRead(cfg: Config, m: Mesh, c: ConnId, d: ConnId, x: ConnId, z: Size)
    requires cfg.Valid() && Inv(cfg, m) && PairInv(m, c, d) && AtRest(cfg, m, c, d, z) && (x == c || x == d)
    requires Known(m.net.server, x)
    ensures x in m.uplinks && m.uplinks[x] == []
  {
    hide PairInv, Flow, LaneInv, Smooth, Progress, RoomNet.Inv;
    if m.uplinks[x] != [] { CanRead(cfg, m, c, d, x, z); }
  }

  lemma CanDeliver(cfg: Config, m: Mesh, c: ConnId, d: ConnId, x: ConnId, z: Size)
    requires Inv(cfg, m) && PairInv(m, c, d) && (x == c || x == d)
    requires Known(m.net.server, x) && m.net.server.conns[x].wire != []
    ensures Enabled(m, Deliver(x)) && Progress(cfg, m, Deliver(x), z) && Smooth(cfg, m, Deliver(x), c, d)
  {
    hide Half, Flow, LaneInv;
  }

  lemma WireDelivered(cfg: Config, m: Mesh, c: ConnId, d: ConnId, x: ConnId, z: Size)
    requires Inv(cfg, m) && PairInv(m, c, d) && AtRest(cfg, m, c, d, z) && (x == c || x == d)
    requires Known(m.net.server, x)
    ensures m.net.server.conns[x].wire == []
  {
    hide PairInv, Inv, Smooth, Progress;
    if m.net.server.conns[x].wire != [] { CanDeliver(cfg, m, c, d, x, z); }
  }

  /** A promise that is awaited can be fulfilled well. */
  const WELL := PeerLane.Fulfilled(Text("v=0"), 0, true)

  function NextWork(l: Lane): PeerLane.Event { if l.running.Some? then PeerLane.Resume(WELL) else PeerLane.Begin }

  lemma CanWork(cfg: Config, m: Mesh, c: ConnId, d: ConnId, x: ConnId, q: Id, z: Size)
    requires !LaneAt(m, x, q).shut && x in m.uplinks && !Quiet(LaneAt(m, x, q))
    ensures var e := Work(x, q, NextWork(LaneAt(m, x, q)));
      Enabled(m, e) && Progress(cfg, m, e, z) && Smooth(cfg, m, e, c, d)
  {
    assert x in m.lanes && q in m.lanes[x];
  }

  lemma LaneQuiet(cfg: Config, m: Mesh, c: ConnId, d: ConnId, x: ConnId, q: Id, z: Size)
    requires AtRest(cfg, m, c, d, z) && !LaneAt(m, x, q).shut && x in m.uplinks
    ensures Quiet(LaneAt(m, x, q))
  {
    hide Smooth, Progress, NextWork;
    if !Quiet(LaneAt(m, x, q)) { CanWork(cfg, m, c, d, x, q, z); }
  }

  lemma RestIsQuiet(cfg: Config, m: Mesh, early: ConnId, late: ConnId, z: Size)
    requires cfg.Valid() && Inv(cfg, m) && PairInv(m, early, late) && Together(m.net.server, early, late)
    requires AtRest(cfg, m, early, late, z)
    ensures AllQuiet(m, early, late) && late in m.net.views && m.net.views[late].joined
  {
    hide AtRest, Flow, LaneInv, Conveyed;
    var s := m.net.server;
    UplinkRead(cfg, m, early, late, early, z);
    UplinkRead(cfg, m, early, late, late, z);
    WireDelivered(cfg, m, early, late, early, z);
    WireDelivered(cfg, m, early, late, late, z);
    LaneQuiet(cfg, m, early, late, early, IdOf(s, late), z);
    LaneQuiet(cfg, m, early, late, late, IdOf(s, early), z);
    assert RoomNet.Synced(s, late, m.net.views[late]);
    assert Fold(m.net.views[late], []) == m.net.views[late];
  }

  lemma {:induction false} RunAppend(cfg: Config, m: Mesh, run: seq<Step>, more: seq<Step>)
    requires IsRun(cfg, m, run) && IsRun(cfg, Final(cfg, m, run), more)
    ensures IsRun(cfg, m, run + more) && Final(cfg, m, run + more) == Final(cfg, Final(cfg, m, run), more)
    decreases run
  {
    hide Next, Enabled;
    if run == [] {
      assert run + more == more;
    } else {
      RunAppend(cfg, Next(cfg, m, run[0]), run[1..], more);
      assert (run + more)[1..] == run[1..] + more;
    }
  }

  lemma {:induction false} SmoothAppend(cfg: Config, m: Mesh, run: seq<Step>, more: seq<Step>, c: ConnId, d: ConnId)
    requires IsRun(cfg, m, run) && IsRun(cfg, Final(cfg, m, run), more) && IsRun(cfg, m, run + more)
    requires SmoothRun(cfg, m, run, c, d) && SmoothRun(cfg, Final(cfg, m, run), more, c, d)
    ensures SmoothRun(cfg, m, run + more, c, d)
    decreases run
  {
    hide Next, Enabled, Smooth;
    if run == [] {
      assert run + more == more;
    } else {
      assert (run + more)[1..] == run[1..] + more;
      RunAppend(cfg, Next(cfg, m, run[0]), run[1..], more);
      SmoothAppend(cfg, Next(cfg, m, run[0]), run[1..], more, c, d);
    }
  }

  /** Two members of a room for whom everything goes well become connected: from
      any such state, whatever is scheduled, a run without new traffic cannot go on
      for longer than the work there is, and once no step is possible each has
      taken all the other sent and both are connected, after one offer from the
      later and one answer from the earlier. */
  lemma EventuallyConnected(cfg: Config, run: seq<Step>, more: seq<Step>, early: ConnId, late: ConnId, z: Size)
    requires cfg.Valid() && IsRun(cfg, START, run) && SmoothRun(cfg, START, run, early, late)
    requires var m := Final(cfg, START, run);
      IsRun(cfg, m, more) && SmoothRun(cfg, m, more, early, late) && Within(m, z) && Quieting(cfg, m, more, z)
    requires var m' := Final(cfg, Final(cfg, START, run), more);
      Together(m'.net.server, early, late) && IdOf(m'.net.server, early) < IdOf(m'.net.server, late)
    ensures var m := Final(cfg, START, run);
      var m' := Final(cfg, m, more);
      var a, b := LaneAt(m', early, IdOf(m'.net.server, late)), LaneAt(m', late, IdOf(m'.net.server, early));
      |more| <= TotalWork(z, m)
      && (AtRest(cfg, m', early, late, z) ==>
            Established(a) && Established(b) && TookAll(a, b) && TookAll(b, a)
            && b.past.offersSent == a.past.offersTaken == 1 && a.past.answersSent == b.past.answersTaken == 1)
  {
    hide AtRest, TotalWork, Established, TookAll, PairInv, Inv;
    var m := Final(cfg, START, run);
    var m' := Final(cfg, m, more);
    StartPair(cfg, early, late);
    RunPair(cfg, START, run, early, late);
    RunDrains(cfg, m, more, z);
    RunPair(cfg, m, more, early, late);
    if AtRest(cfg, m', early, late, z) {
      RestIsQuiet(cfg, m', early, late, z);
      RunAppend(cfg, START, run, more);
      SmoothAppend(cfg, START, run, more, early, late);
      PairConnects(cfg, run + more, early, late);
    }
  }
}
