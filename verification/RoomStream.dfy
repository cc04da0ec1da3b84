/** Everything the server ever sent to one client, in order: what it has read and
    what is still on its wire. Nothing after the notice that somebody left is about
    that participant, no snapshot names anybody twice, and what a client knows of
    its room is what it has read. */
module RoomStream {
  import opened JsMap
  import opened Protocol
  import opened RateLimiter
  import opened SignalingServer
  import opened RoomClient
  import opened RoomNet
  import opened ServerEffects

  function Stream(n: Net, c: ConnId): seq<ServerMsg> {
    ReadBy(n, c) + if c in n.server.conns then n.server.conns[c].wire else []
  }

  /** A message that takes q to be in the room, or says again that it left. */
  predicate About(m: ServerMsg, q: Id) {
    match m
    case RoomJoined(_, _, _) => true
    case ParticipantJoined(id, _) => id == q
    case ParticipantLeft(id) => id == q
    case Relay(sender, _) => sender == q
    case ChatMessage(chat) => chat.sender == q
    case _ => false
  }

  /** After q's departure nothing more is about q. */
  ghost predicate DeparturesFinal(st: seq<ServerMsg>) {
    forall i, j :: 0 <= i < j < |st| && st[i].ParticipantLeft? ==> !About(st[j], st[i].id)
  }

  predicate Departed(s: State, q: Id) { q < |s.owner| && s.owner[q] in s.conns && s.conns[s.owner[q]].gone }

  ghost predicate StreamOk(s: State, k: Conn, st: seq<ServerMsg>) {
    DeparturesFinal(st) && SnapshotsDistinct(st)
    && forall m :: m in st && m.ParticipantLeft? ==> k.me.Some? && Departed(s, m.id)
  }

  /** No snapshot names a participant twice. */
  ghost predicate SnapshotsDistinct(st: seq<ServerMsg>) { forall m :: m in st && m.RoomJoined? ==> Distinct(m.people) }

  ghost predicate StreamsOk(n: Net) {
    forall c :: c in n.server.conns ==> StreamOk(n.server, n.server.conns[c], Stream(n, c))
  }

  /** What a client knows is what it has read. */
  ghost predicate ViewsRead(n: Net) {
    forall c :: c in n.server.conns && c in n.views && c !in n.left ==>
      ProperStream(LOBBY, ReadBy(n, c)) && Fold(LOBBY, ReadBy(n, c)) == n.views[c]
  }

  lemma {:induction false} ProperConcat(v: View, a: seq<ServerMsg>, b: seq<ServerMsg>)
    requires ProperStream(v, a) && ProperStream(Fold(v, a), b)
    ensures ProperStream(v, a + b)
    decreases a
  {
    if a == [] {
      assert a + b == b;
    } else {
      ProperConcat(Apply(v, a[0]), a[1..], b);
      assert (a + b)[1..] == a[1..] + b;
    }
  }

  /** One more message the server adds to a stream, if any. */
  lemma StreamGrows(s: State, t: State, i: Input, c: ConnId, st: seq<ServerMsg>, m: ServerMsg)
    requires i.c in s.conns && Handled(s, t, i) && IdsOwned(s) && !s.conns[i.c].gone && c in s.conns
    requires StreamOk(s, s.conns[c], st)
    requires Fits(s.conns[c], t.conns[c], |s.owner|, |t.owner|, s.conns[i.c].me, i, m)
    ensures StreamOk(t, t.conns[c], st + [m])
  {
    var st' := st + [m];
    forall j, k | 0 <= j < k < |st'| && st'[j].ParticipantLeft? ensures !About(st'[k], st'[j].id) {
      assert st'[j] == st[j] && st[j] in st;
      if k == |st| { NotAboutDeparted(s, t, i, c, m, st[j].id); }
    }
    forall x | x in st' && x.ParticipantLeft? ensures t.conns[c].me.Some? && Departed(t, x.id) {
      if x in st { StillDeparted(s, t, i, x.id); } else { assert x == m && s.owner[x.id] == i.c; }
    }
  }

  lemma StillDeparted(s: State, t: State, i: Input, q: Id)
    requires i.c in s.conns && Handled(s, t, i) && Departed(s, q)
    ensures Departed(t, q)
  {}

  /** Whoever departed is not the participant being handled, nor the newcomer. */
  lemma NotAboutDeparted(s: State, t: State, i: Input, c: ConnId, m: ServerMsg, q: Id)
    requires i.c in s.conns && IdsOwned(s) && !s.conns[i.c].gone && c in s.conns && c in t.conns
    requires Fits(s.conns[c], t.conns[c], |s.owner|, |t.owner|, s.conns[i.c].me, i, m)
    requires s.conns[c].me.Some? && Departed(s, q)
    ensures !About(m, q)
  {
    if s.conns[i.c].me.Some? { assert s.owner[s.conns[i.c].me.value.id] == i.c; }
  }

  lemma HandledKeeps(n: Net, n': Net, i: Input)
    requires StreamsOk(n) && IdsOwned(n.server) && i.c in n.server.conns && !n.server.conns[i.c].gone
    requires Handled(n.server, n'.server, i) && n'.read == n.read
    ensures StreamsOk(n')
  {
    var s, t := n.server, n'.server;
    forall c | c in t.conns ensures StreamOk(t, t.conns[c], Stream(n', c)) {
      assert StreamOk(s, s.conns[c], Stream(n, c));
      assert Grew(s.conns[c], t.conns[c], |s.owner|, |t.owner|, s.conns[i.c].me, i);
      if t.conns[c].wire == s.conns[c].wire {
        forall m | m in Stream(n, c) && m.ParticipantLeft? ensures Departed(t, m.id) { StillDeparted(s, t, i, m.id); }
      } else {
        var m := t.conns[c].wire[|t.conns[c].wire| - 1];
        assert Stream(n', c) == Stream(n, c) + [m];
        StreamGrows(s, t, i, c, Stream(n, c), m);
      }
    }
  }

  /** Steps in which the server handles nothing leave every stream as it is. */
  lemma SameStreams(n: Net, n': Net)
    requires StreamsOk(n) && n'.server.owner == n.server.owner && n'.server.conns.Keys >= n.server.conns.Keys
    requires forall c :: c in n.server.conns ==>
      Stream(n', c) == Stream(n, c) && n'.server.conns[c].me == n.server.conns[c].me
      && n'.server.conns[c].gone == n.server.conns[c].gone
    requires forall c :: c in n'.server.conns && c !in n.server.conns ==> Stream(n', c) == []
    ensures StreamsOk(n')
  {
    forall c | c in n'.server.conns ensures StreamOk(n'.server, n'.server.conns[c], Stream(n', c)) {
      if c in n.server.conns {
        assert StreamOk(n.server, n.server.conns[c], Stream(n, c));
        assert forall q :: Departed(n.server, q) ==> Departed(n'.server, q);
      }
    }
  }

  lemma DeliverSame(cfg: Config, n: Net, c: ConnId)
    requires Enabled(n, Deliver(c)) && StreamsOk(n)
    ensures StreamsOk(Next(cfg, n, Deliver(c)))
  {
    var n', wire := Next(cfg, n, Deliver(c)), n.server.conns[c].wire;
    assert (ReadBy(n, c) + [wire[0]]) + wire[1..] == ReadBy(n, c) + wire;
    SameStreams(n, n');
  }

  lemma MessageKeepsStreams(cfg: Config, n: Net, c: ConnId, frame: Frame, at: Reading)
    requires Registry(n.server, cfg) && StreamsOk(n) && Enabled(n, Message(c, frame, at))
    ensures StreamsOk(Next(cfg, n, Message(c, frame, at)))
  {
    MessageHandled(n.server, cfg, c, frame, at);
    HandledKeeps(n, Next(cfg, n, Message(c, frame, at)), Input(c, frame, false));
  }

  lemma CloseKeepsStreams(cfg: Config, n: Net, c: ConnId)
    requires Registry(n.server, cfg) && StreamsOk(n) && Enabled(n, Close(c))
    ensures StreamsOk(Next(cfg, n, Close(c)))
  {
    CloseHandled(n.server, cfg, c);
    HandledKeeps(n, Next(cfg, n, Close(c)), Input(c, Garbage, true));
  }

  lemma StepKeepsStreams(cfg: Config, n: Net, e: Step)
    requires Inv(cfg, n) && StreamsOk(n) && Enabled(n, e)
    ensures StreamsOk(Next(cfg, n, e))
  {
    hide StreamsOk, Synced;
    match e
    case Message(c, frame, at) => MessageKeepsStreams(cfg, n, c, frame, at);
    case Close(c) => CloseKeepsStreams(cfg, n, c);
    case Deliver(c) => DeliverSame(cfg, n, c);
    case _ => SilentSame(cfg, n, e);
  }

  lemma SilentSame(cfg: Config, n: Net, e: Step)
    requires n.views.Keys == n.server.conns.Keys && Enabled(n, e) && StreamsOk(n)
    requires e.Open? || e.LoseOpen? || e.Leave?
    ensures StreamsOk(Next(cfg, n, e))
  {
    SameStreams(n, Next(cfg, n, e));
  }

  lemma StepKeepsViews(cfg: Config, n: Net, e: Step)
    requires Inv(cfg, n) && ViewsRead(n) && Enabled(n, e) && (e.Close? ==> OnClose(n.server, e.c).Some?)
    ensures ViewsRead(Next(cfg, n, e))
  {
    if e.Deliver? && e.c !in n.left {
      assert Synced(n.server, e.c, n.views[e.c]);
      FoldAppend(LOBBY, ReadBy(n, e.c), n.server.conns[e.c].wire[0]);
    }
    if !e.Open? { SameKeys(cfg, n, e); }
  }

  lemma SameKeys(cfg: Config, n: Net, e: Step)
    requires Inv(cfg, n) && Enabled(n, e) && !e.Open? && (e.Close? ==> OnClose(n.server, e.c).Some?)
    ensures Next(cfg, n, e).server.conns.Keys == n.server.conns.Keys
  {
    match e
    case Message(c, frame, at) => MessageHandled(n.server, cfg, c, frame, at);
    case Close(c) => CloseHandled(n.server, cfg, c);
    case _ =>
  }

  lemma {:induction false} RunKeepsStreams(cfg: Config, n: Net, run: seq<Step>)
    requires cfg.Valid() && Inv(cfg, n) && StreamsOk(n) && ViewsRead(n) && IsRun(cfg, n, run)
    ensures StreamsOk(Final(cfg, n, run)) && ViewsRead(Final(cfg, n, run))
    decreases run
  {
    hide Inv, StreamsOk, ViewsRead;
    if run != [] {
      CloseFindsRoom(cfg, n, run[0]);
      StepKeepsStreams(cfg, n, run[0]);
      StepKeepsViews(cfg, n, run[0]);
      StepKeeps(cfg, n, run[0]);
      RunKeepsStreams(cfg, Next(cfg, n, run[0]), run[1..]);
    }
  }

  lemma CloseFindsRoom(cfg: Config, n: Net, e: Step)
    requires Inv(cfg, n) && Enabled(n, e)
    ensures e.Close? ==> OnClose(n.server, e.c).Some?
  {
    if e.Close? { CloseKeeps(cfg, n, e.c); }
  }
}
