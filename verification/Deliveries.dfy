/** Everything the server ever sends: names and texts are stripped, not blank and
    within their limits, and signals are well formed. */
module Deliveries {
  import opened JsMap
  import opened Protocol
  import opened RateLimiter
  import opened SignalingServer
  import opened RoomNet
  import RoomLimits
  import opened RoomStream
  import opened ServerAnswers
  import opened Sockets
  import RoomTheorems

  predicate CleanName(name: string) { RoomLimits.Clean(name, 50) }

  /** Names and texts are stripped, not blank and within their limits, and signals are
      what their type asks for. */
  predicate Sane(m: ServerMsg) {
    match m
    case Relay(_, signal) => GoodSignal(signal)
    case RoomJoined(_, people, _) => forall i :: 0 <= i < |people| ==> CleanName(people[i].value)
    case ParticipantJoined(_, name) => CleanName(name)
    case ChatMessage(chat) => CleanName(chat.displayName) && RoomLimits.Clean(chat.text, 4000)
    case _ => true
  }

  /** What handling an input adds to the wires is sane. */
  ghost predicate AddsSane(s: State, t: State) {
    t.conns.Keys == s.conns.Keys
    && forall d :: d in s.conns ==>
      t.conns[d].wire == s.conns[d].wire
      || exists m :: t.conns[d].wire == s.conns[d].wire + [m] && Sane(m)
  }

  lemma OneSane(cfg: Config, s: State, t: State, c: ConnId, at: Reading, d: ConnId, sent: seq<ServerMsg>)
    requires c in s.conns && d in s.conns && Gets(cfg, s, t, c, at, d, sent)
    requires sent == [] || (|sent| == 1 && Sane(sent[0]))
    ensures t.conns[d].wire == s.conns[d].wire
      || exists m :: t.conns[d].wire == s.conns[d].wire + [m] && Sane(m)
  {
    if s.conns[d].open && sent != [] { assert sent == [sent[0]]; }
  }

  lemma StrippedIsClean(text: string, said: string, max: nat)
    requires Stripped(text, said) && |text| <= max
    ensures RoomLimits.Clean(said, max)
  {}

  lemma AnswersAddSane(cfg: Config, s: State, t: State, c: ConnId, at: Reading)
    requires c in s.conns && t.conns.Keys == s.conns.Keys
    requires forall d :: d in s.conns ==>
      exists sent :: Gets(cfg, s, t, c, at, d, sent) && (sent == [] || (|sent| == 1 && Sane(sent[0])))
    ensures AddsSane(s, t)
  {
    forall d | d in s.conns
      ensures t.conns[d].wire == s.conns[d].wire
        || exists m :: t.conns[d].wire == s.conns[d].wire + [m] && Sane(m)
    {
      var sent :| Gets(cfg, s, t, c, at, d, sent) && (sent == [] || (|sent| == 1 && Sane(sent[0])));
      OneSane(cfg, s, t, c, at, d, sent);
    }
  }

  lemma RoomNamesClean(cfg: Config, s: State, r: RoomId)
    requires Registry(s, cfg) && RoomLimits.Tidy(s)
    ensures forall i :: 0 <= i < |RoomOf(s, r)| ==> CleanName(RoomOf(s, r)[i].value.displayName)
  {
    forall i | 0 <= i < |RoomOf(s, r)| ensures CleanName(RoomOf(s, r)[i].value.displayName) {
      assert RoomOf(s, r)[i] in s.rooms[r];
      assert Seated(s, r, RoomOf(s, r)[i]);
    }
  }

  lemma JoinAddsSane(cfg: Config, s: State, c: ConnId, f: Frame, at: Reading)
    requires cfg.Valid() && Registry(s, cfg) && RoomLimits.Tidy(s) && c in s.conns && !s.conns[c].gone
    requires Refusal(cfg, s, c, f, at).None? && f.Request? && f.body.JoinRoom?
    ensures AddsSane(s, OnMessage(s, cfg, c, f, at))
  {
    hide Registry, Refusal, OnMessage, Stripped, Gets, AddsSane, RoomLimits.Tidy, RoomLimits.Clean;
    var name := JoinSeatsNewcomer(cfg, s, c, f, at);
    var t, r := OnMessage(s, cfg, c, f, at), f.body.roomId.text;
    var t1 := t.(conns := t.conns[c := t.conns[c].(me := None, since := s.conns[c].since)]);
    RoomNamesClean(cfg, s, r);
    NameFits(cfg, s, c, f, at);
    StrippedIsClean(f.body.displayName.text, name, 50);
    forall d | d in s.conns && d != c
      ensures exists sent :: Gets(cfg, s, t1, c, at, d, sent) && (sent == [] || (|sent| == 1 && Sane(sent[0])))
    {
      var sent := if InRoom(s, d, r) then [ParticipantJoined(|s.owner|, name)] else [];
      SameGets(cfg, s, t, t1, c, at, d, sent);
    }
    var snapshot := [RoomJoined(|s.owner|, Public(RoomOf(s, r) + [Entry(|s.owner|, Member(name, c))]), f.requestId)];
    assert Sane(snapshot[0]);
    AnswersAddSane(cfg, s, t1, c, at);
    SameWires(s, t1, t);
  }

  lemma SameWires(s: State, t1: State, t: State)
    requires AddsSane(s, t1) && t.conns.Keys == t1.conns.Keys
    requires forall d :: d in t.conns ==> t.conns[d].wire == t1.conns[d].wire
    ensures AddsSane(s, t)
  {}

  lemma NameFits(cfg: Config, s: State, c: ConnId, f: Frame, at: Reading)
    requires c in s.conns && Refusal(cfg, s, c, f, at).None? && f.Request?
    ensures f.body.JoinRoom? ==> f.body.displayName.Text? && |f.body.displayName.text| <= 50
    ensures f.body.ChatSend? ==> f.body.text.Text? && |f.body.text.text| <= 4000
    ensures f.body.SignalTo? ==> GoodSignal(f.body.signal)
  {}

  lemma ChatAddsSane(cfg: Config, s: State, c: ConnId, f: Frame, at: Reading)
    requires cfg.Valid() && Registry(s, cfg) && RoomLimits.Tidy(s) && c in s.conns && !s.conns[c].gone
    requires Refusal(cfg, s, c, f, at).None? && f.Request? && f.body.ChatSend?
    ensures AddsSane(s, OnMessage(s, cfg, c, f, at))
  {
    hide Registry, Refusal, OnMessage, Stripped, Gets, AddsSane, RoomLimits.Clean;
    var said := ChatIsHeard(cfg, s, c, f, at);
    NameFits(cfg, s, c, f, at);
    StrippedIsClean(f.body.text.text, said, 4000);
    AnswersAddSane(cfg, s, OnMessage(s, cfg, c, f, at), c, at);
  }

  lemma MessageAddsSane(cfg: Config, s: State, c: ConnId, f: Frame, at: Reading)
    requires cfg.Valid() && Registry(s, cfg) && RoomLimits.Tidy(s) && c in s.conns && !s.conns[c].gone
    ensures AddsSane(s, OnMessage(s, cfg, c, f, at))
  {
    hide Registry, Refusal, OnMessage, Gets, AddsSane, RoomLimits.Tidy;
    var t := OnMessage(s, cfg, c, f, at);
    if Refusal(cfg, s, c, f, at).Some? {
      RefusalIsAllThatHappens(cfg, s, c, f, at);
      AnswersAddSane(cfg, s, t, c, at);
    } else {
      Unrefused(cfg, s, c, f, at);
      NameFits(cfg, s, c, f, at);
      if f.body.JoinRoom? {
        JoinAddsSane(cfg, s, c, f, at);
      } else if f.body.ChatSend? {
        ChatAddsSane(cfg, s, c, f, at);
      } else {
        if f.body.SignalTo? { SignalReachesFellow(cfg, s, c, f, at); } else { PlainAnswers(cfg, s, c, f, at); }
        AnswersAddSane(cfg, s, t, c, at);
      }
    }
  }

  lemma CloseAddsSane(cfg: Config, s: State, c: ConnId)
    requires Registry(s, cfg) && c in s.conns && !s.conns[c].gone
    ensures OnClose(s, c).Some? && AddsSane(s, OnClose(s, c).value)
  {
    if s.conns[c].me.Some? {
      var me := s.conns[c].me.value;
      assert Joined(s, c);
      CloseEffect(s, cfg, c, me);
      forall d | d in s.conns
        ensures var t := OnClose(s, c).value;
          t.conns[d].wire == s.conns[d].wire || exists m :: t.conns[d].wire == s.conns[d].wire + [m] && Sane(m)
      {
        assert Sane(ParticipantLeft(me.id));
      }
    }
  }

  ghost predicate AllSane(n: Net) {
    forall c, m :: c in n.server.conns && m in Stream(n, c) ==> Sane(m)
  }

  lemma AddsKeeps(n: Net, n': Net)
    requires AllSane(n) && AddsSane(n.server, n'.server) && n'.read == n.read
    ensures AllSane(n')
  {
    forall c, m | c in n'.server.conns && m in Stream(n', c) ensures Sane(m) {
      assert m !in Stream(n, c) ==> m !in n.server.conns[c].wire && m in n'.server.conns[c].wire;
    }
  }

  lemma StepSane(cfg: Config, n: Net, e: Step)
    requires cfg.Valid() && Inv(cfg, n) && RoomLimits.Tidy(n.server) && AllSane(n) && Enabled(n, e)
    ensures AllSane(Next(cfg, n, e))
  {
    hide AllSane, Registry, Synced, OnMessage, OnClose, RoomLimits.Tidy, AddsSane;
    match e
    case Message(c, f, at) =>
      MessageAddsSane(cfg, n.server, c, f, at);
      AddsKeeps(n, Next(cfg, n, e));
    case Close(c) =>
      CloseAddsSane(cfg, n.server, c);
      AddsKeeps(n, Next(cfg, n, e));
    case _ => SilentSane(cfg, n, e);
  }

  lemma SilentSane(cfg: Config, n: Net, e: Step)
    requires AllSane(n) && Enabled(n, e) && !e.Message? && !e.Close?
    ensures AllSane(Next(cfg, n, e))
  {
    if e.Deliver? {
      var wire := n.server.conns[e.c].wire;
      assert (ReadBy(n, e.c) + [wire[0]]) + wire[1..] == ReadBy(n, e.c) + wire;
    }
    forall c | c in Next(cfg, n, e).server.conns
      ensures Stream(Next(cfg, n, e), c) == if e.Open? && c == e.c then [] else Stream(n, c)
    {}
  }

  lemma {:induction false} RunSane(cfg: Config, n: Net, run: seq<Step>)
    requires cfg.Valid() && Inv(cfg, n) && RoomLimits.Tidy(n.server) && AllSane(n) && IsRun(cfg, n, run)
    ensures AllSane(Final(cfg, n, run))
    decreases run
  {
    hide Inv, RoomLimits.Tidy, AllSane, Enabled, Next;
    if run != [] {
      StepSane(cfg, n, run[0]);
      StepKeeps(cfg, n, run[0]);
      RoomLimits.StepTidy(cfg, n, run[0]);
      RunSane(cfg, Next(cfg, n, run[0]), run[1..]);
    }
  }

  /** Whatever clients send, whatever is ever sent to a client is sane. */
  lemma EverythingSentIsSane(cfg: Config, run: seq<Step>, c: ConnId, m: ServerMsg)
    requires cfg.Valid() && IsRun(cfg, START, run)
    requires c in Final(cfg, START, run).server.conns && m in Stream(Final(cfg, START, run), c)
    ensures Sane(m)
  {
    RoomTheorems.StartInv(cfg);
    RunSane(cfg, START, run);
  }
}
