/** What the input checks achieve for the stored state, over whole runs. */
module RoomLimits {
  import opened JsMap
  import opened Protocol
  import opened RateLimiter
  import opened SignalingServer
  import opened RoomNet

  /** Not blank, no white space at either end, at most `max` long. */
  predicate Clean(s: string, max: nat) {
    s != "" && !IsSpace(s[0]) && !IsSpace(s[|s| - 1]) && |s| <= max
  }

  ghost predicate Tidy(s: State) {
    (forall r :: r in s.rooms ==> ValidRoomId(Text(r)))
    && (forall c :: c in s.conns && s.conns[c].me.Some? ==> Clean(s.conns[c].me.value.displayName, 50))
    && forall r, chat :: r in s.log && chat in s.log[r] ==> Clean(chat.text, 4000)
  }

  lemma {:induction false} TrimEndFacts(s: string)
    ensures TrimEnd(s) <= s
    ensures TrimEnd(s) != "" ==> !IsSpace(TrimEnd(s)[|TrimEnd(s)| - 1])
    decreases |s|
  {
    if s != [] && IsSpace(s[|s| - 1]) { TrimEndFacts(s[..|s| - 1]); }
  }

  lemma {:induction false} TrimStartFacts(s: string)
    ensures |TrimStart(s)| <= |s|
    ensures TrimStart(s) != "" ==> !IsSpace(TrimStart(s)[0])
  {
    if s != [] && IsSpace(s[0]) { TrimStartFacts(s[1..]); }
  }

  lemma TrimIsClean(s: string, max: nat)
    requires |s| <= max && Trim(s) != ""
    ensures Clean(Trim(s), max)
  {
    TrimStartFacts(s);
    TrimEndFacts(TrimStart(s));
  }

  lemma SendFrame(s: State, c: ConnId, m: ServerMsg)
    ensures var t := Send(s, c, m);
      t == s.(conns := t.conns) && t.conns.Keys == s.conns.Keys
      && forall d :: d in s.conns ==> t.conns[d].me == s.conns[d].me
  {}

  /** A broadcast changes wires only, whoever is in the room. */
  lemma {:induction false} BroadcastFrame(s: State, room: Room, m: ServerMsg, except: Option<Id>)
    ensures var t := Broadcast(s, room, m, except);
      t == s.(conns := t.conns) && t.conns.Keys == s.conns.Keys
      && forall c :: c in s.conns ==> t.conns[c].me == s.conns[c].me
    decreases room
  {
    if room != [] {
      hide Send;
      SendFrame(s, room[0].value.ws, m);
      BroadcastFrame(if Some(room[0].key) != except then Send(s, room[0].value.ws, m) else s, room[1..], m, except);
    }
  }

  lemma BroadcastTidy(s: State, room: Room, m: ServerMsg, except: Option<Id>)
    requires Tidy(s)
    ensures Tidy(Broadcast(s, room, m, except))
  {
    BroadcastFrame(s, room, m, except);
  }

  lemma SendTidy(s: State, c: ConnId, m: ServerMsg)
    requires Tidy(s)
    ensures Tidy(Send(s, c, m))
  {
    SendFrame(s, c, m);
  }

  lemma SeatTidy(s: State, c: ConnId, me: Me, room: Room)
    requires Tidy(s) && c in s.conns && ValidRoomId(Text(me.roomId)) && Clean(me.displayName, 50)
    ensures Tidy(Seat(s, c, me, room))
  {}

  lemma JoinTidy(s: State, cfg: Config, c: ConnId, roomId: Json, name: Json, rid: Option<string>)
    requires Tidy(s) && c in s.conns
    ensures Tidy(Join(s, cfg, c, roomId, name, rid))
  {
    if s.conns[c].me.None? && ValidRoomId(roomId) && ValidName(name) && |RoomOf(s, roomId.text)| < cfg.maxParticipants {
      var me := Me(|s.owner|, Trim(name.text), roomId.text);
      var room := Put(RoomOf(s, me.roomId), me.id, Member(me.displayName, c));
      TrimIsClean(name.text, 50);
      var s1 := Seat(s, c, me, room);
      SeatTidy(s, c, me, room);
      var s2 := Send(s1, c, RoomJoined(me.id, Public(room), rid));
      SendTidy(s1, c, RoomJoined(me.id, Public(room), rid));
      BroadcastTidy(s2, room, ParticipantJoined(me.id, me.displayName), Some(me.id));
    }
  }

  lemma SpeakTidy(s: State, c: ConnId, me: Me, text: Json, rid: Option<string>, now: int)
    requires Tidy(s) && c in s.conns
    ensures Tidy(Speak(s, c, me, text, rid, now))
  {
    if ValidChat(text) && me.roomId in s.rooms {
      var chat := Chat(me.id, me.displayName, Trim(text.text), now);
      TrimIsClean(text.text, 4000);
      var s1 := s.(log := s.log[me.roomId := Log(s, me.roomId) + [chat]]);
      assert Tidy(s1);
      BroadcastTidy(s1, s.rooms[me.roomId], ChatMessage(chat), None);
    }
  }

  lemma DispatchTidy(s: State, cfg: Config, c: ConnId, rid: Option<string>, body: Body, now: int)
    requires Tidy(s) && c in s.conns
    ensures Tidy(Dispatch(s, cfg, c, rid, body, now))
  {
    SendTidy(s, c, Error(403, rid));
    SendTidy(s, c, Error(400, rid));
    match body
    case Ping => SendTidy(s, c, Pong(rid));
    case CreateRoom => SendTidy(s, c, RoomCreated(rid));
    case JoinRoom(roomId, name) => JoinTidy(s, cfg, c, roomId, name, rid);
    case ChatSend(text) => if s.conns[c].me.Some? { SpeakTidy(s, c, s.conns[c].me.value, text, rid, now); }
    case SignalTo(target, signal) =>
      if s.conns[c].me.Some? { RelayTidy(s, c, s.conns[c].me.value, target, signal, rid); }
    case UnknownType =>
  }

  lemma RelayTidy(s: State, c: ConnId, me: Me, target: Id, signal: Signal, rid: Option<string>)
    requires Tidy(s) && c in s.conns
    ensures Tidy(RelayTo(s, c, me, target, signal, rid))
  {}

  lemma MessageTidy(s: State, cfg: Config, c: ConnId, frame: Frame, at: Reading)
    requires Tidy(s) && c in s.conns
    ensures Tidy(OnMessage(s, cfg, c, frame, at))
  {
    var k := s.conns[c];
    var s1 := s.(conns := s.conns[c := k.(bucket := After(cfg.limits, k.bucket, at))]);
    assert Tidy(s1);
    SendTidy(s1, c, Error(429, None));
    SendTidy(s1, c, Error(400, None));
    if frame.Request? { DispatchTidy(s1, cfg, c, frame.requestId, frame.body, at.again); }
  }

  lemma CloseTidy(s: State, c: ConnId)
    requires Tidy(s) && c in s.conns && OnClose(s, c).Some?
    ensures Tidy(OnClose(s, c).value)
  {
    if s.conns[c].me.Some? {
      var me := s.conns[c].me.value;
      var room := Delete(s.rooms[me.roomId], me.id);
      var s1 := s.(conns := s.conns[c := s.conns[c].(open := false, gone := true)],
                   rooms := s.rooms[me.roomId := room]);
      BroadcastFrame(s1, room, ParticipantLeft(me.id), None);
    }
  }

  lemma StepTidy(cfg: Config, n: Net, e: Step)
    requires Tidy(n.server) && Enabled(n, e)
    ensures Tidy(Next(cfg, n, e).server)
  {
    match e
    case Message(c, frame, at) => MessageTidy(n.server, cfg, c, frame, at);
    case Close(c) => if OnClose(n.server, c).Some? { CloseTidy(n.server, c); }
    case _ =>
  }

  lemma {:induction false} RunTidy(cfg: Config, n: Net, run: seq<Step>)
    requires Tidy(n.server) && IsRun(cfg, n, run)
    ensures Tidy(Final(cfg, n, run).server)
    decreases run
  {
    if run != [] {
      StepTidy(cfg, n, run[0]);
      RunTidy(cfg, Next(cfg, n, run[0]), run[1..]);
    }
  }

  /** Whatever clients send: every room id has 3 to 32 letters and digits, every member's
      name and every chat message is trimmed, not blank and within its limit. */
  lemma StoredInputIsClean(cfg: Config, run: seq<Step>)
    requires IsRun(cfg, RoomNet.START, run)
    ensures var s := Final(cfg, RoomNet.START, run).server;
      (forall r :: r in s.rooms ==>
         3 <= |r| <= 32 && forall i :: 0 <= i < |r| ==>
           'a' <= r[i] <= 'z' || 'A' <= r[i] <= 'Z' || '0' <= r[i] <= '9')
      && (forall c :: Joined(s, c) ==> Clean(s.conns[c].me.value.displayName, 50))
      && forall r, chat :: r in s.log && chat in s.log[r] ==> Clean(chat.text, 4000)
  {
    RunTidy(cfg, RoomNet.START, run);
    assert forall r :: r in Final(cfg, RoomNet.START, run).server.rooms ==> ValidRoomId(Text(r));
  }
}
