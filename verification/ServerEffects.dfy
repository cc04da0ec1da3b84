/** What handling one message or close event adds to the wires. A handler adds at
    most one message to each, and each message it adds fits the connection it goes
    to: a newcomer's snapshot, an announcement to somebody older, a signal or chat
    under its sender's id, a notice about somebody else. */
module ServerEffects {
  import opened JsMap
  import opened Protocol
  import opened RateLimiter
  import opened SignalingServer
  import RoomNet

  /** What is being handled: a frame, or the close event, of connection c. */
  datatype Input = Input(c: ConnId, from: Frame, closing: bool)

  /** One more message on connection k's wire; `who` is the participant of the
      connection whose input is handled, if any. */
  ghost predicate Fits(k: Conn, k': Conn, issued: nat, issued': nat, who: Option<Me>, i: Input, m: ServerMsg) {
    match m
    case RoomJoined(self, people, _) =>
      k.me.None? && k'.me.Some? && self == k'.me.value.id
      && Distinct(people) && forall e :: e in people ==> e.key <= self
    case ParticipantJoined(id, _) => k.me.Some? && k.me.value.id < id && id == issued < issued'
    case Relay(sender, signal) =>
      who.Some? && sender == who.value.id < issued && IsSignal(i.from) && i.from.body.signal == signal
      && k.me.Some? && k.me.value.id == i.from.body.target && i.from.body.target != sender
    case ChatMessage(chat) => who.Some? && chat.sender == who.value.id
    case ParticipantLeft(id) =>
      i.closing && who.Some? && id == who.value.id < issued && k.me.Some? && k.me.value.id != id
    case _ => true
  }

  ghost predicate Grew(k: Conn, k': Conn, issued: nat, issued': nat, who: Option<Me>, i: Input) {
    k'.wire == k.wire || (k'.wire != [] && k'.wire == k.wire + [k'.wire[|k'.wire| - 1]]
                          && Fits(k, k', issued, issued', who, i, k'.wire[|k'.wire| - 1]))
  }

  /** A handler leaves every participant as it was, except that the connection
      may get the next id, and adds at most one message to each wire. */
  ghost predicate Handled(s: State, t: State, i: Input)
    requires i.c in s.conns
  {
    t.conns.Keys == s.conns.Keys
    && (t.owner == s.owner || (t.owner == s.owner + [i.c] && s.conns[i.c].me.None?))
    && (forall d :: d in s.conns ==>
          (t.conns[d].me == s.conns[d].me
           || (d == i.c && t.owner == s.owner + [i.c] && s.conns[d].me.None?
               && t.conns[d].me.Some? && t.conns[d].me.value.id == |s.owner|)))
    && (t.owner == s.owner + [i.c] ==> t.conns[i.c].me.Some?)
    && (forall d :: d in s.conns ==>
          t.conns[d].open == (s.conns[d].open && !(i.closing && d == i.c))
          && t.conns[d].gone == (s.conns[d].gone || (i.closing && d == i.c)))
    && forall d :: d in s.conns ==> Grew(s.conns[d], t.conns[d], |s.owner|, |t.owner|, s.conns[i.c].me, i)
  }

  lemma SendHandled(s: State, c: ConnId, d: ConnId, m: ServerMsg, from: Frame)
    requires c in s.conns && d in s.conns
    requires Fits(s.conns[d], s.conns[d], |s.owner|, |s.owner|, s.conns[c].me, Input(c, from, false), m)
    ensures Handled(s, Send(s, d, m), Input(c, from, false))
  {}

  lemma JoinHandled(s: State, cfg: Config, c: ConnId, roomId: Json, name: Json, rid: Option<string>, from: Frame)
    requires RoomNet.Registry(s, cfg) && c in s.conns && !s.conns[c].gone
    ensures Handled(s, Join(s, cfg, c, roomId, name, rid), Input(c, from, false))
  {
    if s.conns[c].me.Some? {
      SendHandled(s, c, c, Error(409, rid), from);
    } else if !ValidRoomId(roomId) || !ValidName(name) {
      SendHandled(s, c, c, Error(400, rid), from);
    } else if |RoomOf(s, roomId.text)| >= cfg.maxParticipants {
      SendHandled(s, c, c, Error(409, rid), from);
    } else {
      var me := Me(|s.owner|, Trim(name.text), roomId.text);
      RoomNet.JoinIsDone(s, cfg, c, roomId, name, rid);
      SeatHandled(s, cfg, c, me, rid, from);
    }
  }

  lemma SeatHandled(s: State, cfg: Config, c: ConnId, me: Me, rid: Option<string>, from: Frame)
    requires RoomNet.Registry(s, cfg) && c in s.conns && !s.conns[c].gone && s.conns[c].me.None?
    requires me.id == |s.owner| && |RoomOf(s, me.roomId)| < cfg.maxParticipants
    ensures Handled(s, RoomNet.JoinDone(s, c, me, rid), Input(c, from, false))
  {
    var room, seat := RoomOf(s, me.roomId), Entry(me.id, Member(me.displayName, c));
    if me.roomId in s.rooms { RoomNet.RegistrySockets(s, cfg, me.roomId); }
    forall e | e in Public(room + [seat]) ensures e.key <= me.id { SnapshotKeys(room, seat, e); }
    RoomNet.JoinEffect(s, cfg, c, me, rid);
    RoomNet.HasPublic(room + [seat]);
    SaidHandled(s, RoomNet.JoinDone(s, c, me, rid), c, me, rid, from);
  }

  lemma SaidHandled(s: State, t: State, c: ConnId, me: Me, rid: Option<string>, from: Frame)
    requires c in s.conns && s.conns[c].me.None? && me.id == |s.owner| && RoomNet.IdsOwned(s)
    requires RoomNet.JoinSays(s, t, c, me, rid)
    requires Distinct(Public(RoomOf(s, me.roomId) + [Entry(me.id, Member(me.displayName, c))]))
    requires forall e :: e in Public(RoomOf(s, me.roomId) + [Entry(me.id, Member(me.displayName, c))]) ==>
      e.key <= me.id
    ensures Handled(s, t, Input(c, from, false))
  {
    forall d | d in s.conns
      ensures Grew(s.conns[d], t.conns[d], |s.owner|, |t.owner|, s.conns[c].me, Input(c, from, false))
    {
      assert d != c ==>
        t.conns[d] == s.conns[d] || t.conns[d] == Posted(s.conns[d], ParticipantJoined(me.id, me.displayName));
    }
  }

  lemma SnapshotKeys(room: Room, seat: Entry<Id, Member>, e: Entry<Id, string>)
    requires e in Public(room + [seat])
    ensures e.key == seat.key || exists r :: r in room && r.key == e.key
  {
    var i :| 0 <= i < |room + [seat]| && Public(room + [seat])[i] == e;
    if i < |room| { assert room[i] in room && room[i].key == e.key; }
  }

  lemma DispatchHandled(s: State, cfg: Config, c: ConnId, rid: Option<string>, body: Body, now: int)
    requires RoomNet.Registry(s, cfg) && c in s.conns && !s.conns[c].gone
    ensures Handled(s, Dispatch(s, cfg, c, rid, body, now), Input(c, Request(rid, body), false))
  {
    var from := Request(rid, body);
    SendHandled(s, c, c, Error(403, rid), from);
    SendHandled(s, c, c, Error(400, rid), from);
    match body
    case Ping => SendHandled(s, c, c, Pong(rid), from);
    case CreateRoom => SendHandled(s, c, c, RoomCreated(rid), from);
    case JoinRoom(roomId, name) => JoinHandled(s, cfg, c, roomId, name, rid, from);
    case SignalTo(target, signal) => if RoomNet.Joined(s, c) { RelayHandled(s, cfg, c, target, signal, rid); }
    case ChatSend(text) => if RoomNet.Joined(s, c) { SpeakHandled(s, cfg, c, text, rid, now, from); }
    case UnknownType =>
  }

  lemma RelayHandled(s: State, cfg: Config, c: ConnId, target: Id, signal: Signal, rid: Option<string>)
    requires RoomNet.Registry(s, cfg) && RoomNet.Joined(s, c)
    ensures Handled(s, RelayTo(s, c, s.conns[c].me.value, target, signal, rid),
                    Input(c, Request(rid, SignalTo(target, signal)), false))
  {
    var me, from := s.conns[c].me.value, Request(rid, SignalTo(target, signal));
    var hit := Find(s.rooms[me.roomId], target);
    if hit.Some? && target != me.id && ValidSignal(signal) {
      assert RoomNet.Seated(s, me.roomId, Entry(target, hit.value));
      SendHandled(s, c, hit.value.ws, Relay(me.id, signal), from);
    } else {
      SendHandled(s, c, c, Error(404, rid), from);
      SendHandled(s, c, c, Error(400, rid), from);
    }
  }

  /** A chat message goes to some wires and changes nothing else. */
  lemma SpeakHandled(s: State, cfg: Config, c: ConnId, text: Json, rid: Option<string>, now: int, from: Frame)
    requires RoomNet.Registry(s, cfg) && RoomNet.Joined(s, c)
    ensures Handled(s, Speak(s, c, s.conns[c].me.value, text, rid, now), Input(c, from, false))
  {
    var me := s.conns[c].me.value;
    if !ValidChat(text) {
      SendHandled(s, c, c, Error(400, rid), from);
    } else {
      var chat := Chat(me.id, me.displayName, Trim(text.text), now);
      var s1 := s.(log := s.log[me.roomId := Log(s, me.roomId) + [chat]]);
      RoomNet.RegistrySockets(s, cfg, me.roomId);
      RoomNet.BroadcastOnce(s1, s.rooms[me.roomId], ChatMessage(chat), None);
      ChatHandled(s, Speak(s, c, me, text, rid, now), c, chat, from);
    }
  }

  lemma ChatHandled(s: State, t: State, c: ConnId, chat: Chat, from: Frame)
    requires c in s.conns && t.conns.Keys == s.conns.Keys && t.owner == s.owner
    requires s.conns[c].me.Some? && s.conns[c].me.value.id == chat.sender
    requires forall d :: d in s.conns ==>
      t.conns[d] == s.conns[d] || t.conns[d] == Posted(s.conns[d], ChatMessage(chat))
    ensures Handled(s, t, Input(c, from, false))
  {
    forall d | d in s.conns
      ensures Grew(s.conns[d], t.conns[d], |s.owner|, |t.owner|, s.conns[c].me, Input(c, from, false))
    {}
  }

  /** Handled does not look at buckets. */
  lemma BucketHandled(s: State, s1: State, t: State, i: Input, b: Bucket)
    requires i.c in s.conns && s1 == s.(conns := s.conns[i.c := s.conns[i.c].(bucket := b)]) && Handled(s1, t, i)
    ensures Handled(s, t, i)
  {
    forall d | d in s.conns ensures Grew(s.conns[d], t.conns[d], |s.owner|, |t.owner|, s.conns[i.c].me, i) {
      assert Grew(s1.conns[d], t.conns[d], |s.owner|, |t.owner|, s1.conns[i.c].me, i);
    }
  }

  lemma MessageHandled(s: State, cfg: Config, c: ConnId, frame: Frame, at: Reading)
    requires RoomNet.Registry(s, cfg) && c in s.conns && !s.conns[c].gone
    ensures Handled(s, OnMessage(s, cfg, c, frame, at), Input(c, frame, false))
  {
    var k := s.conns[c];
    var b := After(cfg.limits, k.bucket, at);
    var s1 := s.(conns := s.conns[c := k.(bucket := b)]);
    RoomNet.RegistryFrame(s, s1, cfg);
    AdmittedHandled(s1, cfg, c, frame, Admits(cfg.limits, k.bucket, at), at.again);
    BucketHandled(s, s1, OnMessage(s, cfg, c, frame, at), Input(c, frame, false), b);
  }

  lemma AdmittedHandled(s: State, cfg: Config, c: ConnId, frame: Frame, admitted: bool, now: int)
    requires RoomNet.Registry(s, cfg) && c in s.conns && !s.conns[c].gone
    ensures Handled(s, if !admitted then Send(s, c, Error(429, None))
                       else if frame.Garbage? then Send(s, c, Error(400, None))
                       else Dispatch(s, cfg, c, frame.requestId, frame.body, now), Input(c, frame, false))
  {
    if !admitted {
      SendHandled(s, c, c, Error(429, None), frame);
    } else if frame.Garbage? {
      SendHandled(s, c, c, Error(400, None), frame);
    } else {
      DispatchHandled(s, cfg, c, frame.requestId, frame.body, now);
    }
  }

  lemma DepartureHandled(s: State, t: State, c: ConnId, me: Me)
    requires c in s.conns && s.conns[c].me == Some(me) && me.id < |s.owner|
    requires t.owner == s.owner && t.conns.Keys == s.conns.Keys
    requires t.conns[c] == s.conns[c].(open := false, gone := true)
    requires forall d :: d in s.conns && d != c ==>
      t.conns[d] == if RoomNet.Hears(s, me.roomId, d, Some(me.id)) then Posted(s.conns[d], ParticipantLeft(me.id))
        else s.conns[d]
    ensures Handled(s, t, Input(c, Garbage, true))
  {
    var i := Input(c, Garbage, true);
    forall d | d in s.conns ensures Grew(s.conns[d], t.conns[d], |s.owner|, |t.owner|, s.conns[c].me, i) {}
  }

  lemma CloseHandled(s: State, cfg: Config, c: ConnId)
    requires RoomNet.Registry(s, cfg) && c in s.conns && !s.conns[c].gone
    ensures OnClose(s, c).Some?
    ensures Handled(s, OnClose(s, c).value, Input(c, Garbage, true)) && OnClose(s, c).value.owner == s.owner
  {
    if s.conns[c].me.Some? {
      var me := s.conns[c].me.value;
      assert RoomNet.Joined(s, c);
      RoomNet.CloseEffect(s, cfg, c, me);
      DepartureHandled(s, OnClose(s, c).value, c, me);
    }
  }
}
