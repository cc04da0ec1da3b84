/** The signaling server: its registry of rooms and what it queues on each
    socket for every message and close event. */
module SignalingServer {
  import opened JsMap
  import opened Protocol
  import opened RateLimiter

  datatype Config = Config(maxParticipants: int, limits: Limits) {
    predicate Valid() { maxParticipants >= 1 && limits.Valid() }
  }

  datatype Member = Member(displayName: string, ws: ConnId)
  type Room = Table<Id, Member>

  /** The `participant` variable of a connection's handlers. */
  datatype Me = Me(id: Id, displayName: string, roomId: RoomId)

  /** `open` is readyState == OPEN; `gone` says that the close event was handled.
      `wire` is what was sent and not yet read by the client; `since` records
      how long the room's chat log was when this connection joined. */
  datatype Conn = Conn(open: bool, gone: bool, me: Option<Me>, bucket: Bucket,
                       wire: seq<ServerMsg>, since: nat)

  /** `owner` lists, for every id issued so far, the connection it went to;
      `log` is the text chat of each room in the order the server handled it. */
  datatype State = State(rooms: map<RoomId, Room>, conns: map<ConnId, Conn>,
                         owner: seq<ConnId>, log: map<RoomId, seq<Chat>>)

  const INITIAL := State(map[], map[], [], map[])

  function Log(s: State, r: RoomId): seq<Chat> { if r in s.log then s.log[r] else [] }

  function RoomOf(s: State, r: RoomId): Room { if r in s.rooms then s.rooms[r] else [] }

  /** `[...room.values()].map(publicParticipant)`. */
  function Public(room: Room): (p: People)
    ensures |p| == |room|
    ensures forall i :: 0 <= i < |room| ==> p[i] == Entry(room[i].key, room[i].value.displayName)
  {
    seq(|room|, i requires 0 <= i < |room| => Entry(room[i].key, room[i].value.displayName))
  }

  function Posted(k: Conn, m: ServerMsg): Conn { if k.open then k.(wire := k.wire + [m]) else k }

  /** `send`: silently drops the message unless the socket is open. */
  function Send(s: State, c: ConnId, m: ServerMsg): State {
    if c in s.conns then s.(conns := s.conns[c := Posted(s.conns[c], m)]) else s
  }

  function Broadcast(s: State, room: Room, m: ServerMsg, except: Option<Id>): State
    decreases room
  {
    if room == [] then s
    else Broadcast(if Some(room[0].key) != except then Send(s, room[0].value.ws, m) else s,
                   room[1..], m, except)
  }

  function Connect(s: State, cfg: Config, c: ConnId, now: int): State {
    s.(conns := s.conns[c := Conn(true, false, None, Fresh(cfg.limits, now), [], 0)])
  }

  function LoseSocket(s: State, c: ConnId): State
    requires c in s.conns
  {
    s.(conns := s.conns[c := s.conns[c].(open := false)])
  }

  function Join(s: State, cfg: Config, c: ConnId, roomId: Json, name: Json, rid: Option<string>): State
    requires c in s.conns
  {
    if s.conns[c].me.Some? then Send(s, c, Error(409, rid))
    else if !ValidRoomId(roomId) || !ValidName(name) then Send(s, c, Error(400, rid))
    else
      var r := roomId.text;
      if |RoomOf(s, r)| >= cfg.maxParticipants then Send(s, c, Error(409, rid))
      else
        var me := Me(|s.owner|, Trim(name.text), r);
        var room := Put(RoomOf(s, r), me.id, Member(me.displayName, c));
        var s1 := s.(rooms := s.rooms[r := room], owner := s.owner + [c],
                     conns := s.conns[c := s.conns[c].(me := Some(me), since := |Log(s, r)|)]);
        var s2 := Send(s1, c, RoomJoined(me.id, Public(room), rid));
        Broadcast(s2, room, ParticipantJoined(me.id, me.displayName), Some(me.id))
  }

  function RelayTo(s: State, c: ConnId, me: Me, target: Id, signal: Signal, rid: Option<string>): State
    requires c in s.conns
  {
    // `rooms.get` of a missing room makes the next line throw, which answers 400.
    if me.roomId !in s.rooms then Send(s, c, Error(400, rid))
    else
      var t := Find(s.rooms[me.roomId], target);
      if t.None? || target == me.id then Send(s, c, Error(404, rid))
      else if !ValidSignal(signal) then Send(s, c, Error(400, rid))
      else Send(s, t.value.ws, Relay(me.id, signal))
  }

  function Speak(s: State, c: ConnId, me: Me, text: Json, rid: Option<string>, now: int): State
    requires c in s.conns
  {
    if !ValidChat(text) then Send(s, c, Error(400, rid))
    else if me.roomId !in s.rooms then Send(s, c, Error(400, rid))
    else
      var chat := Chat(me.id, me.displayName, Trim(text.text), now);
      Broadcast(s.(log := s.log[me.roomId := Log(s, me.roomId) + [chat]]),
                s.rooms[me.roomId], ChatMessage(chat), None)
  }

  function Dispatch(s: State, cfg: Config, c: ConnId, rid: Option<string>, body: Body, now: int): State
    requires c in s.conns
  {
    match body
    case Ping => Send(s, c, Pong(rid))
    case CreateRoom => Send(s, c, RoomCreated(rid))
    case JoinRoom(roomId, name) => Join(s, cfg, c, roomId, name, rid)
    case _ =>
      if s.conns[c].me.None? then Send(s, c, Error(403, rid))
      else
        var me := s.conns[c].me.value;
        match body
        case SignalTo(target, signal) => RelayTo(s, c, me, target, signal, rid)
        case ChatSend(text) => Speak(s, c, me, text, rid, now)
        case _ => Send(s, c, Error(400, rid))
  }

  /** The `message` handler. */
  function OnMessage(s: State, cfg: Config, c: ConnId, frame: Frame, at: Reading): State
    requires c in s.conns
  {
    var k := s.conns[c];
    var s1 := s.(conns := s.conns[c := k.(bucket := After(cfg.limits, k.bucket, at))]);
    if !Admits(cfg.limits, k.bucket, at) then Send(s1, c, Error(429, None))
    else match frame
      case Garbage => Send(s1, c, Error(400, None))
      case Request(rid, body) => Dispatch(s1, cfg, c, rid, body, at.again)
  }

  /** The `close` handler; None is the TypeError of a missing room. */
  function OnClose(s: State, c: ConnId): Option<State>
    requires c in s.conns
  {
    var s1 := s.(conns := s.conns[c := s.conns[c].(open := false, gone := true)]);
    match s.conns[c].me
    case None => Some(s1)
    case Some(me) =>
      if me.roomId !in s.rooms then None
      else
        var room := Delete(s.rooms[me.roomId], me.id);
        var s2 := Broadcast(s1.(rooms := s1.rooms[me.roomId := room]), room, ParticipantLeft(me.id), None);
        Some(if room == [] then s2.(rooms := s2.rooms - {me.roomId}) else s2)
  }

  /** The module-level `rooms` and the variables of every connection's handlers. */
  class Server {
    const cfg: Config
    var rooms: map<RoomId, Room>
    var conns: map<ConnId, Conn>
    // Bookkeeping for what is stated below; it decides nothing but the next id.
    var owner: seq<ConnId>
    var log: map<RoomId, seq<Chat>>

    function Now(): State reads this { State(rooms, conns, owner, log) }

    constructor (cfg: Config)
      ensures this.cfg == cfg && Now() == INITIAL
    {
      this.cfg := cfg;
      rooms, conns, owner, log := map[], map[], [], map[];
    }

    method SendTo(c: ConnId, m: ServerMsg)
      modifies `conns
      ensures Now() == Send(old(Now()), c, m)
    {
      if c in conns && conns[c].open {
        conns := conns[c := conns[c].(wire := conns[c].wire + [m])];
      } else if c in conns {
        assert conns[c := conns[c]] == conns;
      }
    }

    method BroadcastTo(room: Room, m: ServerMsg, except: Option<Id>)
      modifies `conns
      ensures Now() == Broadcast(old(Now()), room, m, except)
    {
      for i := 0 to |room|
        invariant Broadcast(Now(), room[i..], m, except) == Broadcast(old(Now()), room, m, except)
      {
        assert room[i..][1..] == room[i + 1..];
        if Some(room[i].key) != except {
          SendTo(room[i].value.ws, m);
        }
      }
    }

    method Accept(c: ConnId, now: int)
      modifies this
      ensures Now() == Connect(old(Now()), cfg, c, now)
    {
      conns := conns[c := Conn(true, false, None, Fresh(cfg.limits, now), [], 0)];
    }

    method HandleJoin(c: ConnId, roomId: Json, name: Json, rid: Option<string>)
      requires c in conns
      modifies this
      ensures Now() == Join(old(Now()), cfg, c, roomId, name, rid)
    {
      if conns[c].me.Some? { SendTo(c, Error(409, rid)); return; }
      if !ValidRoomId(roomId) || !ValidName(name) { SendTo(c, Error(400, rid)); return; }
      var r := roomId.text;
      var room := if r in rooms then rooms[r] else [];
      if |room| >= cfg.maxParticipants { SendTo(c, Error(409, rid)); return; }
      var me := Me(|owner|, Trim(name.text), r);
      room := Put(room, me.id, Member(me.displayName, c));
      var since := |Log(Now(), r)|;
      owner := owner + [c];
      rooms := rooms[r := room];
      conns := conns[c := Conn(conns[c].open, conns[c].gone, Some(me), conns[c].bucket, conns[c].wire, since)];
      SendTo(c, RoomJoined(me.id, Public(room), rid));
      BroadcastTo(room, ParticipantJoined(me.id, me.displayName), Some(me.id));
    }

    method OnMessageEvent(c: ConnId, frame: Frame, at: Reading)
      requires c in conns
      modifies this
      ensures Now() == OnMessage(old(Now()), cfg, c, frame, at)
    {
      var b := conns[c].bucket;
      conns := conns[c := conns[c].(bucket := After(cfg.limits, b, at))];
      if !Admits(cfg.limits, b, at) { SendTo(c, Error(429, None)); return; }
      if frame.Garbage? { SendTo(c, Error(400, None)); return; }
      var rid, body := frame.requestId, frame.body;
      if body.Ping? { SendTo(c, Pong(rid)); return; }
      if body.CreateRoom? { SendTo(c, RoomCreated(rid)); return; }
      if body.JoinRoom? { HandleJoin(c, body.roomId, body.displayName, rid); return; }
      if conns[c].me.None? { SendTo(c, Error(403, rid)); return; }
      var me := conns[c].me.value;
      if body.SignalTo? {
        if me.roomId !in rooms { SendTo(c, Error(400, rid)); return; }
        var target := Find(rooms[me.roomId], body.target);
        if target.None? || body.target == me.id { SendTo(c, Error(404, rid)); return; }
        if !ValidSignal(body.signal) { SendTo(c, Error(400, rid)); return; }
        SendTo(target.value.ws, Relay(me.id, body.signal));
        return;
      }
      if body.ChatSend? {
        if !ValidChat(body.text) { SendTo(c, Error(400, rid)); return; }
        if me.roomId !in rooms { SendTo(c, Error(400, rid)); return; }
        var chat := Chat(me.id, me.displayName, Trim(body.text.text), at.again);
        log := log[me.roomId := Log(Now(), me.roomId) + [chat]];
        BroadcastTo(rooms[me.roomId], ChatMessage(chat), None);
        return;
      }
      SendTo(c, Error(400, rid));
    }

    /** `crashed` is the uncaught TypeError on a room that is not stored. */
    method OnCloseEvent(c: ConnId) returns (crashed: bool)
      requires c in conns
      modifies this
      ensures crashed == OnClose(old(Now()), c).None?
      ensures !crashed ==> Now() == OnClose(old(Now()), c).value
    {
      var me := conns[c].me;
      conns := conns[c := conns[c].(open := false, gone := true)];
      if me.None? { return false; }
      if me.value.roomId !in rooms { return true; }
      var room := Delete(rooms[me.value.roomId], me.value.id);
      rooms := rooms[me.value.roomId := room];
      BroadcastTo(room, ParticipantLeft(me.value.id), None);
      if |room| == 0 {
        rooms := rooms - {me.value.roomId};
      }
      return false;
    }
  }
}
