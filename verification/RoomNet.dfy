/** The server and its clients, joined by one FIFO wire per connection. Clients
    may send any frame at any time, and sockets may fail at any time. Every step
    keeps the registry, and what each client knows in agreement with it. */
module RoomNet {
  import opened JsMap
  import opened Protocol
  import opened RateLimiter
  import opened SignalingServer
  import opened RoomClient

  /** `left` are the clients that ran leaveRoom: they close their socket and
      read nothing more from it. `read` is what each client has read, in order; it
      decides nothing. */
  datatype Net = Net(server: State, views: map<ConnId, View>, left: set<ConnId>, read: map<ConnId, seq<ServerMsg>>)

  datatype Step =
    | Open(c: ConnId, now: int)
    | Message(c: ConnId, frame: Frame, at: Reading)
    | LoseOpen(c: ConnId)
    | Close(c: ConnId)
    | Deliver(c: ConnId)
    | Leave(c: ConnId)

  const START := Net(INITIAL, map[], {}, map[])

  function ReadBy(n: Net, c: ConnId): seq<ServerMsg> { if c in n.read then n.read[c] else [] }

  predicate Enabled(n: Net, e: Step) {
    match e
    case Open(c, _) => c !in n.server.conns
    case Message(c, _, _) => c in n.server.conns && !n.server.conns[c].gone
    case LoseOpen(c) => c in n.server.conns
    case Close(c) => c in n.server.conns && !n.server.conns[c].gone
    case Deliver(c) => c in n.server.conns && c in n.views && c !in n.left && n.server.conns[c].wire != []
    case Leave(c) => c in n.server.conns && c in n.views
  }

  function Next(cfg: Config, n: Net, e: Step): Net
    requires Enabled(n, e)
  {
    var s := n.server;
    match e
    case Open(c, now) => n.(server := Connect(s, cfg, c, now), views := n.views[c := LOBBY], read := n.read[c := []])
    case Message(c, frame, at) => n.(server := OnMessage(s, cfg, c, frame, at))
    case LoseOpen(c) => n.(server := LoseSocket(s, c))
    // A TypeError in the handler would take the whole process down.
    case Close(c) => if OnClose(s, c).None? then START else n.(server := OnClose(s, c).value)
    case Deliver(c) =>
      var k := s.conns[c];
      n.(server := s.(conns := s.conns[c := k.(wire := k.wire[1..])]),
         views := n.views[c := Apply(n.views[c], k.wire[0])], read := n.read[c := ReadBy(n, c) + [k.wire[0]]])
    case Leave(c) => n.(views := n.views[c := LOBBY.(heard := n.views[c].heard)], left := n.left + {c})
  }

  predicate IsRun(cfg: Config, n: Net, run: seq<Step>)
    decreases run
  {
    run == [] || (Enabled(n, run[0]) && IsRun(cfg, Next(cfg, n, run[0]), run[1..]))
  }

  function Final(cfg: Config, n: Net, run: seq<Step>): Net
    requires IsRun(cfg, n, run)
    decreases run
  {
    if run == [] then n else Final(cfg, Next(cfg, n, run[0]), run[1..])
  }

  // ---------------------------------------------------------------- invariants

  /** A connection is joined while its participant is known and its close event
      is still to come. */
  predicate Joined(s: State, c: ConnId) {
    c in s.conns && s.conns[c].me.Some? && !s.conns[c].gone
  }

  ghost predicate RoomsOk(s: State, cfg: Config) {
    forall r :: r in s.rooms ==> 1 <= |s.rooms[r]| <= cfg.maxParticipants && Distinct(s.rooms[r])
  }

  predicate Seated(s: State, r: RoomId, e: Entry<Id, Member>) {
    Joined(s, e.value.ws) && s.conns[e.value.ws].me.value == Me(e.key, e.value.displayName, r)
  }

  ghost predicate EntriesSeated(s: State) {
    forall r, e :: r in s.rooms && e in s.rooms[r] ==> Seated(s, r, e)
  }

  ghost predicate JoinedListed(s: State) {
    forall c :: Joined(s, c) ==>
      var me := s.conns[c].me.value;
      me.roomId in s.rooms && Entry(me.id, Member(me.displayName, c)) in s.rooms[me.roomId]
  }

  ghost predicate IdsOwned(s: State) {
    (forall c :: c in s.conns && s.conns[c].me.Some? ==>
       s.conns[c].me.value.id < |s.owner| && s.owner[s.conns[c].me.value.id] == c)
    && forall i :: 0 <= i < |s.owner| ==>
       s.owner[i] in s.conns && s.conns[s.owner[i]].me.Some? && s.conns[s.owner[i]].me.value.id == i
  }

  ghost predicate GoneNotOpen(s: State) {
    forall c :: c in s.conns && s.conns[c].gone ==> !s.conns[c].open
  }

  /** The registry: no stored room is empty or overfull, and room entries and
      joined connections are in one-to-one correspondence. */
  ghost predicate Registry(s: State, cfg: Config) {
    RoomsOk(s, cfg) && EntriesSeated(s) && JoinedListed(s) && IdsOwned(s) && GoneNotOpen(s)
  }

  /** The chat a client has seen and will see is one contiguous piece of the
      room's log, starting where it joined. */
  ghost predicate HearsSegment(s: State, k: Conn, heard: seq<Chat>)
    requires k.me.Some?
  {
    var log := Log(s, k.me.value.roomId);
    k.since + |heard| <= |log| && heard == log[k.since..k.since + |heard|]
  }

  /** What a client on connection k knows, once it has read everything sent to
      it, is what the server knows about it. */
  ghost predicate Agrees(s: State, k: Conn, f: View) {
    (!f.joined ==> f == LOBBY)
    && (k.me.None? ==> !f.joined)
    && (k.me.Some? ==>
          HearsSegment(s, k, f.heard)
          && (f.joined ==> f.self == k.me.value.id)
          && (k.open ==> f.joined && f.people == Public(RoomOf(s, k.me.value.roomId))
                         && k.since + |f.heard| == |Log(s, k.me.value.roomId)|))
  }

  ghost predicate Synced(s: State, c: ConnId, v: View)
    requires c in s.conns
  {
    ProperStream(v, s.conns[c].wire) && Agrees(s, s.conns[c], Fold(v, s.conns[c].wire))
  }

  ghost predicate Inv(cfg: Config, n: Net) {
    n.views.Keys == n.server.conns.Keys
    && Registry(n.server, cfg)
    && forall c :: c in n.server.conns && c !in n.left ==> Synced(n.server, c, n.views[c])
  }

  // ------------------------------------------------------------ broadcast facts

  /** Does `room` hold an entry on connection d that the broadcast addresses? */
  ghost predicate Addressed(room: Room, d: ConnId, except: Option<Id>) {
    exists e :: e in room && e.value.ws == d && Some(e.key) != except
  }

  ghost predicate SocketsDiffer(room: Room) {
    forall i, j :: 0 <= i < j < |room| ==> room[i].value.ws != room[j].value.ws
  }

  /** What happens to the other connections once the head is served. */
  lemma AddressedCons(room: Room, d: ConnId, except: Option<Id>)
    requires SocketsDiffer(room) && room != []
    ensures d == room[0].value.ws ==> !Addressed(room[1..], d, except)
    ensures Addressed(room, d, except)
      <==> Addressed(room[1..], d, except) || (d == room[0].value.ws && Some(room[0].key) != except)
  {
    assert room == [room[0]] + room[1..];
    if d == room[0].value.ws { HeadSocketDiffers(room); }
    assert room[0] in room;
  }

  /** A broadcast sends exactly once to every addressed member and changes
      nothing else. */
  lemma {:induction false} BroadcastOnce(s: State, room: Room, m: ServerMsg, except: Option<Id>)
    requires SocketsDiffer(room) && forall e :: e in room ==> e.value.ws in s.conns
    ensures var t := Broadcast(s, room, m, except);
      t == s.(conns := t.conns) && t.conns.Keys == s.conns.Keys
      && forall d :: d in s.conns ==>
        t.conns[d] == if Addressed(room, d, except) then Posted(s.conns[d], m) else s.conns[d]
    decreases room
  {
    if room != [] {
      var s1 := if Some(room[0].key) != except then Send(s, room[0].value.ws, m) else s;
      assert room == [room[0]] + room[1..];
      BroadcastOnce(s1, room[1..], m, except);
      forall d | d in s.conns
        ensures Broadcast(s, room, m, except).conns[d]
          == if Addressed(room, d, except) then Posted(s.conns[d], m) else s.conns[d]
      {
        AddressedCons(room, d, except);
      }
    }
  }

  lemma RegistrySockets(s: State, cfg: Config, r: RoomId)
    requires Registry(s, cfg) && r in s.rooms
    ensures SocketsDiffer(s.rooms[r])
    ensures forall e :: e in s.rooms[r] ==> e.value.ws in s.conns && e.key < |s.owner|
  {
    var room := s.rooms[r];
    forall i, j | 0 <= i < j < |room| ensures room[i].value.ws != room[j].value.ws {
      assert Seated(s, r, room[i]) && Seated(s, r, room[j]);
    }
    forall e | e in room ensures e.value.ws in s.conns && e.key < |s.owner| {
      assert Seated(s, r, e);
    }
  }

  lemma PublicCons(e: Entry<Id, Member>, rest: Room)
    ensures Public([e] + rest) == [Entry(e.key, e.value.displayName)] + Public(rest)
  {
    var all, r := [e] + rest, [Entry(e.key, e.value.displayName)] + Public(rest);
    forall i | 0 <= i < |all| ensures Public(all)[i] == r[i] {
      assert i > 0 ==> all[i] == rest[i - 1];
    }
  }

  lemma {:induction false} PublicDelete(room: Room, id: Id)
    ensures Public(Delete(room, id)) == Delete(Public(room), id)
  {
    if room != [] {
      PublicDelete(room[1..], id);
      assert room == [room[0]] + room[1..];
      PublicCons(room[0], room[1..]);
      PublicCons(room[0], Delete(room[1..], id));
      assert Public(room)[1..] == Public(room[1..]);
    }
  }

  lemma HasPublic(room: Room)
    ensures forall q :: Has(Public(room), q) <==> Has(room, q)
    ensures Distinct(room) ==> Distinct(Public(room))
  {
    var p := Public(room);
    forall q ensures Has(p, q) <==> Has(room, q) {
      if i :| 0 <= i < |room| && room[i].key == q { assert p[i].key == q; }
      if i :| 0 <= i < |p| && p[i].key == q { assert room[i].key == q; }
    }
  }

  lemma EntryHas<K, V>(t: Table<K, V>, e: Entry<K, V>)
    requires e in t
    ensures Has(t, e.key)
  {
    var i :| 0 <= i < |t| && t[i] == e;
  }

  // -------------------------------------------------------------- preservation

  /** The registry does not depend on wires and buckets. */
  lemma RegistryFrame(s: State, t: State, cfg: Config)
    requires Registry(s, cfg) && t.rooms == s.rooms && t.owner == s.owner && t.conns.Keys == s.conns.Keys
    requires forall c :: c in s.conns ==>
      t.conns[c].me == s.conns[c].me && t.conns[c].gone == s.conns[c].gone && (t.conns[c].open ==> s.conns[c].open)
    ensures Registry(t, cfg)
  {
    forall r, e | r in t.rooms && e in t.rooms[r] ensures Seated(t, r, e) { assert Seated(s, r, e); }
    forall c | Joined(t, c)
      ensures var me := t.conns[c].me.value;
        me.roomId in t.rooms && Entry(me.id, Member(me.displayName, c)) in t.rooms[me.roomId]
    {
      assert Joined(s, c);
    }
  }

  /** Nor does what a client knows depend on buckets, and losing its socket or
      having its close event handled asks less of it. */
  lemma SyncedFrame(s: State, t: State, d: ConnId, v: View)
    requires d in s.conns && d in t.conns && Synced(s, d, v) && t.rooms == s.rooms && t.log == s.log
    requires var k, k' := s.conns[d], t.conns[d];
      k' == k.(open := k'.open, gone := k'.gone, bucket := k'.bucket) && (k'.open ==> k.open)
    ensures Synced(t, d, v)
  {}

  lemma BucketKeeps(cfg: Config, n: Net, c: ConnId, b: Bucket)
    requires Inv(cfg, n) && c in n.server.conns
    ensures Inv(cfg, n.(server := n.server.(conns := n.server.conns[c := n.server.conns[c].(bucket := b)])))
  {
    var s := n.server;
    var t := s.(conns := s.conns[c := s.conns[c].(bucket := b)]);
    RegistryFrame(s, t, cfg);
    forall d | d in t.conns && d !in n.left ensures Synced(t, d, n.views[d]) {
      assert Synced(s, d, n.views[d]);
      SyncedFrame(s, t, d, n.views[d]);
    }
  }

  /** One more message on d's wire, if the socket is open. */
  lemma PushSynced(s: State, t: State, d: ConnId, v: View, m: ServerMsg)
    requires d in s.conns && d in t.conns && ProperStream(v, s.conns[d].wire)
    requires t.conns[d].wire == if s.conns[d].open then s.conns[d].wire + [m] else s.conns[d].wire
    requires var f := Fold(v, s.conns[d].wire);
      if s.conns[d].open then Proper(f, m) && Agrees(t, t.conns[d], Apply(f, m)) else Agrees(t, t.conns[d], f)
    ensures Synced(t, d, v)
  {
    FoldAppend(v, s.conns[d].wire, m);
  }

  /** One message to one client: a reply, or a signal from somebody listed. */
  lemma SendKeeps(cfg: Config, n: Net, c: ConnId, m: ServerMsg)
    requires Inv(cfg, n) && c in n.server.conns && (IsReply(m) || m.Relay?)
    requires c !in n.left && n.server.conns[c].open ==> Proper(Fold(n.views[c], n.server.conns[c].wire), m)
    ensures Inv(cfg, n.(server := Send(n.server, c, m)))
  {
    var s, t := n.server, Send(n.server, c, m);
    RegistryFrame(s, t, cfg);
    forall d | d in t.conns && d !in n.left ensures Synced(t, d, n.views[d]) {
      assert Synced(s, d, n.views[d]);
      SilentSynced(s, t, d, n.views[d], m);
    }
  }

  /** Replies and signals change no view. */
  lemma SilentSynced(s: State, t: State, d: ConnId, v: View, m: ServerMsg)
    requires d in s.conns && d in t.conns && Synced(s, d, v) && t.rooms == s.rooms && t.log == s.log
    requires IsReply(m) || m.Relay?
    requires t.conns[d] == s.conns[d]
      || (t.conns[d] == Posted(s.conns[d], m) && (s.conns[d].open ==> Proper(Fold(v, s.conns[d].wire), m)))
    ensures Synced(t, d, v)
  {
    assert forall f :: Apply(f, m) == f;
    if t.conns[d] != s.conns[d] { PushSynced(s, t, d, v, m); }
  }

  lemma RelayKeeps(cfg: Config, n: Net, c: ConnId, target: Id, signal: Signal, rid: Option<string>)
    requires Inv(cfg, n) && Joined(n.server, c)
    ensures Inv(cfg, n.(server := RelayTo(n.server, c, n.server.conns[c].me.value, target, signal, rid)))
  {
    var s, me := n.server, n.server.conns[c].me.value;
    var room := s.rooms[me.roomId];
    var hit := Find(room, target);
    if hit.Some? && target != me.id && ValidSignal(signal) {
      var d, m := hit.value.ws, Relay(me.id, signal);
      assert Seated(s, me.roomId, Entry(target, hit.value));
      if d !in n.left && s.conns[d].open {
        assert Synced(s, d, n.views[d]);
        EntryHas(room, Entry(me.id, Member(me.displayName, c)));
        HasPublic(room);
      }
      SendKeeps(cfg, n, d, m);
    } else {
      SendKeeps(cfg, n, c, Error(404, rid));
      SendKeeps(cfg, n, c, Error(400, rid));
    }
  }

  /** Among the members of a stored room a broadcast addresses exactly the
      joined connections of that room, but for the excepted one. */
  predicate Hears(s: State, r: RoomId, d: ConnId, except: Option<Id>) {
    Joined(s, d) && s.conns[d].me.value.roomId == r && Some(s.conns[d].me.value.id) != except
  }

  lemma AddressedIff(s: State, cfg: Config, r: RoomId, d: ConnId, except: Option<Id>)
    requires Registry(s, cfg) && r in s.rooms
    ensures Addressed(s.rooms[r], d, except) <==> Hears(s, r, d, except)
  {
    if Addressed(s.rooms[r], d, except) {
      var e :| e in s.rooms[r] && e.value.ws == d && Some(e.key) != except;
      assert Seated(s, r, e);
    }
    if Hears(s, r, d, except) {
      var me := s.conns[d].me.value;
      var own := Entry(me.id, Member(me.displayName, d));
      assert own in s.rooms[r] && own.value.ws == d && Some(own.key) != except;
    }
  }

  /** Everybody in the room, and nobody else, gets a chat message. */
  lemma SpeakKeeps(cfg: Config, n: Net, c: ConnId, text: Json, rid: Option<string>, now: int)
    requires Inv(cfg, n) && Joined(n.server, c)
    ensures Inv(cfg, n.(server := Speak(n.server, c, n.server.conns[c].me.value, text, rid, now)))
  {
    hide Synced;
    var s, me := n.server, n.server.conns[c].me.value;
    if !ValidChat(text) {
      SendKeeps(cfg, n, c, Error(400, rid));
      return;
    }
    var r, room := me.roomId, s.rooms[me.roomId];
    var chat := Chat(me.id, me.displayName, Trim(text.text), now);
    var s1 := s.(log := s.log[r := Log(s, r) + [chat]]);
    var t := Broadcast(s1, room, ChatMessage(chat), None);
    RegistrySockets(s, cfg, r);
    BroadcastOnce(s1, room, ChatMessage(chat), None);
    RegistryFrame(s, t, cfg);
    EntryHas(room, Entry(me.id, Member(me.displayName, c)));
    HasPublic(room);
    forall d | d in t.conns && d !in n.left ensures Synced(t, d, n.views[d]) {
      assert Synced(s, d, n.views[d]);
      AddressedIff(s, cfg, r, d, None);
      ChatSynced(s, t, r, chat, d, n.views[d]);
    }
  }

  lemma ChatSynced(s: State, t: State, r: RoomId, chat: Chat, d: ConnId, v: View)
    requires d in s.conns && Synced(s, d, v) && GoneNotOpen(s)
    requires d in t.conns && t.rooms == s.rooms && t.log == s.log[r := Log(s, r) + [chat]]
    requires t.conns[d] == if Hears(s, r, d, None) then Posted(s.conns[d], ChatMessage(chat)) else s.conns[d]
    requires Has(Public(RoomOf(s, r)), chat.sender)
    ensures Synced(t, d, v)
  {
    if Hears(s, r, d, None) {
      ChatAgrees(s, t, r, chat, s.conns[d], t.conns[d], Fold(v, s.conns[d].wire));
      PushSynced(s, t, d, v, ChatMessage(chat));
    }
  }

  lemma ChatAgrees(s: State, t: State, r: RoomId, chat: Chat, k: Conn, k': Conn, f: View)
    requires Agrees(s, k, f) && k.me.Some? && k.me.value.roomId == r && k' == Posted(k, ChatMessage(chat))
    requires t.rooms == s.rooms && t.log == s.log[r := Log(s, r) + [chat]]
    ensures Agrees(t, k', if k.open then Apply(f, ChatMessage(chat)) else f)
  {
    var log := Log(s, r);
    assert k.open ==> f.heard == log[k.since..];
    assert k.open ==> f.heard + [chat] == (log + [chat])[k.since..];
    assert forall n | k.since <= n <= |log| :: (log + [chat])[k.since..n] == log[k.since..n];
  }

  /** The state between `rooms.set` and the first send of a join. */
  function Seat(s: State, c: ConnId, me: Me, room: Room): State
    requires c in s.conns
  {
    s.(rooms := s.rooms[me.roomId := room], owner := s.owner + [c],
       conns := s.conns[c := s.conns[c].(me := Some(me), since := |Log(s, me.roomId)|)])
  }

  lemma NewIdAbsent(s: State, cfg: Config, r: RoomId)
    requires Registry(s, cfg)
    ensures !Has(RoomOf(s, r), |s.owner|)
  {
    if r in s.rooms {
      RegistrySockets(s, cfg, r);
      forall i | 0 <= i < |s.rooms[r]| ensures s.rooms[r][i].key != |s.owner| {
        assert s.rooms[r][i] in s.rooms[r];
      }
    }
  }

  lemma SeatKeepsRegistry(s: State, cfg: Config, c: ConnId, me: Me)
    requires Registry(s, cfg) && c in s.conns && s.conns[c].me.None? && !s.conns[c].gone
    requires me.id == |s.owner| && |RoomOf(s, me.roomId)| < cfg.maxParticipants
    ensures !Has(RoomOf(s, me.roomId), me.id)
    ensures Registry(Seat(s, c, me, RoomOf(s, me.roomId) + [Entry(me.id, Member(me.displayName, c))]), cfg)
  {
    var room := RoomOf(s, me.roomId);
    var seat := Entry(me.id, Member(me.displayName, c));
    NewIdAbsent(s, cfg, me.roomId);
    var t := Seat(s, c, me, room + [seat]);
    forall q, e | q in t.rooms && e in t.rooms[q] ensures Seated(t, q, e) {
      if q != me.roomId || e in room { assert Seated(s, q, e); }
    }
    forall d | Joined(t, d)
      ensures var m := t.conns[d].me.value;
        m.roomId in t.rooms && Entry(m.id, Member(m.displayName, d)) in t.rooms[m.roomId]
    {
      assert d != c ==> Joined(s, d);
    }
  }

  /** A join answers the newcomer with a snapshot that lists it, and announces
      it to every other member. */
  lemma JoinKeeps(cfg: Config, n: Net, c: ConnId, roomId: Json, name: Json, rid: Option<string>)
    requires Inv(cfg, n) && c in n.server.conns && !n.server.conns[c].gone
    ensures Inv(cfg, n.(server := Join(n.server, cfg, c, roomId, name, rid)))
  {
    hide Synced;
    var s := n.server;
    if s.conns[c].me.Some? {
      SendKeeps(cfg, n, c, Error(409, rid));
    } else if !ValidRoomId(roomId) || !ValidName(name) {
      SendKeeps(cfg, n, c, Error(400, rid));
    } else if |RoomOf(s, roomId.text)| >= cfg.maxParticipants {
      SendKeeps(cfg, n, c, Error(409, rid));
    } else {
      NewcomerKeeps(cfg, n, c, Me(|s.owner|, Trim(name.text), roomId.text), rid);
      JoinIsDone(s, cfg, c, roomId, name, rid);
    }
  }

  lemma JoinIsDone(s: State, cfg: Config, c: ConnId, roomId: Json, name: Json, rid: Option<string>)
    requires Registry(s, cfg) && c in s.conns && s.conns[c].me.None?
    requires ValidRoomId(roomId) && ValidName(name) && |RoomOf(s, roomId.text)| < cfg.maxParticipants
    ensures Join(s, cfg, c, roomId, name, rid) == JoinDone(s, c, Me(|s.owner|, Trim(name.text), roomId.text), rid)
  {
    NewIdAbsent(s, cfg, roomId.text);
    PutNew(RoomOf(s, roomId.text), |s.owner|, Member(Trim(name.text), c));
  }

  /** The state a successful join ends in. */
  function JoinDone(s: State, c: ConnId, me: Me, rid: Option<string>): State
    requires c in s.conns
  {
    var room := RoomOf(s, me.roomId) + [Entry(me.id, Member(me.displayName, c))];
    var s2 := Send(Seat(s, c, me, room), c, RoomJoined(me.id, Public(room), rid));
    Broadcast(s2, room, ParticipantJoined(me.id, me.displayName), Some(me.id))
  }

  ghost predicate JoinSays(s: State, t: State, c: ConnId, me: Me, rid: Option<string>)
    requires c in s.conns
  {
    var room := RoomOf(s, me.roomId) + [Entry(me.id, Member(me.displayName, c))];
    t == Seat(s, c, me, room).(conns := t.conns) && t.conns.Keys == s.conns.Keys
    && t.conns[c] == Posted(s.conns[c].(me := Some(me), since := |Log(s, me.roomId)|),
                            RoomJoined(me.id, Public(room), rid))
    && forall d :: d in s.conns && d != c ==>
      t.conns[d] == if !Hears(s, me.roomId, d, Some(me.id)) then s.conns[d]
        else Posted(s.conns[d], ParticipantJoined(me.id, me.displayName))
  }

  lemma JoinWires(s: State, c: ConnId, me: Me, rid: Option<string>)
    requires c in s.conns
    requires var room := RoomOf(s, me.roomId) + [Entry(me.id, Member(me.displayName, c))];
      SocketsDiffer(room) && (forall e :: e in room ==> e.value.ws in s.conns)
      && forall d :: d in s.conns ==>
        (Addressed(room, d, Some(me.id)) <==> d != c && Hears(s, me.roomId, d, Some(me.id)))
    ensures JoinSays(s, JoinDone(s, c, me, rid), c, me, rid)
  {
    var room := RoomOf(s, me.roomId) + [Entry(me.id, Member(me.displayName, c))];
    var s2 := Send(Seat(s, c, me, room), c, RoomJoined(me.id, Public(room), rid));
    BroadcastOnce(s2, room, ParticipantJoined(me.id, me.displayName), Some(me.id));
  }

  lemma JoinEffect(s: State, cfg: Config, c: ConnId, me: Me, rid: Option<string>)
    requires Registry(s, cfg) && c in s.conns && s.conns[c].me.None? && !s.conns[c].gone
    requires me.id == |s.owner| && |RoomOf(s, me.roomId)| < cfg.maxParticipants
    ensures JoinSays(s, JoinDone(s, c, me, rid), c, me, rid)
    ensures Registry(JoinDone(s, c, me, rid), cfg)
    ensures Distinct(RoomOf(s, me.roomId) + [Entry(me.id, Member(me.displayName, c))])
    ensures !Has(RoomOf(s, me.roomId), me.id)
  {
    var room := RoomOf(s, me.roomId) + [Entry(me.id, Member(me.displayName, c))];
    SeatAddressed(s, cfg, c, me);
    JoinWires(s, c, me, rid);
    JoinRegistry(s, JoinDone(s, c, me, rid), cfg, c, me, rid);
  }

  lemma JoinRegistry(s: State, t: State, cfg: Config, c: ConnId, me: Me, rid: Option<string>)
    requires c in s.conns && JoinSays(s, t, c, me, rid)
    requires Registry(Seat(s, c, me, RoomOf(s, me.roomId) + [Entry(me.id, Member(me.displayName, c))]), cfg)
    ensures Registry(t, cfg)
  {
    var s1 := Seat(s, c, me, RoomOf(s, me.roomId) + [Entry(me.id, Member(me.displayName, c))]);
    forall d | d in s1.conns
      ensures t.conns[d].me == s1.conns[d].me && t.conns[d].gone == s1.conns[d].gone
      ensures t.conns[d].open == s1.conns[d].open
    {
      assert d != c ==> s1.conns[d] == s.conns[d];
    }
    RegistryFrame(s1, t, cfg);
  }

  lemma SeatAddressed(s: State, cfg: Config, c: ConnId, me: Me)
    requires Registry(s, cfg) && c in s.conns && s.conns[c].me.None? && !s.conns[c].gone
    requires me.id == |s.owner| && |RoomOf(s, me.roomId)| < cfg.maxParticipants
    ensures var room := RoomOf(s, me.roomId) + [Entry(me.id, Member(me.displayName, c))];
      Registry(Seat(s, c, me, room), cfg) && Distinct(room) && !Has(RoomOf(s, me.roomId), me.id)
      && SocketsDiffer(room) && (forall e :: e in room ==> e.value.ws in s.conns)
      && forall d :: d in s.conns ==>
        (Addressed(room, d, Some(me.id)) <==> d != c && Hears(s, me.roomId, d, Some(me.id)))
  {
    var room := RoomOf(s, me.roomId) + [Entry(me.id, Member(me.displayName, c))];
    SeatKeepsRegistry(s, cfg, c, me);
    var s1 := Seat(s, c, me, room);
    RegistrySockets(s1, cfg, me.roomId);
    assert Distinct(s1.rooms[me.roomId]);
    forall d | d in s.conns
      ensures Addressed(room, d, Some(me.id)) <==> d != c && Hears(s, me.roomId, d, Some(me.id))
    {
      AddressedIff(s1, cfg, me.roomId, d, Some(me.id));
    }
  }

  lemma NewcomerKeeps(cfg: Config, n: Net, c: ConnId, me: Me, rid: Option<string>)
    requires Inv(cfg, n) && c in n.server.conns && n.server.conns[c].me.None? && !n.server.conns[c].gone
    requires me.id == |n.server.owner| && |RoomOf(n.server, me.roomId)| < cfg.maxParticipants
    ensures Inv(cfg, n.(server := JoinDone(n.server, c, me, rid)))
  {
    var s := n.server;
    var t := JoinDone(s, c, me, rid);
    JoinEffect(s, cfg, c, me, rid);
    forall d | d in t.conns && d !in n.left ensures Synced(t, d, n.views[d]) {
      assert Synced(s, d, n.views[d]);
      if d == c {
        NewcomerSynced(s, t, c, me, t.rooms[me.roomId], rid, n.views[c]);
      } else {
        WitnessSynced(s, t, c, me, d, n.views[d]);
      }
    }
  }

  lemma NewcomerSynced(s: State, t: State, c: ConnId, me: Me, room: Room, rid: Option<string>, v: View)
    requires c in s.conns && Synced(s, c, v) && s.conns[c].me.None?
    requires room == RoomOf(s, me.roomId) + [Entry(me.id, Member(me.displayName, c))] && Distinct(room)
    requires t.rooms == s.rooms[me.roomId := room] && t.log == s.log && c in t.conns
    requires t.conns[c] == Posted(s.conns[c].(me := Some(me), since := |Log(s, me.roomId)|),
                                  RoomJoined(me.id, Public(room), rid))
    ensures Synced(t, c, v)
  {
    HasPublic(room);
    FoldAppend(v, s.conns[c].wire, RoomJoined(me.id, Public(room), rid));
    assert [] + Public(room) == Public(room);
    PutAllFresh([], Public(room));
    assert room[|room| - 1].key == me.id;
  }

  lemma WitnessSynced(s: State, t: State, c: ConnId, me: Me, d: ConnId, v: View)
    requires d in s.conns && Synced(s, d, v) && (s.conns[d].open ==> !s.conns[d].gone)
    requires var old', seat := RoomOf(s, me.roomId), Entry(me.id, Member(me.displayName, c));
      !Has(old', me.id) && t.rooms == s.rooms[me.roomId := old' + [seat]]
    requires t.log == s.log && d in t.conns
    requires Joined(s, d) ==> s.conns[d].me.value.id != me.id
    requires t.conns[d] == if !Hears(s, me.roomId, d, Some(me.id)) then s.conns[d]
      else Posted(s.conns[d], ParticipantJoined(me.id, me.displayName))
    ensures Synced(t, d, v)
  {
    var old' := RoomOf(s, me.roomId);
    FoldAppend(v, s.conns[d].wire, ParticipantJoined(me.id, me.displayName));
    HasPublic(old');
    PutNew(Public(old'), me.id, me.displayName);
    assert Public(old' + [Entry(me.id, Member(me.displayName, c))]) == Public(old') + [Entry(me.id, me.displayName)];
  }

  lemma MessageKeeps(cfg: Config, n: Net, c: ConnId, frame: Frame, at: Reading)
    requires Inv(cfg, n) && c in n.server.conns && !n.server.conns[c].gone
    ensures Inv(cfg, n.(server := OnMessage(n.server, cfg, c, frame, at)))
  {
    var k := n.server.conns[c];
    var b := After(cfg.limits, k.bucket, at);
    var n1 := n.(server := n.server.(conns := n.server.conns[c := k.(bucket := b)]));
    BucketKeeps(cfg, n, c, b);
    if !Admits(cfg.limits, k.bucket, at) {
      SendKeeps(cfg, n1, c, Error(429, None));
    } else {
      match frame
      case Garbage => SendKeeps(cfg, n1, c, Error(400, None));
      case Request(rid, body) => DispatchKeeps(cfg, n1, c, rid, body, at.again);
    }
  }

  lemma DispatchKeeps(cfg: Config, n: Net, c: ConnId, rid: Option<string>, body: Body, now: int)
    requires Inv(cfg, n) && c in n.server.conns && !n.server.conns[c].gone
    ensures Inv(cfg, n.(server := Dispatch(n.server, cfg, c, rid, body, now)))
  {
    hide Synced;
    SendKeeps(cfg, n, c, Error(403, rid));
    match body
    case Ping => SendKeeps(cfg, n, c, Pong(rid));
    case CreateRoom => SendKeeps(cfg, n, c, RoomCreated(rid));
    case JoinRoom(roomId, name) => JoinKeeps(cfg, n, c, roomId, name, rid);
    case SignalTo(target, signal) => if Joined(n.server, c) { RelayKeeps(cfg, n, c, target, signal, rid); }
    case ChatSend(text) => if Joined(n.server, c) { SpeakKeeps(cfg, n, c, text, rid, now); }
    case UnknownType => SendKeeps(cfg, n, c, Error(400, rid));
  }

  /** A close event finds its room, and every remaining member is told. */
  lemma CloseKeeps(cfg: Config, n: Net, c: ConnId)
    requires Inv(cfg, n) && c in n.server.conns && !n.server.conns[c].gone
    ensures OnClose(n.server, c).Some?
    ensures Inv(cfg, n.(server := OnClose(n.server, c).value))
  {
    var s := n.server;
    var s1 := s.(conns := s.conns[c := s.conns[c].(open := false, gone := true)]);
    if s.conns[c].me.None? {
      RegistryClose(s, s1, cfg, c);
      forall d | d in s.conns && d !in n.left ensures Synced(s1, d, n.views[d]) {
        assert Synced(s, d, n.views[d]);
        SyncedFrame(s, s1, d, n.views[d]);
      }
    } else {
      assert Joined(s, c);
      MemberLeaves(cfg, n, c, s.conns[c].me.value);
    }
  }

  /** Once the leaver's entry is deleted, a broadcast addresses the other members. */
  lemma LeaverAddressed(s: State, cfg: Config, c: ConnId, me: Me)
    requires Registry(s, cfg) && Joined(s, c) && s.conns[c].me == Some(me)
    ensures me.roomId in s.rooms && Has(s.rooms[me.roomId], me.id)
    ensures var room := Delete(s.rooms[me.roomId], me.id);
      SocketsDiffer(room) && (forall e :: e in room ==> e.value.ws in s.conns)
      && forall d :: d in s.conns ==> (Addressed(room, d, None) <==> Hears(s, me.roomId, d, Some(me.id)))
  {
    var r := me.roomId;
    var room := Delete(s.rooms[r], me.id);
    RegistrySockets(s, cfg, r);
    DeleteKeepsOthers(s.rooms[r], me.id);
    SocketsSubset(s.rooms[r], me.id);
    EntryHas(s.rooms[r], Entry(me.id, Member(me.displayName, c)));
    forall d | d in s.conns ensures Addressed(room, d, None) <==> Hears(s, r, d, Some(me.id)) {
      AddressedIff(s, cfg, r, d, Some(me.id));
      assert Addressed(room, d, None) <==> Addressed(s.rooms[r], d, Some(me.id));
    }
  }

  function RoomsWithout(s: State, me: Me): map<RoomId, Room>
    requires me.roomId in s.rooms
  {
    var room := Delete(s.rooms[me.roomId], me.id);
    if room == [] then s.rooms[me.roomId := room] - {me.roomId} else s.rooms[me.roomId := room]
  }

  ghost predicate CloseSays(s: State, t: State, c: ConnId, me: Me)
    requires c in s.conns && me.roomId in s.rooms
  {
    t == s.(conns := t.conns, rooms := RoomsWithout(s, me)) && t.conns.Keys == s.conns.Keys
    && t.conns[c] == s.conns[c].(open := false, gone := true)
    && forall d :: d in s.conns && d != c ==>
      t.conns[d] == if Hears(s, me.roomId, d, Some(me.id)) then Posted(s.conns[d], ParticipantLeft(me.id))
        else s.conns[d]
  }

  lemma CloseWires(s: State, c: ConnId, me: Me)
    requires c in s.conns && s.conns[c].me == Some(me) && me.roomId in s.rooms
    requires var room := Delete(s.rooms[me.roomId], me.id);
      SocketsDiffer(room) && (forall e :: e in room ==> e.value.ws in s.conns)
      && forall d :: d in s.conns ==> (Addressed(room, d, None) <==> Hears(s, me.roomId, d, Some(me.id)))
    ensures OnClose(s, c).Some? && CloseSays(s, OnClose(s, c).value, c, me)
  {
    var r := me.roomId;
    var room := Delete(s.rooms[r], me.id);
    var s2 := s.(conns := s.conns[c := s.conns[c].(open := false, gone := true)], rooms := s.rooms[r := room]);
    BroadcastOnce(s2, room, ParticipantLeft(me.id), None);
  }

  /** What a member's close event does. */
  lemma CloseEffect(s: State, cfg: Config, c: ConnId, me: Me)
    requires Registry(s, cfg) && Joined(s, c) && s.conns[c].me == Some(me)
    ensures me.roomId in s.rooms && Has(s.rooms[me.roomId], me.id)
    ensures OnClose(s, c).Some? && CloseSays(s, OnClose(s, c).value, c, me) && Registry(OnClose(s, c).value, cfg)
  {
    hide OnClose;
    LeaverAddressed(s, cfg, c, me);
    CloseWires(s, c, me);
    var t := OnClose(s, c).value;
    var shut := s.conns[c := s.conns[c].(open := false, gone := true)];
    RegistryClose(s, t.(conns := shut), cfg, c);
    RegistryFrame(t.(conns := shut), t, cfg);
  }

  lemma MemberLeaves(cfg: Config, n: Net, c: ConnId, me: Me)
    requires Inv(cfg, n) && Joined(n.server, c) && n.server.conns[c].me == Some(me)
    ensures OnClose(n.server, c).Some?
    ensures Inv(cfg, n.(server := OnClose(n.server, c).value))
  {
    var s := n.server;
    CloseEffect(s, cfg, c, me);
    var t := OnClose(s, c).value;
    HasPublic(s.rooms[me.roomId]);
    forall d | d in t.conns && d !in n.left ensures Synced(t, d, n.views[d]) {
      assert Synced(s, d, n.views[d]);
      assert d != c && s.conns[d].me.Some? ==> s.conns[d].me.value.id != me.id;
      LeaveSynced(s, t, c, me, d, n.views[d]);
    }
  }

  lemma {:induction false} SocketsSubset(room: Room, id: Id)
    requires SocketsDiffer(room)
    ensures SocketsDiffer(Delete(room, id))
  {
    if room != [] {
      forall i, j | 0 <= i < j < |room[1..]| ensures room[1..][i].value.ws != room[1..][j].value.ws {
        assert room[1..][i] == room[i + 1] && room[1..][j] == room[j + 1];
      }
      SocketsSubset(room[1..], id);
      HeadSocketDiffers(room);
      DeleteKeepsOthers(room[1..], id);
      ConsSockets(room[0], Delete(room[1..], id));
    }
  }

  lemma HeadSocketDiffers(room: Room)
    requires SocketsDiffer(room) && room != []
    ensures forall e :: e in room[1..] ==> e.value.ws != room[0].value.ws
  {
    forall e | e in room[1..] ensures e.value.ws != room[0].value.ws {
      var i :| 0 <= i < |room[1..]| && room[1..][i] == e;
      assert room[i + 1] == e;
    }
  }

  lemma ConsSockets(e: Entry<Id, Member>, rest: Room)
    requires SocketsDiffer(rest) && forall d :: d in rest ==> d.value.ws != e.value.ws
    ensures SocketsDiffer([e] + rest)
  {
    var all := [e] + rest;
    forall i, j | 0 <= i < j < |all| ensures all[i].value.ws != all[j].value.ws {
      assert all[j] == rest[j - 1] && all[j] in rest;
      assert i > 0 ==> all[i] == rest[i - 1];
    }
  }

  lemma RegistryClose(s: State, t: State, cfg: Config, c: ConnId)
    requires Registry(s, cfg) && c in s.conns && !s.conns[c].gone
    requires t.conns == s.conns[c := s.conns[c].(open := false, gone := true)] && t.owner == s.owner
    requires s.conns[c].me.None? ==> t.rooms == s.rooms
    requires s.conns[c].me.Some? ==> var me := s.conns[c].me.value;
      me.roomId in s.rooms
      && var room := Delete(s.rooms[me.roomId], me.id);
         t.rooms == (if room == [] then s.rooms[me.roomId := room] - {me.roomId} else s.rooms[me.roomId := room])
    ensures Registry(t, cfg)
  {
    if s.conns[c].me.Some? {
      DeleteKeepsOthers(s.rooms[s.conns[c].me.value.roomId], s.conns[c].me.value.id);
    }
    forall r, e | r in t.rooms && e in t.rooms[r] ensures Seated(t, r, e) {
      assert r in s.rooms && e in s.rooms[r];
      assert Seated(s, r, e);
    }
    forall d | Joined(t, d)
      ensures var me := t.conns[d].me.value;
        me.roomId in t.rooms && Entry(me.id, Member(me.displayName, d)) in t.rooms[me.roomId]
    {
      assert Joined(s, d) && d != c;
      assert s.owner[s.conns[d].me.value.id] == d;
    }
  }

  lemma LeaveSynced(s: State, t: State, c: ConnId, me: Me, d: ConnId, v: View)
    requires c in s.conns && d in s.conns && Synced(s, d, v) && d in t.conns && t.log == s.log
    requires (s.conns[d].open ==> !s.conns[d].gone) && s.conns[c].me == Some(me) && me.roomId in s.rooms
    requires Has(Public(s.rooms[me.roomId]), me.id)
    requires d != c && s.conns[d].me.Some? ==> s.conns[d].me.value.id != me.id
    requires var room := Delete(s.rooms[me.roomId], me.id);
      t.rooms == (if room == [] then s.rooms[me.roomId := room] - {me.roomId} else s.rooms[me.roomId := room])
    requires var k := if d == c then s.conns[c].(open := false, gone := true) else s.conns[d];
      t.conns[d] == if Hears(s, me.roomId, d, Some(me.id)) then Posted(k, ParticipantLeft(me.id)) else k
    ensures Synced(t, d, v)
  {
    var k, f := s.conns[d], Fold(v, s.conns[d].wire);
    if Hears(s, me.roomId, d, Some(me.id)) {
      PublicDelete(s.rooms[me.roomId], me.id);
      PushSynced(s, t, d, v, ParticipantLeft(me.id));
    }
  }

  /** Steps in which the server says nothing: what each client has read and has
      still to read amounts to the same. */
  lemma QuietStepKeeps(cfg: Config, n: Net, u: Net)
    requires Inv(cfg, n) && u.views.Keys == n.views.Keys && n.left <= u.left
    requires u.server == n.server.(conns := u.server.conns) && u.server.conns.Keys == n.server.conns.Keys
    requires forall d :: d in n.server.conns ==>
      var k, k' := n.server.conns[d], u.server.conns[d];
      k' == k.(open := k'.open, wire := k'.wire) && (k'.open ==> k.open)
      && (d !in u.left ==> Fold(u.views[d], k'.wire) == Fold(n.views[d], k.wire)
                           && (ProperStream(n.views[d], k.wire) ==> ProperStream(u.views[d], k'.wire)))
    ensures Inv(cfg, u)
  {
    RegistryFrame(n.server, u.server, cfg);
    forall d | d in u.server.conns && d !in u.left ensures Synced(u.server, d, u.views[d]) {
      assert Synced(n.server, d, n.views[d]);
      QuietSynced(n.server, u.server, d, n.views[d], u.views[d]);
    }
  }

  lemma QuietSynced(s: State, t: State, d: ConnId, v: View, v': View)
    requires d in s.conns && d in t.conns && Synced(s, d, v) && t.rooms == s.rooms && t.log == s.log
    requires var k, k' := s.conns[d], t.conns[d]; k' == k.(open := k'.open, wire := k'.wire) && (k'.open ==> k.open)
    requires ProperStream(v', t.conns[d].wire) && Fold(v', t.conns[d].wire) == Fold(v, s.conns[d].wire)
    ensures Synced(t, d, v')
  {}

  lemma OpenKeepsRegistry(s: State, cfg: Config, c: ConnId, now: int)
    requires Registry(s, cfg) && c !in s.conns
    ensures Registry(Connect(s, cfg, c, now), cfg)
  {
    var t := Connect(s, cfg, c, now);
    forall r, e | r in t.rooms && e in t.rooms[r] ensures Seated(t, r, e) { assert Seated(s, r, e); }
    forall d | Joined(t, d)
      ensures var me := t.conns[d].me.value;
        me.roomId in t.rooms && Entry(me.id, Member(me.displayName, d)) in t.rooms[me.roomId]
    {
      assert Joined(s, d);
    }
  }

  lemma OpenKeeps(cfg: Config, n: Net, c: ConnId, now: int)
    requires Inv(cfg, n) && Enabled(n, Open(c, now))
    ensures Inv(cfg, Next(cfg, n, Open(c, now)))
  {
    var s, t := n.server, Next(cfg, n, Open(c, now));
    OpenKeepsRegistry(s, cfg, c, now);
    forall d | d in t.server.conns && d !in t.left ensures Synced(t.server, d, t.views[d]) {
      assert d != c ==> Synced(s, d, n.views[d]);
    }
  }

  lemma DeliverKeeps(cfg: Config, n: Net, c: ConnId)
    requires Inv(cfg, n) && Enabled(n, Deliver(c))
    ensures Inv(cfg, Next(cfg, n, Deliver(c)))
  {
    QuietStepKeeps(cfg, n, Next(cfg, n, Deliver(c)));
  }

  lemma LeaveKeeps(cfg: Config, n: Net, c: ConnId)
    requires Inv(cfg, n) && Enabled(n, Leave(c))
    ensures Inv(cfg, Next(cfg, n, Leave(c)))
  {
    QuietStepKeeps(cfg, n, Next(cfg, n, Leave(c)));
  }

  lemma LoseKeeps(cfg: Config, n: Net, c: ConnId)
    requires Inv(cfg, n) && Enabled(n, LoseOpen(c))
    ensures Inv(cfg, Next(cfg, n, LoseOpen(c)))
  {
    QuietStepKeeps(cfg, n, Next(cfg, n, LoseOpen(c)));
  }

  /** Every step keeps the invariant. */
  lemma StepKeeps(cfg: Config, n: Net, e: Step)
    requires cfg.Valid() && Inv(cfg, n) && Enabled(n, e)
    ensures Inv(cfg, Next(cfg, n, e))
  {
    hide Inv;
    match e
    case Message(c, frame, at) => MessageKeeps(cfg, n, c, frame, at);
    case Close(c) => CloseKeeps(cfg, n, c);
    case Open(c, now) => OpenKeeps(cfg, n, c, now);
    case LoseOpen(c) => LoseKeeps(cfg, n, c);
    case Deliver(c) => DeliverKeeps(cfg, n, c);
    case Leave(c) => LeaveKeeps(cfg, n, c);
  }

  lemma {:induction false} RunKeeps(cfg: Config, n: Net, run: seq<Step>)
    requires cfg.Valid() && Inv(cfg, n) && IsRun(cfg, n, run)
    ensures Inv(cfg, Final(cfg, n, run))
    decreases run
  {
    hide Inv;
    if run != [] {
      StepKeeps(cfg, n, run[0]);
      RunKeeps(cfg, Next(cfg, n, run[0]), run[1..]);
    }
  }
}
