/** What the server answers to every message, told from the outside: what was said,
    who is in which room, whose socket is open, and what each client is sent. */
module ServerAnswers {
  import opened JsMap
  import opened Protocol
  import opened RateLimiter
  import opened SignalingServer
  import RoomNet
  import RoomLimits

  // ------------------------------------------------- what the protocol asks for

  predicate Letter(c: char) { 'a' <= c <= 'z' || 'A' <= c <= 'Z' }

  predicate Digit(c: char) { '0' <= c <= '9' }

  predicate Blank(s: string) { forall i :: 0 <= i < |s| ==> IsSpace(s[i]) }

  predicate GoodRoomId(j: Json) {
    j.Text? && 3 <= |j.text| <= 32 && forall i :: 0 <= i < |j.text| ==> Letter(j.text[i]) || Digit(j.text[i])
  }

  /** Some text of at most `max` characters, not all of them white space. */
  predicate GoodText(j: Json, max: nat) { j.Text? && |j.text| <= max && !Blank(j.text) }

  predicate GoodSignal(s: Signal) {
    if s.Candidate? then
      s.candidate.Text? && |s.candidate.text| <= 4096
      && (s.sdpMid in {Undefined, Null} || s.sdpMid.Text?)
      && (s.sdpMLineIndex in {Undefined, Null} || (s.sdpMLineIndex.Integer? && s.sdpMLineIndex.n >= 0))
    else s.sdp.Text? && |s.sdp.text| >= 3 && s.sdp.text[..3] == "v=0"
  }

  /** `said` is `text` less the white space at both ends. */
  ghost predicate Stripped(text: string, said: string) {
    (exists a, b :: text == a + said + b && Blank(a) && Blank(b))
    && said != "" && !IsSpace(said[0]) && !IsSpace(said[|said| - 1])
  }

  // ------------------------------------------------------ who is where, when

  predicate InRoom(s: State, d: ConnId, r: RoomId) {
    d in s.conns && s.conns[d].me.Some? && !s.conns[d].gone && s.conns[d].me.value.roomId == r
  }

  function Members(s: State, r: RoomId): set<ConnId> { set d | d in s.conns && InRoom(s, d, r) }

  /** Somebody else in c's room is called q. */
  predicate Fellow(s: State, c: ConnId, q: Id)
    requires c in s.conns && s.conns[c].me.Some?
  {
    exists d :: d in s.conns && d != c && InRoom(s, d, s.conns[c].me.value.roomId) && s.conns[d].me.value.id == q
  }

  /** The limiter has a message left for this connection, or grants a new set now. */
  predicate InTime(cfg: Config, k: Conn, at: Reading) {
    k.bucket.tokens >= 1 || at.now >= k.bucket.lastRefill + cfg.limits.interval
  }

  /** The error a message is answered with, if any, by the first rule it breaks. */
  function Refusal(cfg: Config, s: State, c: ConnId, f: Frame, at: Reading): Option<int>
    requires c in s.conns
  {
    var me := s.conns[c].me;
    if !InTime(cfg, s.conns[c], at) then Some(429)
    else if f.Garbage? then Some(400)
    else match f.body
      case Ping => None
      case CreateRoom => None
      case JoinRoom(r, name) =>
        if me.Some? then Some(409)
        else if !GoodRoomId(r) || !GoodText(name, 50) then Some(400)
        else if |Members(s, r.text)| >= cfg.maxParticipants then Some(409)
        else None
      case SignalTo(q, signal) =>
        if me.None? then Some(403)
        else if !Fellow(s, c, q) then Some(404)
        else if !GoodSignal(signal) then Some(400)
        else None
      case ChatSend(text) =>
        if me.None? then Some(403) else if !GoodText(text, 4000) then Some(400) else None
      case UnknownType => Some(if me.None? then 403 else 400)
  }

  /** Refusals carry the request's id once the message has been parsed. */
  function AnswerTo(f: Frame, code: int): Option<string> {
    if code == 429 || f.Garbage? then None else f.requestId
  }

  /** The limiter's record after a message: a new set if the interval is over, and one
      less in any case. */
  function Charged(cfg: Config, b: Bucket, at: Reading): Bucket {
    if at.now >= b.lastRefill + cfg.limits.interval then Bucket(cfg.limits.tokens - 1, at.again)
    else b.(tokens := b.tokens - 1)
  }

  /** Handling c's message leaves d's connection as it was, but that c is charged and
      that `sent` goes out to d if its socket is open. */
  ghost predicate Gets(cfg: Config, s: State, t: State, c: ConnId, at: Reading, d: ConnId, sent: seq<ServerMsg>)
    requires c in s.conns && d in s.conns
  {
    d in t.conns
    && t.conns[d] == s.conns[d].(bucket := if d == c then Charged(cfg, s.conns[c].bucket, at) else s.conns[d].bucket,
                                 wire := s.conns[d].wire + if s.conns[d].open then sent else [])
  }

  // ------------------------------------------------------------------- tools

  function ChargedState(cfg: Config, s: State, c: ConnId, at: Reading): State
    requires c in s.conns
  {
    s.(conns := s.conns[c := s.conns[c].(bucket := Charged(cfg, s.conns[c].bucket, at))])
  }

  lemma Admission(cfg: Config, s: State, c: ConnId, f: Frame, at: Reading)
    requires cfg.Valid() && c in s.conns
    ensures InTime(cfg, s.conns[c], at) <==> Admits(cfg.limits, s.conns[c].bucket, at)
    ensures Charged(cfg, s.conns[c].bucket, at) == After(cfg.limits, s.conns[c].bucket, at)
    ensures var s1 := ChargedState(cfg, s, c, at);
      OnMessage(s, cfg, c, f, at)
      == if !InTime(cfg, s.conns[c], at) then Send(s1, c, Error(429, None))
         else if f.Garbage? then Send(s1, c, Error(400, None))
         else Dispatch(s1, cfg, c, f.requestId, f.body, at.again)
  {}

  lemma {:induction false} TrimStartSplits(s: string) returns (a: string)
    ensures s == a + TrimStart(s) && Blank(a)
  {
    if s != [] && IsSpace(s[0]) {
      a := TrimStartSplits(s[1..]);
      a := [s[0]] + a;
      assert s == [s[0]] + s[1..];
    } else {
      a := "";
    }
  }

  lemma {:induction false} TrimEndSplits(s: string) returns (b: string)
    ensures s == TrimEnd(s) + b && Blank(b)
    decreases |s|
  {
    if s != [] && IsSpace(s[|s| - 1]) {
      b := TrimEndSplits(s[..|s| - 1]);
      b := b + [s[|s| - 1]];
      assert s == s[..|s| - 1] + [s[|s| - 1]];
    } else {
      b := "";
    }
  }

  lemma TrimStrips(s: string)
    ensures Trim(s) != "" <==> !Blank(s)
    ensures Trim(s) != "" ==> Stripped(s, Trim(s))
  {
    var a := TrimStartSplits(s);
    var b := TrimEndSplits(TrimStart(s));
    assert s == a + Trim(s) + b;
    RoomLimits.TrimStartFacts(s);
    RoomLimits.TrimEndFacts(TrimStart(s));
    if Trim(s) == "" {
      assert TrimStart(s) == b;
      assert s == a + b;
    } else {
      assert Trim(s)[0] == TrimStart(s)[0] == s[|a|];
    }
  }

  lemma StartsNoLater(text: string, x: string, y: string, a: string, b: string, c: string, d: string)
    requires text == a + x + b && text == c + y + d && Blank(a)
    requires x != "" && y != "" && !IsSpace(y[0])
    ensures |a| <= |c|
  {
    assert text[|c|] == y[0];
    assert forall i :: 0 <= i < |a| ==> text[i] == a[i] && IsSpace(text[i]);
  }

  lemma EndsNoSooner(text: string, x: string, y: string, a: string, b: string, c: string, d: string)
    requires text == a + x + b && text == c + y + d && Blank(b)
    requires x != "" && y != "" && !IsSpace(y[|y| - 1])
    ensures |b| <= |d|
  {
    var n := |a| + |x|;
    assert text[|text| - 1 - |d|] == y[|y| - 1];
    assert forall i :: n <= i < |text| ==> text[i] == b[i - n] && IsSpace(text[i]);
  }

  /** There is one way to strip a text. */
  lemma StrippedOnce(text: string, x: string, y: string)
    requires Stripped(text, x) && Stripped(text, y)
    ensures x == y
  {
    var a, b :| text == a + x + b && Blank(a) && Blank(b);
    var c, d :| text == c + y + d && Blank(c) && Blank(d);
    StartsNoLater(text, x, y, a, b, c, d);
    StartsNoLater(text, y, x, c, d, a, b);
    EndsNoSooner(text, x, y, a, b, c, d);
    EndsNoSooner(text, y, x, c, d, a, b);
    assert x == text[|a|..|text| - |b|] && y == text[|c|..|text| - |d|];
  }

  lemma RulesMeet(r: Json, j: Json, signal: Signal)
    ensures GoodRoomId(r) == ValidRoomId(r)
    ensures GoodText(j, 50) == ValidName(j) && GoodText(j, 4000) == ValidChat(j)
    ensures GoodSignal(signal) == ValidSignal(signal)
  {
    if j.Text? { TrimStrips(j.text); }
  }

  function Sockets(room: Room): set<ConnId> {
    if room == [] then {} else {room[0].value.ws} + Sockets(room[1..])
  }

  lemma {:induction false} SocketOf(room: Room, d: ConnId)
    ensures d in Sockets(room) <==> exists e :: e in room && e.value.ws == d
  {
    if room != [] {
      SocketOf(room[1..], d);
      assert room == [room[0]] + room[1..];
    }
  }

  lemma {:induction false} SocketsCount(room: Room)
    requires RoomNet.SocketsDiffer(room)
    ensures |Sockets(room)| == |room|
  {
    if room != [] {
      RoomNet.HeadSocketDiffers(room);
      SocketOf(room[1..], room[0].value.ws);
      assert RoomNet.SocketsDiffer(room[1..]) by {
        assert forall i :: 0 <= i < |room[1..]| ==> room[1..][i] == room[i + 1];
      }
      SocketsCount(room[1..]);
    }
  }

  /** The entries of a stored room are its joined connections. */
  lemma SeatsAreMembers(cfg: Config, s: State, r: RoomId)
    requires RoomNet.Registry(s, cfg)
    ensures |Members(s, r)| == |RoomOf(s, r)|
  {
    if r in s.rooms {
      RoomNet.RegistrySockets(s, cfg, r);
      SocketsCount(s.rooms[r]);
      forall d ensures d in Members(s, r) <==> d in Sockets(s.rooms[r]) {
        RoomNet.AddressedIff(s, cfg, r, d, None);
        SocketOf(s.rooms[r], d);
        assert d in Sockets(s.rooms[r]) <==> RoomNet.Addressed(s.rooms[r], d, None);
      }
      assert Members(s, r) == Sockets(s.rooms[r]);
    } else {
      forall d | d in s.conns ensures !InRoom(s, d, r) { assert RoomNet.Joined(s, d) || !InRoom(s, d, r); }
      assert Members(s, r) == {};
    }
  }

  lemma FellowIsListed(cfg: Config, s: State, c: ConnId, q: Id)
    requires RoomNet.Registry(s, cfg) && RoomNet.Joined(s, c)
    ensures var me := s.conns[c].me.value;
      me.roomId in s.rooms && (Fellow(s, c, q) <==> q != me.id && Has(s.rooms[me.roomId], q))
  {
    var me := s.conns[c].me.value;
    var room := s.rooms[me.roomId];
    if d :| d in s.conns && d != c && InRoom(s, d, me.roomId) && s.conns[d].me.value.id == q {
      RoomNet.EntryHas(room, Entry(q, Member(s.conns[d].me.value.displayName, d)));
      assert s.owner[q] == d;
    }
    if i :| 0 <= i < |room| && room[i].key == q && q != me.id {
      assert room[i] in room;
      assert RoomNet.Seated(s, me.roomId, room[i]);
      assert InRoom(s, room[i].value.ws, me.roomId);
    }
  }

  lemma ChargedRegistry(cfg: Config, s: State, c: ConnId, at: Reading)
    requires RoomNet.Registry(s, cfg) && c in s.conns
    ensures RoomNet.Registry(ChargedState(cfg, s, c, at), cfg)
  {
    RoomNet.RegistryFrame(s, ChargedState(cfg, s, c, at), cfg);
  }

  // -------------------------------------------------------- what is answered

  lemma Replies(cfg: Config, s: State, c: ConnId, at: Reading, m: ServerMsg)
    requires c in s.conns
    ensures var t := Send(ChargedState(cfg, s, c, at), c, m);
      t == s.(conns := t.conns) && t.conns.Keys == s.conns.Keys
      && forall d :: d in s.conns ==> Gets(cfg, s, t, c, at, d, if d == c then [m] else [])
  {}

  /** A message that breaks a rule is answered with that error, and nothing else
      happens to anybody. */
  lemma RefusalIsAllThatHappens(cfg: Config, s: State, c: ConnId, f: Frame, at: Reading)
    requires cfg.Valid() && RoomNet.Registry(s, cfg) && c in s.conns && !s.conns[c].gone
    requires Refusal(cfg, s, c, f, at).Some?
    ensures var t, code := OnMessage(s, cfg, c, f, at), Refusal(cfg, s, c, f, at).value;
      t == s.(conns := t.conns) && t.conns.Keys == s.conns.Keys
      && forall d :: d in s.conns ==>
        Gets(cfg, s, t, c, at, d, if d == c then [Error(code, AnswerTo(f, code))] else [])
  {
    Admission(cfg, s, c, f, at);
    var code := Refusal(cfg, s, c, f, at).value;
    Replies(cfg, s, c, at, Error(code, AnswerTo(f, code)));
    if InTime(cfg, s.conns[c], at) && f.Request? { DispatchRefuses(cfg, s, c, f, at); }
  }

  lemma DispatchRefuses(cfg: Config, s: State, c: ConnId, f: Frame, at: Reading)
    requires cfg.Valid() && RoomNet.Registry(s, cfg) && c in s.conns && !s.conns[c].gone
    requires Refusal(cfg, s, c, f, at).Some? && InTime(cfg, s.conns[c], at) && f.Request?
    ensures var s1 := ChargedState(cfg, s, c, at);
      Dispatch(s1, cfg, c, f.requestId, f.body, at.again)
      == Send(s1, c, Error(Refusal(cfg, s, c, f, at).value, f.requestId))
  {
    hide RoomNet.Registry, ValidName, ValidRoomId, ValidChat, ValidSignal, GoodRoomId, GoodText, GoodSignal;
    hide Send, Members, Fellow;
    var me := s.conns[c].me;
    match f.body
    case JoinRoom(r, name) =>
      RulesMeet(r, name, Offer(Null));
      if me.None? && GoodRoomId(r) { RoomCount(cfg, s, r); }
    case SignalTo(q, signal) =>
      RulesMeet(Null, Null, signal);
      if me.Some? { FellowIsListed(cfg, s, c, q); }
    case ChatSend(text) =>
      RulesMeet(Null, text, Offer(Null));
    case _ =>
  }

  lemma RoomCount(cfg: Config, s: State, r: Json)
    requires RoomNet.Registry(s, cfg) && GoodRoomId(r)
    ensures r.Text? && |Members(s, r.text)| == |RoomOf(s, r.text)|
  {
    SeatsAreMembers(cfg, s, r.text);
  }

  /** Pings are answered, and new room ids handed out, whoever asks. */
  lemma PlainAnswers(cfg: Config, s: State, c: ConnId, f: Frame, at: Reading)
    requires cfg.Valid() && c in s.conns && Refusal(cfg, s, c, f, at).None?
    requires f.Request? && (f.body.Ping? || f.body.CreateRoom?)
    ensures var t := OnMessage(s, cfg, c, f, at);
      var answer := if f.body.Ping? then Pong(f.requestId) else RoomCreated(f.requestId);
      t == s.(conns := t.conns) && t.conns.Keys == s.conns.Keys
      && forall d :: d in s.conns ==> Gets(cfg, s, t, c, at, d, if d == c then [answer] else [])
  {
    Admission(cfg, s, c, f, at);
    Replies(cfg, s, c, at, if f.body.Ping? then Pong(f.requestId) else RoomCreated(f.requestId));
  }

  /** A signal goes to the fellow member it names, under the sender's id. */
  lemma SignalReachesFellow(cfg: Config, s: State, c: ConnId, f: Frame, at: Reading)
    requires cfg.Valid() && RoomNet.Registry(s, cfg) && c in s.conns && !s.conns[c].gone
    requires Refusal(cfg, s, c, f, at).None? && f.Request? && f.body.SignalTo?
    ensures s.conns[c].me.Some?
    ensures var t, me := OnMessage(s, cfg, c, f, at), s.conns[c].me.value;
      t == s.(conns := t.conns) && t.conns.Keys == s.conns.Keys
      && forall d :: d in s.conns ==>
        Gets(cfg, s, t, c, at, d,
             if InRoom(s, d, me.roomId) && s.conns[d].me.value.id == f.body.target then [Relay(me.id, f.body.signal)]
             else [])
  {
    Admission(cfg, s, c, f, at);
    RulesMeet(Null, Null, f.body.signal);
    FellowIsListed(cfg, s, c, f.body.target);
    var me, room := s.conns[c].me.value, s.rooms[s.conns[c].me.value.roomId];
    var hit := Find(room, f.body.target).value;
    assert RoomNet.Seated(s, me.roomId, Entry(f.body.target, hit));
    forall d | d in s.conns
      ensures InRoom(s, d, me.roomId) && s.conns[d].me.value.id == f.body.target <==> d == hit.ws
    {}
  }

  /** What a member says goes into the room's log once, under its name and with the
      time of handling, stripped of the white space around it; everybody in the room
      whose socket is open, the speaker too, gets exactly that, and nobody else
      anything. */
  lemma ChatIsHeard(cfg: Config, s: State, c: ConnId, f: Frame, at: Reading) returns (said: string)
    requires cfg.Valid() && RoomNet.Registry(s, cfg) && c in s.conns && !s.conns[c].gone
    requires Refusal(cfg, s, c, f, at).None? && f.Request? && f.body.ChatSend?
    ensures f.body.text.Text? && Stripped(f.body.text.text, said) && s.conns[c].me.Some?
    ensures var t, me := OnMessage(s, cfg, c, f, at), s.conns[c].me.value;
      var chat := Chat(me.id, me.displayName, said, at.again);
      t == s.(conns := t.conns, log := s.log[me.roomId := Log(s, me.roomId) + [chat]]) && t.conns.Keys == s.conns.Keys
      && forall d :: d in s.conns ==>
        Gets(cfg, s, t, c, at, d, if InRoom(s, d, me.roomId) then [ChatMessage(chat)] else [])
  {
    hide RoomNet.Registry, ValidChat, GoodText, Stripped, Send, Broadcast, Dispatch;
    Admission(cfg, s, c, f, at);
    RulesMeet(Null, f.body.text, Offer(Null));
    said := ChatStripped(f.body.text);
    var me, s1 := s.conns[c].me.value, ChargedState(cfg, s, c, at);
    var chat := Chat(me.id, me.displayName, said, at.again);
    ChatDispatched(cfg, s, s1, c, f, at.again);
    Broadcasts(cfg, s, s1.(log := s.log[me.roomId := Log(s, me.roomId) + [chat]]), me.roomId, ChatMessage(chat));
  }

  lemma ChatStripped(j: Json) returns (said: string)
    requires GoodText(j, 4000)
    ensures j.Text? && said == Trim(j.text) && Stripped(j.text, said)
  {
    TrimStrips(j.text);
    said := Trim(j.text);
  }

  lemma ChatDispatched(cfg: Config, s: State, s1: State, c: ConnId, f: Frame, now: int)
    requires RoomNet.Registry(s, cfg) && RoomNet.Joined(s, c) && c in s1.conns && s1.conns[c].me == s.conns[c].me
    requires s1.rooms == s.rooms && s1.log == s.log && f.Request? && f.body.ChatSend? && ValidChat(f.body.text)
    ensures var me := s.conns[c].me.value;
      var chat := Chat(me.id, me.displayName, Trim(f.body.text.text), now);
      me.roomId in s.rooms
      && Dispatch(s1, cfg, c, f.requestId, f.body, now)
         == Broadcast(s1.(log := s.log[me.roomId := Log(s, me.roomId) + [chat]]), s.rooms[me.roomId],
                      ChatMessage(chat), None)
  {}

  /** A broadcast to a stored room reaches its members. */
  lemma Broadcasts(cfg: Config, s: State, s1: State, r: RoomId, m: ServerMsg)
    requires RoomNet.Registry(s, cfg) && r in s.rooms && s1.conns.Keys == s.conns.Keys
    ensures var t := Broadcast(s1, s.rooms[r], m, None);
      t == s1.(conns := t.conns) && t.conns.Keys == s.conns.Keys
      && forall d :: d in s.conns ==> t.conns[d] == if InRoom(s, d, r) then Posted(s1.conns[d], m) else s1.conns[d]
  {
    RoomNet.RegistrySockets(s, cfg, r);
    RoomNet.BroadcastOnce(s1, s.rooms[r], m, None);
    forall d | d in s.conns ensures RoomNet.Addressed(s.rooms[r], d, None) <==> InRoom(s, d, r) {
      RoomNet.AddressedIff(s, cfg, r, d, None);
    }
  }

  /** A join that breaks no rule gives the newcomer the next id and a place behind the
      members of the room it names; it is sent the list of them all, each of them is
      told of it, and nobody else anything. */
  lemma JoinSeatsNewcomer(cfg: Config, s: State, c: ConnId, f: Frame, at: Reading) returns (name: string)
    requires cfg.Valid() && RoomNet.Registry(s, cfg) && c in s.conns && !s.conns[c].gone
    requires Refusal(cfg, s, c, f, at).None? && f.Request? && f.body.JoinRoom?
    ensures f.body.roomId.Text? && f.body.displayName.Text? && Stripped(f.body.displayName.text, name)
    ensures var t, r, id := OnMessage(s, cfg, c, f, at), f.body.roomId.text, |s.owner|;
      var room := RoomOf(s, r) + [Entry(id, Member(name, c))];
      t == s.(conns := t.conns, rooms := s.rooms[r := room], owner := s.owner + [c]) && t.conns.Keys == s.conns.Keys
      && |room| <= cfg.maxParticipants
      && t.conns[c].me == Some(Me(id, name, r)) && t.conns[c].since == |Log(s, r)|
      && Gets(cfg, s, t.(conns := t.conns[c := t.conns[c].(me := None, since := s.conns[c].since)]), c, at, c,
              [RoomJoined(id, Public(room), f.requestId)])
      && forall d :: d in s.conns && d != c ==>
        Gets(cfg, s, t, c, at, d, if InRoom(s, d, r) then [ParticipantJoined(id, name)] else [])
  {
    hide RoomNet.Registry, ValidName, ValidRoomId, ValidChat, GoodRoomId, GoodText, Stripped;
    hide Send, Broadcast, Members, Dispatch;
    Admission(cfg, s, c, f, at);
    RulesMeet(f.body.roomId, f.body.displayName, Offer(Null));
    RoomCount(cfg, s, f.body.roomId);
    name := NameStripped(f.body.displayName);
    var s1, me := ChargedState(cfg, s, c, at), Me(|s.owner|, name, f.body.roomId.text);
    ChargedRegistry(cfg, s, c, at);
    JoinDispatched(s1, cfg, c, f, at.again);
    RoomNet.JoinIsDone(s1, cfg, c, f.body.roomId, f.body.displayName, f.requestId);
    RoomNet.JoinEffect(s1, cfg, c, me, f.requestId);
    IdsAreOwned(cfg, s);
    SaidToAll(cfg, s, RoomNet.JoinDone(s1, c, me, f.requestId), c, at, me, f.requestId);
  }

  lemma IdsAreOwned(cfg: Config, s: State)
    requires RoomNet.Registry(s, cfg)
    ensures RoomNet.IdsOwned(s)
  {}

  lemma NameStripped(j: Json) returns (name: string)
    requires GoodText(j, 50)
    ensures j.Text? && name == Trim(j.text) && Stripped(j.text, name)
  {
    TrimStrips(j.text);
    name := Trim(j.text);
  }

  lemma JoinDispatched(s: State, cfg: Config, c: ConnId, f: Frame, now: int)
    requires c in s.conns && f.Request? && f.body.JoinRoom?
    ensures Dispatch(s, cfg, c, f.requestId, f.body, now)
      == Join(s, cfg, c, f.body.roomId, f.body.displayName, f.requestId)
  {}

  lemma SaidToAll(cfg: Config, s: State, t: State, c: ConnId, at: Reading, me: Me, rid: Option<string>)
    requires c in s.conns && s.conns[c].me.None? && me.id == |s.owner| && RoomNet.IdsOwned(s)
    requires RoomNet.JoinSays(ChargedState(cfg, s, c, at), t, c, me, rid)
    ensures var room := RoomOf(s, me.roomId) + [Entry(me.id, Member(me.displayName, c))];
      t == s.(conns := t.conns, rooms := s.rooms[me.roomId := room], owner := s.owner + [c])
      && t.conns.Keys == s.conns.Keys
      && t.conns[c].me == Some(me) && t.conns[c].since == |Log(s, me.roomId)|
      && Gets(cfg, s, t.(conns := t.conns[c := t.conns[c].(me := None, since := s.conns[c].since)]), c, at, c,
              [RoomJoined(me.id, Public(room), rid)])
      && forall d :: d in s.conns && d != c ==>
        Gets(cfg, s, t, c, at, d,
             if InRoom(s, d, me.roomId) then [ParticipantJoined(me.id, me.displayName)] else [])
  {
    var s1 := ChargedState(cfg, s, c, at);
    forall d | d in s.conns && d != c
      ensures RoomNet.Hears(s1, me.roomId, d, Some(me.id)) <==> InRoom(s, d, me.roomId)
    {
      assert s1.conns[d] == s.conns[d];
    }
  }
}
