/** What holds in every reachable state of the server and its clients, whatever
    frames the clients send and whichever sockets fail. */
module RoomTheorems {
  import opened JsMap
  import opened Protocol
  import opened SignalingServer
  import opened RoomClient
  import opened RoomNet
  import opened RoomStream

  lemma StartInv(cfg: Config)
    ensures RoomNet.Inv(cfg, RoomNet.START)
  {}

  lemma Reached(cfg: Config, run: seq<Step>)
    requires cfg.Valid() && IsRun(cfg, RoomNet.START, run)
    ensures RoomNet.Inv(cfg, Final(cfg, RoomNet.START, run))
  {
    StartInv(cfg);
    RunKeeps(cfg, RoomNet.START, run);
  }

  /** c's only seat: entry i of room r. */
  predicate SeatOf(s: State, c: ConnId, r: RoomId, i: int) {
    r in s.rooms && 0 <= i < |s.rooms[r]| && s.rooms[r][i].value.ws == c
  }

  /** Rooms are never empty or overfull; every joined connection sits in exactly
      one place, under its own id, and every place belongs to a joined connection. */
  lemma RegistryIsBijection(cfg: Config, run: seq<Step>)
    requires cfg.Valid() && IsRun(cfg, RoomNet.START, run)
    ensures var s := Final(cfg, RoomNet.START, run).server;
      (forall r :: r in s.rooms ==> 1 <= |s.rooms[r]| <= cfg.maxParticipants)
      && (forall c, r, i :: SeatOf(s, c, r, i) ==>
            Joined(s, c) && s.conns[c].me.value.roomId == r && s.conns[c].me.value.id == s.rooms[r][i].key)
      && (forall c :: Joined(s, c) ==> exists i :: SeatOf(s, c, s.conns[c].me.value.roomId, i))
      && (forall c, r, i, q, j :: SeatOf(s, c, r, i) && SeatOf(s, c, q, j) ==> r == q && i == j)
  {
    Reached(cfg, run);
    var s := Final(cfg, RoomNet.START, run).server;
    forall c, r, i | SeatOf(s, c, r, i)
      ensures Joined(s, c) && s.conns[c].me.value.roomId == r && s.conns[c].me.value.id == s.rooms[r][i].key
    {
      assert Seated(s, r, s.rooms[r][i]);
    }
    forall c | Joined(s, c) ensures exists i :: SeatOf(s, c, s.conns[c].me.value.roomId, i) {
      var me := s.conns[c].me.value;
      var i :| 0 <= i < |s.rooms[me.roomId]| && s.rooms[me.roomId][i] == Entry(me.id, Member(me.displayName, c));
      assert SeatOf(s, c, me.roomId, i);
    }
  }

  /** The room lookups of the relay, chat and close handlers never miss. */
  lemma LookupsDefined(cfg: Config, run: seq<Step>, c: ConnId)
    requires cfg.Valid() && IsRun(cfg, RoomNet.START, run)
    requires var s := Final(cfg, RoomNet.START, run).server; c in s.conns && !s.conns[c].gone
    ensures var s := Final(cfg, RoomNet.START, run).server;
      OnClose(s, c).Some? && (s.conns[c].me.Some? ==> s.conns[c].me.value.roomId in s.rooms)
  {
    Reached(cfg, run);
    CloseKeeps(cfg, Final(cfg, RoomNet.START, run), c);
    var s := Final(cfg, RoomNet.START, run).server;
    assert s.conns[c].me.Some? ==> Joined(s, c);
  }

  /** A client that still reads an open socket: reading what is in flight gives
      it the server's current members, in the server's order, itself included. */
  lemma ViewsConverge(cfg: Config, run: seq<Step>, c: ConnId)
    requires cfg.Valid() && IsRun(cfg, RoomNet.START, run)
    requires var n := Final(cfg, RoomNet.START, run);
      Joined(n.server, c) && n.server.conns[c].open && c !in n.left && c in n.views
    ensures var n := Final(cfg, RoomNet.START, run);
      var me, f := n.server.conns[c].me.value, Fold(n.views[c], n.server.conns[c].wire);
      f.joined && f.self == me.id && me.roomId in n.server.rooms
      && f.people == Public(n.server.rooms[me.roomId]) && Entry(me.id, me.displayName) in f.people
  {
    Reached(cfg, run);
    var n := Final(cfg, RoomNet.START, run);
    var s, me := n.server, n.server.conns[c].me.value;
    assert Synced(s, c, n.views[c]);
    var i :| 0 <= i < |s.rooms[me.roomId]| && s.rooms[me.roomId][i] == Entry(me.id, Member(me.displayName, c));
    assert Public(s.rooms[me.roomId])[i] == Entry(me.id, me.displayName);
  }

  lemma ReachedStreams(cfg: Config, run: seq<Step>)
    requires cfg.Valid() && IsRun(cfg, RoomNet.START, run)
    ensures StreamsOk(Final(cfg, RoomNet.START, run)) && ViewsRead(Final(cfg, RoomNet.START, run))
  {
    StartInv(cfg);
    RunKeepsStreams(cfg, RoomNet.START, run);
  }

  /** In all a client ever gets, read or still in flight, nothing that follows
      the notice that q left is about q: no second announcement, signal, chat or
      notice, and no snapshot. */
  lemma DeparturesAreFinal(cfg: Config, run: seq<Step>, c: ConnId, i: nat, j: nat)
    requires cfg.Valid() && IsRun(cfg, RoomNet.START, run) && c in Final(cfg, RoomNet.START, run).server.conns
    requires var st := Stream(Final(cfg, RoomNet.START, run), c); i < j < |st| && st[i].ParticipantLeft?
    ensures var st := Stream(Final(cfg, RoomNet.START, run), c); !About(st[j], st[i].id)
  {
    ReachedStreams(cfg, run);
    var n := Final(cfg, RoomNet.START, run);
    assert StreamOk(n.server, n.server.conns[c], Stream(n, c));
  }

  /** No snapshot a client ever gets names a participant twice. */
  lemma SnapshotsRepeatNobody(cfg: Config, run: seq<Step>, c: ConnId, k: nat)
    requires cfg.Valid() && IsRun(cfg, RoomNet.START, run) && c in Final(cfg, RoomNet.START, run).server.conns
    requires var st := Stream(Final(cfg, RoomNet.START, run), c); k < |st| && st[k].RoomJoined?
    ensures Distinct(Stream(Final(cfg, RoomNet.START, run), c)[k].people)
  {
    ReachedStreams(cfg, run);
    var n := Final(cfg, RoomNet.START, run);
    assert StreamOk(n.server, n.server.conns[c], Stream(n, c)) && Stream(n, c)[k] in Stream(n, c);
  }

  /** In all a client ever gets, read or still in flight: when a signal from q is
      handled, the session exists and q is listed, so it comes after the snapshot
      or the one announcement of q, and before the one notice that q left, since
      nothing about q follows that. */
  lemma SignalsAreBracketed(cfg: Config, run: seq<Step>, c: ConnId, k: nat)
    requires cfg.Valid() && IsRun(cfg, RoomNet.START, run)
    requires var n := Final(cfg, RoomNet.START, run);
      c in n.server.conns && c in n.views && c !in n.left && k < |Stream(n, c)|
    ensures var n := Final(cfg, RoomNet.START, run);
      var st := Stream(n, c);
      var before, after := Fold(LOBBY, st[..k]), Fold(LOBBY, st[..k + 1]);
      n.views[c] == Fold(LOBBY, ReadBy(n, c))
      && (st[k].Relay? ==> before.joined && Has(before.people, st[k].sender) && st[k].sender != before.self)
      && (st[k].RoomJoined? ==> !before.joined)
      && (st[k].ParticipantJoined? ==> before.joined && !Has(before.people, st[k].id))
      && (st[k].ParticipantLeft? ==>
            before.joined && Has(before.people, st[k].id) && !Has(after.people, st[k].id)
            && forall j :: k < j < |st| ==> !About(st[j], st[k].id))
  {
    var n := Final(cfg, RoomNet.START, run);
    StreamIsProper(cfg, run, c);
    MessageInPlace(Stream(n, c), k);
    if Stream(n, c)[k].ParticipantLeft? {
      forall j | k < j < |Stream(n, c)|
        ensures !About(Stream(n, c)[j], Stream(n, c)[k].id)
      {
        DeparturesAreFinal(cfg, run, c, k, j);
      }
    }
  }

  lemma StreamIsProper(cfg: Config, run: seq<Step>, c: ConnId)
    requires cfg.Valid() && IsRun(cfg, RoomNet.START, run)
    requires var n := Final(cfg, RoomNet.START, run); c in n.server.conns && c in n.views && c !in n.left
    ensures var n := Final(cfg, RoomNet.START, run);
      n.views[c] == Fold(LOBBY, ReadBy(n, c)) && ProperStream(LOBBY, Stream(n, c))
  {
    Reached(cfg, run);
    ReachedStreams(cfg, run);
    var n := Final(cfg, RoomNet.START, run);
    assert Synced(n.server, c, n.views[c]);
    ProperConcat(LOBBY, ReadBy(n, c), n.server.conns[c].wire);
  }

  lemma MessageInPlace(st: seq<ServerMsg>, k: nat)
    requires ProperStream(LOBBY, st) && k < |st|
    ensures Proper(Fold(LOBBY, st[..k]), st[k])
    ensures st[k].ParticipantLeft? ==> !Has(Fold(LOBBY, st[..k + 1]).people, st[k].id)
  {
    Bracketed(LOBBY, st, k);
    FoldAppend(LOBBY, st[..k], st[k]);
    assert st[..k + 1] == st[..k] + [st[k]];
    if st[k].ParticipantLeft? { HasDelete(Fold(LOBBY, st[..k]).people, st[k].id); }
  }

  /** What a client heard and will hear is one contiguous piece of the room's
      chat log from its join on, and while its socket is open nothing is missing. */
  lemma ChatIsOneLog(cfg: Config, run: seq<Step>, c: ConnId)
    requires cfg.Valid() && IsRun(cfg, RoomNet.START, run)
    requires var n := Final(cfg, RoomNet.START, run);
      c in n.server.conns && n.server.conns[c].me.Some? && c !in n.left && c in n.views
    ensures var n := Final(cfg, RoomNet.START, run);
      var k, log := n.server.conns[c], Log(n.server, n.server.conns[c].me.value.roomId);
      var heard := Fold(n.views[c], k.wire).heard;
      k.since + |heard| <= |log| && heard == log[k.since..k.since + |heard|]
      && (k.open ==> heard == log[k.since..])
  {
    Reached(cfg, run);
    var n := Final(cfg, RoomNet.START, run);
    assert Synced(n.server, c, n.views[c]);
  }

  /** Two members see their common messages in the same order: what the later
      one hears is the tail of what the earlier one hears. */
  lemma ChatSameOrder(cfg: Config, run: seq<Step>, c: ConnId, d: ConnId)
    requires cfg.Valid() && IsRun(cfg, RoomNet.START, run)
    requires var n := Final(cfg, RoomNet.START, run);
      Joined(n.server, c) && Joined(n.server, d) && n.server.conns[c].open && n.server.conns[d].open
      && c !in n.left && d !in n.left && c in n.views && d in n.views
      && n.server.conns[c].me.value.roomId == n.server.conns[d].me.value.roomId
      && n.server.conns[c].since <= n.server.conns[d].since
    ensures var n := Final(cfg, RoomNet.START, run);
      var early := Fold(n.views[c], n.server.conns[c].wire).heard;
      var late := Fold(n.views[d], n.server.conns[d].wire).heard;
      |late| <= |early| && late == early[|early| - |late|..]
  {
    ChatIsOneLog(cfg, run, c);
    ChatIsOneLog(cfg, run, d);
  }

  /** The chat messages among what was read, in order. */
  function Chats(read: seq<ServerMsg>): seq<Chat> {
    if read == [] then []
    else Chats(read[..|read| - 1]) + if read[|read| - 1].ChatMessage? then [read[|read| - 1].chat] else []
  }

  ghost predicate Shown(n: Net) {
    forall c :: c in n.views ==>
      n.views[c].heard == Chats(ReadBy(n, c)) && (c in n.left ==> n.views[c] == LOBBY.(heard := n.views[c].heard))
  }

  lemma {:induction false} ChatsAppend(read: seq<ServerMsg>, m: ServerMsg)
    ensures Chats(read + [m]) == Chats(read) + if m.ChatMessage? then [m.chat] else []
  {
    assert (read + [m])[..|read|] == read;
  }

  lemma DeliverShows(cfg: Config, n: Net, c: ConnId)
    requires Enabled(n, Deliver(c)) && Shown(n)
    ensures Shown(Next(cfg, n, Deliver(c)))
  {
    hide Chats;
    var n', msg := Next(cfg, n, Deliver(c)), n.server.conns[c].wire[0];
    ChatsAppend(ReadBy(n, c), msg);
    assert n'.views[c].heard == n.views[c].heard + if msg.ChatMessage? then [msg.chat] else [];
    assert ReadBy(n', c) == ReadBy(n, c) + [msg];
  }

  lemma OpenShows(cfg: Config, n: Net, c: ConnId, now: int)
    requires Enabled(n, Open(c, now)) && Shown(n)
    ensures Shown(Next(cfg, n, Open(c, now)))
  {
    assert Chats([]) == [];
  }

  lemma StepShows(cfg: Config, n: Net, e: Step)
    requires Enabled(n, e) && Shown(n)
    ensures Shown(Next(cfg, n, e))
  {
    hide OnMessage, OnClose, Chats;
    match e
    case Deliver(c) => DeliverShows(cfg, n, c);
    case Open(c, now) => OpenShows(cfg, n, c, now);
    case _ =>
  }

  lemma {:induction false} RunShows(cfg: Config, n: Net, run: seq<Step>)
    requires IsRun(cfg, n, run) && Shown(n)
    ensures Shown(Final(cfg, n, run))
    decreases run
  {
    hide Shown, Next, Enabled;
    if run != [] {
      StepShows(cfg, n, run[0]);
      RunShows(cfg, Next(cfg, n, run[0]), run[1..]);
    }
  }

  /** A client shows just the chat it has read, and once it has left it knows of no
      room, no id of its own and no other participant. */
  lemma LeaversForget(cfg: Config, run: seq<Step>, c: ConnId)
    requires IsRun(cfg, RoomNet.START, run) && c in Final(cfg, RoomNet.START, run).views
    ensures var n := Final(cfg, RoomNet.START, run);
      n.views[c].heard == Chats(ReadBy(n, c))
      && (c in n.left ==> !n.views[c].joined && n.views[c].people == [] && n.views[c].self == LOBBY.self)
  {
    RunShows(cfg, RoomNet.START, run);
  }
}
