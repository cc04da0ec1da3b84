/** One browser: the page and its session object, fed by one signaling socket. */
module Browser {
  import opened JsMap
  import opened Protocol
  import PeerLane
  import opened RoomClient
  import opened WebRtc
  import opened Mesh

  class Client {
    const page: Page
    var session: WebRtcSession?

    ghost predicate Valid() reads this, page, session {
      page.hasSession == (session != null) && (session != null ==> session.Valid())
    }

    ghost function LaneOf(id: Id): Lane reads this, session {
      if session == null then PeerLane.IDLE else session.LaneOf(id)
    }

    /** The session object keeps exactly these lanes. */
    ghost predicate Keeps(lanes: map<Id, Lane>) reads this, session {
      forall id :: LaneOf(id) == LaneIn(lanes, id)
    }

    constructor (wanted: RoomId)
      ensures Valid() && Keeps(map[]) && page.Current() == LOBBY && fresh(page) && fresh(page.room)
    {
      page := new Page(wanted);
      session := null;
    }

    /** `res.participants.filter(p => p.id !== res.participantId)`. */
    method Others(self: Id, people: People) returns (ids: seq<Id>)
      requires Distinct(people)
      ensures forall id :: id in ids <==> id != self && exists e :: e in people && e.key == id
      ensures forall i, j :: 0 <= i < j < |ids| ==> ids[i] != ids[j]
    {
      ids := [];
      for i := 0 to |people|
        invariant forall id :: id in ids <==> id != self && exists k :: 0 <= k < i && people[k].key == id
        invariant forall a, b :: 0 <= a < b < |ids| ==> ids[a] != ids[b]
      {
        assert people[i].key !in ids;
        if people[i].key != self { ids := ids + [people[i].key]; }
      }
    }

    /** `new WebRtcSession`, then `start`. */
    method OpenSession(self: Id, people: People)
      requires Distinct(people)
      modifies `session
      ensures session != null && fresh(session) && session.Valid()
      ensures Keeps(Session(self, people))
    {
      var ids := Others(self, people);
      var s := new WebRtcSession();
      s.Start(ids);
      session := s;
    }

    method OnSignal(sender: Id, signal: Signal, ghost lanes: map<Id, Lane>)
      requires Keeps(lanes) && (session != null ==> session.Valid())
      modifies session
      ensures session != null ==> session.Valid()
      ensures Keeps(React(lanes, session != null, Relay(sender, signal)))
      ensures session != null ==>
        LaneOf(sender).pending == old(LaneOf(sender)).pending + [PeerLane.Handle(signal)]
        && forall q :: q != sender ==> LaneOf(q) == old(LaneOf(q))
    {
      if session != null { session.EnqueueOp(sender, PeerLane.Handle(signal)); }
      forall id ensures LaneOf(id) == LaneIn(React(lanes, session != null, Relay(sender, signal)), id) {
        assert old(LaneOf(id)) == LaneIn(lanes, id);
      }
    }

    method OnLeft(id: Id, ghost lanes: map<Id, Lane>)
      requires Keeps(lanes) && (session != null ==> session.Valid())
      modifies session
      ensures session != null ==> session.Valid()
      ensures Keeps(React(lanes, session != null, ParticipantLeft(id)))
      ensures session != null ==>
        LaneOf(id).shut && LaneOf(id).peer.None? && forall q :: q != id ==> LaneOf(q) == old(LaneOf(q))
    {
      if session != null { session.RemovePeer(id); }
      forall q ensures LaneOf(q) == LaneIn(React(lanes, session != null, ParticipantLeft(id)), q) {
        assert old(LaneOf(q)) == LaneIn(lanes, q);
      }
    }

    /** What the page and the session do with one message from the server is what
        the conference takes its clients to do: the view applies the message, and
        the lanes react to it. A snapshot comes once, and names nobody twice. */
    method OnServerMessage(msg: ServerMsg, ghost lanes: map<Id, Lane>)
      requires Valid() && Keeps(lanes)
      requires msg.RoomJoined? ==> session == null && Distinct(msg.people)
      modifies this, page, page.room, session
      ensures Valid() && page.Current() == Apply(old(page.Current()), msg)
      ensures Keeps(React(lanes, old(page.Current()).joined, msg))
      ensures session == old(session) || fresh(session)
      ensures msg.ParticipantLeft? && session != null ==>
        LaneOf(msg.id).shut && LaneOf(msg.id).peer.None? && forall q :: q != msg.id ==> LaneOf(q) == old(LaneOf(q))
      ensures msg.Relay? && session != null ==>
        LaneOf(msg.sender).pending == old(LaneOf(msg.sender)).pending + [PeerLane.Handle(msg.signal)]
        && forall q :: q != msg.sender ==> LaneOf(q) == old(LaneOf(q))
      ensures msg.RoomJoined? ==> forall q ::
        LaneOf(q).pending == (if q != msg.self && Has(msg.people, q) then [PeerLane.MakeOffer] else [])
      ensures !msg.ParticipantLeft? && !msg.Relay? && !msg.RoomJoined? ==>
        session == old(session) && forall q :: LaneOf(q) == old(LaneOf(q))
    {
      hide PeerLane.Next, Apply;
      if msg.ParticipantLeft? { OnLeft(msg.id, lanes); }
      if msg.Relay? { OnSignal(msg.sender, msg.signal, lanes); }
      page.OnServerMessage(msg);
      assert page.hasSession == (old(page.hasSession) || msg.RoomJoined?) by { JoinedAfter(old(page.Current()), msg); }
      if msg.RoomJoined? {
        OpenSession(msg.self, msg.people);
        SessionOffers(msg.self, msg.people);
      }
    }

    lemma SessionOffers(self: Id, people: People)
      ensures forall q ::
        LaneIn(Session(self, people), q).pending == (if q != self && Has(people, q) then [PeerLane.MakeOffer] else [])
    {
      forall q ensures q in Session(self, people) <==> q != self && Has(people, q) {}
      assert PeerLane.NEWCOMER.pending == [PeerLane.MakeOffer];
    }

    lemma JoinedAfter(v: View, msg: ServerMsg)
      ensures Apply(v, msg).joined == (v.joined || msg.RoomJoined?)
    {}

    /** leaveRoom: the page forgets the room, and the session object, whose
        operations may still be under way, is closed and let go. */
    method LeaveRoom() returns (closed: WebRtcSession?)
      requires Valid()
      modifies this, page, page.room, session
      ensures Valid() && session == null && closed == old(session)
      ensures page.Current() == LOBBY.(heard := old(page.Current()).heard)
      ensures closed != null ==> closed.Valid()
      ensures closed != null ==> forall id ::
        closed.LaneOf(id).shut && closed.LaneOf(id).peer.None?
        && closed.LaneOf(id).pending == old(LaneOf(id)).pending
    {
      closed := session;
      if closed != null { closed.Close(); }
      session := null;
      page.LeaveRoom();
    }
  }
}
