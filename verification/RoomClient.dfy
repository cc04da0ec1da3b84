/** A client's picture of its room: RoomState, and how the page feeds it from
    the signaling socket. */
module RoomClient {
  import opened JsMap
  import opened Protocol

  /** `joined`: the answer to room.join was handled, so the session object
      exists. `heard` is every chat message shown so far. */
  datatype View = View(joined: bool, self: Id, people: People, heard: seq<Chat>)

  const LOBBY := View(false, 0, [], [])

  /** What one message from the server does to the view. */
  function Apply(v: View, m: ServerMsg): View {
    match m
    case RoomJoined(self, people, _) => v.(joined := true, self := self, people := PutAll(v.people, people))
    case ParticipantJoined(id, name) => v.(people := Put(v.people, id, name))
    case ParticipantLeft(id) => v.(people := Delete(v.people, id))
    case ChatMessage(chat) => v.(heard := v.heard + [chat])
    case _ => v
  }

  /** The view once everything in flight has been read. */
  function Fold(v: View, wire: seq<ServerMsg>): View
    decreases wire
  {
    if wire == [] then v else Fold(Apply(v, wire[0]), wire[1..])
  }

  /** A message that makes sense to a client in view v: one room.joined, first;
      then arrivals of strangers, departures of others who are listed, and
      signals and chat only from somebody who is listed. */
  predicate Proper(v: View, m: ServerMsg) {
    match m
    case RoomJoined(self, people, _) => !v.joined && Has(people, self)
    case ParticipantJoined(id, _) => v.joined && !Has(v.people, id)
    case ParticipantLeft(id) => v.joined && Has(v.people, id) && id != v.self
    case Relay(sender, _) => v.joined && Has(v.people, sender) && sender != v.self
    case ChatMessage(chat) => v.joined && Has(v.people, chat.sender)
    case _ => true
  }

  predicate ProperStream(v: View, wire: seq<ServerMsg>)
    decreases wire
  {
    wire == [] || (Proper(v, wire[0]) && ProperStream(Apply(v, wire[0]), wire[1..]))
  }

  lemma {:induction false} FoldAppend(v: View, wire: seq<ServerMsg>, m: ServerMsg)
    ensures Fold(v, wire + [m]) == Apply(Fold(v, wire), m)
    ensures ProperStream(v, wire + [m]) <==> ProperStream(v, wire) && Proper(Fold(v, wire), m)
    decreases wire
  {
    if wire == [] {
      assert wire + [m] == [m] && [m][1..] == [];
    } else {
      assert (wire + [m])[1..] == wire[1..] + [m];
      FoldAppend(Apply(v, wire[0]), wire[1..], m);
    }
  }

  /** In a proper stream every relayed signal is bracketed: just before it is
      handled its sender is listed and the session object exists. */
  lemma {:induction false} Bracketed(v: View, wire: seq<ServerMsg>, k: nat)
    requires ProperStream(v, wire) && k < |wire|
    ensures Proper(Fold(v, wire[..k]), wire[k])
    decreases wire
  {
    if k > 0 {
      Bracketed(Apply(v, wire[0]), wire[1..], k - 1);
      assert wire[..k][1..] == wire[1..][..k - 1];
    }
  }

  /** room.js. */
  class RoomState {
    var localParticipantId: Option<Id>
    var roomId: Option<RoomId>
    var participants: People

    constructor ()
      ensures localParticipantId == None && roomId == None && participants == []
    {
      localParticipantId, roomId, participants := None, None, [];
    }

    method SetLocalInfo(roomId: RoomId, participantId: Id)
      modifies this
      ensures this.roomId == Some(roomId) && localParticipantId == Some(participantId)
      ensures participants == old(participants)
    {
      this.roomId := Some(roomId);
      localParticipantId := Some(participantId);
    }

    method AddParticipant(id: Id, displayName: string)
      modifies `participants
      ensures participants == Put(old(participants), id, displayName)
    {
      participants := Put(participants, id, displayName);
    }

    method RemoveParticipant(id: Id)
      modifies `participants
      ensures participants == Delete(old(participants), id)
    {
      if Has(participants, id) {
        participants := Delete(participants, id);
      } else {
        DeleteMissing(participants, id);
      }
    }

    method Clear()
      modifies this
      ensures localParticipantId == None && roomId == None && participants == []
    {
      participants := [];
      localParticipantId := None;
      roomId := None;
    }
  }

  /** The page: what onJoinRoom does with the join answer and what the
      handlers of setupSignalingHandlers do afterwards. */
  class Page {
    const room: RoomState
    const wanted: RoomId
    var hasSession: bool
    var heard: seq<Chat>

    constructor (wanted: RoomId)
      ensures fresh(room) && this.wanted == wanted && Current() == LOBBY
    {
      room := new RoomState();
      this.wanted, hasSession, heard := wanted, false, [];
    }

    function Current(): View reads this, room {
      View(hasSession, if room.localParticipantId.Some? then room.localParticipantId.value else 0,
           room.participants, heard)
    }

    method OnServerMessage(m: ServerMsg)
      modifies this, room
      ensures Current() == Apply(old(Current()), m)
    {
      match m
      case RoomJoined(self, people, _) =>
        room.SetLocalInfo(wanted, self);
        for i := 0 to |people|
          invariant room.localParticipantId == Some(self)
          invariant heard == old(heard)
          invariant PutAll(room.participants, people[i..]) == PutAll(old(room.participants), people)
        {
          assert people[i..][1..] == people[i + 1..];
          room.AddParticipant(people[i].key, people[i].value);
        }
        hasSession := true;
      case ParticipantJoined(id, name) =>
        room.AddParticipant(id, name);
      case ParticipantLeft(id) =>
        room.RemoveParticipant(id);
      case ChatMessage(chat) =>
        heard := heard + [chat];
      case _ =>
    }

    method LeaveRoom()
      modifies this, room
      ensures Current() == LOBBY.(heard := old(heard))
    {
      room.Clear();
      hasSession := false;
    }
  }
}
