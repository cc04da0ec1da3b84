/** webrtc.js: the session object that keeps every lane of one client. Each
    method is one stretch of code that runs without an await. */
module WebRtc {
  import opened JsMap
  import opened Protocol
  import opened PeerLane

  class WebRtcSession {
    var peers: map<Id, Peer>
    // The thunks of each id's promise chain that have not run. removePeer drops
    // its reference to the chain, but the chain itself still runs to its end.
    var chains: map<Id, seq<Op>>
    // The await each running operation is suspended at.
    var suspended: map<Id, Await>
    var departed: set<Id>
    var closed: bool
    ghost var past: map<Id, History>

    ghost predicate Valid() reads this {
      (closed ==> peers == map[]) && departed !! peers.Keys
    }

    ghost function LaneOf(id: Id): Lane reads this {
      Lane(if id in chains then chains[id] else [],
           if id in suspended then Some(suspended[id]) else None,
           if id in peers then Some(peers[id]) else None,
           closed || id in departed,
           if id in past then past[id] else IDLE.past)
    }

    constructor ()
      ensures Valid() && forall id :: LaneOf(id) == IDLE
    {
      peers, chains, suspended, departed, closed, past := map[], map[], map[], {}, false, map[];
    }

    /** `peer`: None is the exception 'Peer has left'. */
    method GetPeer(id: Id) returns (p: Option<Peer>)
      requires Valid()
      modifies `peers
      ensures Valid() && closed == old(closed)
      ensures p == if closed || id in departed then None else Some(PeerOf(old(LaneOf(id))))
      ensures peers == if p.None? then old(peers) else old(peers)[id := p.value]
    {
      if closed || id in departed { return None; }
      if id !in peers {
        peers := peers[id := NEW_PEER];
      } else {
        assert peers[id := peers[id]] == peers;
      }
      p := Some(peers[id]);
    }

    method EnqueueOp(id: Id, op: Op)
      requires Valid()
      modifies this
      ensures Valid() && LaneOf(id) == Next(old(LaneOf(id)), Enqueue(op))
      ensures forall other :: other != id ==> LaneOf(other) == old(LaneOf(other))
    {
      chains := chains[id := (if id in chains then chains[id] else []) + [op]];
      ghost var h := LaneOf(id).past;
      past := past[id := h.(enqueued := h.enqueued + [op])];
    }

    /** `start`: one offer for everybody in the snapshot, all queued at once. */
    method Start(participants: seq<Id>)
      requires Valid()
      requires forall i, j :: 0 <= i < j < |participants| ==> participants[i] != participants[j]
      modifies this
      ensures Valid()
      ensures forall id :: id in participants ==> LaneOf(id) == Next(old(LaneOf(id)), Enqueue(MakeOffer))
      ensures forall id :: id !in participants ==> LaneOf(id) == old(LaneOf(id))
    {
      for i := 0 to |participants|
        invariant Valid()
        invariant forall id :: id in participants[..i] ==> LaneOf(id) == Next(old(LaneOf(id)), Enqueue(MakeOffer))
        invariant forall id :: id !in participants[..i] ==> LaneOf(id) == old(LaneOf(id))
      {
        assert participants[..i + 1] == participants[..i] + [participants[i]];
        EnqueueOp(participants[i], MakeOffer);
      }
      assert participants[..|participants|] == participants;
    }

    /** The next thunk of a chain runs up to its first await. */
    method RunNext(id: Id)
      requires Valid() && Enabled(LaneOf(id), Begin)
      modifies this
      ensures Valid() && LaneOf(id) == Next(old(LaneOf(id)), Begin)
      ensures forall other :: other != id ==> LaneOf(other) == old(LaneOf(other))
    {
      var op := chains[id][0];
      chains := chains[id := chains[id][1..]];
      ghost var h := LaneOf(id).past;
      h := h.(begun := h.begun + [op]);
      past := past[id := h];
      if !closed && id !in departed { Launch(id, op); }
    }

    method Launch(id: Id, op: Op)
      requires Valid() && !closed && id !in departed && id !in suspended
      modifies this
      ensures Valid() && LaneOf(id) == Launched(old(LaneOf(id)), op)
      ensures forall other :: other != id ==> LaneOf(other) == old(LaneOf(other))
    {
      var p := GetPeer(id);
      ghost var h := LaneOf(id).past;
      if op.MakeOffer? {
        suspended := suspended[id := CreatingOffer];
      } else if op.signal.Candidate? {
        if p.value.remoteSet {
          suspended := suspended[id := AddingCandidate(op.signal)];
        } else {
          peers := peers[id := p.value.(candidates := p.value.candidates + [op.signal])];
        }
      } else {
        suspended := suspended[id := SettingRemote(op.signal)];
        past := past[id := if op.signal.Offer? then h.(offersTaken := h.offersTaken + 1)
                           else h.(answersTaken := h.answersTaken + 1)];
      }
    }

    /** The operation ends by an exception, which the chain's catch handler takes. */
    method EndWithError(id: Id)
      requires Valid() && id in suspended
      modifies `suspended, `past
      ensures Valid() && LaneOf(id) == Failed(old(LaneOf(id)))
      ensures forall other :: other != id ==> LaneOf(other) == old(LaneOf(other))
    {
      ghost var h := LaneOf(id).past;
      past := past[id := h.(fates := h.fates + Dropped(Taken(LaneOf(id))))];
      suspended := suspended - {id};
    }

    /** The awaited promise settles and the operation runs on to its next await.
        A closed connection settles none, which ends the operation. */
    method Continue(id: Id, o: Outcome) returns (sent: Option<Signal>)
      requires Valid() && id in suspended
      modifies this
      ensures Valid() && LaneOf(id) == Next(old(LaneOf(id)), Resume(o))
      ensures sent == PeerLane.Sent(old(LaneOf(id)), Resume(o))
      ensures forall other :: other != id ==> LaneOf(other) == old(LaneOf(other))
    {
      sent := None;
      if id !in peers || o.Rejected? {
        EndWithError(id);
        return;
      }
      if Refused(suspended[id], peers[id]) {
        EndWithError(id);
      } else if suspended[id].SettingLocalOffer? || suspended[id].SettingLocalAnswer? {
        sent := FinishLocal(id, suspended[id].SettingLocalOffer?, o);
      } else if suspended[id].Flushing? || suspended[id].AddingCandidate? || suspended[id].SettingRemote? {
        HandleOn(id, o);
      } else {
        suspended := suspended[id := match suspended[id]
                                     case Attaching(n) => if n <= 1 then CreatingAnswer else Attaching(n - 1)
                                     case CreatingAnswer => SettingLocalAnswer
                                     case _ => SettingLocalOffer];
      }
    }

    /** setLocalDescription succeeded; then `signaling.send`, which throws when
        the socket is no longer open. */
    method FinishLocal(id: Id, offer: bool, o: Outcome) returns (sent: Option<Signal>)
      requires Valid() && id in suspended && id in peers && o.Fulfilled? && !Refused(suspended[id], peers[id])
      requires suspended[id] == if offer then SettingLocalOffer else SettingLocalAnswer
      modifies this
      ensures Valid() && LaneOf(id) == Progress(old(LaneOf(id)), old(peers[id]), o)
      ensures sent == if o.sent then Some(if offer then Offer(o.sdp) else Answer(o.sdp)) else None
      ensures forall other :: other != id ==> LaneOf(other) == old(LaneOf(other))
    {
      sent := None;
      ghost var h := LaneOf(id).past;
      peers := peers[id := peers[id].(state := Transition(peers[id].state, SetLocal(offer)).value)];
      suspended := suspended - {id};
      if o.sent {
        sent := Some(if offer then Offer(o.sdp) else Answer(o.sdp));
        past := past[id := Noted(h, sent.value)];
      }
    }

    /** `handle` on from setRemoteDescription or addIceCandidate: the next
        buffered candidate, then an answerer goes on to attach its tracks. */
    method HandleOn(id: Id, o: Outcome)
      requires Valid() && id in suspended && id in peers && o.Fulfilled? && !Refused(suspended[id], peers[id])
      requires suspended[id].Flushing? || suspended[id].AddingCandidate? || suspended[id].SettingRemote?
      modifies this
      ensures Valid() && LaneOf(id) == Progress(old(LaneOf(id)), old(peers[id]), o)
      ensures forall other :: other != id ==> LaneOf(other) == old(LaneOf(other))
    {
      ghost var h := LaneOf(id).past;
      var answering, rest := false, [];
      match suspended[id] {
        case AddingCandidate(c) =>
          past := past[id := h.(fates := h.fates + [Fate(c, true)])];
        case SettingRemote(d) =>
          answering, rest := d.Offer?, peers[id].candidates;
          peers := peers[id := Peer(Transition(peers[id].state, SetRemote(d.Offer?)).value, true, [])];
        case Flushing(a, r) =>
          answering, rest := a, if r == [] then [] else r[1..];
          if r != [] { past := past[id := h.(fates := h.fates + [Fate(r[0], true)])]; }
        case _ =>
      }
      if rest != [] { suspended := suspended[id := Flushing(answering, rest)]; }
      else if !answering { suspended := suspended - {id}; }
      else { suspended := suspended[id := if o.transceivers == 0 then CreatingAnswer else Attaching(o.transceivers)]; }
    }

    /** pc.onicecandidate. */
    method OnIceCandidate(id: Id, candidate: Signal) returns (sent: Option<Signal>)
      requires Valid() && Enabled(LaneOf(id), Trickle(candidate))
      modifies `past
      ensures Valid() && LaneOf(id) == Next(old(LaneOf(id)), Trickle(candidate)) && sent == Some(candidate)
      ensures forall other :: other != id ==> LaneOf(other) == old(LaneOf(other))
    {
      past := past[id := Noted(LaneOf(id).past, candidate)];
      sent := Some(candidate);
    }

    method RemovePeer(id: Id)
      requires Valid()
      modifies this
      ensures Valid() && LaneOf(id) == Next(old(LaneOf(id)), Shut)
      ensures LaneOf(id).shut && LaneOf(id).peer.None?
      ensures forall other :: other != id ==> LaneOf(other) == old(LaneOf(other))
    {
      departed := departed + {id};
      peers := peers - {id};
    }

    method Close()
      requires Valid()
      modifies this
      ensures Valid() && forall id :: LaneOf(id) == Next(old(LaneOf(id)), Shut)
      ensures forall id :: LaneOf(id).shut && LaneOf(id).peer.None?
    {
      closed := true;
      peers := map[];
    }
  }
}
