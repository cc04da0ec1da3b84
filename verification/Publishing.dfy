/** Which track a client publishes: camera and screen compete for the one video
    sender of every peer. Toggles and negotiations run to completion; any sender
    may reject a new track. */
module Publishing {
  import opened JsMap
  import opened Protocol
  import opened Devices

  /** The two senders of a negotiated connection. */
  datatype Senders = Senders(audio: Option<Track>, video: Option<Track>)

  /** `stream` is the session's own MediaStream. A peer that exists only because
      of early ICE candidates has no transceivers yet; `halfway` are those whose
      answer failed while its tracks were attached. */
  datatype Session = Session(stream: seq<Track>, peers: map<Id, Option<Senders>>, halfway: set<Id>)

  /** `hooked`: the screen track has its onended handler. */
  datatype Media = Media(local: seq<Track>, screen: Option<Track>, hooked: bool, session: Option<Session>, tracks: nat)
  const LOBBY := Media([], None, false, None, 0)

  /** `refused` are the peers whose sender.replaceTrack rejects, if it is called;
      for an answer, the kinds of track that the peer's senders reject. */
  datatype Toggle =
    | Preview(audio: bool, video: bool)
    | Back
    | Join
    | ToggleMute(granted: bool, refused: set<Id>)
    | ToggleVideo(granted: bool, refused: set<Id>)
    | ToggleScreenShare(granted: bool, refused: set<Id>)
    // The user ends the share in the browser's own bar.
    | ScreenEnded(refused: set<Id>)
    // A setCamera or setMicrophone is granted; it may have been asked for before joining.
    | DeviceChanged(kind: Kind)
    | OfferMade(peer: Id)
    | AnswerMade(peer: Id, kinds: set<Kind>)
    | PeerSeen(peer: Id)
    | PeerLeft(peer: Id)
    | Leave

  function AddTrack(ts: seq<Track>, t: Track): seq<Track> { if t in ts then ts else ts + [t] }

  function SendersFor(stream: seq<Track>): Senders { Senders(TrackOf(stream, Audio), TrackOf(stream, Video)) }

  function WithSender(s: Senders, kind: Kind, t: Option<Track>): Senders {
    if kind.Audio? then s.(audio := t) else s.(video := t)
  }

  function Replaced(p: Option<Senders>, kind: Kind, t: Option<Track>): Option<Senders> {
    if p.None? then None else Some(WithSender(p.value, kind, t))
  }

  function Streamed(stream: seq<Track>, oldTrack: Option<Track>, newTrack: Option<Track>): seq<Track> {
    var s := if oldTrack.Some? then RemoveTrack(stream, oldTrack.value) else stream;
    if newTrack.Some? then AddTrack(s, newTrack.value) else s
  }

  predicate HasSender(s: Session, p: Id) { p in s.peers && s.peers[p].Some? }

  /** Some sender rejects, so the whole call does. */
  predicate Refusing(s: Session, refused: set<Id>) { exists p :: p in refused && HasSender(s, p) }

  /** Some negotiated peer's sender takes the track, whatever the others do. */
  predicate Accepting(s: Session, refused: set<Id>) {
    exists p :: p in s.peers && p !in refused && p !in s.halfway && HasSender(s, p)
  }

  /** `webrtc.replaceTrack`: after a rejection the stream stays as it was, but the
      senders that took the track keep it. */
  function ReplaceTrack(s: Session, oldTrack: Option<Track>, newTrack: Option<Track>, refused: set<Id>): Session
    requires oldTrack.Some? || newTrack.Some?
  {
    var kind := if newTrack.Some? then newTrack.value.kind else oldTrack.value.kind;
    s.(stream := if Refusing(s, refused) then s.stream else Streamed(s.stream, oldTrack, newTrack),
       peers := map p | p in s.peers :: if p in refused then s.peers[p] else Replaced(s.peers[p], kind, newTrack))
  }

  // An offer of this client has one transceiver for each kind, in this order.
  const TRANSCEIVERS := [Audio, Video]

  /** The loop over the transceivers of an offer, up to the first rejection. */
  function Attached(stream: seq<Track>, s: Senders, kinds: seq<Kind>, refused: set<Kind>): Senders
    decreases kinds
  {
    if kinds == [] || kinds[0] in refused then s
    else Attached(stream, WithSender(s, kinds[0], TrackOf(stream, kinds[0])), kinds[1..], refused)
  }

  predicate RejectsAny(kinds: seq<Kind>, refused: set<Kind>) { exists k :: k in kinds && k in refused }

  function Answering(s: Session, p: Id, kinds: seq<Kind>, refused: set<Kind>): Session {
    var before := if HasSender(s, p) then s.peers[p].value else Senders(None, None);
    s.(peers := s.peers[p := Some(Attached(s.stream, before, kinds, refused))],
       halfway := if RejectsAny(kinds, refused) then s.halfway + {p} else s.halfway - {p})
  }

  function Fresh(m: Media, kind: Kind): Track { Track(m.tracks, kind) }

  /** acquireTrack has succeeded; publish says whether it goes to the session. */
  function Acquired(m: Media, kind: Kind, publish: bool, refused: set<Id>): Media {
    var t := Fresh(m, kind);
    m.(local := m.local + [t], tracks := m.tracks + 1,
       session := if m.session.Some? && publish then Some(ReplaceTrack(m.session.value, None, Some(t), refused))
                  else m.session)
  }

  /** A rejection leaves the share running, but without its handler. */
  function StopScreenShare(m: Media, refused: set<Id>): Media {
    if m.screen.None? then m
    // Without a session `webrtc.replaceTrack` throws and nothing is stopped.
    else if m.session.None? then m.(hooked := false)
    else m.(screen := if Refusing(m.session.value, refused) then m.screen else None,
            hooked := false,
            session := Some(ReplaceTrack(m.session.value, m.screen, TrackOf(m.local, Video), refused)))
  }

  function StartScreenShare(m: Media, refused: set<Id>): Media {
    var t := Fresh(m, Video);
    var m1 := m.(screen := Some(t), hooked := false, tracks := m.tracks + 1);
    if m.session.None? then m1
    else m1.(hooked := !Refusing(m.session.value, refused),
             session := Some(ReplaceTrack(m.session.value, TrackOf(m.local, Video), Some(t), refused)))
  }

  predicate Enabled(m: Media, e: Toggle) {
    match e
    case Preview(_, _) => m.session.None?
    case Back => m.session.None?
    case Join => m.session.None?
    case OfferMade(p) => m.session.Some? && !HasSender(m.session.value, p)
    case AnswerMade(_, _) => m.session.Some?
    case PeerSeen(_) => m.session.Some?
    case PeerLeft(_) => m.session.Some?
    case _ => true
  }

  function Next(m: Media, e: Toggle): Media
    requires Enabled(m, e)
  {
    match e
    case Preview(audio, video) =>
      var m1 := if audio then Acquired(m, Audio, false, {}) else m;
      if video then Acquired(m1, Video, false, {}) else m1
    case Back => m.(local := [])
    case Join => m.(session := Some(Session(m.local, map[], {})))
    case ToggleMute(granted, refused) =>
      if TrackOf(m.local, Audio).Some? || !granted then m else Acquired(m, Audio, true, refused)
    case ToggleVideo(granted, refused) =>
      if TrackOf(m.local, Video).Some? || !granted then m else Acquired(m, Video, m.screen.None?, refused)
    case ToggleScreenShare(granted, refused) =>
      if m.screen.Some? then StopScreenShare(m, refused)
      else if granted then StartScreenShare(m, refused) else m
    case ScreenEnded(refused) => if m.hooked then StopScreenShare(m, refused) else m
    // The selectors change the local stream only.
    case DeviceChanged(kind) =>
      m.(local := Dropped(m.local, TrackOf(m.local, kind)) + [Fresh(m, kind)], tracks := m.tracks + 1)
    case OfferMade(p) =>
      var s := m.session.value;
      m.(session := Some(s.(peers := s.peers[p := Some(SendersFor(s.stream))], halfway := s.halfway - {p})))
    case AnswerMade(p, kinds) => m.(session := Some(Answering(m.session.value, p, TRANSCEIVERS, kinds)))
    case PeerSeen(p) =>
      var s := m.session.value;
      if p in s.peers then m else m.(session := Some(s.(peers := s.peers[p := None])))
    case PeerLeft(p) =>
      var s := m.session.value;
      m.(session := Some(s.(peers := s.peers - {p}, halfway := s.halfway - {p})))
    case Leave => LOBBY.(tracks := m.tracks)
  }

  /** The part of the session object that replaceTrack touches. */
  class TrackSender {
    var stream: seq<Track>
    var peers: map<Id, Option<Senders>>
    // Decides nothing: whose answer never went out.
    ghost var halfway: set<Id>

    ghost function Now(): Session reads this { Session(stream, peers, halfway) }

    constructor (stream: seq<Track>)
      ensures Now() == Session(stream, map[], {})
    {
      this.stream, peers, halfway := stream, map[], {};
    }

    /** `rejected`: some sender rejected, and the lines after the awaits are skipped. */
    method SwapTrack(oldTrack: Option<Track>, newTrack: Option<Track>, refused: set<Id>) returns (rejected: bool)
      requires oldTrack.Some? || newTrack.Some?
      modifies this
      ensures Now() == ReplaceTrack(old(Now()), oldTrack, newTrack, refused)
      ensures rejected == Refusing(old(Now()), refused)
    {
      var kind := if newTrack.Some? then newTrack.value.kind else oldTrack.value.kind;
      var todo := peers.Keys;
      rejected := false;
      while todo != {}
        invariant stream == old(stream) && halfway == old(halfway) && todo <= peers.Keys == old(peers.Keys)
        invariant forall p :: p in peers ==>
          peers[p] == if p in todo || p in refused then old(peers[p]) else Replaced(old(peers[p]), kind, newTrack)
        invariant rejected <==> exists p :: p in refused && p in peers && old(peers[p]).Some? && p !in todo
      {
        var p :| p in todo;
        if peers[p].Some? {
          if p in refused {
            rejected := true;
          } else {
            peers := peers[p := Some(WithSender(peers[p].value, kind, newTrack))];
          }
        }
        todo := todo - {p};
      }
      if rejected { return; }
      if oldTrack.Some? { stream := RemoveTrack(stream, oldTrack.value); }
      if newTrack.Some? { stream := AddTrack(stream, newTrack.value); }
    }

    /** `start`: a transceiver of each kind, with the stream's track if there is one. */
    method OfferTo(p: Id)
      requires p in peers ==> peers[p].None?
      modifies this
      ensures Now() == old(Now()).(peers := old(peers)[p := Some(SendersFor(stream))], halfway := old(halfway) - {p})
    {
      var senders := Senders(None, None);
      for i := 0 to |TRANSCEIVERS|
        invariant senders == Senders(if i > 0 then TrackOf(stream, Audio) else None,
                                     if i > 1 then TrackOf(stream, Video) else None)
      {
        senders := WithSender(senders, TRANSCEIVERS[i], TrackOf(stream, TRANSCEIVERS[i]));
      }
      peers := peers[p := Some(senders)];
      halfway := halfway - {p};
    }

    /** `handle` of an offer: each transceiver's sender gets the stream's track,
        and a rejection ends the operation before it answers. */
    method AnswerTo(p: Id, kinds: seq<Kind>, refused: set<Kind>) returns (rejected: bool)
      modifies this
      ensures Now() == Answering(old(Now()), p, kinds, refused)
      ensures rejected == RejectsAny(kinds, refused)
    {
      var senders := if p in peers && peers[p].Some? then peers[p].value else Senders(None, None);
      ghost var all := Attached(stream, senders, kinds, refused);
      rejected := false;
      var i := 0;
      while i < |kinds| && !rejected
        invariant i <= |kinds|
        invariant rejected ==> senders == all && RejectsAny(kinds, refused)
        invariant !rejected ==>
          Attached(stream, senders, kinds[i..], refused) == all && !RejectsAny(kinds[..i], refused)
        decreases |kinds| - i, !rejected
      {
        assert kinds[i..][1..] == kinds[i + 1..] && kinds[..i + 1] == kinds[..i] + [kinds[i]];
        if kinds[i] in refused {
          rejected := true;
        } else {
          senders := WithSender(senders, kinds[i], TrackOf(stream, kinds[i]));
          i := i + 1;
        }
      }
      assert kinds[..|kinds|] == kinds;
      peers := peers[p := Some(senders)];
      halfway := if rejected then halfway + {p} else halfway - {p};
    }
  }

  // ------------------------------------------------------- what is published

  /** At most one track of each kind. */
  predicate OnePerKind(ts: seq<Track>) {
    ts == [] || (TrackOf(ts[1..], ts[0].kind).None? && OnePerKind(ts[1..]))
  }

  ghost predicate OwnOk(m: Media) {
    OnePerKind(m.local)
    && (forall t :: t in m.local ==> t.id < m.tracks && Some(t) != m.screen)
    && (m.screen.Some? ==> m.screen.value.kind == Video && m.screen.value.id < m.tracks)
  }

  /** The video to publish: the screen while sharing, else the camera, if any. */
  function VideoToPublish(m: Media): Option<Track> { if m.screen.Some? then m.screen else TrackOf(m.local, Video) }

  /** The session stream holds the microphone and the video to publish and
      nothing else, and every negotiated peer's senders carry just these. */
  ghost predicate Published(m: Media) {
    m.session.Some? ==>
      var s := m.session.value;
      OnePerKind(s.stream)
      && TrackOf(s.stream, Audio) == TrackOf(m.local, Audio)
      && TrackOf(s.stream, Video) == VideoToPublish(m)
      && forall p :: p in s.peers && s.peers[p].Some? && p !in s.halfway ==>
           s.peers[p].value == Senders(TrackOf(m.local, Audio), VideoToPublish(m))
  }

  ghost predicate Inv(m: Media) { OwnOk(m) && Published(m) }

  lemma {:induction false} AppendOne(ts: seq<Track>, t: Track)
    requires OnePerKind(ts) && TrackOf(ts, t.kind).None?
    ensures OnePerKind(ts + [t]) && AddTrack(ts, t) == ts + [t]
    ensures forall kind :: TrackOf(ts + [t], kind) == if kind == t.kind then Some(t) else TrackOf(ts, kind)
    decreases ts
  {
    TrackOfFacts(ts, t.kind);
    if ts == [] {
      assert [] + [t] == [t] && [t][1..] == [];
    } else {
      assert (ts + [t])[1..] == ts[1..] + [t];
      AppendOne(ts[1..], t);
    }
  }

  lemma {:induction false} RemoveOne(ts: seq<Track>, t: Track)
    requires OnePerKind(ts) && TrackOf(ts, t.kind) == Some(t)
    ensures OnePerKind(RemoveTrack(ts, t))
    ensures forall kind :: TrackOf(RemoveTrack(ts, t), kind) == if kind == t.kind then None else TrackOf(ts, kind)
    decreases ts
  {
    if ts[0] != t {
      RemoveOne(ts[1..], t);
      assert ([ts[0]] + RemoveTrack(ts[1..], t))[1..] == RemoveTrack(ts[1..], t);
    }
  }

  /** Unless a sender rejects, replaceTrack keeps one track per kind and points
      stream and negotiated senders at the new track. */
  lemma ReplaceFacts(s: Session, oldTrack: Option<Track>, newTrack: Option<Track>, kind: Kind, refused: set<Id>)
    requires OnePerKind(s.stream) && (oldTrack.Some? || newTrack.Some?)
    requires oldTrack == TrackOf(s.stream, kind)
    requires newTrack.Some? ==> newTrack.value.kind == kind && newTrack != oldTrack
    ensures var z := ReplaceTrack(s, oldTrack, newTrack, refused);
      z.peers.Keys == s.peers.Keys && z.halfway == s.halfway
      && (Refusing(s, refused) ==> z.stream == s.stream)
      && (!Refusing(s, refused) ==>
            OnePerKind(z.stream)
            && (forall k :: TrackOf(z.stream, k) == if k == kind then newTrack else TrackOf(s.stream, k))
            && forall p :: p in s.peers ==> z.peers[p] == Replaced(s.peers[p], kind, newTrack))
  {
    TrackOfFacts(s.stream, kind);
    var mid := if oldTrack.Some? then RemoveTrack(s.stream, oldTrack.value) else s.stream;
    if oldTrack.Some? { RemoveOne(s.stream, oldTrack.value); }
    if newTrack.Some? { AppendOne(mid, newTrack.value); }
    if !Refusing(s, refused) {
      forall p | p in s.peers && p in refused ensures s.peers[p].None? { assert !HasSender(s, p); }
    }
  }

  lemma AcquirePublishes(m: Media, kind: Kind, publish: bool, refused: set<Id>)
    requires Inv(m) && TrackOf(m.local, kind).None?
    requires m.session.Some? ==> publish == (kind.Audio? || m.screen.None?)
    ensures OwnOk(Acquired(m, kind, publish, refused))
    ensures Published(Acquired(m, kind, publish, refused))
      <==> !(m.session.Some? && publish && Refusing(m.session.value, refused))
  {
    var t := Fresh(m, kind);
    AppendOne(m.local, t);
    if m.session.Some? && publish { ReplaceFacts(m.session.value, None, Some(t), kind, refused); }
  }

  lemma StartSharing(m: Media, refused: set<Id>)
    requires Inv(m) && m.screen.None?
    ensures var z := Next(m, ToggleScreenShare(true, refused));
      OwnOk(z) && (Published(z) <==> !(m.session.Some? && Refusing(m.session.value, refused)))
  {
    TrackOfFacts(m.local, Video);
    if m.session.Some? {
      TrackOfFacts(m.session.value.stream, Video);
      ReplaceFacts(m.session.value, TrackOf(m.local, Video), Some(Fresh(m, Video)), Video, refused);
    }
  }

  lemma StopSharing(m: Media, refused: set<Id>)
    requires Inv(m)
    ensures var z := StopScreenShare(m, refused);
      OwnOk(z)
      && (Published(z) <==> !HalfStopped(m, refused))
  {
    TrackOfFacts(m.local, Video);
    if m.session.Some? && m.screen.Some? {
      var s := m.session.value;
      ReplaceFacts(s, m.screen, TrackOf(m.local, Video), Video, refused);
      if Refusing(s, refused) && Accepting(s, refused) {
        var p :| p in s.peers && p !in refused && p !in s.halfway && HasSender(s, p);
        assert StopScreenShare(m, refused).session.value.peers[p]
          == Replaced(s.peers[p], Video, TrackOf(m.local, Video));
      }
    }
  }

  /** A granted setCamera or setMicrophone replaces the local track, and that is
      right only while the session, if any, publishes something else. */
  lemma DeviceChangePublishes(m: Media, kind: Kind)
    requires Inv(m)
    ensures var z := Next(m, DeviceChanged(kind));
      OwnOk(z) && (Published(z) <==> m.session.None? || (kind.Video? && m.screen.Some?))
  {
    var old', t := TrackOf(m.local, kind), Fresh(m, kind);
    TrackOfFacts(m.local, kind);
    if old'.Some? {
      RemoveOne(m.local, old'.value);
      forall x | x in Dropped(m.local, old') ensures x in m.local { DroppedKeeps(m.local, old', x); }
    }
    AppendOne(Dropped(m.local, old'), t);
    if m.session.Some? { TrackOfFacts(m.session.value.stream, kind); }
  }

  /** Joining publishes what it should exactly when no share is running yet: a
      share started before the join answer arrives is not in the new session. */
  lemma JoinPublishes(m: Media)
    requires OwnOk(m) && m.session.None?
    ensures OwnOk(Next(m, Join)) && (Published(Next(m, Join)) <==> m.screen.None?)
  {
    TrackOfFacts(m.local, Video);
  }

  lemma {:induction false} TwoOfAKind(ts: seq<Track>, t: Track, more: seq<Track>)
    requires TrackOf(ts, t.kind).Some?
    ensures !OnePerKind(ts + [t] + more)
    decreases ts
  {
    var all := ts + [t] + more;
    assert all[0] == ts[0] && all[1..] == ts[1..] + [t] + more;
    if ts[0].kind == t.kind {
      TrackOfFacts(all[1..], t.kind);
      assert t in all[1..] by { assert all[1..][|ts| - 1] == t; }
    } else {
      TwoOfAKind(ts[1..], t, more);
    }
  }

  lemma PreviewPublishes(m: Media, audio: bool, video: bool)
    requires Inv(m) && Enabled(m, Preview(audio, video))
    ensures Inv(Next(m, Preview(audio, video))) <==> !Breaks(m, Preview(audio, video))
  {
    var a := Fresh(m, Audio);
    var m1 := if audio then Acquired(m, Audio, false, {}) else m;
    var v := Fresh(m1, Video);
    if audio && TrackOf(m.local, Audio).Some? {
      TwoOfAKind(m.local, a, if video then [v] else []);
      assert m.local + [a] + [] == m.local + [a];
    } else {
      if audio { AcquirePublishes(m, Audio, false, {}); AppendOne(m.local, a); }
      if video && TrackOf(m1.local, Video).Some? {
        TwoOfAKind(m1.local, v, []);
        assert m1.local + [v] + [] == m1.local + [v];
      } else if video {
        AcquirePublishes(m1, Video, false, {});
      }
    }
  }

  lemma AnswerPublishes(m: Media, p: Id, kinds: set<Kind>)
    requires Inv(m) && m.session.Some?
    ensures Inv(Next(m, AnswerMade(p, kinds)))
  {
    var s := m.session.value;
    var before := if HasSender(s, p) then s.peers[p].value else Senders(None, None);
    if !RejectsAny(TRANSCEIVERS, kinds) {
      assert Audio in TRANSCEIVERS && Video in TRANSCEIVERS;
      AttachedAll(s.stream, before, kinds);
    }
  }

  lemma AttachedAll(stream: seq<Track>, s: Senders, refused: set<Kind>)
    requires Audio !in refused && Video !in refused
    ensures Attached(stream, s, TRANSCEIVERS, refused) == SendersFor(stream)
  {
    var one := [Video];
    assert TRANSCEIVERS[1..] == one && one[1..] == [];
    var s1 := WithSender(s, Audio, TrackOf(stream, Audio));
    assert Attached(stream, s, TRANSCEIVERS, refused) == Attached(stream, s1, one, refused);
  }

  /** The steps that leave the wrong tracks published: getting a second camera or
      microphone; joining during a share; a granted setCamera or setMicrophone
      after the join, except that a camera does not matter during a share;
      publishing a new track when a sender rejects it; and ending a share when
      some senders reject the camera and others take it. */
  predicate Breaks(m: Media, e: Toggle) {
    match e
    case Preview(audio, video) => (audio && TrackOf(m.local, Audio).Some?) || (video && TrackOf(m.local, Video).Some?)
    case Join => m.screen.Some?
    case ToggleMute(granted, refused) =>
      granted && TrackOf(m.local, Audio).None? && m.session.Some? && Refusing(m.session.value, refused)
    case ToggleVideo(granted, refused) =>
      granted && TrackOf(m.local, Video).None? && m.screen.None?
      && m.session.Some? && Refusing(m.session.value, refused)
    case ToggleScreenShare(granted, refused) =>
      if m.screen.Some? then HalfStopped(m, refused)
      else granted && m.session.Some? && Refusing(m.session.value, refused)
    case ScreenEnded(refused) => m.hooked && HalfStopped(m, refused)
    case DeviceChanged(kind) => m.session.Some? && !(kind.Video? && m.screen.Some?)
    case _ => false
  }

  predicate HalfStopped(m: Media, refused: set<Id>) {
    m.session.Some? && m.screen.Some? && Refusing(m.session.value, refused) && Accepting(m.session.value, refused)
  }

  /** From a state in which the right tracks are published, for peers negotiated
      before and after alike, every other step leads to one, and these do not. */
  lemma StepPublishes(m: Media, e: Toggle)
    requires Inv(m) && Enabled(m, e)
    ensures Inv(Next(m, e)) <==> !Breaks(m, e)
  {
    match e
    case Preview(audio, video) => PreviewPublishes(m, audio, video);
    case Back =>
    case Join => JoinPublishes(m);
    case ToggleMute(granted, refused) => if TrackOf(m.local, Audio).None? { AcquirePublishes(m, Audio, true, refused); }
    case ToggleVideo(granted, refused) =>
      if TrackOf(m.local, Video).None? { AcquirePublishes(m, Video, m.screen.None?, refused); }
    case ToggleScreenShare(granted, refused) =>
      if m.screen.Some? { StopSharing(m, refused); } else { StartSharing(m, refused); }
    case ScreenEnded(refused) => StopSharing(m, refused);
    case DeviceChanged(kind) => DeviceChangePublishes(m, kind);
    case OfferMade(p) =>
    case AnswerMade(p, kinds) => AnswerPublishes(m, p, kinds);
    case PeerSeen(p) =>
    case PeerLeft(p) =>
    case Leave =>
  }

  predicate IsRun(m: Media, run: seq<Toggle>)
    decreases run
  {
    run == [] || (Enabled(m, run[0]) && IsRun(Next(m, run[0]), run[1..]))
  }

  /** In every state of the run there is at most one camera and one microphone, and
      the right tracks are published. */
  ghost predicate RightThroughout(m: Media, run: seq<Toggle>)
    requires IsRun(m, run)
    decreases run
  {
    Inv(m) && (run == [] || RightThroughout(Next(m, run[0]), run[1..]))
  }

  ghost predicate NeverBreaks(m: Media, run: seq<Toggle>)
    requires IsRun(m, run)
    decreases run
  {
    run == [] || (!Breaks(m, run[0]) && NeverBreaks(Next(m, run[0]), run[1..]))
  }

  /** In any run at all, every state is right if and only if none of those steps
      occurs. */
  lemma {:induction false} AlwaysPublished(m: Media, run: seq<Toggle>)
    requires Inv(m) && IsRun(m, run)
    ensures RightThroughout(m, run) <==> NeverBreaks(m, run)
    decreases run
  {
    if run != [] {
      StepPublishes(m, run[0]);
      if !Breaks(m, run[0]) { AlwaysPublished(Next(m, run[0]), run[1..]); }
    }
  }

  /** Concretely: share the screen while joining, and the camera is what others get. */
  lemma ShareBeforeJoinIsLost()
    ensures var m := Next(Next(Next(LOBBY, Preview(false, true)), ToggleScreenShare(true, {})), Join);
      m.screen == Some(Track(1, Video)) && TrackOf(m.session.value.stream, Video) == Some(Track(0, Video))
      && !Published(m)
  {
    var m1 := Next(LOBBY, Preview(false, true));
    assert m1.local == [Track(0, Video)];
    var m := Next(Next(m1, ToggleScreenShare(true, {})), Join);
    assert VideoToPublish(m) == Some(Track(1, Video)) && m.session.value.stream == [Track(0, Video)];
  }

  /** Concretely: one rejecting sender, and who joins next gets the camera although
      the screen is shared. */
  lemma RefusedShareIsHalfPublished()
    ensures var m := Next(Next(Next(Next(LOBBY, Preview(false, true)), Join), OfferMade(7)),
                        ToggleScreenShare(true, {7}));
      m.screen == Some(Track(1, Video)) && !Published(m)
      && Next(m, OfferMade(8)).session.value.peers[8] == Some(Senders(None, Some(Track(0, Video))))
  {
    var m1 := Next(LOBBY, Preview(false, true));
    assert m1.local == [Track(0, Video)];
    var m2 := Next(Next(m1, Join), OfferMade(7));
    assert HasSender(m2.session.value, 7);
    var m := Next(m2, ToggleScreenShare(true, {7}));
    assert m.session.value.stream == [Track(0, Video)] && [Track(0, Video)][1..] == [];
  }

  /** Concretely: change the camera while joining, and what others get is the
      camera that was stopped. */
  lemma ChangedCameraIsNotPublished()
    ensures var m := Next(Next(Next(Next(LOBBY, Preview(false, true)), Join), OfferMade(7)), DeviceChanged(Video));
      m.local == [Track(1, Video)] && !Published(m)
      && m.session.value.peers[7] == Some(Senders(None, Some(Track(0, Video))))
  {
    var m1 := Next(LOBBY, Preview(false, true));
    assert m1.local == [Track(0, Video)] && [Track(0, Video)][1..] == [];
    var m2 := Next(Next(m1, Join), OfferMade(7));
    var m := Next(m2, DeviceChanged(Video));
    assert m.local == [Track(1, Video)];
  }

  // --------------------------------------------------------- what a step does

  function SenderOf(s: Senders, kind: Kind): Option<Track> { if kind.Audio? then s.audio else s.video }

  function First(kinds: seq<Kind>, refused: set<Kind>): nat {
    if kinds == [] || kinds[0] in refused then 0 else 1 + First(kinds[1..], refused)
  }

  /** Up to the first transceiver that rejects, every sender of an answer carries
      the stream's track of its kind; the others are as they were. */
  lemma {:induction false} AttachedSoFar(stream: seq<Track>, s: Senders, kinds: seq<Kind>, refused: set<Kind>,
                                         kind: Kind)
    ensures var n := First(kinds, refused);
      n <= |kinds| && (n < |kinds| ==> kinds[n] in refused) && (forall k :: k in kinds[..n] ==> k !in refused)
      && SenderOf(Attached(stream, s, kinds, refused), kind)
         == if kind in kinds[..n] then TrackOf(stream, kind) else SenderOf(s, kind)
    decreases kinds
  {
    var n := First(kinds, refused);
    if n > 0 {
      AttachedSoFar(stream, WithSender(s, kinds[0], TrackOf(stream, kinds[0])), kinds[1..], refused, kind);
      assert kinds[..n] == [kinds[0]] + kinds[1..][..n - 1];
    }
  }

  /** An answer to which no sender objects gives the peer the microphone and the
      video of the session's stream, as an offer does; nobody else is concerned. */
  lemma AnswerAttaches(m: Media, p: Id, kinds: set<Kind>)
    requires Enabled(m, AnswerMade(p, kinds))
    ensures var s, z := m.session.value, Next(m, AnswerMade(p, kinds)).session;
      Next(m, AnswerMade(p, kinds)) == m.(session := z)
      && z.Some? && z.value.stream == s.stream && z.value.peers.Keys == s.peers.Keys + {p}
      && (forall q :: q in s.peers && q != p ==>
            z.value.peers[q] == s.peers[q] && (q in z.value.halfway <==> q in s.halfway))
      && (Audio !in kinds && Video !in kinds ==>
            p !in z.value.halfway
            && z.value.peers[p] == Some(Senders(TrackOf(s.stream, Audio), TrackOf(s.stream, Video))))
      && (Audio !in kinds && Video in kinds ==>
            p in z.value.halfway && z.value.peers[p].Some? && z.value.peers[p].value.audio == TrackOf(s.stream, Audio))
      && (Audio in kinds ==>
            p in z.value.halfway
            && z.value.peers[p] == if p in s.peers && s.peers[p].Some? then s.peers[p] else Some(Senders(None, None)))
  {
    var s := m.session.value;
    var before := if HasSender(s, p) then s.peers[p].value else Senders(None, None);
    var all := [Audio, Video];
    assert TRANSCEIVERS == all && all[1..] == [Video] && [Video][1..] == [];
    assert Audio in TRANSCEIVERS && Video in TRANSCEIVERS;
    if Audio !in kinds && Video !in kinds { AttachedAll(s.stream, before, kinds); }
    AttachedSoFar(s.stream, before, TRANSCEIVERS, kinds, Audio);
    if Audio !in kinds {
      assert First(all, kinds) == 1 + First([Video], kinds);
      assert all[0] in all[..First(all, kinds)];
    }
  }

  /** An offer gives the peer the same. */
  lemma OfferAttaches(m: Media, p: Id)
    requires Enabled(m, OfferMade(p))
    ensures var s, z := m.session.value, Next(m, OfferMade(p)).session;
      Next(m, OfferMade(p)) == m.(session := z)
      && z.Some? && z.value.stream == s.stream && z.value.peers.Keys == s.peers.Keys + {p} && p !in z.value.halfway
      && z.value.peers[p] == Some(Senders(TrackOf(s.stream, Audio), TrackOf(s.stream, Video)))
      && forall q :: q in s.peers && q != p ==>
        z.value.peers[q] == s.peers[q] && (q in z.value.halfway <==> q in s.halfway)
  {}

  /** Since the last time p left or the session began, p was offered to, or answered
      with no sender objecting, and no later answer failed. */
  predicate Exchanged(run: seq<Toggle>, p: Id) {
    run != [] &&
    var before, e := run[..|run| - 1], run[|run| - 1];
    match e
    case OfferMade(q) => q == p || Exchanged(before, p)
    case AnswerMade(q, kinds) => if q == p then Audio !in kinds && Video !in kinds else Exchanged(before, p)
    case PeerLeft(q) => q != p && Exchanged(before, p)
    case Join => false
    case Leave => false
    case _ => Exchanged(before, p)
  }

  function Final(m: Media, run: seq<Toggle>): Media
    requires IsRun(m, run)
    decreases run
  {
    if run == [] then m else Final(Next(m, run[0]), run[1..])
  }

  lemma {:induction false} RunSnoc(m: Media, run: seq<Toggle>, e: Toggle)
    requires IsRun(m, run + [e])
    ensures IsRun(m, run) && Enabled(Final(m, run), e) && Final(m, run + [e]) == Next(Final(m, run), e)
    decreases run
  {
    if run == [] {
      assert run + [e] == [e] && [e][1..] == [];
    } else {
      assert (run + [e])[1..] == run[1..] + [e];
      RunSnoc(Next(m, run[0]), run[1..], e);
    }
  }

  /** Other steps take no sender away and leave nobody halfway. */
  lemma SendersStay(m: Media, e: Toggle, p: Id)
    requires Enabled(m, e) && m.session.Some? && HasSender(m.session.value, p) && p !in m.session.value.halfway
    requires e != PeerLeft(p) && !e.Leave? && !(e.AnswerMade? && e.peer == p)
    ensures var z := Next(m, e); z.session.Some? && HasSender(z.session.value, p) && p !in z.session.value.halfway
  {}

  /** Every peer the client exchanged descriptions with is one whose senders the
      published-track invariant speaks of. */
  lemma {:induction false} ExchangedArePublishedTo(run: seq<Toggle>, p: Id)
    requires IsRun(LOBBY, run) && Exchanged(run, p)
    ensures var m := Final(LOBBY, run);
      m.session.Some? && HasSender(m.session.value, p) && p !in m.session.value.halfway
    decreases |run|
  {
    var before, e := run[..|run| - 1], run[|run| - 1];
    assert before + [e] == run;
    RunSnoc(LOBBY, before, e);
    var m := Final(LOBBY, before);
    if e.OfferMade? && e.peer == p {
    } else if e.AnswerMade? && e.peer == p {
      AnswerAttaches(m, p, e.kinds);
    } else {
      ExchangedArePublishedTo(before, p);
      SendersStay(m, e, p);
    }
  }

  /** Who is published to gets, while no failing step occurs, the microphone, and
      the screen while sharing, else the camera. */
  lemma ExchangedGetTheTracks(run: seq<Toggle>, p: Id)
    requires IsRun(LOBBY, run) && Exchanged(run, p) && NeverBreaks(LOBBY, run)
    ensures var m := Final(LOBBY, run);
      m.session.Some? && p in m.session.value.peers
      && m.session.value.peers[p]
         == Some(Senders(TrackOf(m.local, Audio), if m.screen.Some? then m.screen else TrackOf(m.local, Video)))
  {
    ExchangedArePublishedTo(run, p);
    RightAtEnd(LOBBY, run);
  }

  lemma {:induction false} RightAtEnd(m: Media, run: seq<Toggle>)
    requires Inv(m) && IsRun(m, run) && NeverBreaks(m, run)
    ensures Inv(Final(m, run))
    decreases run
  {
    if run != [] {
      StepPublishes(m, run[0]);
      RightAtEnd(Next(m, run[0]), run[1..]);
    }
  }

  /** One kind of sender is handed another track, by everybody who does not refuse. */
  ghost predicate Handed(s: Session, z: Session, kind: Kind, t: Option<Track>, refused: set<Id>) {
    z.peers.Keys == s.peers.Keys
    && forall p :: p in s.peers ==>
      if s.peers[p].None? || p in refused then z.peers[p] == s.peers[p]
      else z.peers[p].Some? && SenderOf(z.peers[p].value, kind) == t
           && forall k :: k != kind ==> SenderOf(z.peers[p].value, k) == SenderOf(s.peers[p].value, k)
  }

  lemma ReplaceHands(s: Session, oldTrack: Option<Track>, newTrack: Option<Track>, kind: Kind, refused: set<Id>)
    requires oldTrack.Some? || newTrack.Some?
    requires (oldTrack.Some? ==> oldTrack.value.kind == kind) && (newTrack.Some? ==> newTrack.value.kind == kind)
    ensures Handed(s, ReplaceTrack(s, oldTrack, newTrack, refused), kind, newTrack, refused)
  {}

  /** A toggle that is granted a missing microphone or camera has it, new, and hands
      it to the peers, a camera unless the screen is shared; otherwise nothing
      changes. */
  lemma DeviceToggled(m: Media, e: Toggle, kind: Kind)
    requires Inv(m) && (if kind.Audio? then e.ToggleMute? else e.ToggleVideo?)
    ensures var z := Next(m, e);
      z.screen == m.screen && z.hooked == m.hooked && (z.session.Some? <==> m.session.Some?)
      && (!e.granted || TrackOf(m.local, kind).Some? ==> z == m)
      && (e.granted && TrackOf(m.local, kind).None? ==>
            (forall t :: t in z.local <==> t in m.local || t == Track(m.tracks, kind))
            && Track(m.tracks, kind) !in m.local
            && TrackOf(z.local, kind) == Some(Track(m.tracks, kind))
            && (m.session.Some? && (kind.Audio? || m.screen.None?) ==>
                  Handed(m.session.value, z.session.value, kind, Some(Track(m.tracks, kind)), e.refused))
            && (m.session.Some? && kind.Video? && m.screen.Some? ==> z.session == m.session))
  {
    if e.granted && TrackOf(m.local, kind).None? {
      AppendOne(m.local, Fresh(m, kind));
      if m.session.Some? { ReplaceHands(m.session.value, None, Some(Fresh(m, kind)), kind, e.refused); }
    }
  }

  /** A share that is granted runs, and its new track is handed to the peers. */
  lemma ShareStarts(m: Media, granted: bool, refused: set<Id>)
    requires Inv(m) && m.screen.None?
    ensures var z := Next(m, ToggleScreenShare(granted, refused));
      z.local == m.local && (!granted ==> z == m)
      && (granted ==> z.screen == Some(Track(m.tracks, Video)) && (z.session.Some? <==> m.session.Some?))
      && (granted && m.session.Some? ==>
            Handed(m.session.value, z.session.value, Video, z.screen, refused)
            && (z.hooked <==> !Refusing(m.session.value, refused)))
  {
    TrackOfFacts(m.local, Video);
    if granted && m.session.Some? {
      ReplaceHands(m.session.value, TrackOf(m.local, Video), Some(Fresh(m, Video)), Video, refused);
    }
  }

  /** A share is ended by the button, or in the browser's bar while the handler is
      there; the peers are handed the camera, if any, and the share is over unless
      somebody refuses. */
  lemma ShareEnds(m: Media, e: Toggle)
    requires Inv(m) && m.screen.Some? && m.session.Some? && (e.ToggleScreenShare? || (e.ScreenEnded? && m.hooked))
    ensures var z := Next(m, e);
      z.local == m.local && z.session.Some? && !z.hooked
      && (z.screen == if Refusing(m.session.value, e.refused) then m.screen else None)
      && Handed(m.session.value, z.session.value, Video, TrackOf(m.local, Video), e.refused)
  {
    TrackOfFacts(m.local, Video);
    ReplaceHands(m.session.value, m.screen, TrackOf(m.local, Video), Video, e.refused);
  }

  /** Joining opens a session with the local tracks and nobody in it; leaving ends
      everything; going back to the lobby gives the devices up; a peer that left is
      forgotten. */
  lemma ComingAndGoing(m: Media, p: Id)
    ensures Next(m, Leave).local == [] && Next(m, Leave).screen == None && Next(m, Leave).session == None
    ensures m.session.None? ==>
      Next(m, Back).local == [] && Next(m, Back).screen == m.screen && Next(m, Back).session == None
    ensures m.session.None? ==>
      var z := Next(m, Join);
      z.local == m.local && z.screen == m.screen && z.session.Some? && z.session.value.stream == m.local
      && z.session.value.peers == map[]
    ensures m.session.Some? ==>
      var z := Next(m, PeerLeft(p));
      z.session.Some? && z.session.value.peers.Keys == m.session.value.peers.Keys - {p}
      && z.session.value.stream == m.session.value.stream && z.local == m.local && z.screen == m.screen
      && forall q :: q in z.session.value.peers ==> z.session.value.peers[q] == m.session.value.peers[q]
    ensures m.session.Some? ==>
      var z := Next(m, PeerSeen(p));
      z.session.Some? && z.session.value.peers.Keys == m.session.value.peers.Keys + {p}
      && z.session.value.stream == m.session.value.stream && z.local == m.local && z.screen == m.screen
      && forall q :: q in z.session.value.peers ==>
        z.session.value.peers[q] == if q in m.session.value.peers then m.session.value.peers[q] else None
  {}

  /** A preview adds what was granted. */
  lemma PreviewAdds(m: Media, audio: bool, video: bool)
    requires Inv(m) && m.session.None?
    ensures var z := Next(m, Preview(audio, video));
      z.screen == m.screen && z.session == None && m.local <= z.local
      && |z.local| == |m.local| + (if audio then 1 else 0) + (if video then 1 else 0)
      && (audio ==> z.local[|m.local|].kind == Audio && z.local[|m.local|].id >= m.tracks)
      && (video ==> z.local[|z.local| - 1].kind == Video && z.local[|z.local| - 1].id >= m.tracks)
  {}

  /** A granted setCamera or setMicrophone swaps the local track of its kind for a
      new one, and concerns nobody else. */
  lemma DeviceSwapped(m: Media, kind: Kind)
    requires Inv(m)
    ensures var z := Next(m, DeviceChanged(kind));
      TrackOf(z.local, kind) == Some(Track(m.tracks, kind))
      && (forall k :: k != kind ==> TrackOf(z.local, k) == TrackOf(m.local, k))
      && z.screen == m.screen && z.session == m.session
  {
    var old', t := TrackOf(m.local, kind), Fresh(m, kind);
    TrackOfFacts(m.local, kind);
    if old'.Some? { RemoveOne(m.local, old'.value); }
    AppendOne(Dropped(m.local, old'), t);
  }
}
