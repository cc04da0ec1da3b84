/** devices.js: who owns every live camera and microphone track while captures
    overlap, are cancelled, or outlive the preview. */
module Devices {
  import opened JsMap

  datatype Kind = Audio | Video
  datatype Track = Track(id: nat, kind: Kind)

  /** One getUserMedia promise. */
  datatype Grant = Asking | Denied | Granted(track: Track)

  /** A suspended getLocalStream, acquireTrack, or setCamera/setMicrophone. */
  datatype Capture =
    | LocalStream(version: nat, audio: Grant, video: Grant)
    | Acquire(version: nat, kind: Kind, grant: Grant)
    | Replace(kind: Kind, grant: Grant)

  type CaptureId = nat

  /** `live` are the tracks whose device is in use. */
  datatype State = State(captureVersion: nat, local: seq<Track>, live: set<Track>,
                         captures: map<CaptureId, Capture>, tracks: nat, started: nat)
  const INITIAL := State(0, [], {}, map[], 0, 0)

  datatype Event =
    | GetLocalStream
    | AcquireTrack(kind: Kind)
    | SetDevice(kind: Kind)
    | Answered(c: CaptureId, kind: Kind, allowed: bool)
    | Finish(c: CaptureId)
    | CancelPendingCapture
    | StopLocalPreview
    // The device goes away by itself.
    | TrackEnds(track: Track)

  function GrantOf(c: Capture, kind: Kind): Grant {
    match c
    case LocalStream(_, audio, video) => if kind.Audio? then audio else video
    case Acquire(_, k, grant) => if k == kind then grant else Denied
    case Replace(k, grant) => if k == kind then grant else Denied
  }

  function WithGrant(c: Capture, kind: Kind, g: Grant): Capture {
    match c
    case LocalStream(v, audio, video) => if kind.Audio? then LocalStream(v, g, video) else LocalStream(v, audio, g)
    case Acquire(v, k, _) => Acquire(v, k, g)
    case Replace(k, _) => Replace(k, g)
  }

  predicate Settled(c: Capture) { !GrantOf(c, Audio).Asking? && !GrantOf(c, Video).Asking? }

  function TrackIn(g: Grant): seq<Track> { if g.Granted? then [g.track] else [] }

  /** The tracks a capture holds, in the order its code goes through them. */
  function Held(c: Capture): seq<Track> { TrackIn(GrantOf(c, Audio)) + TrackIn(GrantOf(c, Video)) }

  function Elements(ts: seq<Track>): set<Track> { set t | t in ts }

  lemma ElementsAppend(ts: seq<Track>, i: nat)
    requires i < |ts|
    ensures ts[..i + 1] == ts[..i] + [ts[i]] && Elements(ts[..i + 1]) == Elements(ts[..i]) + {ts[i]}
  {
    assert ts[..i + 1] == ts[..i] + [ts[i]];
  }

  lemma NoElements()
    ensures Elements([]) == {}
  {}

  predicate Enabled(s: State, e: Event) {
    match e
    case Answered(c, kind, _) => c in s.captures && GrantOf(s.captures[c], kind).Asking?
    case Finish(c) => c in s.captures && Settled(s.captures[c])
    case _ => true
  }

  /** `getAudioTracks()[0]` / `getVideoTracks()[0]`. */
  function TrackOf(ts: seq<Track>, kind: Kind): Option<Track> {
    if ts == [] then None else if ts[0].kind == kind then Some(ts[0]) else TrackOf(ts[1..], kind)
  }

  /** `MediaStream.removeTrack`. */
  function RemoveTrack(ts: seq<Track>, t: Track): seq<Track> {
    if ts == [] then [] else if ts[0] == t then ts[1..] else [ts[0]] + RemoveTrack(ts[1..], t)
  }

  function Dropped(ts: seq<Track>, t: Option<Track>): seq<Track> { if t.Some? then RemoveTrack(ts, t.value) else ts }

  function OneOrNone(t: Option<Track>): set<Track> { if t.Some? then {t.value} else {} }

  function Begun(s: State, c: Capture): State {
    s.(captures := s.captures[s.started := c], started := s.started + 1)
  }

  /** The capture's continuation after its last await. */
  function Finished(s: State, id: CaptureId): State
    requires id in s.captures
  {
    var c := s.captures[id];
    var s1 := s.(captures := s.captures - {id});
    if Held(c) == [] then s1
    else match c
      case Replace(kind, _) =>
        var old' := TrackOf(s.local, kind);
        s1.(local := Dropped(s.local, old') + Held(c), live := s.live - OneOrNone(old'))
      case _ =>
        if c.version != s.captureVersion then s1.(live := s.live - Elements(Held(c)))
        else s1.(local := s.local + Held(c))
  }

  function Next(s: State, e: Event): State
    requires Enabled(s, e)
  {
    match e
    case GetLocalStream =>
      Begun(s.(captureVersion := s.captureVersion + 1), LocalStream(s.captureVersion + 1, Asking, Asking))
    case AcquireTrack(kind) => Begun(s, Acquire(s.captureVersion, kind, Asking))
    case SetDevice(kind) => Begun(s, Replace(kind, Asking))
    case Answered(c, kind, allowed) =>
      if allowed then
        var t := Track(s.tracks, kind);
        s.(captures := s.captures[c := WithGrant(s.captures[c], kind, Granted(t))],
           live := s.live + {t}, tracks := s.tracks + 1)
      else s.(captures := s.captures[c := WithGrant(s.captures[c], kind, Denied)])
    case Finish(c) => Finished(s, c)
    case CancelPendingCapture => s.(captureVersion := s.captureVersion + 1)
    case StopLocalPreview =>
      s.(captureVersion := s.captureVersion + 1, live := s.live - Elements(s.local), local := [])
    case TrackEnds(t) => s.(live := s.live - {t})
  }

  class DeviceManager {
    var captureVersion: nat
    var localStream: seq<Track>
    var live: set<Track>
    var captures: map<CaptureId, Capture>
    var tracks: nat
    var started: nat

    function Now(): State reads this { State(captureVersion, localStream, live, captures, tracks, started) }

    constructor ()
      ensures Now() == INITIAL
    {
      captureVersion, localStream, live, captures, tracks, started := 0, [], {}, map[], 0, 0;
    }

    method StartCapture(c: Capture) returns (id: CaptureId)
      modifies this
      ensures Now() == Begun(old(Now()), c) && id == old(started)
    {
      id := started;
      captures := captures[id := c];
      started := started + 1;
    }

    method BeginLocalStream() returns (id: CaptureId)
      modifies this
      ensures Now() == Next(old(Now()), GetLocalStream) && id == old(started)
    {
      captureVersion := captureVersion + 1;
      id := StartCapture(LocalStream(captureVersion, Asking, Asking));
    }

    method BeginAcquire(kind: Kind) returns (id: CaptureId)
      modifies this
      ensures Now() == Next(old(Now()), AcquireTrack(kind)) && id == old(started)
    {
      id := StartCapture(Acquire(captureVersion, kind, Asking));
    }

    method Stop(ts: seq<Track>)
      modifies `live
      ensures live == old(live) - Elements(ts)
    {
      for i := 0 to |ts|
        invariant live == old(live) - Elements(ts[..i])
      {
        ElementsAppend(ts, i);
        live := live - {ts[i]};
      }
      assert ts[..|ts|] == ts;
    }

    /** getLocalStream and acquireTrack once their devices have answered: tracks
        of an outdated capture are stopped, others published. */
    method FinishCapture(id: CaptureId)
      requires Enabled(Now(), Finish(id)) && !captures[id].Replace?
      modifies this
      ensures Now() == Next(old(Now()), Finish(id))
    {
      hide Elements, Held;
      var c := captures[id];
      captures := captures - {id};
      var ts := Held(c);
      assert Elements([]) == {} by { NoElements(); }
      for i := 0 to |ts|
        invariant captureVersion == old(captureVersion) && tracks == old(tracks) && started == old(started)
        invariant captures == old(captures) - {id}
        invariant localStream == if c.version != captureVersion then old(localStream) else old(localStream) + ts[..i]
        invariant live == if c.version != captureVersion then old(live) - Elements(ts[..i]) else old(live)
      {
        ElementsAppend(ts, i);
        if c.version != captureVersion { live := live - {ts[i]}; }
        else { localStream := localStream + [ts[i]]; }
      }
      assert ts[..|ts|] == ts;
    }

    /** setCamera and setMicrophone once the device has answered. */
    method FinishReplace(id: CaptureId)
      requires Enabled(Now(), Finish(id)) && captures[id].Replace?
      modifies this
      ensures Now() == Next(old(Now()), Finish(id))
    {
      var c := captures[id];
      captures := captures - {id};
      if Held(c) == [] { return; }
      var old' := TrackOf(localStream, c.kind);
      if old'.Some? {
        localStream := RemoveTrack(localStream, old'.value);
        live := live - {old'.value};
      }
      localStream := localStream + Held(c);
    }

    method Cancel()
      modifies `captureVersion
      ensures Now() == Next(old(Now()), CancelPendingCapture)
    {
      captureVersion := captureVersion + 1;
    }

    method StopPreview()
      modifies this
      ensures Now() == Next(old(Now()), StopLocalPreview)
    {
      Cancel();
      Stop(localStream);
      localStream := [];
    }
  }

  // ----------------------------------------------------------- conservation

  predicate HeldBySome(s: State, t: Track) { exists c :: c in s.captures && t in Held(s.captures[c]) }

  /** Every live track is published in the local stream or held by a capture
      that has not finished, so somebody can still stop it. */
  ghost predicate Owned(s: State) {
    forall t :: t in s.live ==> t in s.local || HeldBySome(s, t)
  }

  /** A track is held by one capture only, and not published yet; nothing is
      published twice. */
  ghost predicate Separate(s: State) {
    (forall t :: t in s.local ==> t.id < s.tracks) && Different(s.local)
    && (forall c :: c in s.captures ==> Sorted(s.captures[c]))
    && (forall c, t :: c in s.captures && t in Held(s.captures[c]) ==> t.id < s.tracks && t !in s.local)
    && forall c, d, t :: c in s.captures && d in s.captures && c != d && t in Held(s.captures[c]) ==>
      t !in Held(s.captures[d])
  }

  ghost predicate Different(ts: seq<Track>) { forall i, j :: 0 <= i < j < |ts| ==> ts[i] != ts[j] }

  /** A grant is of the kind that was asked for. */
  predicate Sorted(c: Capture) {
    (GrantOf(c, Audio).Granted? ==> GrantOf(c, Audio).track.kind == Audio)
    && (GrantOf(c, Video).Granted? ==> GrantOf(c, Video).track.kind == Video)
  }

  ghost predicate Inv(s: State) {
    Owned(s) && Separate(s) && Numbered(s)
  }

  /** Captures and versions are counted up. */
  ghost predicate Numbered(s: State) {
    forall c :: c in s.captures ==>
      c < s.started && (s.captures[c].Replace? || s.captures[c].version <= s.captureVersion)
  }

  lemma {:induction false} RemoveKeeps(ts: seq<Track>, x: Track, t: Track)
    ensures t in RemoveTrack(ts, x) ==> t in ts
    ensures t in ts && t != x ==> t in RemoveTrack(ts, x)
    decreases ts
  {
    if ts != [] {
      assert ts == [ts[0]] + ts[1..];
      RemoveKeeps(ts[1..], x, t);
    }
  }

  lemma {:induction false} TrackOfFacts(ts: seq<Track>, kind: Kind)
    ensures TrackOf(ts, kind).Some? ==> TrackOf(ts, kind).value in ts && TrackOf(ts, kind).value.kind == kind
    ensures TrackOf(ts, kind).None? ==> forall t :: t in ts ==> t.kind != kind
    decreases ts
  {
    if ts != [] {
      assert ts == [ts[0]] + ts[1..];
      TrackOfFacts(ts[1..], kind);
    }
  }

  lemma DroppedKeeps(ts: seq<Track>, x: Option<Track>, t: Track)
    ensures t in Dropped(ts, x) ==> t in ts
    ensures t in ts && Some(t) != x ==> t in Dropped(ts, x)
  {
    if x.Some? { RemoveKeeps(ts, x.value, t); }
  }

  lemma StepKeeps(s: State, e: Event)
    requires Inv(s) && Enabled(s, e)
    ensures Inv(Next(s, e))
  {
    hide Owned, Separate;
    OwnedKeeps(s, e);
    SeparateKeeps(s, e);
    NumberedKeeps(s, e);
  }

  lemma NumberedKeeps(s: State, e: Event)
    requires Numbered(s) && Enabled(s, e)
    ensures Numbered(Next(s, e))
  {}

  lemma OwnedKeeps(s: State, e: Event)
    requires Inv(s) && Enabled(s, e)
    ensures Owned(Next(s, e))
  {
    var z := Next(s, e);
    forall t | t in z.live ensures t in z.local || HeldBySome(z, t) {
      if t in s.live && t !in s.local {
        var c :| c in s.captures && t in Held(s.captures[c]);
        KeepsHolding(s, e, c, t);
      } else if t in s.live {
        if e.Finish? && s.captures[e.c].Replace? { DroppedKeeps(s.local, TrackOf(s.local, s.captures[e.c].kind), t); }
      } else {
        assert t in Held(z.captures[e.c]);
      }
    }
  }

  /** A capture loses its tracks only by finishing. */
  lemma StillHeld(s: State, e: Event, c: CaptureId, t: Track)
    requires Enabled(s, e) && c in s.captures && t in Held(s.captures[c]) && c < s.started && e != Finish(c)
    ensures c in Next(s, e).captures && t in Held(Next(s, e).captures[c])
  {
    if e.Answered? && e.c == c {
      GrantKeepsHeld(s.captures[c], e.kind, if e.allowed then Granted(Track(s.tracks, e.kind)) else Denied, t);
    }
  }

  lemma GrantKeepsHeld(c: Capture, kind: Kind, g: Grant, t: Track)
    requires GrantOf(c, kind).Asking? && t in Held(c)
    ensures t in Held(WithGrant(c, kind, g))
  {}

  lemma FinishedHandsOver(s: State, c: CaptureId, t: Track)
    requires c in s.captures && t in Held(s.captures[c]) && t in Finished(s, c).live
    ensures t in Finished(s, c).local
  {}

  lemma KeepsHolding(s: State, e: Event, c: CaptureId, t: Track)
    requires Enabled(s, e) && c in s.captures && t in Held(s.captures[c]) && c < s.started && t in Next(s, e).live
    ensures t in Next(s, e).local || HeldBySome(Next(s, e), t)
  {
    if e == Finish(c) {
      FinishedHandsOver(s, c, t);
    } else {
      StillHeld(s, e, c, t);
    }
  }

  /** A step gives a capture no track but a new one. */
  lemma HeldComesFrom(s: State, e: Event, c: CaptureId, t: Track)
    requires Enabled(s, e) && c in Next(s, e).captures && t in Held(Next(s, e).captures[c])
    ensures (c in s.captures && t in Held(s.captures[c]))
      || (e.Answered? && e.c == c && t.id == s.tracks < Next(s, e).tracks)
    ensures Next(s, e).tracks >= s.tracks
  {}

  lemma SeparateKeeps(s: State, e: Event)
    requires Inv(s) && Enabled(s, e)
    ensures Separate(Next(s, e))
  {
    hide Next, Held;
    var z := Next(s, e);
    SortedKeeps(s, e);
    LocalDifferent(s, e);
    forall t | t in z.local ensures t.id < z.tracks { LocalComesFrom(s, e, t); }
    forall c, t | c in z.captures && t in Held(z.captures[c]) ensures t.id < z.tracks && t !in z.local {
      HeldComesFrom(s, e, c, t);
      if t in z.local { LocalComesFrom(s, e, t); }
    }
    forall c, d, t | c in z.captures && d in z.captures && c != d && t in Held(z.captures[c])
      ensures t !in Held(z.captures[d])
    {
      HeldComesFrom(s, e, c, t);
      if t in Held(z.captures[d]) { HeldComesFrom(s, e, d, t); }
    }
  }

  lemma SortedKeeps(s: State, e: Event)
    requires Enabled(s, e) && forall c :: c in s.captures ==> Sorted(s.captures[c])
    ensures forall c :: c in Next(s, e).captures ==> Sorted(Next(s, e).captures[c])
  {
    var z := Next(s, e);
    forall c | c in z.captures ensures Sorted(z.captures[c]) {
      assert c in s.captures ==> Sorted(s.captures[c]);
    }
  }

  lemma {:induction false} RemoveDifferent(ts: seq<Track>, x: Track)
    requires Different(ts)
    ensures Different(RemoveTrack(ts, x)) && x !in RemoveTrack(ts, x)
    decreases ts
  {
    if ts != [] {
      assert forall i :: 0 <= i < |ts[1..]| ==> ts[1..][i] == ts[i + 1];
      forall t | t in ts[1..] ensures t != ts[0] {
        var i :| 0 <= i < |ts[1..]| && ts[1..][i] == t;
        assert ts[i + 1] == t;
      }
      RemoveDifferent(ts[1..], x);
      if ts[0] != x {
        forall t | t in RemoveTrack(ts[1..], x) ensures t !in [ts[0]] { RemoveKeeps(ts[1..], x, t); }
        AppendDifferent([ts[0]], RemoveTrack(ts[1..], x));
      }
    }
  }

  lemma AppendDifferent(a: seq<Track>, b: seq<Track>)
    requires Different(a) && Different(b) && forall t :: t in b ==> t !in a
    ensures Different(a + b)
  {
    var all := a + b;
    forall i, j | 0 <= i < j < |all| ensures all[i] != all[j] {
      if i < |a| <= j { assert all[j] in b && all[i] in a; }
    }
  }

  lemma HeldDifferent(c: Capture)
    requires Sorted(c)
    ensures Different(Held(c))
  {}

  lemma LocalDifferent(s: State, e: Event)
    requires Separate(s) && Enabled(s, e)
    ensures Different(Next(s, e).local)
  {
    if e.Finish? {
      var c := s.captures[e.c];
      HeldDifferent(c);
      AppendDifferent(s.local, Held(c));
      if c.Replace? && TrackOf(s.local, c.kind).Some? {
        var old' := TrackOf(s.local, c.kind).value;
        RemoveDifferent(s.local, old');
        forall t | t in Held(c) ensures t !in RemoveTrack(s.local, old') { RemoveKeeps(s.local, old', t); }
        AppendDifferent(RemoveTrack(s.local, old'), Held(c));
      }
    }
  }

  /** Only a finishing capture publishes, and only what it held. */
  lemma LocalComesFrom(s: State, e: Event, t: Track)
    requires Enabled(s, e) && t in Next(s, e).local
    ensures t in s.local || (e.Finish? && t in Held(s.captures[e.c]))
    ensures Next(s, e).tracks >= s.tracks && (e.Finish? ==> e.c !in Next(s, e).captures)
  {
    if e.Finish? && s.captures[e.c].Replace? { DroppedKeeps(s.local, TrackOf(s.local, s.captures[e.c].kind), t); }
  }

  predicate IsRun(s: State, run: seq<Event>)
    decreases run
  {
    run == [] || (Enabled(s, run[0]) && IsRun(Next(s, run[0]), run[1..]))
  }

  function Final(s: State, run: seq<Event>): State
    requires IsRun(s, run)
    decreases run
  {
    if run == [] then s else Final(Next(s, run[0]), run[1..])
  }

  /** In every run, whatever overlaps, no device is in use without an owner. */
  lemma {:induction false} NoTrackLeaks(s: State, run: seq<Event>)
    requires Inv(s) && IsRun(s, run)
    ensures Inv(Final(s, run))
    decreases run
  {
    if run != [] {
      StepKeeps(s, run[0]);
      NoTrackLeaks(Next(s, run[0]), run[1..]);
    }
  }

  lemma NoTrackLeaksFromStart(run: seq<Event>, t: Track)
    requires IsRun(INITIAL, run) && t in Final(INITIAL, run).live
    ensures t in Final(INITIAL, run).local || HeldBySome(Final(INITIAL, run), t)
  {
    NoTrackLeaks(INITIAL, run);
  }

  // ----------------------------------------------------------- cancellation

  /** The events that outdate every capture in flight. */
  predicate Outdates(e: Event) { e.GetLocalStream? || e.CancelPendingCapture? || e.StopLocalPreview? }

  function Outdatings(run: seq<Event>): nat {
    if run == [] then 0 else (if Outdates(run[0]) then 1 else 0) + Outdatings(run[1..])
  }

  lemma {:induction false} VersionCounts(s: State, run: seq<Event>, id: CaptureId)
    requires Inv(s) && IsRun(s, run) && id in s.captures && id in Final(s, run).captures
    ensures var z := Final(s, run);
      z.captureVersion == s.captureVersion + Outdatings(run)
      && z.captures[id].Replace? == s.captures[id].Replace?
      && (!s.captures[id].Replace? ==> z.captures[id].version == s.captures[id].version)
    decreases run
  {
    if run != [] {
      StepKeeps(s, run[0]);
      if run[0] == Finish(id) {
        GoneForGood(Next(s, run[0]), run[1..], id);
        assert false;
      }
      VersionCounts(Next(s, run[0]), run[1..], id);
    }
  }

  lemma {:induction false} GoneForGood(s: State, run: seq<Event>, id: CaptureId)
    requires IsRun(s, run) && id !in s.captures && id < s.started
    ensures id !in Final(s, run).captures
    decreases run
  {
    if run != [] { GoneForGood(Next(s, run[0]), run[1..], id); }
  }

  /** Whether a capture in flight will publish after `run`: getLocalStream and
      acquireTrack look at the counter, setCamera and setMicrophone do not. */
  predicate Survives(s: State, id: CaptureId, run: seq<Event>)
    requires id in s.captures
  {
    s.captures[id].Replace? || (s.captures[id].version == s.captureVersion && Outdatings(run) == 0)
  }

  /** Every capture that finishes with a grant after `run` publishes all its
      tracks if and only if it was setCamera or setMicrophone, or nothing before
      or in the run cancelled, stopped, or started a newer getLocalStream.
      Otherwise it publishes none and stops every one. */
  lemma PublishesUnlessCancelled(s: State, run: seq<Event>, id: CaptureId)
    requires Inv(s) && IsRun(s, run) && id in s.captures
    requires Enabled(Final(s, run), Finish(id)) && Held(Final(s, run).captures[id]) != []
    ensures var z := Final(s, run);
      var y, held := Next(z, Finish(id)), Held(z.captures[id]);
      ((forall t :: t in held ==> t in y.local) <==> Survives(s, id, run))
      && (Survives(s, id, run) ==> forall t :: t in held ==> (t in y.live <==> t in z.live))
      && (!Survives(s, id, run) ==> y.local == z.local && forall t :: t in held ==> t !in y.local && t !in y.live)
  {
    VersionCounts(s, run, id);
    NoTrackLeaks(s, run);
    var z := Final(s, run);
    var c := z.captures[id];
    assert Held(c)[0] in Held(c);
    if c.Replace? { TrackOfFacts(z.local, c.kind); }
  }

  /** Concretely: change the camera, leave the preview, and only then allow the
      device. The camera is in use and published after the stop. */
  lemma CameraOutlivesStop()
    ensures var run := [SetDevice(Video), StopLocalPreview, Answered(0, Video, true), Finish(0)];
      IsRun(INITIAL, run) && Final(INITIAL, run).local == [Track(0, Video)]
      && Track(0, Video) in Final(INITIAL, run).live
  {
    var s1 := Next(INITIAL, SetDevice(Video));
    var s2 := Next(s1, StopLocalPreview);
    var s3 := Next(s2, Answered(0, Video, true));
    assert Held(s3.captures[0]) == [Track(0, Video)];
    var s4 := Next(s3, Finish(0));
    assert s4.local == [Track(0, Video)];
    OneStep(s3, Finish(0), []);
    OneStep(s2, Answered(0, Video, true), [Finish(0)]);
    OneStep(s1, StopLocalPreview, [Answered(0, Video, true), Finish(0)]);
    OneStep(INITIAL, SetDevice(Video), [StopLocalPreview, Answered(0, Video, true), Finish(0)]);
  }

  lemma OneStep(s: State, e: Event, run: seq<Event>)
    requires Enabled(s, e) && IsRun(Next(s, e), run)
    ensures IsRun(s, [e] + run) && Final(s, [e] + run) == Final(Next(s, e), run)
  {
    assert ([e] + run)[1..] == run;
  }

  // ------------------------------------------------------ what each call does

  /** getLocalStream asks for both devices under a new version, acquireTrack for
      one under the current version, setCamera and setMicrophone for one under
      none; each is in flight from then on, and nothing else changes. */
  lemma CaptureBegins(s: State, e: Event)
    requires Inv(s) && (e.GetLocalStream? || e.AcquireTrack? || e.SetDevice?)
    ensures var z := Next(s, e);
      s.started !in s.captures && z.captures.Keys == s.captures.Keys + {s.started} && s.started in z.captures
      && (forall c :: c in s.captures ==> z.captures[c] == s.captures[c])
      && z.local == s.local && z.live == s.live && z.tracks == s.tracks && z.started == s.started + 1
      && var c := z.captures[s.started];
         (GrantOf(c, Audio).Asking? <==> e.GetLocalStream? || e.kind == Audio)
         && (GrantOf(c, Video).Asking? <==> e.GetLocalStream? || e.kind == Video)
         && Held(c) == [] && (c.Replace? <==> e.SetDevice?)
         && (!c.Replace? ==> c.version == z.captureVersion)
         && z.captureVersion == s.captureVersion + if e.GetLocalStream? then 1 else 0
  {
    assert s.started !in s.captures;
  }

  /** A granted device is on, and the capture that asked for it holds its track,
      which nobody else has, and all it held before; a refused one holds nothing more. */
  lemma DeviceAnswers(s: State, c: CaptureId, kind: Kind, allowed: bool)
    requires Inv(s) && Enabled(s, Answered(c, kind, allowed))
    ensures var z := Next(s, Answered(c, kind, allowed));
      !GrantOf(z.captures[c], kind).Asking? && z.local == s.local
      && (forall d :: d in s.captures && d != c ==> d in z.captures && z.captures[d] == s.captures[d])
      && (!allowed ==> z.live == s.live && forall t :: t in Held(z.captures[c]) <==> t in Held(s.captures[c]))
      && (allowed ==> exists t: Track :: t.kind == kind && t !in s.live && t !in s.local && z.live == s.live + {t}
                        && forall u :: u in Held(z.captures[c]) <==> u in Held(s.captures[c]) || u == t)
  {
    var z := Next(s, Answered(c, kind, allowed));
    var t := Track(s.tracks, kind);
    assert allowed ==> forall u :: u in Held(z.captures[c]) <==> u in Held(s.captures[c]) || u == t;
    LiveNumbered(s, t);
  }

  lemma LiveNumbered(s: State, t: Track)
    requires Inv(s)
    ensures t in s.live ==> t.id < s.tracks
  {
    if t in s.live && t !in s.local {
      var d :| d in s.captures && t in Held(s.captures[d]);
    }
  }

  /** A finishing setCamera or setMicrophone with a grant takes the first published
      track of its kind out and switches that device off; every other track stays. */
  lemma ReplacementTakesOver(s: State, c: CaptureId)
    requires Inv(s) && Enabled(s, Finish(c)) && s.captures[c].Replace? && Held(s.captures[c]) != []
    ensures var z, old' := Next(s, Finish(c)), TrackOf(s.local, s.captures[c].kind);
      (forall t :: t in z.local <==> (t in s.local && Some(t) != old') || t in Held(s.captures[c]))
      && (forall t :: t in z.live <==> t in s.live && Some(t) != old')
      && c !in z.captures
  {
    var old' := TrackOf(s.local, s.captures[c].kind);
    TrackOfFacts(s.local, s.captures[c].kind);
    forall t ensures t in Dropped(s.local, old') <==> t in s.local && Some(t) != old' {
      DroppedKeeps(s.local, old', t);
      if old'.Some? { RemoveDifferent(s.local, old'.value); }
    }
  }

  /** stopLocalPreview empties the local stream and switches off every device in
      it, leaves every other device alone, and outdates every capture in flight. */
  lemma StopStopsAll(s: State)
    requires Inv(s)
    ensures var z := Next(s, StopLocalPreview);
      z.local == [] && (forall t :: t in z.live <==> t in s.live && t !in s.local)
      && z.captures == s.captures
      && forall c :: c in z.captures && !z.captures[c].Replace? ==> z.captures[c].version != z.captureVersion
  {}

  /** Switched off, and nobody has it. */
  ghost predicate GoneTrack(s: State, t: Track) {
    t.id < s.tracks && t !in s.local && t !in s.live && forall c :: c in s.captures ==> t !in Held(s.captures[c])
  }

  lemma StaysGone(s: State, e: Event, t: Track)
    requires Enabled(s, e) && GoneTrack(s, t)
    ensures GoneTrack(Next(s, e), t)
  {
    var z := Next(s, e);
    if t in z.local { LocalComesFrom(s, e, t); }
    forall c | c in z.captures ensures t !in Held(z.captures[c]) {
      if t in Held(z.captures[c]) { HeldComesFrom(s, e, c, t); }
    }
  }

  lemma {:induction false} GoneForEver(s: State, run: seq<Event>, t: Track)
    requires IsRun(s, run) && GoneTrack(s, t)
    ensures GoneTrack(Final(s, run), t)
    decreases run
  {
    if run != [] {
      StaysGone(s, run[0], t);
      GoneForEver(Next(s, run[0]), run[1..], t);
    }
  }

  /** Whatever happens after a stop, no track published before it is ever in use
      or published again. */
  lemma StoppedForGood(s: State, run: seq<Event>, t: Track)
    requires Inv(s) && t in s.local && IsRun(Next(s, StopLocalPreview), run)
    ensures var z := Final(Next(s, StopLocalPreview), run); t !in z.live && t !in z.local
  {
    GoneForEver(Next(s, StopLocalPreview), run, t);
  }
}
