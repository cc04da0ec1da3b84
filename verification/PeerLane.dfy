/** Everything one client keeps about one remote participant: the promise chain
    of its operations, the operation suspended at an await, and the
    RTCPeerConnection with its early ICE candidates. */
module PeerLane {
  import opened JsMap
  import opened Protocol

  /** Signalling states and their transitions, section 3.2 of RFC 8829. */
  datatype Signaling = Stable | HaveLocalOffer | HaveRemoteOffer
  datatype Call = SetLocal(offer: bool) | SetRemote(offer: bool)

  function Transition(s: Signaling, call: Call): Option<Signaling> {
    match (s, call)
    case (Stable, SetLocal(true)) => Some(HaveLocalOffer)
    case (HaveLocalOffer, SetLocal(true)) => Some(HaveLocalOffer)
    case (Stable, SetRemote(true)) => Some(HaveRemoteOffer)
    case (HaveRemoteOffer, SetRemote(true)) => Some(HaveRemoteOffer)
    case (HaveLocalOffer, SetRemote(false)) => Some(Stable)
    case (HaveRemoteOffer, SetLocal(false)) => Some(Stable)
    case _ => None
  }

  /** `pc` and `candidates`; remoteSet is `pc.remoteDescription` being set. */
  datatype Peer = Peer(state: Signaling, remoteSet: bool, candidates: seq<Signal>)
  const NEW_PEER := Peer(Stable, false, [])

  datatype Op = MakeOffer | Handle(signal: Signal)

  /** The await at which the running operation is suspended. */
  datatype Await =
    | CreatingOffer
    | SettingLocalOffer
    | SettingRemote(description: Signal)
    | Flushing(answering: bool, rest: seq<Signal>)
    | Attaching(left: nat)
    | CreatingAnswer
    | SettingLocalAnswer
    | AddingCandidate(candidate: Signal)

  /** How the awaited promise settles. `sdp` is the local description, sent says
      whether the socket still took the message, `transceivers` how many there are. */
  datatype Outcome = Fulfilled(sdp: Json, transceivers: nat, sent: bool) | Rejected

  datatype Fate = Fate(candidate: Signal, applied: bool)

  /** What has happened so far; it decides nothing. */
  datatype History = History(enqueued: seq<Op>, begun: seq<Op>, fates: seq<Fate>, sent: seq<Signal>,
                             offersSent: nat, answersSent: nat, offersTaken: nat, answersTaken: nat)

  /** `shut`: the participant departed or the session was closed. */
  datatype Lane = Lane(pending: seq<Op>, running: Option<Await>, peer: Option<Peer>, shut: bool, past: History)
  const IDLE := Lane([], None, None, false, History([], [], [], [], 0, 0, 0, 0))

  /** `Trickle` is pc.onicecandidate firing while the socket takes messages. */
  datatype Event = Enqueue(op: Op) | Begin | Resume(outcome: Outcome) | Trickle(candidate: Signal) | Shut

  /** Operations of a shut lane are skipped, so nothing has to wait for them. */
  predicate Enabled(l: Lane, e: Event) {
    match e
    case Begin => l.pending != [] && (l.running.None? || l.shut)
    case Resume(_) => l.running.Some?
    case Trickle(c) => l.peer.Some? && !l.shut && c.Candidate?
    case _ => true
  }

  function PeerOf(l: Lane): Peer { if l.peer.Some? then l.peer.value else NEW_PEER }

  /** An operation runs up to its first await. */
  function Launched(l: Lane, op: Op): Lane {
    var p := PeerOf(l);
    match op
    case MakeOffer => l.(peer := Some(p), running := Some(CreatingOffer))
    case Handle(Candidate(_, _, _)) =>
      if p.remoteSet then l.(peer := Some(p), running := Some(AddingCandidate(op.signal)))
      else l.(peer := Some(p.(candidates := p.candidates + [op.signal])))
    case Handle(Offer(_)) =>
      l.(peer := Some(p), running := Some(SettingRemote(op.signal)),
         past := l.past.(offersTaken := l.past.offersTaken + 1))
    case Handle(Answer(_)) =>
      l.(peer := Some(p), running := Some(SettingRemote(op.signal)),
         past := l.past.(answersTaken := l.past.answersTaken + 1))
  }

  /** The head of the chain starts, unless the lane is shut. */
  function Started(l: Lane): Lane
    requires l.pending != []
  {
    var op := l.pending[0];
    var l1 := l.(pending := l.pending[1..], past := l.past.(begun := l.past.begun + [op]));
    if l.shut then l1 else Launched(l1, op)
  }

  function Dropped(cs: seq<Signal>): (r: seq<Fate>)
    ensures |r| == |cs| && forall i :: 0 <= i < |cs| ==> r[i] == Fate(cs[i], false)
  {
    seq(|cs|, i requires 0 <= i < |cs| => Fate(cs[i], false))
  }

  /** Candidates the running operation took out and has not settled yet. */
  function Taken(l: Lane): seq<Signal> {
    match l.running
    case Some(Flushing(_, rest)) => rest
    case Some(AddingCandidate(c)) => [c]
    case _ => []
  }

  function Failed(l: Lane): Lane {
    l.(running := None, past := l.past.(fates := l.past.fates + Dropped(Taken(l))))
  }

  /** Where `handle` stands after its candidate loop. */
  function AfterFlush(answering: bool, transceivers: nat): Option<Await> {
    if !answering then None
    else if transceivers == 0 then Some(CreatingAnswer)
    else Some(Attaching(transceivers))
  }

  /** Something went out on the socket. */
  function Noted(h: History, s: Signal): History {
    h.(sent := h.sent + [s],
       offersSent := h.offersSent + if s.Offer? then 1 else 0,
       answersSent := h.answersSent + if s.Answer? then 1 else 0)
  }

  /** The description call whose promise is being awaited. */
  function Awaited(r: Await): Option<Call> {
    match r
    case SettingLocalOffer => Some(SetLocal(true))
    case SettingLocalAnswer => Some(SetLocal(false))
    case SettingRemote(d) => Some(SetRemote(d.Offer?))
    case _ => None
  }

  /** The promise of a call the signalling state does not permit is rejected. */
  predicate Refused(r: Await, p: Peer) {
    Awaited(r).Some? && Transition(p.state, Awaited(r).value).None?
  }

  // One promise of a live connection is fulfilled: what becomes of the
  // operation, of the connection, and of the record.

  function NextAwait(r: Await, p: Peer, o: Outcome): Option<Await>
    requires o.Fulfilled? && !Refused(r, p)
  {
    match r
    case CreatingOffer => Some(SettingLocalOffer)
    case SettingLocalOffer => None
    case SettingRemote(d) =>
      if p.candidates == [] then AfterFlush(d.Offer?, o.transceivers) else Some(Flushing(d.Offer?, p.candidates))
    case Flushing(answering, rest) =>
      if |rest| <= 1 then AfterFlush(answering, o.transceivers) else Some(Flushing(answering, rest[1..]))
    case Attaching(n) => Some(if n <= 1 then CreatingAnswer else Attaching(n - 1))
    case CreatingAnswer => Some(SettingLocalAnswer)
    case SettingLocalAnswer => None
    case AddingCandidate(_) => None
  }

  function NextPeer(r: Await, p: Peer): Peer
    requires !Refused(r, p)
  {
    if Awaited(r).None? then p
    else
      var t := Transition(p.state, Awaited(r).value).value;
      if r.SettingRemote? then Peer(t, true, []) else p.(state := t)
  }

  function NextPast(h: History, r: Await, o: Outcome): History
    requires o.Fulfilled?
  {
    match r
    case SettingLocalOffer => if o.sent then Noted(h, Offer(o.sdp)) else h
    case SettingLocalAnswer => if o.sent then Noted(h, Answer(o.sdp)) else h
    case Flushing(_, rest) => if rest == [] then h else h.(fates := h.fates + [Fate(rest[0], true)])
    case AddingCandidate(c) => h.(fates := h.fates + [Fate(c, true)])
    case _ => h
  }

  function Progress(l: Lane, p: Peer, o: Outcome): Lane
    requires l.running.Some? && l.peer == Some(p) && o.Fulfilled?
  {
    var r := l.running.value;
    if Refused(r, p) then Failed(l)
    else l.(running := NextAwait(r, p, o), peer := Some(NextPeer(r, p)), past := NextPast(l.past, r, o))
  }

  /** A closed connection fulfils no promise: the operation ends there. */
  function Resumed(l: Lane, o: Outcome): Lane
    requires l.running.Some?
  {
    if l.peer.None? || o.Rejected? then Failed(l) else Progress(l, l.peer.value, o)
  }

  function Next(l: Lane, e: Event): Lane
    requires Enabled(l, e)
  {
    match e
    case Enqueue(op) => l.(pending := l.pending + [op], past := l.past.(enqueued := l.past.enqueued + [op]))
    case Begin => Started(l)
    case Resume(o) => Resumed(l, o)
    case Trickle(c) => l.(past := Noted(l.past, c))
    case Shut => l.(shut := true, peer := None)
  }

  /** What the step hands to `signaling.send`. */
  function Sent(l: Lane, e: Event): Option<Signal>
    requires Enabled(l, e)
  {
    if e.Trickle? then Some(e.candidate)
    else if !e.Resume? || l.peer.None? || e.outcome.Rejected? || !e.outcome.sent
       || Refused(l.running.value, l.peer.value) then None
    else match l.running.value
      case SettingLocalOffer => Some(Offer(e.outcome.sdp))
      case SettingLocalAnswer => Some(Answer(e.outcome.sdp))
      case _ => None
  }

  /** The setLocalDescription or setRemoteDescription the step calls. */
  function CallOf(l: Lane, e: Event): Option<Call>
    requires Enabled(l, e)
  {
    match e
    case Begin =>
      if l.shut || l.pending[0].MakeOffer? || l.pending[0].signal.Candidate? then None
      else Some(SetRemote(l.pending[0].signal.Offer?))
    case Resume(o) =>
      if l.peer.None? || o.Rejected? then None
      else if l.running == Some(CreatingOffer) then Some(SetLocal(true))
      else if l.running == Some(CreatingAnswer) then Some(SetLocal(false))
      else None
    case _ => None
  }

  /** Making a description call is awaiting its promise: a stretch of work calls just
      what the operation is then suspended at. */
  lemma CallsAreAwaited(l: Lane, e: Event)
    requires Enabled(l, e)
    ensures var r := Next(l, e).running;
      CallOf(l, e) == if r.Some? && ((e.Begin? && !l.shut) || e.Resume?) then Awaited(r.value) else None
  {}

  /** What is sent is the local description just set, an offer when that leaves the
      connection with a local offer and an answer when it makes it stable, or the
      candidate just found. */
  lemma SendsWhatIsLocal(l: Lane, e: Event)
    requires Enabled(l, e)
    ensures e.Trickle? ==> Sent(l, e) == Some(e.candidate) && e.candidate.Candidate?
    ensures Sent(l, e).Some? && !e.Trickle? ==>
      e.Resume? && !Sent(l, e).value.Candidate? && Sent(l, e).value.sdp == e.outcome.sdp
      && l.running.Some? && Awaited(l.running.value) == Some(SetLocal(Sent(l, e).value.Offer?))
      && Next(l, e).running.None? && Next(l, e).peer.Some?
      && Next(l, e).peer.value.state == if Sent(l, e).value.Offer? then HaveLocalOffer else Stable
    ensures Next(l, e).past.sent == l.past.sent + if Sent(l, e).Some? then [Sent(l, e).value] else []
  {}

  predicate IsRun(l: Lane, run: seq<Event>)
    decreases run
  {
    run == [] || (Enabled(l, run[0]) && IsRun(Next(l, run[0]), run[1..]))
  }

  function Final(l: Lane, run: seq<Event>): Lane
    requires IsRun(l, run)
    decreases run
  {
    if run == [] then l else Final(Next(l, run[0]), run[1..])
  }

  // ---------------------------------------------------------------- the queue

  /** Operations start in the order they were enqueued; what has not started
      waits in that order. */
  lemma {:induction false} OperationsStartInOrder(l: Lane, run: seq<Event>)
    requires IsRun(l, run) && l.past.begun + l.pending == l.past.enqueued
    ensures var z := Final(l, run); z.past.begun + z.pending == z.past.enqueued
    decreases run
  {
    if run != [] {
      if run[0].Enqueue? {
        var op := run[0].op;
        assert l.past.begun + (l.pending + [op]) == l.past.enqueued + [op];
      } else if run[0].Begin? {
        assert (l.past.begun + [l.pending[0]]) + l.pending[1..] == l.past.begun + l.pending;
      }
      OperationsStartInOrder(Next(l, run[0]), run[1..]);
    }
  }

  /** The lane of a participant listed in the join snapshot. */
  const NEWCOMER := Next(IDLE, Enqueue(MakeOffer))

  lemma {:induction false} EnqueuedGrows(l: Lane, run: seq<Event>)
    requires IsRun(l, run)
    ensures l.past.enqueued <= Final(l, run).past.enqueued
    decreases run
  {
    if run != [] { EnqueuedGrows(Next(l, run[0]), run[1..]); }
  }

  /** For a snapshot participant making the offer is what starts first, whatever
      arrives meanwhile. */
  lemma OfferComesFirst(run: seq<Event>)
    requires IsRun(NEWCOMER, run)
    ensures var begun := Final(NEWCOMER, run).past.begun; begun != [] ==> begun[0] == MakeOffer
  {
    EnqueuedGrows(NEWCOMER, run);
    OperationsStartInOrder(NEWCOMER, run);
    var z := Final(NEWCOMER, run);
    assert z.past.enqueued[0] == MakeOffer;
  }

  /** Once a participant departed or the session closed, no later step of the
      lane creates a connection, calls into one or sends anything. */
  lemma {:induction false} NeverRevived(l: Lane, run: seq<Event>, k: nat)
    requires IsRun(l, run) && l.shut && l.peer.None? && k < |run|
    ensures IsRun(l, run[..k])
    ensures var z := Final(l, run[..k]);
      z.shut && z.peer.None? && Enabled(z, run[k])
      && Next(z, run[k]).peer.None? && Sent(z, run[k]) == None && CallOf(z, run[k]) == None
    decreases run
  {
    if k > 0 {
      NeverRevived(Next(l, run[0]), run[1..], k - 1);
      assert run[..k][1..] == run[1..][..k - 1];
    }
  }

  predicate AllFulfilled(run: seq<Event>) { forall e :: e in run ==> e.Resume? && e.outcome.Fulfilled? }

  lemma {:induction false} AttachingRun(l: Lane, n: nat, run: seq<Event>)
    requires l.running == Some(Attaching(n)) && l.peer.Some? && |run| <= n && AllFulfilled(run)
    ensures IsRun(l, run)
    ensures Final(l, run).running == Some(if 0 < |run| == n then CreatingAnswer else Attaching(n - |run|))
    decreases run
  {
    if |run| > 1 {
      assert run[0] in run && forall e :: e in run[1..] ==> e in run;
      AttachingRun(Next(l, run[0]), n - 1, run[1..]);
    } else if |run| == 1 {
      assert run[0] in run && run[1..] == [];
    }
  }

  /** The offer is set and no candidate is left to add. */
  predicate ReadyToAttach(l: Lane) {
    l.running.Some? && l.peer.Some? && !Refused(l.running.value, l.peer.value)
    && ((l.running.value.SettingRemote? && l.running.value.description.Offer? && l.peer.value.candidates == [])
        || (l.running.value.Flushing? && l.running.value.answering && |l.running.value.rest| <= 1))
  }

  /** Then an answerer awaits one replaceTrack for each transceiver, neither more nor
      fewer, before it makes its answer. */
  lemma AnswerWaitsForTracks(l: Lane, o: Outcome, run: seq<Event>)
    requires ReadyToAttach(l) && o.Fulfilled? && |run| <= o.transceivers && AllFulfilled(run)
    ensures IsRun(l, [Resume(o)] + run)
    ensures Final(l, [Resume(o)] + run).running == Some(CreatingAnswer) <==> |run| == o.transceivers
    ensures |run| < o.transceivers ==>
      Final(l, [Resume(o)] + run).running == Some(Attaching(o.transceivers - |run|))
  {
    if o.transceivers > 0 { AttachingRun(Next(l, Resume(o)), o.transceivers, run); }
    PrependStep(l, Resume(o), run);
  }

  /** The operations enqueued along a run, and the run without the enqueueing. */
  function Arrivals(run: seq<Event>): seq<Op> {
    if run == [] then []
    else (if run[0].Enqueue? then [run[0].op] else []) + Arrivals(run[1..])
  }

  function Work(run: seq<Event>): seq<Event> {
    if run == [] then []
    else (if run[0].Enqueue? then [] else [run[0]]) + Work(run[1..])
  }

  function EnqueueAll(l: Lane, ops: seq<Op>): Lane {
    l.(pending := l.pending + ops, past := l.past.(enqueued := l.past.enqueued + ops))
  }

  lemma ArrivalCommutes(l: Lane, e: Event, ops: seq<Op>)
    requires Enabled(l, e) && !e.Enqueue?
    ensures Enabled(EnqueueAll(l, ops), e)
    ensures Next(EnqueueAll(l, ops), e) == EnqueueAll(Next(l, e), ops)
  {
    match e
    case Begin => assert (l.pending + ops)[1..] == l.pending[1..] + ops;
    case Resume(o) => if l.peer.Some? && o.Fulfilled? { ProgressCommutes(l, l.peer.value, o, ops); }
    case Trickle(c) =>
    case Shut =>
  }

  lemma ProgressCommutes(l: Lane, p: Peer, o: Outcome, ops: seq<Op>)
    requires l.running.Some? && l.peer == Some(p) && o.Fulfilled?
    ensures Progress(EnqueueAll(l, ops), p, o) == EnqueueAll(Progress(l, p, o), ops)
  {
    PastCommutes(l.past, l.running.value, o, l.past.enqueued + ops);
  }

  lemma PastCommutes(h: History, r: Await, o: Outcome, ops: seq<Op>)
    requires o.Fulfilled?
    ensures NextPast(h.(enqueued := ops), r, o) == NextPast(h, r, o).(enqueued := ops)
    ensures NextPast(h, r, o).enqueued == h.enqueued && NextPast(h, r, o).begun == h.begun
  {}

  /** Messages that arrive while operations are suspended change nothing: the
      run ends as if everything had been queued beforehand and the operations
      had been worked off one after the other. */
  lemma {:induction false} RefinesSequential(l: Lane, run: seq<Event>)
    requires IsRun(l, run)
    ensures IsRun(EnqueueAll(l, Arrivals(run)), Work(run))
    ensures Final(EnqueueAll(l, Arrivals(run)), Work(run)) == Final(l, run)
    decreases run
  {
    if run == [] {
      assert l.pending + [] == l.pending && l.past.enqueued + [] == l.past.enqueued;
    } else {
      var rest, ops := run[1..], Arrivals(run[1..]);
      RefinesSequential(Next(l, run[0]), rest);
      if run[0].Enqueue? {
        TwoArrivals(l, run[0].op, ops);
        assert Arrivals(run) == [run[0].op] + ops;
        assert Work(run) == [] + Work(rest) == Work(rest);
      } else {
        ArrivalCommutes(l, run[0], ops);
        PrependStep(EnqueueAll(l, ops), run[0], Work(rest));
        assert Arrivals(run) == [] + ops == ops;
        assert Work(run) == [run[0]] + Work(rest);
      }
    }
  }

  lemma TwoArrivals(l: Lane, op: Op, ops: seq<Op>)
    ensures EnqueueAll(Next(l, Enqueue(op)), ops) == EnqueueAll(l, [op] + ops)
  {
    assert (l.pending + [op]) + ops == l.pending + ([op] + ops);
    assert (l.past.enqueued + [op]) + ops == l.past.enqueued + ([op] + ops);
  }

  lemma PrependStep(l: Lane, e: Event, run: seq<Event>)
    requires Enabled(l, e) && IsRun(Next(l, e), run)
    ensures IsRun(l, [e] + run) && Final(l, [e] + run) == Final(Next(l, e), run)
  {
    assert ([e] + run)[1..] == run;
  }

  // ---------------------------------------------------------- ICE candidates

  function Candidates(ops: seq<Op>): seq<Signal> {
    if ops == [] then []
    else (if ops[0].Handle? && ops[0].signal.Candidate? then [ops[0].signal] else []) + Candidates(ops[1..])
  }

  function Settled(fates: seq<Fate>): (r: seq<Signal>)
    ensures |r| == |fates| && forall i :: 0 <= i < |r| ==> r[i] == fates[i].candidate
  {
    seq(|fates|, i requires 0 <= i < |fates| => fates[i].candidate)
  }

  /** The candidates out of the queue but not lost sight of: settled, then taken
      out by the running operation, then buffered. */
  function InHand(l: Lane): seq<Signal> { Settled(l.past.fates) + Taken(l) + PeerOf(l).candidates }

  /** Together with those still queued, exactly what was received, in order. */
  ghost predicate Conserved(l: Lane) {
    InHand(l) + Candidates(l.pending) == Candidates(l.past.enqueued)
  }

  ghost predicate IceInv(l: Lane) {
    !l.shut ==>
      Conserved(l)
      && (l.peer.None? ==> l.running.None?)
      && (PeerOf(l).remoteSet ==> PeerOf(l).candidates == [])
      && (!PeerOf(l).remoteSet ==> l.past.fates == [] && Taken(l) == [])
  }

  lemma {:induction false} CandidatesAppend(a: seq<Op>, b: seq<Op>)
    ensures Candidates(a + b) == Candidates(a) + Candidates(b)
    decreases a
  {
    if a == [] {
      assert a + b == b;
    } else {
      assert (a + b)[1..] == a[1..] + b;
      CandidatesAppend(a[1..], b);
    }
  }

  lemma IceStep(l: Lane, e: Event)
    requires IceInv(l) && Enabled(l, e)
    ensures IceInv(Next(l, e))
  {
    if !l.shut {
      match e
      case Enqueue(op) => IceEnqueue(l, op);
      case Begin => IceBegin(l);
      case Resume(o) => IceResume(l, o);
      case Trickle(c) => assert Taken(Next(l, e)) == Taken(l) && PeerOf(Next(l, e)) == PeerOf(l);
      case Shut =>
    }
  }

  lemma IceEnqueue(l: Lane, op: Op)
    requires IceInv(l) && !l.shut
    ensures IceInv(Next(l, Enqueue(op)))
  {
    CandidatesAppend(l.pending, [op]);
    CandidatesAppend(l.past.enqueued, [op]);
    assert InHand(Next(l, Enqueue(op))) == InHand(l);
    Regroup(InHand(l), Candidates(l.pending), Candidates([op]));
  }

  /** The candidate at the head of the queue, if that is what is there. */
  function HeadCandidate(op: Op): seq<Signal> {
    if op.Handle? && op.signal.Candidate? then [op.signal] else []
  }

  lemma LaunchTakesHead(l: Lane, op: Op)
    requires l.running.None? && (PeerOf(l).remoteSet ==> PeerOf(l).candidates == [])
    ensures InHand(Launched(l, op)) == InHand(l) + HeadCandidate(op)
  {
    var a := Settled(l.past.fates);
    if op.Handle? && op.signal.Candidate? {
      if PeerOf(l).remoteSet {
        assert InHand(l) == a;
      } else {
        assert InHand(l) + [op.signal] == a + [] + (PeerOf(l).candidates + [op.signal]);
      }
    }
  }

  lemma LaunchRules(l: Lane, op: Op)
    requires l.running.None? && (PeerOf(l).remoteSet ==> PeerOf(l).candidates == [])
    requires !PeerOf(l).remoteSet ==> l.past.fates == []
    ensures var z := Launched(l, op);
      z.peer.Some? && (PeerOf(z).remoteSet ==> PeerOf(z).candidates == [])
      && (!PeerOf(z).remoteSet ==> z.past.fates == [] && Taken(z) == [])
      && z.pending == l.pending && z.past.enqueued == l.past.enqueued && z.shut == l.shut
  {}

  lemma Regroup(a: seq<Signal>, b: seq<Signal>, c: seq<Signal>)
    ensures a + (b + c) == (a + b) + c
  {}

  lemma IceBegin(l: Lane)
    requires IceInv(l) && !l.shut && Enabled(l, Begin)
    ensures IceInv(Next(l, Begin))
  {
    var op, rest := l.pending[0], l.pending[1..];
    var popped := l.(pending := rest, past := l.past.(begun := l.past.begun + [op]));
    assert Next(l, Begin) == Launched(popped, op);
    LaunchRules(popped, op);
    LaunchTakesHead(popped, op);
    assert InHand(popped) == InHand(l) && Candidates(l.pending) == HeadCandidate(op) + Candidates(rest);
    Regroup(InHand(l), HeadCandidate(op), Candidates(rest));
  }

  lemma FailKeepsHand(l: Lane)
    ensures InHand(Failed(l)) == InHand(l)
  {
    assert Settled(Failed(l).past.fates) == Settled(l.past.fates) + Taken(l);
  }

  lemma ProgressKeepsHand(l: Lane, p: Peer, o: Outcome)
    requires l.running.Some? && l.peer == Some(p) && o.Fulfilled?
    ensures InHand(Progress(l, p, o)) == InHand(l)
    ensures Progress(l, p, o).pending == l.pending && Progress(l, p, o).past.enqueued == l.past.enqueued
  {
    var r := l.running.value;
    PastCommutes(l.past, r, o, l.past.enqueued);
    if Refused(r, p) {
      FailKeepsHand(l);
    } else if r.Flushing? {
      FlushKeepsHand(l, p, o);
    } else if r.AddingCandidate? {
      assert Settled(NextPast(l.past, r, o).fates) == Settled(l.past.fates) + [r.candidate];
    } else {
      assert NextPast(l.past, r, o).fates == l.past.fates && Taken(l) == [];
    }
  }

  lemma FlushKeepsHand(l: Lane, p: Peer, o: Outcome)
    requires l.running.Some? && l.running.value.Flushing? && l.peer == Some(p) && o.Fulfilled?
    ensures InHand(Progress(l, p, o)) == InHand(l)
  {
    var rest := l.running.value.rest;
    var z := Progress(l, p, o);
    if rest != [] {
      assert Settled(z.past.fates) == Settled(l.past.fates) + [rest[0]];
      assert rest == [rest[0]] + rest[1..] && Taken(z) == rest[1..];
      assert (Settled(l.past.fates) + [rest[0]]) + rest[1..] == Settled(l.past.fates) + ([rest[0]] + rest[1..]);
    }
  }

  lemma IceResume(l: Lane, o: Outcome)
    requires IceInv(l) && !l.shut && Enabled(l, Resume(o))
    ensures IceInv(Next(l, Resume(o)))
  {
    var p := l.peer.value;
    FailKeepsHand(l);
    if o.Fulfilled? {
      ProgressKeepsHand(l, p, o);
      BufferRule(l, p, o);
    }
  }

  /** The buffer is empty once the remote description is set, and only then may
      candidates be taken out. */
  lemma BufferRule(l: Lane, p: Peer, o: Outcome)
    requires l.running.Some? && l.peer == Some(p) && o.Fulfilled?
    requires p.remoteSet ==> p.candidates == []
    requires !p.remoteSet ==> l.past.fates == [] && Taken(l) == []
    ensures var z := Progress(l, p, o);
      z.peer.Some? && (z.peer.value.remoteSet ==> z.peer.value.candidates == [])
      && (!z.peer.value.remoteSet ==> z.past.fates == [] && Taken(z) == [])
      && z.shut == l.shut
  {}

  /** Candidates are conserved in order along every run, failures included, and
      none is settled before the remote description is set. */
  lemma {:induction false} CandidatesConserved(l: Lane, run: seq<Event>)
    requires IceInv(l) && IsRun(l, run)
    ensures IceInv(Final(l, run))
    decreases run
  {
    if run != [] {
      IceStep(l, run[0]);
      CandidatesConserved(Next(l, run[0]), run[1..]);
    }
  }

  ghost predicate AllApplied(l: Lane) { forall f :: f in l.past.fates ==> f.applied }

  lemma AppliedStep(l: Lane, e: Event)
    requires IceInv(l) && Enabled(l, e) && AllApplied(l) && e != Resume(Rejected) && !l.shut
    ensures AllApplied(Next(l, e))
  {
    if e.Resume? { AppliedResume(l, l.peer.value, e.outcome); }
  }

  lemma AppliedResume(l: Lane, p: Peer, o: Outcome)
    requires AllApplied(l) && l.running.Some? && l.peer == Some(p) && o.Fulfilled?
    ensures AllApplied(Progress(l, p, o))
  {
    var r := l.running.value;
    assert Refused(r, p) ==> Taken(l) == [];
    assert NextPast(l.past, r, o).fates == l.past.fates
      || exists c :: NextPast(l.past, r, o).fates == l.past.fates + [Fate(c, true)];
  }

  /** As long as no promise is rejected, every settled candidate was applied. */
  lemma {:induction false} NoneLost(l: Lane, run: seq<Event>)
    requires IceInv(l) && IsRun(l, run) && !Final(l, run).shut && AllApplied(l)
    requires forall e :: e in run ==> e != Resume(Rejected)
    ensures AllApplied(Final(l, run))
    decreases run
  {
    if run != [] {
      assert run[0] in run && forall e :: e in run[1..] ==> e in run;
      ShutForGood(l, run);
      IceStep(l, run[0]);
      AppliedStep(l, run[0]);
      NoneLost(Next(l, run[0]), run[1..]);
    }
  }

  lemma {:induction false} ShutForGood(l: Lane, run: seq<Event>)
    requires IsRun(l, run)
    ensures l.shut ==> Final(l, run).shut
    decreases run
  {
    if run != [] { ShutForGood(Next(l, run[0]), run[1..]); }
  }
}
