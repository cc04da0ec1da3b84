/** A lane on which nothing fails: what it was given, did, sent and has still to
    do add up exactly. */
module Settling {
  import opened JsMap
  import opened Protocol
  import opened PeerLane
  import opened Negotiation

  function CountKind(sigs: seq<Signal>, offer: bool): nat {
    if sigs == [] then 0 else (if IsKind(sigs[0], offer) then 1 else 0) + CountKind(sigs[1..], offer)
  }

  /** The signals among the operations of a chain. */
  function Signals(ops: seq<Op>): seq<Signal> {
    if ops == [] then [] else SignalIn(ops[0]) + Signals(ops[1..])
  }

  function SignalIn(op: Op): seq<Signal> { if op.Handle? then [op.signal] else [] }

  function Trickled(sigs: seq<Signal>): seq<Signal> {
    if sigs == [] then []
    else (if sigs[0].Candidate? then [sigs[0]] else []) + Trickled(sigs[1..])
  }

  lemma {:induction false} CountKindAppend(sigs: seq<Signal>, s: Signal, offer: bool)
    ensures CountKind(sigs + [s], offer) == CountKind(sigs, offer) + if IsKind(s, offer) then 1 else 0
    decreases sigs
  {
    if sigs == [] {
      assert [] + [s] == [s] && [s][1..] == [];
    } else {
      assert (sigs + [s])[1..] == sigs[1..] + [s];
      CountKindAppend(sigs[1..], s, offer);
    }
  }

  lemma {:induction false} SignalsAppend(ops: seq<Op>, op: Op)
    ensures Signals(ops + [op]) == Signals(ops) + SignalIn(op)
    decreases ops
  {
    if ops == [] {
      assert [] + [op] == [op] && [op][1..] == [];
      assert [] + SignalIn(op) == SignalIn(op) == SignalIn(op) + [];
    } else {
      SignalsAppend(ops[1..], op);
      assert (ops + [op])[1..] == ops[1..] + [op];
      Regroup(SignalIn(ops[0]), Signals(ops[1..]), SignalIn(op));
    }
  }

  /** Counting operations and collecting candidates only looks at their signals. */
  lemma {:induction false} OnlySignals(ops: seq<Op>)
    ensures CountOps(ops, true) == CountKind(Signals(ops), true)
    ensures CountOps(ops, false) == CountKind(Signals(ops), false)
    ensures Candidates(ops) == Trickled(Signals(ops))
  {
    if ops != [] {
      OnlySignals(ops[1..]);
      if ops[0].Handle? {
        assert Signals(ops)[1..] == Signals(ops[1..]);
      } else {
        assert Signals(ops) == [] + Signals(ops[1..]) == Signals(ops[1..]);
      }
    }
  }

  /** The step goes well: promises are fulfilled, the socket takes what is sent,
      and the participant stays. */
  predicate Good(e: Event) {
    match e
    case Resume(o) => o.Fulfilled? && o.sent
    case Shut => false
    case Enqueue(op) => op.Handle?
    case _ => true
  }

  /** Everything taken was given, everything sent was recorded, every offer asked
      for and every answer owed is sent or still to come. */
  ghost predicate Ledger(l: Lane) {
    l.past.begun + l.pending == l.past.enqueued
    && l.past.offersTaken == CountOps(l.past.begun, true) && l.past.answersTaken == CountOps(l.past.begun, false)
    && l.past.offersSent == CountKind(l.past.sent, true) && l.past.answersSent == CountKind(l.past.sent, false)
    && l.past.offersSent + OffersAhead(l) == CountMakes(l.past.enqueued)
    && l.past.answersSent + AnswersAhead(l) == l.past.offersTaken
  }

  predicate SettingDescription(l: Lane) { l.running.Some? && l.running.value.SettingRemote? }

  /** The connection reflects the exchange. */
  predicate Described(l: Lane) {
    (l.past.offersTaken + l.past.answersTaken > 0 && !SettingDescription(l) ==> PeerOf(l).remoteSet)
    && (l.past.answersTaken == 1 && !Receiving(l, false) ==> PeerOf(l).state == Stable)
    && (l.past.offersTaken == 1 && AnswersAhead(l) == 0 ==> PeerOf(l).state == Stable)
  }

  ghost predicate Sound(l: Lane) {
    !l.shut && Ledger(l) && Described(l) && IceInv(l) && AllApplied(l)
  }

  lemma SoundStart()
    ensures Sound(IDLE) && Sound(NEWCOMER)
  {
    assert NEWCOMER.pending == [MakeOffer] && NEWCOMER.past.enqueued == [MakeOffer] && [MakeOffer][1..] == [];
    IceStep(IDLE, Enqueue(MakeOffer));
  }

  lemma SoundKeeps(l: Lane, offerer: bool, e: Event)
    requires LaneInv(l, offerer) && Sound(l) && PeerLane.Enabled(l, e) && Due(l, offerer, e) && Good(e)
    ensures Sound(PeerLane.Next(l, e))
  {
    IceStep(l, e);
    AppliedStep(l, e);
    match e
    case Enqueue(op) => LedgerEnqueue(l, op);
    case Begin => LedgerBegin(l); DescribedBegin(l, offerer);
    case Resume(o) => ResumeSound(l, offerer, l.peer.value, o);
    case Trickle(c) => CountKindAppend(l.past.sent, c, true); CountKindAppend(l.past.sent, c, false);
  }

  lemma LedgerEnqueue(l: Lane, op: Op)
    requires Ledger(l) && op.Handle?
    ensures Ledger(PeerLane.Next(l, Enqueue(op)))
  {
    hide CountOps, CountMakes, CountKind;
    var z := PeerLane.Next(l, Enqueue(op));
    CountOpsAppend(l.past.enqueued, op);
    CountOpsAppend(l.pending, op);
    assert z.past == l.past.(enqueued := l.past.enqueued + [op]) && OffersAhead(z) == OffersAhead(l);
    assert l.past.begun + (l.pending + [op]) == (l.past.begun + l.pending) + [op];
  }

  lemma LedgerBegin(l: Lane)
    requires Ledger(l) && PeerLane.Enabled(l, Begin) && !l.shut
    ensures Ledger(PeerLane.Next(l, Begin))
  {
    var op, z := l.pending[0], PeerLane.Next(l, Begin);
    CountOpsAppend(l.past.begun, op);
    assert (l.past.begun + [op]) + l.pending[1..] == l.past.begun + l.pending;
    LaunchCounts(l.(pending := l.pending[1..], past := l.past.(begun := l.past.begun + [op])), op);
  }

  lemma LaunchCounts(l: Lane, op: Op)
    requires l.running.None?
    ensures var z := Launched(l, op);
      TakenN(z, true) == TakenN(l, true) + (if op.Handle? && IsKind(op.signal, true) then 1 else 0)
      && TakenN(z, false) == TakenN(l, false) + (if op.Handle? && IsKind(op.signal, false) then 1 else 0)
      && OffersAhead(z) == OffersAhead(l) + (if op.MakeOffer? then 1 else 0)
      && AnswersAhead(z) == AnswersAhead(l) + (if op.Handle? && IsKind(op.signal, true) then 1 else 0)
      && z.pending == l.pending && z.past.begun == l.past.begun && z.past.enqueued == l.past.enqueued
      && z.past.sent == l.past.sent
      && z.past.offersSent == l.past.offersSent && z.past.answersSent == l.past.answersSent
  {}

  lemma DescribedBegin(l: Lane, offerer: bool)
    requires LaneInv(l, offerer) && Described(l) && PeerLane.Enabled(l, Begin) && Due(l, offerer, Begin) && !l.shut
    ensures Described(PeerLane.Next(l, Begin))
  {}

  lemma ResumeSound(l: Lane, offerer: bool, p: Peer, o: Outcome)
    requires LaneInv(l, offerer) && Ledger(l) && Described(l) && !l.shut
    requires l.running.Some? && l.peer == Some(p) && o.Fulfilled? && o.sent
    ensures Ledger(Progress(l, p, o)) && Described(Progress(l, p, o))
  {
    NotRefused(l, offerer, p);
    LedgerResume(l, p, o);
    DescribedResume(l, offerer, p, o);
  }

  lemma NotRefused(l: Lane, offerer: bool, p: Peer)
    requires LaneInv(l, offerer) && !l.shut && l.running.Some? && l.peer == Some(p)
    ensures !Refused(l.running.value, p)
  {}

  lemma LedgerResume(l: Lane, p: Peer, o: Outcome)
    requires Ledger(l) && l.running.Some? && l.peer == Some(p) && o.Fulfilled? && o.sent && !Refused(l.running.value, p)
    requires SettingDescription(l) ==> Receiving(l, true) || Receiving(l, false)
    ensures Ledger(Progress(l, p, o))
  {
    var r, z := l.running.value, Progress(l, p, o);
    PastCommutes(l.past, r, o, l.past.enqueued);
    if r.SettingLocalOffer? {
      CountKindAppend(l.past.sent, Offer(o.sdp), true);
      CountKindAppend(l.past.sent, Offer(o.sdp), false);
    } else if r.SettingLocalAnswer? {
      CountKindAppend(l.past.sent, Answer(o.sdp), true);
      CountKindAppend(l.past.sent, Answer(o.sdp), false);
    } else {
      assert z.past == l.past.(fates := z.past.fates);
    }
  }

  lemma DescribedResume(l: Lane, offerer: bool, p: Peer, o: Outcome)
    requires LaneInv(l, offerer) && Described(l) && !l.shut
    requires l.running.Some? && l.peer == Some(p) && o.Fulfilled? && o.sent && !Refused(l.running.value, p)
    ensures Described(Progress(l, p, o))
  {}

  /** The candidates found along a run. */
  function Found(run: seq<Event>): seq<Signal> {
    if run == [] then [] else (if run[0].Trickle? then [run[0].candidate] else []) + Found(run[1..])
  }

  lemma {:induction false} TrickledAppend(sigs: seq<Signal>, s: Signal)
    ensures Trickled(sigs + [s]) == Trickled(sigs) + if s.Candidate? then [s] else []
    decreases sigs
  {
    if sigs == [] {
      assert [] + [s] == [s] && [s][1..] == [];
    } else {
      var first, more := if sigs[0].Candidate? then [sigs[0]] else [], if s.Candidate? then [s] else [];
      assert (sigs + [s])[1..] == sigs[1..] + [s] && (sigs + [s])[0] == sigs[0];
      TrickledAppend(sigs[1..], s);
      assert Trickled(sigs + [s]) == first + Trickled(sigs[1..] + [s]);
      Regroup(first, Trickled(sigs[1..]), more);
    }
  }

  /** Among what a lane sends the candidates are those found, all of them, once each
      and in the order in which they were found. */
  lemma {:induction false} CandidatesFoundAreSent(l: Lane, run: seq<Event>)
    requires PeerLane.IsRun(l, run)
    ensures Trickled(PeerLane.Final(l, run).past.sent) == Trickled(l.past.sent) + Found(run)
    decreases run
  {
    if run != [] {
      hide PeerLane.Sent, PeerLane.Next;
      var l1 := PeerLane.Next(l, run[0]);
      CandidatesFoundAreSent(l1, run[1..]);
      SendsWhatIsLocal(l, run[0]);
      if PeerLane.Sent(l, run[0]).Some? {
        TrickledAppend(l.past.sent, PeerLane.Sent(l, run[0]).value);
      } else {
        assert l.past.sent + [] == l.past.sent;
      }
      Regroup(Trickled(l.past.sent), if run[0].Trickle? then [run[0].candidate] else [], Found(run[1..]));
      assert Trickled(l.past.sent) + [] == Trickled(l.past.sent);
    }
  }

  /** The offer/answer exchange is complete on this side. */
  predicate Established(l: Lane) {
    !l.shut && l.peer.Some? && l.peer.value == Peer(Stable, true, [])
  }

  predicate Quiet(l: Lane) { l.pending == [] && l.running.None? }

  /** Once a sound lane has nothing left to do, it has sent the offer it was asked
      for and an answer for every offer it was given, and has applied every
      candidate it was given, in order. */
  lemma QuietLane(l: Lane, offerer: bool)
    requires LaneInv(l, offerer) && Sound(l) && Quiet(l)
    ensures CountKind(l.past.sent, true) == CountMakes(l.past.enqueued)
    ensures CountKind(l.past.sent, false) == CountKind(Signals(l.past.enqueued), true)
    ensures CountKind(Signals(l.past.enqueued), true) + CountKind(Signals(l.past.enqueued), false) > 0 ==>
      Established(l) && Settled(l.past.fates) == Trickled(Signals(l.past.enqueued))
  {
    assert l.past.begun == l.past.enqueued;
    OnlySignals(l.past.enqueued);
    if l.past.offersTaken + l.past.answersTaken > 0 {
      assert PeerOf(l).remoteSet;
      assert l.peer.Some?;
      assert InHand(l) + [] == Settled(l.past.fates);
    }
  }
}
