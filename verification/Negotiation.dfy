/** One lane seen from the offer/answer exchange: what its history and the
    state of its connection say about each other. */
module Negotiation {
  import opened JsMap
  import opened Protocol
  import opened PeerLane

  predicate IsKind(s: Signal, offer: bool) { if offer then s.Offer? else s.Answer? }

  function CountMakes(ops: seq<Op>): nat {
    if ops == [] then 0 else (if ops[0].MakeOffer? then 1 else 0) + CountMakes(ops[1..])
  }

  /** Descriptions waiting in the chain. */
  function CountOps(ops: seq<Op>, offer: bool): nat {
    if ops == [] then 0
    else (if ops[0].Handle? && IsKind(ops[0].signal, offer) then 1 else 0) + CountOps(ops[1..], offer)
  }

  lemma {:induction false} CountOpsAppend(ops: seq<Op>, op: Op)
    ensures CountMakes(ops + [op]) == CountMakes(ops) + if op.MakeOffer? then 1 else 0
    ensures CountOps(ops + [op], true) == CountOps(ops, true) + if op.Handle? && op.signal.Offer? then 1 else 0
    ensures CountOps(ops + [op], false) == CountOps(ops, false) + if op.Handle? && op.signal.Answer? then 1 else 0
    decreases ops
  {
    if ops == [] {
      assert [] + [op] == [op] && [op][1..] == [];
    } else {
      assert (ops + [op])[1..] == ops[1..] + [op];
      CountOpsAppend(ops[1..], op);
    }
  }

  function TakenN(l: Lane, offer: bool): nat { if offer then l.past.offersTaken else l.past.answersTaken }

  function SentN(l: Lane, offer: bool): nat { if offer then l.past.offersSent else l.past.answersSent }

  predicate MakingOffer(l: Lane) { l.running == Some(CreatingOffer) || l.running == Some(SettingLocalOffer) }

  /** Past setRemoteDescription(offer), before the answer is sent. */
  predicate PreparingAnswer(l: Lane) {
    match l.running
    case Some(Flushing(answering, _)) => answering
    case Some(Attaching(_)) => true
    case Some(CreatingAnswer) => true
    case Some(SettingLocalAnswer) => true
    case _ => false
  }

  predicate Receiving(l: Lane, offer: bool) {
    l.running.Some? && l.running.value.SettingRemote? && IsKind(l.running.value.description, offer)
  }

  /** Offers still to be made by this lane. */
  function OffersAhead(l: Lane): nat { CountMakes(l.pending) + if MakingOffer(l) then 1 else 0 }

  function AnswersAhead(l: Lane): nat { if PreparingAnswer(l) || Receiving(l, true) then 1 else 0 }

  predicate Counts(l: Lane, offerer: bool) {
    l.past.offersSent + OffersAhead(l) <= (if offerer then 1 else 0)
    && l.past.answersSent + AnswersAhead(l) <= l.past.offersTaken <= (if offerer then 0 else 1)
    && (if Receiving(l, false) then 1 else 0) <= l.past.answersTaken <= l.past.offersSent
    && (l.running.Some? && l.running.value.SettingRemote? ==> Receiving(l, true) || Receiving(l, false))
  }

  predicate StateFits(l: Lane, offerer: bool) {
    (l.past.offersSent == 1 ==> l.peer.Some?)
    && (OffersAhead(l) == 1 ==> PeerOf(l).state == Stable)
    && (!offerer && l.past.offersTaken == 0 ==> PeerOf(l).state == Stable)
    && (l.past.offersSent == 1 && l.past.answersTaken == 0 ==> PeerOf(l).state == HaveLocalOffer)
    && (Receiving(l, true) ==> PeerOf(l).state == Stable)
    && (Receiving(l, false) ==> PeerOf(l).state == HaveLocalOffer)
    && (PreparingAnswer(l) ==> PeerOf(l).state == HaveRemoteOffer)
    && (l.running.Some? ==> l.peer.Some?)
  }

  /** `offerer`: this side joined later than the lane's participant. */
  predicate LaneInv(l: Lane, offerer: bool) {
    Counts(l, offerer) && (!l.shut ==> StateFits(l, offerer)) && (l.shut ==> l.peer.None?)
  }

  /** A description may only start being handled if the other side's part of the
      exchange is due; the network supplies this fact. */
  predicate Due(l: Lane, offerer: bool, e: Event)
    requires PeerLane.Enabled(l, e)
  {
    e.Begin? && !l.shut && l.pending[0].Handle? ==>
      (l.pending[0].signal.Offer? ==> !offerer && l.past.offersTaken == 0)
      && (l.pending[0].signal.Answer? ==> offerer && l.past.offersSent == 1 && l.past.answersTaken == 0)
  }

  lemma LaneKeeps(l: Lane, offerer: bool, e: Event)
    requires LaneInv(l, offerer) && PeerLane.Enabled(l, e) && Due(l, offerer, e)
    requires e.Enqueue? ==> e.op.Handle?
    ensures LaneInv(PeerLane.Next(l, e), offerer)
  {
    match e
    case Enqueue(op) => CountOpsAppend(l.pending, op);
    case Begin => BeginKeeps(l, offerer);
    case Resume(o) => if l.peer.Some? && o.Fulfilled? && !l.shut { ProgressKeeps(l, offerer, l.peer.value, o); }
    case Trickle(c) =>
    case Shut =>
  }

  lemma BeginKeeps(l: Lane, offerer: bool)
    requires LaneInv(l, offerer) && PeerLane.Enabled(l, Begin) && Due(l, offerer, Begin)
    ensures LaneInv(PeerLane.Next(l, Begin), offerer)
  {}

  lemma ProgressKeeps(l: Lane, offerer: bool, p: Peer, o: Outcome)
    requires LaneInv(l, offerer) && l.running.Some? && l.peer == Some(p) && o.Fulfilled?
    ensures LaneInv(Progress(l, p, o), offerer)
  {}

  /** Every description call of a lane finds a signalling state that permits it:
      offers are only ever set in the stable state. */
  lemma CallsFit(l: Lane, offerer: bool, e: Event)
    requires LaneInv(l, offerer) && PeerLane.Enabled(l, e) && Due(l, offerer, e)
    requires CallOf(l, e).Some?
    ensures Transition(PeerOf(l).state, CallOf(l, e).value).Some?
    ensures CallOf(l, e).value.offer ==> PeerOf(l).state == Stable
  {}

  /** What a lane sends is what its counters record. */
  lemma SentCounted(l: Lane, e: Event, offer: bool)
    requires PeerLane.Enabled(l, e)
    ensures SentN(PeerLane.Next(l, e), offer)
      == SentN(l, offer) + if Sent(l, e).Some? && IsKind(Sent(l, e).value, offer) then 1 else 0
  {}

  /** Starting an operation moves a description from waiting to taken. */
  lemma TakenCounted(l: Lane, e: Event, offer: bool)
    requires PeerLane.Enabled(l, e) && !e.Enqueue?
    ensures TakenN(PeerLane.Next(l, e), offer) + CountOps(PeerLane.Next(l, e).pending, offer)
      <= TakenN(l, offer) + CountOps(l.pending, offer)
  {}
}
