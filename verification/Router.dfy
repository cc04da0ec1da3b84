/** The SFU's forwarding table: for every publisher's SSRC the subscribers in
    subscription order, each with its own rewriter. */
module Forwarding {
  import opened Rtp
  import Rewriter

  type Bytes = b: seq<Byte> | MIN_HEADER_SIZE <= |b| <= 1500 witness seq(12, _ => 0)
  // A WebRtcTransport*.
  type Transport = nat

  datatype Slot = Slot(subId: string, transport: Transport, rewriter: Rewriter.State)
  datatype Send = Send(transport: Transport, bytes: Bytes)
  function Forward(s: Slot, b: Bytes): Slot {
    s.(rewriter := Rewriter.Rewritten(s.rewriter, SequenceNumber(b), Timestamp(b)))
  }

  function SendOf(s: Slot, b: Bytes): Send {
    var r := Forward(s, b).rewriter;
    Send(s.transport, Rewriter.Stamp(b, r.lastOutSeq, r.lastOutTs))
  }

  function ForwardAll(slots: seq<Slot>, b: Bytes): (r: seq<Slot>)
    ensures |r| == |slots| && forall i :: 0 <= i < |slots| ==> r[i] == Forward(slots[i], b)
  {
    seq(|slots|, i requires 0 <= i < |slots| => Forward(slots[i], b))
  }

  function Sends(slots: seq<Slot>, b: Bytes): (r: seq<Send>)
    ensures |r| == |slots| && forall i :: 0 <= i < |slots| ==> r[i] == SendOf(slots[i], b)
  {
    seq(|slots|, i requires 0 <= i < |slots| => SendOf(slots[i], b))
  }

  /** `erase(remove_if(subId == id))`. */
  function Without(slots: seq<Slot>, subId: string): seq<Slot> {
    if slots == [] then []
    else (if slots[0].subId == subId then [] else [slots[0]]) + Without(slots[1..], subId)
  }

  lemma {:induction false} WithoutAppend(slots: seq<Slot>, s: Slot, subId: string)
    ensures Without(slots + [s], subId) == Without(slots, subId) + if s.subId == subId then [] else [s]
    decreases slots
  {
    if slots == [] {
      assert [] + [s] == [s] && [s][1..] == [];
    } else {
      assert (slots + [s])[1..] == slots[1..] + [s];
      WithoutAppend(slots[1..], s, subId);
    }
  }

  lemma WithoutNothing(subId: string)
    ensures Without([], subId) == []
  {}

  /** What every operation does to the entries of one SSRC. */
  datatype Op =
    | AddPublisher(ssrc: Word32)
    | RemovePublisher(ssrc: Word32)
    | Subscribe(ssrc: Word32, transport: Transport, subId: string)
    | Unsubscribe(subId: string)
    | Route(ssrc: Word32, packet: Bytes)

  function After(slots: seq<Slot>, ssrc: Word32, op: Op): seq<Slot> {
    match op
    case AddPublisher(_) => slots
    case RemovePublisher(s) => if s == ssrc then [] else slots
    case Subscribe(s, transport, subId) =>
      if s == ssrc then slots + [Slot(subId, transport, Rewriter.FRESH)] else slots
    case Unsubscribe(subId) => Without(slots, subId)
    case Route(s, packet) => if s == ssrc then ForwardAll(slots, packet) else slots
  }

  // ------------------------------------------------------------ the router

  datatype SubscriberEntry = SubscriberEntry(subId: string, transport: Transport, rewriter: Rewriter.RtpRewriter)

  ghost function SlotNow(e: SubscriberEntry): Slot
    reads e.rewriter
  {
    Slot(e.subId, e.transport, e.rewriter.Now())
  }

  ghost function View(es: seq<SubscriberEntry>): (r: seq<Slot>)
    reads set e | e in es :: e.rewriter
    ensures |r| == |es|
    ensures forall i :: 0 <= i < |es| ==> r[i] == SlotNow(es[i])
  {
    seq(|es|, i requires 0 <= i < |es| reads set e | e in es :: e.rewriter => SlotNow(es[i]))
  }

  ghost predicate Apart(es: seq<SubscriberEntry>) {
    forall i, j :: 0 <= i < j < |es| ==> es[i].rewriter != es[j].rewriter
  }

  class Router {
    var publishers: map<Word32, string>
    var routes: map<Word32, seq<SubscriberEntry>>
    // The SSRC each rewriter was made for.
    ghost var made: map<Rewriter.RtpRewriter, Word32>
    // Every call so far.
    ghost var history: seq<Op>

    /** No two entries share a rewriter. */
    ghost predicate Valid() reads this {
      TableOk(routes, made)
    }

    static ghost predicate TableOk(table: map<Word32, seq<SubscriberEntry>>, made: map<Rewriter.RtpRewriter, Word32>) {
      forall k :: k in table ==>
        Apart(table[k]) && forall e :: e in table[k] ==> e.rewriter in made && made[e.rewriter] == k
    }

    ghost function EntriesAt(k: Word32): seq<SubscriberEntry> reads this { if k in routes then routes[k] else [] }

    ghost function At(k: Word32): seq<Slot>
      reads this, set e | e in EntriesAt(k) :: e.rewriter
    {
      View(EntriesAt(k))
    }

    /** The table is what its history makes of it. */
    ghost predicate Follows()
      reads this, set k, e | k in routes && e in routes[k] :: e.rewriter
    {
      forall k :: At(k) == Run(history, k)
    }

    constructor ()
      ensures Valid() && Follows() && publishers == map[] && history == []
    {
      publishers, routes, made, history := map[], map[], map[], [];
    }

    /** Every operation was one more step of the history. */
    twostate lemma OneMore(op: Op)
      requires old(Follows()) && history == old(history) + [op]
      requires forall k :: At(k) == After(old(At(k)), k, op)
      ensures Follows()
    {
      forall k ensures At(k) == Run(history, k) { RunAppend(old(history), op, k); }
    }

    method AddPublisher(ssrc: Word32, transportId: string)
      requires Valid() && Follows()
      modifies `publishers, `history
      ensures Valid() && Follows() && history == old(history) + [Op.AddPublisher(ssrc)]
      ensures publishers == old(publishers)[ssrc := transportId]
      ensures forall k :: At(k) == After(old(At(k)), k, Op.AddPublisher(ssrc))
    {
      publishers := publishers[ssrc := transportId];
      history := history + [Op.AddPublisher(ssrc)];
      OneMore(Op.AddPublisher(ssrc));
    }

    method RemovePublisher(ssrc: Word32)
      requires Valid() && Follows()
      modifies `publishers, `routes, `history
      ensures Valid() && Follows() && history == old(history) + [Op.RemovePublisher(ssrc)]
      ensures publishers == old(publishers) - {ssrc}
      ensures forall k :: At(k) == After(old(At(k)), k, Op.RemovePublisher(ssrc))
    {
      publishers := publishers - {ssrc};
      routes := routes - {ssrc};
      history := history + [Op.RemovePublisher(ssrc)];
      OneMore(Op.RemovePublisher(ssrc));
    }

    method AddSubscription(ssrc: Word32, transport: Transport, subId: string)
      requires Valid() && Follows()
      modifies `routes, `made, `history
      ensures Valid() && Follows() && history == old(history) + [Subscribe(ssrc, transport, subId)]
      ensures forall k :: At(k) == After(old(At(k)), k, Subscribe(ssrc, transport, subId))
    {
      PushEntry(ssrc, transport, subId);
      history := history + [Subscribe(ssrc, transport, subId)];
      OneMore(Subscribe(ssrc, transport, subId));
    }

    /** `routes_[ssrc].push_back(entry)`. */
    method PushEntry(ssrc: Word32, transport: Transport, subId: string)
      requires Valid()
      modifies `routes, `made
      ensures Valid()
      ensures forall k :: At(k) == After(old(At(k)), k, Subscribe(ssrc, transport, subId))
    {
      var r := new Rewriter.RtpRewriter();
      var entry := SubscriberEntry(subId, transport, r);
      var es := if ssrc in routes then routes[ssrc] else [];
      TableGrows(routes, made, ssrc, es, entry);
      routes := routes[ssrc := es + [entry]];
      made := made[r := ssrc];
      forall k ensures At(k) == After(old(At(k)), k, Subscribe(ssrc, transport, subId)) {
        if k == ssrc {
          ViewAppend(es, entry);
        } else {
          assert EntriesAt(k) == old(EntriesAt(k));
        }
      }
    }

    static lemma TableGrows(table: map<Word32, seq<SubscriberEntry>>, made: map<Rewriter.RtpRewriter, Word32>,
                            ssrc: Word32, es: seq<SubscriberEntry>, entry: SubscriberEntry)
      requires TableOk(table, made) && entry.rewriter !in made && es == if ssrc in table then table[ssrc] else []
      ensures TableOk(table[ssrc := es + [entry]], made[entry.rewriter := ssrc])
    {}

    lemma ViewAppend(es: seq<SubscriberEntry>, e: SubscriberEntry)
      ensures View(es + [e]) == View(es) + [SlotNow(e)]
    {}

    /** `erase(remove_if(...))` on one vector. */
    method Erase(subs: seq<SubscriberEntry>, subId: string) returns (kept: seq<SubscriberEntry>)
      requires Apart(subs)
      ensures View(kept) == Without(View(subs), subId)
      ensures Apart(kept) && forall e :: e in kept ==> e in subs
    {
      kept := [];
      ghost var slots := View(subs);
      for i := 0 to |subs|
        invariant View(kept) == Without(slots[..i], subId)
        invariant forall e :: e in kept ==> e in subs[..i]
        invariant Apart(kept)
      {
        assert slots[..i + 1] == slots[..i] + [slots[i]] && subs[..i + 1] == subs[..i] + [subs[i]];
        WithoutAppend(slots[..i], slots[i], subId);
        if subs[i].subId != subId {
          forall e | e in kept ensures e.rewriter != subs[i].rewriter {
            var j :| 0 <= j < i && subs[j] == e;
          }
          kept := kept + [subs[i]];
        }
      }
      assert slots[..|subs|] == slots && subs[..|subs|] == subs;
    }

    /** The loop over all of `routes_`. */
    method EraseEverywhere(subId: string) returns (table: map<Word32, seq<SubscriberEntry>>)
      requires Valid()
      ensures table.Keys == routes.Keys
      ensures forall k :: k in routes ==> ErasedFrom(routes[k], table[k], subId)
    {
      table := routes;
      var todo := routes.Keys;
      while todo != {}
        invariant todo <= table.Keys == routes.Keys
        invariant forall k :: k in routes && k !in todo ==> ErasedFrom(routes[k], table[k], subId)
      {
        var k :| k in todo;
        var kept := Erase(routes[k], subId);
        table := table[k := kept];
        todo := todo - {k};
      }
    }

    static ghost predicate ErasedFrom(subs: seq<SubscriberEntry>, kept: seq<SubscriberEntry>, subId: string)
      reads set e | e in subs + kept :: e.rewriter
    {
      View(kept) == Without(View(subs), subId) && Apart(kept) && forall e :: e in kept ==> e in subs
    }

    method RemoveSubscription(subId: string)
      requires Valid() && Follows()
      modifies `routes, `history
      ensures Valid() && Follows() && history == old(history) + [Unsubscribe(subId)]
      ensures forall k :: At(k) == After(old(At(k)), k, Unsubscribe(subId))
    {
      EraseSubscriber(subId);
      history := history + [Unsubscribe(subId)];
      OneMore(Unsubscribe(subId));
    }

    method EraseSubscriber(subId: string)
      requires Valid()
      modifies `routes
      ensures Valid()
      ensures forall k :: At(k) == After(old(At(k)), k, Unsubscribe(subId))
    {
      hide Without, SlotNow, Apart;
      var table := EraseEverywhere(subId);
      ErasedTable(routes, table, made, subId);
      forall k | k in routes ensures View(table[k]) == Without(View(routes[k]), subId) {
        ErasedView(routes[k], table[k], subId);
      }
      WithoutNothing(subId);
      routes := table;
    }

    static lemma ErasedTable(table: map<Word32, seq<SubscriberEntry>>, kept: map<Word32, seq<SubscriberEntry>>,
                      made: map<Rewriter.RtpRewriter, Word32>, subId: string)
      requires TableOk(table, made) && kept.Keys == table.Keys
      requires forall k :: k in table ==> ErasedFrom(table[k], kept[k], subId)
      ensures TableOk(kept, made)
    {}

    static lemma ErasedView(subs: seq<SubscriberEntry>, kept: seq<SubscriberEntry>, subId: string)
      requires ErasedFrom(subs, kept, subId)
      ensures View(kept) == Without(View(subs), subId)
    {}

    /** A copy of the packet is rewritten for one entry and handed to its transport. */
    method ForwardOne(e: SubscriberEntry, data: array<Byte>, len: nat) returns (s: Send)
      requires MIN_HEADER_SIZE <= len <= 1500 && len <= data.Length
      modifies e.rewriter
      ensures data[..] == old(data[..])
      ensures var slot := old(SlotNow(e));
        s == SendOf(slot, old(data[..len])) && SlotNow(e) == Forward(slot, old(data[..len]))
    {
      var buf := new Byte[1500](_ => 0);
      for k := 0 to len
        invariant buf[..k] == data[..k]
        modifies buf
      {
        buf[k] := data[k];
      }
      var pkt := new RtpPacket(buf, len);
      assert pkt.Bytes() == old(data[..len]);
      e.rewriter.Rewrite(pkt);
      s := Send(e.transport, buf[..len]);
    }

    /** The loop over `it->second`. */
    method ServeAll(subs: seq<SubscriberEntry>, data: array<Byte>, len: nat) returns (sent: seq<Send>)
      requires Apart(subs) && MIN_HEADER_SIZE <= len <= 1500 && len <= data.Length
      modifies set e | e in subs :: e.rewriter
      ensures data[..] == old(data[..])
      ensures sent == Sends(old(View(subs)), old(data[..len]))
      ensures View(subs) == ForwardAll(old(View(subs)), old(data[..len]))
    {
      hide SendOf, Forward;
      sent := [];
      ghost var b: Bytes := data[..len];
      ghost var slots := View(subs);
      ghost var expected, served := Sends(slots, b), ForwardAll(slots, b);
      for i := 0 to |subs|
        invariant data[..] == old(data[..])
        invariant sent == expected[..i]
        invariant forall j :: 0 <= j < |subs| ==> SlotNow(subs[j]) == if j < i then served[j] else slots[j]
      {
        assert subs[i] in subs;
        assert forall j :: 0 <= j < |subs| && j != i ==> subs[j].rewriter != subs[i].rewriter;
        var s := ForwardOne(subs[i], data, len);
        sent := sent + [s];
      }
    }

    /** One packet: every subscription to its SSRC that still stands is sent what
        a fresh rewriter would send, had it seen just the packets since. */
    method RoutePacket(ssrc: Word32, data: array<Byte>, len: nat) returns (sent: seq<Send>)
      requires Valid() && Follows() && MIN_HEADER_SIZE <= len <= 1500 && len <= data.Length
      modifies `history, set e | e in EntriesAt(ssrc) :: e.rewriter
      ensures Valid() && Follows() && history == old(history) + [Route(ssrc, old(data[..len]))]
      ensures data[..] == old(data[..])
      ensures sent == Replayed(Entitled(old(history), ssrc), old(data[..len]))
      ensures forall k :: At(k) == After(old(At(k)), k, Route(ssrc, old(data[..len])))
    {
      RouterRefinesReplay(history, ssrc, data[..len]);
      sent := RouteNow(ssrc, data, len);
      history := history + [Route(ssrc, old(data[..len]))];
      OneMore(Route(ssrc, old(data[..len])));
    }

    method RouteNow(ssrc: Word32, data: array<Byte>, len: nat) returns (sent: seq<Send>)
      requires Valid() && MIN_HEADER_SIZE <= len <= 1500 && len <= data.Length
      modifies set e | e in EntriesAt(ssrc) :: e.rewriter
      ensures Valid() && data[..] == old(data[..])
      ensures sent == Sends(old(At(ssrc)), old(data[..len]))
      ensures forall k :: At(k) == After(old(At(k)), k, Route(ssrc, old(data[..len])))
    {
      sent := [];
      if ssrc !in routes { return; }
      sent := ServeAll(routes[ssrc], data, len);
      forall k | k != ssrc ensures At(k) == old(At(k)) {
        assert forall e :: e in EntriesAt(k) ==> e.rewriter !in set f | f in EntriesAt(ssrc) :: f.rewriter;
      }
    }
  }

  // --------------------------------------------------- whole histories

  function Run(ops: seq<Op>, ssrc: Word32): seq<Slot> {
    if ops == [] then [] else After(Run(ops[..|ops| - 1], ssrc), ssrc, ops[|ops| - 1])
  }

  lemma RunAppend(ops: seq<Op>, op: Op, ssrc: Word32)
    ensures Run(ops + [op], ssrc) == After(Run(ops, ssrc), ssrc, op)
  {
    assert (ops + [op])[..|ops|] == ops;
  }

  /** What a history says about one subscription: who it is for, and the packets
      routed to its SSRC since. */
  datatype Entitlement = Entitlement(subId: string, transport: Transport, packets: seq<Bytes>)

  function PacketsFor(ops: seq<Op>, ssrc: Word32): seq<Bytes> {
    if ops == [] then []
    else (if ops[0].Route? && ops[0].ssrc == ssrc then [ops[0].packet] else []) + PacketsFor(ops[1..], ssrc)
  }

  predicate Ends(op: Op, ssrc: Word32, subId: string) { op == Unsubscribe(subId) || op == RemovePublisher(ssrc) }

  predicate Lasts(ops: seq<Op>, ssrc: Word32, subId: string) {
    forall k :: 0 <= k < |ops| ==> !Ends(ops[k], ssrc, subId)
  }

  /** The subscriptions to ssrc that no later operation ends, in order. */
  function Entitled(ops: seq<Op>, ssrc: Word32): seq<Entitlement> {
    if ops == [] then []
    else
      var rest := ops[1..];
      (if ops[0].Subscribe? && ops[0].ssrc == ssrc && Lasts(rest, ssrc, ops[0].subId)
       then [Entitlement(ops[0].subId, ops[0].transport, PacketsFor(rest, ssrc))] else [])
      + Entitled(rest, ssrc)
  }

  /** A fresh rewriter after these packets. */
  function Replay(packets: seq<Bytes>): Rewriter.State {
    if packets == [] then Rewriter.FRESH
    else
      var p := packets[|packets| - 1];
      Rewriter.Rewritten(Replay(packets[..|packets| - 1]), SequenceNumber(p), Timestamp(p))
  }

  function SlotOf(e: Entitlement): Slot { Slot(e.subId, e.transport, Replay(e.packets)) }

  function SlotsOf(es: seq<Entitlement>): (r: seq<Slot>)
    ensures |r| == |es| && forall i :: 0 <= i < |es| ==> r[i] == SlotOf(es[i])
  {
    seq(|es|, i requires 0 <= i < |es| => SlotOf(es[i]))
  }

  lemma {:induction false} PacketsAppend(ops: seq<Op>, op: Op, ssrc: Word32)
    ensures PacketsFor(ops + [op], ssrc)
      == PacketsFor(ops, ssrc) + if op.Route? && op.ssrc == ssrc then [op.packet] else []
    decreases ops
  {
    if ops == [] {
      assert [] + [op] == [op] && [op][1..] == [];
    } else {
      assert (ops + [op])[1..] == ops[1..] + [op];
      PacketsAppend(ops[1..], op, ssrc);
    }
  }

  lemma LastsAppend(ops: seq<Op>, op: Op, ssrc: Word32, subId: string)
    ensures Lasts(ops + [op], ssrc, subId) <==> Lasts(ops, ssrc, subId) && !Ends(op, ssrc, subId)
  {
    assert (ops + [op])[|ops|] == op;
    forall k | 0 <= k < |ops| ensures (ops + [op])[k] == ops[k] {}
  }

  lemma ReplayAppend(packets: seq<Bytes>, p: Bytes)
    ensures Replay(packets + [p]) == Rewriter.Rewritten(Replay(packets), SequenceNumber(p), Timestamp(p))
  {
    assert (packets + [p])[..|packets|] == packets;
  }

  /** Appending an operation to a history acts on the entitlements as the router
      acts on its entries. */
  lemma {:induction false} EntitledAppend(ops: seq<Op>, op: Op, ssrc: Word32)
    ensures SlotsOf(Entitled(ops + [op], ssrc)) == After(SlotsOf(Entitled(ops, ssrc)), ssrc, op)
    decreases ops
  {
    if ops == [] {
      assert [] + [op] == [op] && [op][1..] == [];
      assert Entitled([op], ssrc)
        == (if op.Subscribe? && op.ssrc == ssrc then [Entitlement(op.subId, op.transport, [])] else []) + [];
    } else {
      var rest := ops[1..];
      assert (ops + [op])[1..] == rest + [op] && (ops + [op])[0] == ops[0];
      EntitledAppend(rest, op, ssrc);
      var tail, tail' := Entitled(rest, ssrc), Entitled(rest + [op], ssrc);
      if ops[0].Subscribe? && ops[0].ssrc == ssrc && Lasts(rest, ssrc, ops[0].subId) {
        var e := Entitlement(ops[0].subId, ops[0].transport, PacketsFor(rest, ssrc));
        assert Entitled(ops, ssrc) == [e] + tail;
        HeadActs(e, tail, tail', rest, op, ssrc);
      } else {
        if ops[0].Subscribe? && ops[0].ssrc == ssrc { LastsAppend(rest, op, ssrc, ops[0].subId); }
        assert Entitled(ops, ssrc) == [] + tail == tail;
        assert Entitled(ops + [op], ssrc) == [] + tail' == tail';
      }
    }
  }

  /** What an operation leaves of one entry. */
  function Survivor(x: Slot, ssrc: Word32, op: Op): seq<Slot> {
    match op
    case Unsubscribe(subId) => if x.subId == subId then [] else [x]
    case RemovePublisher(s) => if s == ssrc then [] else [x]
    case Route(s, p) => if s == ssrc then [Forward(x, p)] else [x]
    case _ => [x]
  }

  lemma ForwardAllCons(x: Slot, slots: seq<Slot>, p: Bytes)
    ensures ForwardAll([x] + slots, p) == [Forward(x, p)] + ForwardAll(slots, p)
  {
    var all, r := [x] + slots, [Forward(x, p)] + ForwardAll(slots, p);
    forall i | 0 <= i < |all| ensures ForwardAll(all, p)[i] == r[i] {
      assert ForwardAll(all, p)[i] == Forward(all[i], p);
    }
  }

  lemma AfterCons(x: Slot, slots: seq<Slot>, ssrc: Word32, op: Op)
    ensures After([x] + slots, ssrc, op) == Survivor(x, ssrc, op) + After(slots, ssrc, op)
  {
    var all := [x] + slots;
    match op
    case Route(s, p) => if s == ssrc { ForwardAllCons(x, slots, p); }
    case Subscribe(s, t, id) =>
      assert all + [Slot(id, t, Rewriter.FRESH)] == [x] + (slots + [Slot(id, t, Rewriter.FRESH)]);
    case Unsubscribe(id) => assert all[1..] == slots;
    case AddPublisher(s) =>
    case RemovePublisher(s) =>
  }

  lemma SlotsOfConcat(a: seq<Entitlement>, b: seq<Entitlement>)
    ensures SlotsOf(a + b) == SlotsOf(a) + SlotsOf(b)
  {
    var both, r := a + b, SlotsOf(a) + SlotsOf(b);
    forall i | 0 <= i < |both| ensures SlotsOf(both)[i] == r[i] {
      assert both[i] == if i < |a| then a[i] else b[i - |a|];
    }
  }

  lemma SlotsOfOne(e: Entitlement)
    ensures SlotsOf([e]) == [SlotOf(e)] && SlotsOf([]) == []
  {}

  lemma HeadActs(e: Entitlement, tail: seq<Entitlement>, tail': seq<Entitlement>, rest: seq<Op>, op: Op, ssrc: Word32)
    requires e.packets == PacketsFor(rest, ssrc) && Lasts(rest, ssrc, e.subId)
    requires SlotsOf(tail') == After(SlotsOf(tail), ssrc, op)
    ensures var head := if Lasts(rest + [op], ssrc, e.subId)
                        then [e.(packets := PacketsFor(rest + [op], ssrc))] else [];
      SlotsOf(head + tail') == After(SlotsOf([e] + tail), ssrc, op)
  {
    var head := if Lasts(rest + [op], ssrc, e.subId) then [e.(packets := PacketsFor(rest + [op], ssrc))] else [];
    calc {
      After(SlotsOf([e] + tail), ssrc, op);
      { SlotsOfConcat([e], tail); SlotsOfOne(e); }
      After([SlotOf(e)] + SlotsOf(tail), ssrc, op);
      { AfterCons(SlotOf(e), SlotsOf(tail), ssrc, op); }
      Survivor(SlotOf(e), ssrc, op) + SlotsOf(tail');
      { EntitlementActs(e, rest, op, ssrc); SlotsOfOne(e.(packets := PacketsFor(rest + [op], ssrc))); }
      SlotsOf(head) + SlotsOf(tail');
      { SlotsOfConcat(head, tail'); }
      SlotsOf(head + tail');
    }
  }

  lemma EntitlementActs(e: Entitlement, rest: seq<Op>, op: Op, ssrc: Word32)
    requires e.packets == PacketsFor(rest, ssrc) && Lasts(rest, ssrc, e.subId)
    ensures Survivor(SlotOf(e), ssrc, op) == if Lasts(rest + [op], ssrc, e.subId)
      then [SlotOf(e.(packets := PacketsFor(rest + [op], ssrc)))] else []
  {
    LastsAppend(rest, op, ssrc, e.subId);
    PacketsAppend(rest, op, ssrc);
    if op.Route? && op.ssrc == ssrc {
      ReplayAppend(e.packets, op.packet);
    } else {
      assert e.packets + [] == e.packets;
    }
  }

  /** What a subscription is owed when p is routed: p as a fresh rewriter stamps
      it after just the packets since the subscription. */
  function Owed(e: Entitlement, p: Bytes): Send {
    var r := Replay(e.packets + [p]);
    Send(e.transport, Rewriter.Stamp(p, r.lastOutSeq, r.lastOutTs))
  }

  function Replayed(es: seq<Entitlement>, p: Bytes): (r: seq<Send>)
    ensures |r| == |es| && forall i :: 0 <= i < |es| ==> r[i] == Owed(es[i], p)
  {
    seq(|es|, i requires 0 <= i < |es| => Owed(es[i], p))
  }

  /** After any history, the entries of an SSRC are exactly the subscriptions
      still standing, each with the rewriter a fresh one becomes on just the
      packets routed to the SSRC since that subscription; and a packet routed
      now is sent once to each, stamped as that replay would stamp it, only bytes
      2 to 7 differing. */
  lemma {:induction false} RouterRefinesReplay(ops: seq<Op>, ssrc: Word32, p: Bytes)
    ensures Run(ops, ssrc) == SlotsOf(Entitled(ops, ssrc))
    ensures Sends(Run(ops, ssrc), p) == Replayed(Entitled(ops, ssrc), p)
    ensures forall s :: s in Sends(Run(ops, ssrc), p) ==> SameExceptAt(p, s.bytes, 2, 8)
    decreases ops
  {
    if ops != [] {
      var n := |ops| - 1;
      RouterRefinesReplay(ops[..n], ssrc, p);
      EntitledAppend(ops[..n], ops[n], ssrc);
      assert ops[..n] + [ops[n]] == ops;
    }
    var es := Entitled(ops, ssrc);
    forall i | 0 <= i < |es| ensures SendOf(SlotOf(es[i]), p) == Owed(es[i], p) {
      ReplayAppend(es[i].packets, p);
    }
  }

  /** The publisher's packets follow each other without a gap. */
  predicate GaplessPackets(packets: seq<Bytes>) {
    forall i :: 0 < i < |packets| ==> SequenceNumber(packets[i]) == (SequenceNumber(packets[i - 1]) + 1) % Rewriter.M16
  }

  lemma {:induction false} GaplessReplay(packets: seq<Bytes>)
    requires GaplessPackets(packets)
    ensures Replay(packets).lastOutSeq == |packets| % Rewriter.M16
    ensures packets != [] ==> Aligned(Replay(packets), SequenceNumber(packets[|packets| - 1]))
    decreases packets
  {
    if packets != [] {
      var n := |packets| - 1;
      GaplessReplay(packets[..n]);
      NextInLine(Replay(packets[..n]), SequenceNumber(packets[n]), Timestamp(packets[n]), n);
    }
  }

  /** After any history, if the publisher's packets since a subscription have no
      gap up to p, routing p sends that subscriber the next of 1, 2, 3, ...,
      wrapped, wherever the publisher stood. */
  lemma SubscriberSeesGapless(ops: seq<Op>, ssrc: Word32, p: Bytes, i: nat)
    requires i < |Entitled(ops, ssrc)| && GaplessPackets(Entitled(ops, ssrc)[i].packets + [p])
    ensures var e, sent := Entitled(ops, ssrc)[i], Sends(Run(ops, ssrc), p);
      i < |sent| && sent[i].transport == e.transport
      && SequenceNumber(sent[i].bytes) == (|e.packets| + 1) % Rewriter.M16
  {
    RouterRefinesReplay(ops, ssrc, p);
    GaplessReplay(Entitled(ops, ssrc)[i].packets + [p]);
  }

  predicate Aligned(st: Rewriter.State, s: Word16) {
    st.initialized && st.lastInSeq == s && st.lastOutSeq == (s - st.seqOffset) % Rewriter.M16
  }

  lemma NextInLine(before: Rewriter.State, s: Word16, t: Word32, n: nat)
    requires before.lastOutSeq == n % Rewriter.M16
    requires before.initialized ==> Aligned(before, before.lastInSeq) && s == (before.lastInSeq + 1) % Rewriter.M16
    ensures var st := Rewriter.Rewritten(before, s, t); Aligned(st, s) && st.lastOutSeq == (n + 1) % Rewriter.M16
  {
    if before.initialized {
      NextMod(before.lastInSeq, before.seqOffset, s, n, Rewriter.M16);
    } else {
      Rewriter.PickUp(s, before.lastOutSeq + 1, Rewriter.M16);
      Rewriter.ModAdd(n, 1, Rewriter.M16);
    }
  }

  lemma NextMod(last: int, offset: int, s: int, n: int, m: int)
    requires m > 0 && (last - offset) % m == n % m && s == (last + 1) % m
    ensures (s - offset) % m == (n + 1) % m
  {
    Rewriter.ModAdd(last + 1, -offset, m);
    Rewriter.ModAdd(last - offset, 1, m);
    Rewriter.ModAdd(n, 1, m);
  }
}
