/** signaling.js: requests that wait for an answer, a timeout or the end of the
    connection. */
module Requests {
  import opened JsMap

  // crypto.randomUUID: only equality matters, so the k-th request is called k.
  type RequestId = nat

  datatype Verdict = Resolved | RejectedByServer | TimedOut | NotSent | ConnectionClosed
  /** One call of a promise's resolve or reject. */
  datatype Call = Call(id: RequestId, verdict: Verdict)

  /** `pending` are the keys of pendingRequests in insertion order, `timers` the
      requests whose timer is armed, `calls` every settling call made so far. */
  datatype State = State(open: bool, closed: bool, pending: seq<RequestId>, timers: set<RequestId>,
                         issued: nat, calls: seq<Call>)
  const INITIAL := State(false, false, [], {}, 0, [])

  datatype Event =
    | Opened
    | LostOpen
    | SendRequest
    | Message(requestId: Option<RequestId>, isError: bool)
    | TimerFires(id: RequestId)
    | CloseEvent

  predicate Enabled(s: State, e: Event) {
    match e
    case Opened => !s.closed
    case TimerFires(id) => id in s.timers
    case CloseEvent => !s.closed
    case _ => true
  }

  /** `Map.delete`. */
  function Remove(ids: seq<RequestId>, id: RequestId): seq<RequestId> {
    if ids == [] then [] else if ids[0] == id then ids[1..] else [ids[0]] + Remove(ids[1..], id)
  }

  function Settle(s: State, id: RequestId, v: Verdict): State {
    s.(pending := Remove(s.pending, id), timers := s.timers - {id}, calls := s.calls + [Call(id, v)])
  }

  function RejectAll(s: State): State
    decreases s.pending
  {
    if s.pending == [] then s
    else RejectAll(s.(pending := s.pending[1..], timers := s.timers - {s.pending[0]},
                      calls := s.calls + [Call(s.pending[0], ConnectionClosed)]))
  }

  function Next(s: State, e: Event): State {
    match e
    case Opened => s.(open := true)
    case LostOpen => s.(open := false)
    case SendRequest =>
      var s1 := s.(pending := s.pending + [s.issued], timers := s.timers + {s.issued}, issued := s.issued + 1);
      if s.open then s1 else Settle(s1, s.issued, NotSent)
    case Message(requestId, isError) =>
      if requestId.Some? && requestId.value in s.pending
      then Settle(s, requestId.value, if isError then RejectedByServer else Resolved) else s
    case TimerFires(id) => Settle(s, id, TimedOut)
    case CloseEvent => RejectAll(s).(open := false, closed := true)
  }

  class SignalingClient {
    var open: bool
    var closed: bool
    var pendingRequests: seq<RequestId>
    var timers: set<RequestId>
    var issued: nat
    var calls: seq<Call>

    function Now(): State reads this { State(open, closed, pendingRequests, timers, issued, calls) }

    constructor ()
      ensures Now() == INITIAL
    {
      open, closed, pendingRequests, timers, issued, calls := false, false, [], {}, 0, [];
    }

    method SettleRequest(id: RequestId, v: Verdict)
      modifies this
      ensures Now() == Settle(old(Now()), id, v)
    {
      timers := timers - {id};
      pendingRequests := Remove(pendingRequests, id);
      calls := calls + [Call(id, v)];
    }

    method Send() returns (id: RequestId)
      modifies this
      ensures Now() == Next(old(Now()), SendRequest) && id == old(issued)
    {
      id := issued;
      issued := issued + 1;
      timers := timers + {id};
      pendingRequests := pendingRequests + [id];
      if !open { SettleRequest(id, NotSent); }
    }

    method HandleMessage(requestId: Option<RequestId>, isError: bool)
      modifies this
      ensures Now() == Next(old(Now()), Message(requestId, isError))
    {
      if requestId.Some? && requestId.value in pendingRequests {
        SettleRequest(requestId.value, if isError then RejectedByServer else Resolved);
      }
    }

    method OnTimer(id: RequestId)
      requires id in timers
      modifies this
      ensures Now() == Next(old(Now()), TimerFires(id))
    {
      SettleRequest(id, TimedOut);
    }

    method OnClose()
      modifies this
      ensures Now() == Next(old(Now()), CloseEvent)
    {
      while pendingRequests != []
        invariant RejectAll(Now()) == RejectAll(old(Now()))
        invariant open == old(open) && closed == old(closed)
        decreases |pendingRequests|
      {
        timers := timers - {pendingRequests[0]};
        calls := calls + [Call(pendingRequests[0], ConnectionClosed)];
        pendingRequests := pendingRequests[1..];
      }
      open, closed := false, true;
    }
  }

  // ----------------------------------------------------------- exactly once

  function CallsOf(calls: seq<Call>, id: RequestId): nat {
    if calls == [] then 0 else (if calls[0].id == id then 1 else 0) + CallsOf(calls[1..], id)
  }

  function CountId(ids: seq<RequestId>, id: RequestId): nat {
    if ids == [] then 0 else (if ids[0] == id then 1 else 0) + CountId(ids[1..], id)
  }

  /** Every request issued is either pending once and unsettled, or settled once
      and not pending; timers are armed for exactly the pending ones. */
  ghost predicate Inv(s: State) {
    (forall id: RequestId :: CountId(s.pending, id) + CallsOf(s.calls, id) == if id < s.issued then 1 else 0)
    && (forall id: RequestId :: id in s.timers <==> CountId(s.pending, id) == 1)
    && (s.closed ==> !s.open && s.pending == [])
  }

  lemma {:induction false} CallsAppend(calls: seq<Call>, c: Call, id: RequestId)
    ensures CallsOf(calls + [c], id) == CallsOf(calls, id) + if c.id == id then 1 else 0
    decreases calls
  {
    if calls == [] {
      assert [] + [c] == [c] && [c][1..] == [];
    } else {
      assert (calls + [c])[1..] == calls[1..] + [c];
      CallsAppend(calls[1..], c, id);
    }
  }

  lemma {:induction false} CountAppend(ids: seq<RequestId>, x: RequestId, id: RequestId)
    ensures CountId(ids + [x], id) == CountId(ids, id) + if x == id then 1 else 0
    decreases ids
  {
    if ids == [] {
      assert [] + [x] == [x] && [x][1..] == [];
    } else {
      assert (ids + [x])[1..] == ids[1..] + [x];
      CountAppend(ids[1..], x, id);
    }
  }

  lemma {:induction false} CountRemove(ids: seq<RequestId>, x: RequestId, id: RequestId)
    ensures CountId(Remove(ids, x), id)
      == if x == id && CountId(ids, id) > 0 then CountId(ids, id) - 1 else CountId(ids, id)
    decreases ids
  {
    if ids != [] {
      CountRemove(ids[1..], x, id);
      if ids[0] != x { assert ([ids[0]] + Remove(ids[1..], x))[1..] == Remove(ids[1..], x); }
    }
  }

  lemma {:induction false} CountIn(ids: seq<RequestId>, id: RequestId)
    ensures id in ids <==> CountId(ids, id) > 0
    decreases ids
  {
    if ids != [] {
      assert ids == [ids[0]] + ids[1..];
      CountIn(ids[1..], id);
    }
  }

  lemma SettleKeeps(s: State, id: RequestId, v: Verdict)
    requires Inv(s) && CountId(s.pending, id) == 1
    ensures Inv(Settle(s, id, v)) && CountId(Settle(s, id, v).pending, id) == 0
  {
    var t := Settle(s, id, v);
    assert CountId(s.pending, id) + CallsOf(s.calls, id) == if id < s.issued then 1 else 0;
    forall k: RequestId ensures CountId(t.pending, k) == (if k == id then 0 else CountId(s.pending, k))
      && CallsOf(t.calls, k) == CallsOf(s.calls, k) + if k == id then 1 else 0
    {
      CountRemove(s.pending, id, k);
      CallsAppend(s.calls, Call(id, v), k);
    }
  }

  lemma {:induction false} RejectAllKeeps(s: State)
    requires Inv(s)
    ensures Inv(RejectAll(s)) && RejectAll(s).pending == []
    ensures RejectAll(s).issued == s.issued && RejectAll(s).closed == s.closed && RejectAll(s).open == s.open
    decreases s.pending
  {
    if s.pending != [] {
      var id := s.pending[0];
      assert CountId(s.pending, id) >= 1;
      assert CountId(s.pending, id) + CallsOf(s.calls, id) == if id < s.issued then 1 else 0;
      SettleKeeps(s, id, ConnectionClosed);
      assert Remove(s.pending, id) == s.pending[1..];
      RejectAllKeeps(Settle(s, id, ConnectionClosed));
    }
  }

  lemma StepKeeps(s: State, e: Event)
    requires Inv(s) && Enabled(s, e)
    ensures Inv(Next(s, e))
  {
    match e
    case SendRequest =>
      var s1 := s.(pending := s.pending + [s.issued], timers := s.timers + {s.issued}, issued := s.issued + 1);
      var sent := s1.(closed := false);
      assert CountId(s.pending, s.issued) + CallsOf(s.calls, s.issued) == 0;
      forall k: RequestId ensures CountId(s1.pending, k) == CountId(s.pending, k) + if k == s.issued then 1 else 0 {
        CountAppend(s.pending, s.issued, k);
      }
      assert Inv(sent);
      if !s.open {
        SettleKeeps(sent, s.issued, NotSent);
        AppendRemove(s.pending, s.issued);
      }
    case Message(requestId, isError) =>
      if requestId.Some? {
        CountIn(s.pending, requestId.value);
        if requestId.value in s.pending {
          assert CountId(s.pending, requestId.value) + CallsOf(s.calls, requestId.value) <= 1;
          SettleKeeps(s, requestId.value, if isError then RejectedByServer else Resolved);
        }
      }
    case TimerFires(id) => SettleKeeps(s, id, TimedOut);
    case CloseEvent => RejectAllKeeps(s);
    case Opened =>
    case LostOpen =>
  }

  lemma {:induction false} AppendRemove(ids: seq<RequestId>, x: RequestId)
    requires CountId(ids, x) == 0
    ensures Remove(ids + [x], x) == ids
    decreases ids
  {
    if ids == [] {
      assert [] + [x] == [x] && [x][1..] == [];
    } else {
      assert (ids + [x])[1..] == ids[1..] + [x];
      AppendRemove(ids[1..], x);
    }
  }

  predicate IsRun(s: State, run: seq<Event>)
    decreases run
  {
    run == [] || (Enabled(s, run[0]) && IsRun(Next(s, run[0]), run[1..]))
  }

  function Final(s: State, run: seq<Event>): State
    decreases run
  {
    if run == [] then s else Final(Next(s, run[0]), run[1..])
  }

  lemma {:induction false} RunKeeps(s: State, run: seq<Event>)
    requires Inv(s) && IsRun(s, run)
    ensures Inv(Final(s, run))
    decreases run
  {
    if run != [] {
      StepKeeps(s, run[0]);
      RunKeeps(Next(s, run[0]), run[1..]);
    }
  }

  lemma {:induction false} ClosedFollows(s: State, run: seq<Event>)
    requires Inv(s) && IsRun(s, run)
    ensures Final(s, run).closed <==> s.closed || CloseEvent in run
    decreases run
  {
    if run != [] {
      StepKeeps(s, run[0]);
      ClosedFollows(Next(s, run[0]), run[1..]);
      assert run == [run[0]] + run[1..];
      if run[0].CloseEvent? { RejectAllKeeps(s); }
    }
  }

  /** Along every run each request is settled at most once, timers are armed for
      exactly the unsettled requests, and once the close handler has run every
      request ever issued, before or after it, is settled exactly once. */
  lemma SettledExactlyOnce(run: seq<Event>, id: RequestId)
    requires IsRun(INITIAL, run)
    ensures var s := Final(INITIAL, run);
      CallsOf(s.calls, id) <= 1
      && (CallsOf(s.calls, id) == 1 ==> id < s.issued)
      && (id in s.timers <==> id in s.pending)
      && (id in s.pending <==> id < s.issued && CallsOf(s.calls, id) == 0)
      && (CloseEvent in run && id < s.issued ==> CallsOf(s.calls, id) == 1)
  {
    RunKeeps(INITIAL, run);
    ClosedFollows(INITIAL, run);
    var s := Final(INITIAL, run);
    CountIn(s.pending, id);
    assert CountId(s.pending, id) + CallsOf(s.calls, id) == if id < s.issued then 1 else 0;
  }

  // ------------------------------------------------------- for what reason

  function SendCount(run: seq<Event>): nat {
    if run == [] then 0 else SendCount(run[..|run| - 1]) + if run[|run| - 1].SendRequest? then 1 else 0
  }

  /** The last thing heard of the socket is that it is open. */
  predicate OpenAfter(run: seq<Event>) {
    run != [] &&
    match run[|run| - 1]
    case Opened => true
    case LostOpen => false
    case CloseEvent => false
    case _ => OpenAfter(run[..|run| - 1])
  }

  /** Request id was sent and nothing has settled it yet. */
  predicate Unsettled(run: seq<Event>, id: RequestId) {
    id < SendCount(run) && CallsOf(Final(INITIAL, run).calls, id) == 0
  }

  /** After `run`, event e is what settles request id with verdict v. */
  predicate Settles(run: seq<Event>, e: Event, id: RequestId, v: Verdict) {
    match v
    case Resolved => e == Message(Some(id), false) && Unsettled(run, id)
    case RejectedByServer => e == Message(Some(id), true) && Unsettled(run, id)
    case TimedOut => e == TimerFires(id) && Unsettled(run, id)
    case NotSent => e == SendRequest && SendCount(run) == id && !OpenAfter(run)
    case ConnectionClosed => e == CloseEvent && Unsettled(run, id)
  }

  lemma {:induction false} RunSnoc(s: State, run: seq<Event>, e: Event)
    requires IsRun(s, run + [e])
    ensures IsRun(s, run) && Enabled(Final(s, run), e) && Final(s, run + [e]) == Next(Final(s, run), e)
    decreases run
  {
    if run == [] {
      assert run + [e] == [e] && [e][1..] == [];
    } else {
      assert (run + [e])[1..] == run[1..] + [e];
      RunSnoc(Next(s, run[0]), run[1..], e);
    }
  }

  /** What the state knows of the requests and of the socket is what the events say. */
  lemma {:induction false} StateFollows(run: seq<Event>)
    requires IsRun(INITIAL, run)
    ensures Final(INITIAL, run).issued == SendCount(run) && Final(INITIAL, run).open == OpenAfter(run)
    ensures Inv(Final(INITIAL, run))
    decreases |run|
  {
    RunKeeps(INITIAL, run);
    if run != [] {
      var before, e := run[..|run| - 1], run[|run| - 1];
      assert before + [e] == run;
      RunSnoc(INITIAL, before, e);
      StateFollows(before);
      if e.CloseEvent? { RejectAllKeeps(Final(INITIAL, before)); }
    }
  }

  lemma {:induction false} RejectAllCalls(s: State, c: Call)
    ensures c in RejectAll(s).calls <==> c in s.calls || (c.id in s.pending && c.verdict == ConnectionClosed)
    decreases s.pending
  {
    if s.pending != [] {
      var id := s.pending[0];
      RejectAllCalls(s.(pending := s.pending[1..], timers := s.timers - {id},
                        calls := s.calls + [Call(id, ConnectionClosed)]), c);
      assert s.pending == [id] + s.pending[1..];
    }
  }

  /** An event settles a request for the one reason the events give. */
  lemma StepSettles(run: seq<Event>, e: Event, id: RequestId, v: Verdict)
    requires IsRun(INITIAL, run) && Enabled(Final(INITIAL, run), e)
    ensures Call(id, v) in Next(Final(INITIAL, run), e).calls
      <==> Call(id, v) in Final(INITIAL, run).calls || Settles(run, e, id, v)
  {
    var s := Final(INITIAL, run);
    StateFollows(run);
    CountIn(s.pending, id);
    assert CountId(s.pending, id) + CallsOf(s.calls, id) == if id < s.issued then 1 else 0;
    assert id in s.pending <==> Unsettled(run, id);
    assert id in s.timers <==> id in s.pending;
    if e.CloseEvent? { RejectAllCalls(s, Call(id, v)); }
  }

  /** Every request is settled for the right reason: it resolves if and only if an
      answer that is no error arrives while it is unsettled, the server rejects it
      if and only if an error does, it times out if and only if its timer fires
      first, it counts as not sent if and only if the socket is not open when it is
      sent, and the end of the connection rejects it if and only if it is unsettled
      then. */
  lemma {:induction false} SettledForReason(run: seq<Event>, id: RequestId, v: Verdict)
    requires IsRun(INITIAL, run)
    ensures Call(id, v) in Final(INITIAL, run).calls
      <==> exists k :: 0 <= k < |run| && Settles(run[..k], run[k], id, v)
    decreases |run|
  {
    if run != [] {
      var n := |run| - 1;
      var before, e := run[..n], run[n];
      assert before + [e] == run;
      RunSnoc(INITIAL, before, e);
      SettledForReason(before, id, v);
      StepSettles(before, e, id, v);
      forall k | 0 <= k < n ensures run[..k] == before[..k] && run[k] == before[k] {}
      if k :| 0 <= k < n && Settles(before[..k], before[k], id, v) {
        assert Settles(run[..k], run[k], id, v);
      }
      if k :| 0 <= k < |run| && Settles(run[..k], run[k], id, v) {
        if k < n { assert Settles(before[..k], before[k], id, v); }
      }
    }
  }
}
