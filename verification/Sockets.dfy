/** One connection over a whole run: whether it is open, and what the limiter lets
    through. */
module Sockets {
  import opened JsMap
  import opened Protocol
  import opened RateLimiter
  import opened SignalingServer
  import opened RoomNet
  import opened RoomStream
  import opened ServerAnswers
  import RoomTheorems

  /** The clock readings of the handlers of c's messages. */
  function Readings(run: seq<Step>, c: ConnId): seq<Reading> {
    if run == [] then []
    else (if run[0].Message? && run[0].c == c then [run[0].at] else []) + Readings(run[1..], c)
  }

  function BucketAfter(lim: Limits, b: Bucket, rs: seq<Reading>): Bucket
    decreases rs
  {
    if rs == [] then b else BucketAfter(lim, After(lim, b, rs[0]), rs[1..])
  }

  /** Handling a message touches no socket, charges its sender only, and sends nothing
      to a socket that is not open. */
  ghost predicate Handles(cfg: Config, s: State, t: State, c: ConnId, at: Reading) {
    t.conns.Keys == s.conns.Keys && c in s.conns
    && forall d :: d in s.conns ==>
      t.conns[d].open == s.conns[d].open && t.conns[d].gone == s.conns[d].gone
      && t.conns[d].bucket == (if d == c then After(cfg.limits, s.conns[c].bucket, at) else s.conns[d].bucket)
      && (!s.conns[d].open ==> t.conns[d].wire == s.conns[d].wire)
  }

  lemma GetsOnly(cfg: Config, s: State, t: State, c: ConnId, at: Reading, d: ConnId, sent: seq<ServerMsg>)
    requires c in s.conns && d in s.conns && Gets(cfg, s, t, c, at, d, sent)
    ensures t.conns[d].open == s.conns[d].open && t.conns[d].gone == s.conns[d].gone
    ensures t.conns[d].bucket == if d == c then After(cfg.limits, s.conns[c].bucket, at) else s.conns[d].bucket
    ensures !s.conns[d].open ==> t.conns[d].wire == s.conns[d].wire
  {}

  /** Each of the server's answers does. */
  lemma AnswerHandles(cfg: Config, s: State, t: State, c: ConnId, at: Reading)
    requires c in s.conns && t.conns.Keys == s.conns.Keys
    requires forall d :: d in s.conns ==> exists sent :: Gets(cfg, s, t, c, at, d, sent)
    ensures Handles(cfg, s, t, c, at)
  {
    forall d | d in s.conns
      ensures t.conns[d].open == s.conns[d].open && t.conns[d].gone == s.conns[d].gone
      ensures t.conns[d].bucket == if d == c then After(cfg.limits, s.conns[c].bucket, at) else s.conns[d].bucket
      ensures !s.conns[d].open ==> t.conns[d].wire == s.conns[d].wire
    {
      var sent :| Gets(cfg, s, t, c, at, d, sent);
      GetsOnly(cfg, s, t, c, at, d, sent);
    }
  }

  lemma JoinHandles(cfg: Config, s: State, c: ConnId, f: Frame, at: Reading)
    requires cfg.Valid() && Registry(s, cfg) && c in s.conns && !s.conns[c].gone
    requires Refusal(cfg, s, c, f, at).None? && f.Request? && f.body.JoinRoom?
    ensures Handles(cfg, s, OnMessage(s, cfg, c, f, at), c, at)
  {
    hide Registry, Refusal, OnMessage, Stripped, Gets;
    var name := JoinSeatsNewcomer(cfg, s, c, f, at);
    var t := OnMessage(s, cfg, c, f, at);
    var t1 := t.(conns := t.conns[c := t.conns[c].(me := None, since := s.conns[c].since)]);
    forall d | d in s.conns && d != c ensures exists sent :: Gets(cfg, s, t1, c, at, d, sent) {
      var sent :| Gets(cfg, s, t, c, at, d, sent);
      SameGets(cfg, s, t, t1, c, at, d, sent);
    }
    AnswerHandles(cfg, s, t1, c, at);
  }

  lemma SameGets(cfg: Config, s: State, t: State, t1: State, c: ConnId, at: Reading, d: ConnId, sent: seq<ServerMsg>)
    requires c in s.conns && d in s.conns && Gets(cfg, s, t, c, at, d, sent) && d in t1.conns
    requires t1.conns[d] == t.conns[d]
    ensures Gets(cfg, s, t1, c, at, d, sent)
  {}

  lemma MessageHandles(cfg: Config, s: State, c: ConnId, f: Frame, at: Reading)
    requires cfg.Valid() && Registry(s, cfg) && c in s.conns && !s.conns[c].gone
    ensures Handles(cfg, s, OnMessage(s, cfg, c, f, at), c, at)
  {
    hide Registry, Refusal, OnMessage, Stripped, Gets, Handles;
    var t := OnMessage(s, cfg, c, f, at);
    if Refusal(cfg, s, c, f, at).Some? {
      RefusalIsAllThatHappens(cfg, s, c, f, at);
      AnswerHandles(cfg, s, t, c, at);
    } else {
      Unrefused(cfg, s, c, f, at);
      if f.body.JoinRoom? {
        JoinHandles(cfg, s, c, f, at);
      } else {
        if f.body.SignalTo? { SignalReachesFellow(cfg, s, c, f, at); }
        else if f.body.ChatSend? { var said := ChatIsHeard(cfg, s, c, f, at); }
        else { PlainAnswers(cfg, s, c, f, at); }
        AnswerHandles(cfg, s, t, c, at);
      }
    }
  }

  /** Garbage and unknown types are always refused. */
  lemma Unrefused(cfg: Config, s: State, c: ConnId, f: Frame, at: Reading)
    requires c in s.conns && Refusal(cfg, s, c, f, at).None?
    ensures InTime(cfg, s.conns[c], at) && f.Request? && !f.body.UnknownType?
  {}

  /** What a step makes of c's connection. */
  ghost predicate Follows(cfg: Config, n: Net, n': Net, e: Step, c: ConnId)
    requires c in n.server.conns
  {
    c in n'.server.conns
    && var k, k' := n.server.conns[c], n'.server.conns[c];
      k'.open == (k.open && e != LoseOpen(c) && e != Close(c))
      && k'.gone == (k.gone || e == Close(c))
      && k'.bucket == (if e.Message? && e.c == c then After(cfg.limits, k.bucket, e.at) else k.bucket)
      && (!k.open ==> Stream(n', c) == Stream(n, c))
  }

  lemma StepFollows(cfg: Config, n: Net, e: Step, c: ConnId)
    requires cfg.Valid() && Inv(cfg, n) && Enabled(n, e) && c in n.server.conns
    ensures Follows(cfg, n, Next(cfg, n, e), e, c)
  {
    hide OnMessage, OnClose, Synced, After, Registry;
    match e
    case Message(d, f, at) => MessageHandles(cfg, n.server, d, f, at);
    case Close(d) => CloseFollows(cfg, n, d, c);
    case Deliver(d) => DeliverFollows(cfg, n, d, c);
    case _ =>
  }

  lemma CloseFollows(cfg: Config, n: Net, d: ConnId, c: ConnId)
    requires Inv(cfg, n) && Enabled(n, Close(d)) && c in n.server.conns
    ensures Follows(cfg, n, Next(cfg, n, Close(d)), Close(d), c)
  {
    hide Synced, Registry, OnClose;
    var s := n.server;
    if s.conns[d].me.Some? {
      assert Joined(s, d);
      CloseEffect(s, cfg, d, s.conns[d].me.value);
    } else {
      PlainClose(s, d);
    }
  }

  /** Somebody who never joined just goes. */
  lemma PlainClose(s: State, d: ConnId)
    requires d in s.conns && s.conns[d].me.None?
    ensures OnClose(s, d) == Some(s.(conns := s.conns[d := s.conns[d].(open := false, gone := true)]))
  {}

  lemma DeliverFollows(cfg: Config, n: Net, d: ConnId, c: ConnId)
    requires Enabled(n, Deliver(d)) && c in n.server.conns
    ensures Follows(cfg, n, Next(cfg, n, Deliver(d)), Deliver(d), c)
  {
    var wire := n.server.conns[d].wire;
    assert (ReadBy(n, d) + [wire[0]]) + wire[1..] == ReadBy(n, d) + wire;
  }

  lemma {:induction false} ConnectionFollows(cfg: Config, n: Net, run: seq<Step>, c: ConnId)
    requires cfg.Valid() && Inv(cfg, n) && IsRun(cfg, n, run) && c in n.server.conns
    ensures c in Final(cfg, n, run).server.conns
    ensures var k, k' := n.server.conns[c], Final(cfg, n, run).server.conns[c];
      (k'.open <==> k.open && LoseOpen(c) !in run && Close(c) !in run)
      && (k'.gone <==> k.gone || Close(c) in run)
      && k'.bucket == BucketAfter(cfg.limits, k.bucket, Readings(run, c))
    decreases run
  {
    hide Inv, Enabled, Next, After, Follows;
    if run != [] {
      StepFollows(cfg, n, run[0], c);
      Followed(cfg, n, Next(cfg, n, run[0]), run[0], c);
      StepKeeps(cfg, n, run[0]);
      ConnectionFollows(cfg, Next(cfg, n, run[0]), run[1..], c);
      assert run == [run[0]] + run[1..];
      var rest := Readings(run[1..], c);
      if run[0].Message? && run[0].c == c {
        assert ([run[0].at] + rest)[1..] == rest;
      } else {
        assert [] + rest == rest;
      }
    }
  }

  lemma Followed(cfg: Config, n: Net, n': Net, e: Step, c: ConnId)
    requires c in n.server.conns && Follows(cfg, n, n', e, c)
    ensures c in n'.server.conns
    ensures var k, k' := n.server.conns[c], n'.server.conns[c];
      k'.open == (k.open && e != LoseOpen(c) && e != Close(c))
      && k'.gone == (k.gone || e == Close(c))
      && k'.bucket == (if e.Message? && e.c == c then After(cfg.limits, k.bucket, e.at) else k.bucket)
      && (!k.open ==> Stream(n', c) == Stream(n, c))
  {}

  /** The run `before`, after which c's socket opened at time t0. */
  ghost predicate Before(cfg: Config, before: seq<Step>, c: ConnId, t0: int) {
    cfg.Valid() && IsRun(cfg, START, before) && Enabled(Final(cfg, START, before), Open(c, t0))
  }

  function Opened(cfg: Config, before: seq<Step>, c: ConnId, t0: int): Net
    requires Before(cfg, before, c, t0)
  {
    Next(cfg, Final(cfg, START, before), Open(c, t0))
  }

  lemma OpenedFresh(cfg: Config, before: seq<Step>, c: ConnId, t0: int)
    requires Before(cfg, before, c, t0)
    ensures var n := Opened(cfg, before, c, t0);
      Inv(cfg, n) && c in n.server.conns && n.server.conns[c].open && !n.server.conns[c].gone
      && n.server.conns[c].bucket == Bucket(cfg.limits.tokens, t0)
  {
    hide Inv;
    RoomTheorems.Reached(cfg, before);
    StepKeeps(cfg, Final(cfg, START, before), Open(c, t0));
  }

  /** However the others behave: a socket is open from its connection event until it is
      lost or closed, its close event is handled once it has come, and the limiter's
      record is that of a limiter which started full and has seen exactly this
      connection's messages. */
  lemma ConnectionStory(cfg: Config, before: seq<Step>, c: ConnId, t0: int, run: seq<Step>)
    requires Before(cfg, before, c, t0) && IsRun(cfg, Opened(cfg, before, c, t0), run)
    ensures var s := Final(cfg, Opened(cfg, before, c, t0), run).server;
      c in s.conns
      && (s.conns[c].open <==> LoseOpen(c) !in run && Close(c) !in run)
      && (s.conns[c].gone <==> Close(c) in run)
      && s.conns[c].bucket == BucketAfter(cfg.limits, Bucket(cfg.limits.tokens, t0), Readings(run, c))
  {
    OpenedFresh(cfg, before, c, t0);
    ConnectionFollows(cfg, Opened(cfg, before, c, t0), run, c);
  }

  /** A client whose socket is no longer open is never sent anything again. */
  lemma {:induction false} NothingAfterLoss(cfg: Config, n: Net, run: seq<Step>, c: ConnId)
    requires cfg.Valid() && Inv(cfg, n) && IsRun(cfg, n, run) && c in n.server.conns && !n.server.conns[c].open
    ensures Stream(Final(cfg, n, run), c) == Stream(n, c)
    decreases run
  {
    hide Inv, Enabled, Next, After, Follows, Stream;
    if run != [] {
      StepFollows(cfg, n, run[0], c);
      Followed(cfg, n, Next(cfg, n, run[0]), run[0], c);
      StepKeeps(cfg, n, run[0]);
      NothingAfterLoss(cfg, Next(cfg, n, run[0]), run[1..], c);
    }
  }

  // ------------------------------------------------------------- the rate limit

  /** c's messages of the run, handled in [lo, hi), that are not answered with 429. */
  function Served(cfg: Config, n: Net, run: seq<Step>, c: ConnId, lo: int, hi: int): nat
    requires IsRun(cfg, n, run)
    decreases run
  {
    if run == [] then 0
    else
      (if run[0].Message? && run[0].c == c && InTime(cfg, n.server.conns[c], run[0].at)
          && lo <= Moment(cfg.limits, n.server.conns[c].bucket, run[0].at) < hi then 1 else 0)
      + Served(cfg, Next(cfg, n, run[0]), run[1..], c, lo, hi)
  }

  lemma {:induction false} ServedAccepted(cfg: Config, n: Net, run: seq<Step>, c: ConnId, lo: int, hi: int)
    requires cfg.Valid() && Inv(cfg, n) && IsRun(cfg, n, run) && c in n.server.conns
    ensures Served(cfg, n, run, c, lo, hi)
      == Accepted(cfg.limits, n.server.conns[c].bucket, Readings(run, c), lo, hi)
    decreases run
  {
    hide Inv, Next, After, Follows;
    if run != [] {
      StepFollows(cfg, n, run[0], c);
      Followed(cfg, n, Next(cfg, n, run[0]), run[0], c);
      StepKeeps(cfg, n, run[0]);
      ServedAccepted(cfg, Next(cfg, n, run[0]), run[1..], c, lo, hi);
      var rest := Readings(run[1..], c);
      if run[0].Message? && run[0].c == c {
        Admission(cfg, n.server, c, run[0].frame, run[0].at);
        assert ([run[0].at] + rest)[1..] == rest;
      } else {
        assert [] + rest == rest;
      }
    }
  }

  /** Whatever the clients do: from the moment a connection opens, no more than a set
      of tokens for each interval begun is served on it, and no more than two sets in
      any one interval. */
  lemma ServiceIsBounded(cfg: Config, before: seq<Step>, c: ConnId, t0: int, run: seq<Step>, t: int)
    requires Before(cfg, before, c, t0) && IsRun(cfg, Opened(cfg, before, c, t0), run)
    requires Monotone(cfg.limits, Fresh(cfg.limits, t0), t0, Readings(run, c)) && t0 <= t
    ensures var n, lim := Opened(cfg, before, c, t0), cfg.limits;
      Served(cfg, n, run, c, t0, t + 1) <= lim.tokens * (1 + (t - t0) / lim.interval)
      && Served(cfg, n, run, c, t, t + lim.interval) <= 2 * lim.tokens
  {
    hide Inv, Monotone, Accepted, IsRun, Before, Opened;
    var n, lim := Opened(cfg, before, c, t0), cfg.limits;
    OpenedFresh(cfg, before, c, t0);
    BeforeValid(cfg, before, c, t0);
    ServedAccepted(cfg, n, run, c, t0, t + 1);
    ServedAccepted(cfg, n, run, c, t, t + lim.interval);
    RateUpperBound(lim, t0, Readings(run, c), t);
    BurstBound(lim, Fresh(lim, t0), t0, Readings(run, c), t);
  }

  lemma BeforeValid(cfg: Config, before: seq<Step>, c: ConnId, t0: int)
    requires Before(cfg, before, c, t0)
    ensures cfg.Valid()
  {}

  lemma {:induction false} InTimeThroughout(cfg: Config, n: Net, run: seq<Step>, c: ConnId, k: nat)
    requires cfg.Valid() && Inv(cfg, n) && IsRun(cfg, n, run) && c in n.server.conns
    requires AllAccepted(cfg.limits, n.server.conns[c].bucket, Readings(run, c))
    requires k < |run| && run[k].Message? && run[k].c == c
    ensures IsRun(cfg, n, run[..k]) && c in Final(cfg, n, run[..k]).server.conns
    ensures InTime(cfg, Final(cfg, n, run[..k]).server.conns[c], run[k].at)
    decreases run
  {
    hide Inv, Next, After, Follows;
    if k > 0 {
      StepFollows(cfg, n, run[0], c);
      Followed(cfg, n, Next(cfg, n, run[0]), run[0], c);
      StepKeeps(cfg, n, run[0]);
      var rest := Readings(run[1..], c);
      if run[0].Message? && run[0].c == c {
        assert ([run[0].at] + rest)[1..] == rest;
      } else {
        assert [] + rest == rest;
      }
      InTimeThroughout(cfg, Next(cfg, n, run[0]), run[1..], c, k - 1);
      assert run[..k][1..] == run[1..][..k - 1];
    } else {
      Admission(cfg, n.server, c, run[0].frame, run[0].at);
    }
  }

  /** A client that never sends more than a set of tokens within one interval is never
      answered with 429, whatever all the others send. */
  lemma ConformingClientIsServed(cfg: Config, before: seq<Step>, c: ConnId, t0: int, run: seq<Step>, k: nat)
    requires Before(cfg, before, c, t0) && IsRun(cfg, Opened(cfg, before, c, t0), run)
    requires Monotone(cfg.limits, Fresh(cfg.limits, t0), t0, Readings(run, c))
    requires Conforms(cfg.limits, Fresh(cfg.limits, t0), Readings(run, c))
    requires k < |run| && run[k].Message? && run[k].c == c
    ensures var n := Opened(cfg, before, c, t0);
      IsRun(cfg, n, run[..k]) && c in Final(cfg, n, run[..k]).server.conns
      && Refusal(cfg, Final(cfg, n, run[..k]).server, c, run[k].frame, run[k].at) != Some(429)
  {
    hide Inv, Monotone, Conforms, IsRun, InTime, AllAccepted, Before, Opened;
    OpenedFresh(cfg, before, c, t0);
    BeforeValid(cfg, before, c, t0);
    ConformingSenderIsNeverRefused(cfg.limits, t0, Readings(run, c));
    InTimeThroughout(cfg, Opened(cfg, before, c, t0), run, c, k);
  }
}
