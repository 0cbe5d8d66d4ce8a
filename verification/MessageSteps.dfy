/** Manager turns that take a message off the wire keep the invariant: requests
    that are answered at once, and replies. */
module MessageSteps {
  import opened Types
  import opened Machine
  import opened Invariant
  import Life
  import Calls
  import Order
  import Joins
  import Shutdown

  // --- a request answered at once

  /** The request message k turns into a reply, or is lost on a draining rank. */
  lemma RepliedCalls(c: Config, q: Machine.Calls, starts: Life.Starts, waits: Calls.Waits, draining: set<nat>,
                     k: nat, ok: bool, clock: nat, res: Result)
    requires Calls.Inv(c, q.app, q.queue, q.pend, q.rpc, starts, waits, draining) && RpcStamps(q.rpc, clock)
    requires k in q.rpc && q.rpc[k].msg.Ask? && (!ok ==> draining != {})
    ensures Calls.Inv(c, q.app, q.queue, q.pend, Replied(q, k, ok, clock, res).rpc, starts, waits, draining)
    ensures RpcStamps(Replied(q, k, ok, clock, res).rpc, Tick(clock, ok))
  {
    if ok { Calls.WireToWire(c, q.app, q.queue, q.pend, q.rpc, starts, waits, draining, k, ReplyTo(q.rpc[k], res),
                             clock); }
    else { Calls.LoseWire(c, q.app, q.queue, q.pend, q.rpc, starts, waits, draining, k); }
  }

  lemma RepliedOrder(q: Machine.Calls, lt: Life.Ltab, starts: Life.Starts, ctl: Life.Wire, k: nat, ok: bool,
                     clock: nat, res: Result)
    requires Order.Inv(q.pend, q.rpc, lt, starts, ctl) && k in q.rpc && q.rpc[k].msg.Ask?
    ensures Order.Inv(q.pend, Replied(q, k, ok, clock, res).rpc, lt, starts, ctl)
  {
  }

  lemma RepliedQuote(q: Machine.Calls, hist: Joins.Hist, k: nat, ok: bool, clock: nat, res: Result)
    requires Joins.QuoteInv(q.app, q.pend, q.rpc, hist) && k in q.rpc && q.rpc[k].msg.Ask?
    requires res.err == 0 && q.rpc[k].msg.call.CallJoin? ==> Joins.Joined(hist, res.thread, res.ret)
    requires res.err == 0 && q.rpc[k].msg.call.CallJoin? ==>
               Calls.CallIs(q.app, q.pend, q.rpc[k].Key(), CallJoin(res.thread))
    requires res.err == 0 ==> !q.rpc[k].msg.call.CallCreate?
    ensures Joins.QuoteInv(q.app, q.pend, Replied(q, k, ok, clock, res).rpc, hist)
  {
  }

  /** Only the reply changes: the case of every refused request. */
  lemma ReplyOnly(c: Config, s: State, k: nat, ok: bool, res: Result)
    requires Inv(c, s) && k in s.calls.rpc && s.calls.rpc[k].msg.Ask? && (!ok ==> s.draining != {}) && res.err != 0
    ensures Inv(c, s.(calls := Replied(s.calls, k, ok, s.clock, res), clock := Tick(s.clock, ok)))
  {
    Later(c, s, Tick(s.clock, ok));
    RepliedCalls(c, s.calls, s.life.starts, s.waits, s.draining, k, ok, s.clock, res);
    RepliedOrder(s.calls, s.life.lt, s.life.starts, s.life.ctl, k, ok, s.clock, res);
    RepliedQuote(s.calls, s.hist, k, ok, s.clock, res);
  }

  // --- a JOINWAIT ends

  lemma EndWaitCalls(c: Config, q: Machine.Calls, starts: Life.Starts, waits: Calls.Waits, draining: set<nat>,
                     x: nat, ok: bool, clock: nat, m: Rpc)
    requires Calls.Inv(c, q.app, q.queue, q.pend, q.rpc, starts, waits, draining) && RpcStamps(q.rpc, clock)
    requires x in waits && m.msg.Answer? && m.msg.op == JOIN && m.msg.xid == x && m.dst == waits[x].caller.rank
             && (!ok ==> draining != {})
    ensures Calls.Inv(c, q.app, q.queue, q.pend, Put(q.rpc, ok, clock, m), starts, waits - {x}, draining)
    ensures RpcStamps(Put(q.rpc, ok, clock, m), Tick(clock, ok))
  {
    if ok { Calls.WaitToWire(c, q.app, q.queue, q.pend, q.rpc, starts, waits, draining, x, m, clock); }
    else { Calls.LoseWait(c, q.app, q.queue, q.pend, q.rpc, starts, waits, draining, x); }
  }

  lemma PutOrder(pend: Calls.Pend, rpc: Calls.Wire, lt: Life.Ltab, starts: Life.Starts, ctl: Life.Wire, ok: bool,
                 clock: nat, m: Rpc)
    requires Order.Inv(pend, rpc, lt, starts, ctl) && m.msg.Answer?
    ensures Order.Inv(pend, Put(rpc, ok, clock, m), lt, starts, ctl)
  {
  }

  lemma PutQuote(app: Calls.Apps, pend: Calls.Pend, rpc: Calls.Wire, hist: Joins.Hist, ok: bool, clock: nat, m: Rpc)
    requires Joins.QuoteInv(app, pend, rpc, hist)
    requires m.msg.Answer? ==> Joins.ResultOk(hist, m.msg.op, m.msg.result)
    requires m.msg.Answer? && m.msg.op == JOIN && m.msg.result.err == 0 ==>
               Calls.CallIs(app, pend, m.Key(), CallJoin(m.msg.result.thread))
    ensures Joins.QuoteInv(app, pend, Put(rpc, ok, clock, m), hist)
  {
  }

  // --- CANCEL

  lemma CancelledIs(s: State, h: Handle, rank: nat)
    ensures var app := Cancelled(s, h, rank);
            app == s.calls.app
            || exists a ::
                 && a in s.calls.app && s.calls.app[a].st == LT_RUNNING
                 && app == s.calls.app[a := s.calls.app[a].(st := LT_CANCELED)]
  {
  }

  lemma CancelledCalls(c: Config, s: State, rpc: Calls.Wire, h: Handle, rank: nat)
    requires s.calls.app.Keys == s.life.lt.Keys
    requires Calls.Inv(c, s.calls.app, s.calls.queue, s.calls.pend, rpc, s.life.starts, s.waits, s.draining)
    ensures var app := Cancelled(s, h, rank);
            app.Keys == s.life.lt.Keys
            && Calls.Inv(c, app, s.calls.queue, s.calls.pend, rpc, s.life.starts, s.waits, s.draining)
  {
    CancelledIs(s, h, rank);
    var app := Cancelled(s, h, rank);
    if app != s.calls.app {
      var a :| a in s.calls.app && s.calls.app[a].st == LT_RUNNING
      && app == s.calls.app[a := s.calls.app[a].(st := LT_CANCELED)];
      Calls.KeepReqInv(c, s.calls.app, s.calls.queue, s.calls.pend, rpc, s.life.starts, s.waits, s.draining, a,
                       s.calls.app[a].(st := LT_CANCELED));
    }
  }

  lemma CancelledRest(c: Config, s: State, rpc: Calls.Wire, h: Handle, rank: nat)
    requires HistInv(s) && Calls.PendOk(c, s.calls.app, s.calls.pend)
    requires Joins.QuoteInv(s.calls.app, s.calls.pend, rpc, s.hist)
    ensures var app := Cancelled(s, h, rank);
            && Joins.HistInv(s.life.gtab, s.hist, s.life.lt, app, s.life.starts, s.life.ctl)
            && Joins.QuoteInv(app, s.calls.pend, rpc, s.hist)
  {
    CancelledIs(s, h, rank);
    var app := Cancelled(s, h, rank);
    if app != s.calls.app {
      var a :| a in s.calls.app && s.calls.app[a].st == LT_RUNNING
      && app == s.calls.app[a := s.calls.app[a].(st := LT_CANCELED)];
      Joins.QuietApp(c, s.calls.app, s.calls.pend, rpc, s.hist, a, s.calls.app[a].(st := LT_CANCELED));
      Joins.AppChange(s.life.gtab, s.hist, s.life.lt, s.calls.app, app, s.life.starts, s.life.ctl);
    }
  }

  lemma RecvCancelKeeps(c: Config, s: State, k: nat)
    requires Inv(c, s) && CanRecvAsk(c, s, k, CANCEL)
    ensures Inv(c, RecvCancelStep(c, s, k))
  {
    var m := s.calls.rpc[k];
    var h := m.msg.call.thread;
    var ok := m.dst !in s.draining;
    var err := CancelError(s.life.gtab, h, m.dst);
    var res := if err == 0 then Result(0, h, NoData) else Refused(err);
    Later(c, s, Tick(s.clock, ok));
    RepliedCalls(c, s.calls, s.life.starts, s.waits, s.draining, k, ok, s.clock, res);
    RepliedOrder(s.calls, s.life.lt, s.life.starts, s.life.ctl, k, ok, s.clock, res);
    RepliedQuote(s.calls, s.hist, k, ok, s.clock, res);
    var rpc := Replied(s.calls, k, ok, s.clock, res).rpc;
    CancelledCalls(c, s, rpc, h, m.dst);
    CancelledRest(c, s, rpc, h, m.dst);
  }

  // --- JOIN

  lemma ReleaseLife(c: Config, s: State, i: nat)
    requires LifeInv(c, s) && i < |s.life.gtab| && s.life.gtab[i].used && s.life.gtab[i].terminated != 0
    ensures Life.Inv(c, ReleaseSlot(s.life, i), s.clock, s.draining)
  {
    var v := s.life;
    var g := FreeSlot(v.gtab[i]);
    assert Life.SlotOk(c, v.gtab[i], i, v.lt);
    Life.UnusedIsLoose(c, v.gtab, v.lt, v.starts, v.ctl, i);
    Life.SlotChange(c, v.gtab, v.lt, v.starts, v.ctl, i, g);
    Life.UsedChange(v.gtab, i, g);
    Life.RunningChange(v.gtab, v.starts, i, g);
  }

  lemma JoinZombieLife(c: Config, s: State, k: nat)
    requires LifeInv(c, s) && Shutdown.Inv(c, s.bc, s.draining, s.clock)
    requires CanRecvAsk(c, s, k, JOIN) && WhichJoin(s, s.calls.rpc[k].msg.call.thread) == JoinZombie
    ensures var t := RecvJoinStep(c, s, k); LifeInv(c, t) && Shutdown.Inv(c, t.bc, t.draining, t.clock)
  {
    hide Life.Inv, Shutdown.Inv;
    var h := s.calls.rpc[k].msg.call.thread;
    ReleaseLife(c, s, h.idx);
    Later(c, s.(life := ReleaseSlot(s.life, h.idx)), Tick(s.clock, 0 !in s.draining));
  }

  lemma JoinZombieCalls(c: Config, s: State, k: nat)
    requires CallsInv(c, s) && OrderInv(s)
    requires CanRecvAsk(c, s, k, JOIN) && WhichJoin(s, s.calls.rpc[k].msg.call.thread) == JoinZombie
    ensures var t := RecvJoinStep(c, s, k); CallsInv(c, t) && OrderInv(t)
  {
    hide Calls.Inv, Order.Inv, RpcStamps;
    var h := s.calls.rpc[k].msg.call.thread;
    var ok := 0 !in s.draining;
    RepliedCalls(c, s.calls, s.life.starts, s.waits, s.draining, k, ok, s.clock, Result(0, h, s.life.gtab[h.idx].ret));
    RepliedOrder(s.calls, s.life.lt, s.life.starts, s.life.ctl, k, ok, s.clock, Result(0, h, s.life.gtab[h.idx].ret));
  }

  lemma JoinZombieHist(c: Config, s: State, k: nat)
    requires HistInv(s) && SeqInv(c, s)
    requires CanRecvAsk(c, s, k, JOIN) && WhichJoin(s, s.calls.rpc[k].msg.call.thread) == JoinZombie
    ensures var t := RecvJoinStep(c, s, k); HistInv(t) && SeqInv(c, t)
  {
    hide First, Joins.GensOk, Joins.HostOk, Joins.CtlOk;
    var h := s.calls.rpc[k].msg.call.thread;
    var g := s.life.gtab[h.idx];
    Joins.Joins(c, s.life.gtab, s.hist, s.life.lt, s.calls.app, s.life.starts, s.life.ctl, h.idx);
    Joins.GensGrow(s.hist, MarkJoined(s.hist, g.tid), s.src[0], s.wrapped);
  }

  lemma JoinZombieWaits(c: Config, s: State, k: nat)
    requires HistInv(s) && WaitInv(s)
    requires CanRecvAsk(c, s, k, JOIN) && WhichJoin(s, s.calls.rpc[k].msg.call.thread) == JoinZombie
    ensures WaitInv(RecvJoinStep(c, s, k))
  {
    hide First, FindWait, Joins.HostOk, Joins.CtlOk, Joins.RetOk, Joins.WaitsLive;
    var h := s.calls.rpc[k].msg.call.thread;
    var g := s.life.gtab[h.idx];
    var hist := MarkJoined(s.hist, g.tid);
    Joins.WaitsGrow(s.life.gtab, s.waits, s.hist, hist);
    Joins.SlotWaits(s.life.gtab, s.waits, hist, h.idx, FreeSlot(g));
  }

  lemma JoinZombieQuote(c: Config, s: State, k: nat)
    requires HistInv(s) && QuoteInv(s) && CallsInv(c, s)
    requires CanRecvAsk(c, s, k, JOIN) && WhichJoin(s, s.calls.rpc[k].msg.call.thread) == JoinZombie
    ensures QuoteInv(RecvJoinStep(c, s, k))
  {
    hide Joins.HostOk, Joins.CtlOk, Calls.Blocks, Calls.TokensOk;
    var h := s.calls.rpc[k].msg.call.thread;
    var g := s.life.gtab[h.idx];
    var hist := MarkJoined(s.hist, g.tid);
    Joins.Joins(c, s.life.gtab, s.hist, s.life.lt, s.calls.app, s.life.starts, s.life.ctl, h.idx);
    Joins.QuotesGrow(s.calls.app, s.calls.pend, s.calls.rpc, s.hist, hist);
    RepliedQuote(s.calls, hist, k, 0 !in s.draining, s.clock, Result(0, h, g.ret));
  }

  lemma JoinZombieKeeps(c: Config, s: State, k: nat)
    requires Inv(c, s) && CanRecvAsk(c, s, k, JOIN) && WhichJoin(s, s.calls.rpc[k].msg.call.thread) == JoinZombie
    ensures Inv(c, RecvJoinStep(c, s, k))
  {
    hide LifeInv, CallsInv, OrderInv, HistInv, QuoteInv, WaitInv, SeqInv, Shutdown.Inv;
    JoinZombieLife(c, s, k);
    JoinZombieCalls(c, s, k);
    JoinZombieHist(c, s, k);
    JoinZombieWaits(c, s, k);
    JoinZombieQuote(c, s, k);
  }

  lemma JoinWaitsCalls(c: Config, s: State, k: nat)
    requires CallsInv(c, s) && OrderInv(s) && QuoteInv(s)
    requires CanRecvAsk(c, s, k, JOIN) && WhichJoin(s, s.calls.rpc[k].msg.call.thread) == JoinWaits
    ensures var t := RecvJoinStep(c, s, k); CallsInv(c, t) && OrderInv(t) && QuoteInv(t)
  {
    hide Calls.Inv, Order.Inv, Joins.QuoteInv, First, FindWait;
    var q := s.calls;
    Calls.WireToWait(c, q.app, q.queue, q.pend, q.rpc, s.life.starts, s.waits, s.draining, k,
                     s.life.gtab[q.rpc[k].msg.call.thread.idx].tid);
    Order.Less(q.pend, q.rpc, s.life.lt, s.life.starts, s.life.ctl, {}, {k}, {});
    assert q.pend - {} == q.pend && s.life.lt - {} == s.life.lt;
    Joins.CutReply(q.app, q.pend, q.rpc, s.hist, {k});
  }

  lemma JoinWaitsWaits(c: Config, s: State, k: nat)
    requires LifeInv(c, s) && HistInv(s) && WaitInv(s)
    requires CanRecvAsk(c, s, k, JOIN) && WhichJoin(s, s.calls.rpc[k].msg.call.thread) == JoinWaits
    ensures WaitInv(RecvJoinStep(c, s, k))
  {
    hide Life.LocalsOk, Life.StartsOk, Life.MsgsOk, Life.WireOk, Life.CountersOk, First;
    var m := s.calls.rpc[k];
    var h := m.msg.call.thread;
    assert Life.SlotOk(c, s.life.gtab[h.idx], h.idx, s.life.lt);
    Joins.AddWait(s.life.gtab, s.waits, s.hist, m.msg.xid, WaitRec(h, m.Key(), s.life.gtab[h.idx].tid));
  }

  lemma JoinWaitsFrame(c: Config, s: State, k: nat)
    requires CanRecvAsk(c, s, k, JOIN) && WhichJoin(s, s.calls.rpc[k].msg.call.thread) == JoinWaits
    ensures var t := RecvJoinStep(c, s, k);
            && t.life == s.life && t.calls.app == s.calls.app && t.bc == s.bc && t.draining == s.draining
               && t.clock == s.clock
            && t.hist == s.hist && t.src == s.src && t.nextRank == s.nextRank && t.wrapped == s.wrapped
  {
    hide First, FindWait;
  }

  lemma JoinWaitsKeeps(c: Config, s: State, k: nat)
    requires Inv(c, s) && CanRecvAsk(c, s, k, JOIN) && WhichJoin(s, s.calls.rpc[k].msg.call.thread) == JoinWaits
    ensures Inv(c, RecvJoinStep(c, s, k))
  {
    hide CallsInv, OrderInv, QuoteInv, WaitInv, Life.Inv, Joins.HistInv, Joins.GensOk, Shutdown.Inv, RecvJoinStep,
      CanRecvAsk, WhichJoin;
    JoinWaitsCalls(c, s, k);
    JoinWaitsWaits(c, s, k);
    JoinWaitsFrame(c, s, k);
  }

  lemma RecvJoinKeeps(c: Config, s: State, k: nat)
    requires Inv(c, s) && CanRecvAsk(c, s, k, JOIN)
    ensures Inv(c, RecvJoinStep(c, s, k))
  {
    hide Inv;
    match WhichJoin(s, s.calls.rpc[k].msg.call.thread)
    case JoinError(err) => ReplyOnly(c, s, k, 0 !in s.draining, Refused(err));
    case JoinZombie => JoinZombieKeeps(c, s, k);
    case JoinWaits => JoinWaitsKeeps(c, s, k);
  }

  // --- replies

  lemma RecvReplyOrder(c: Config, s: State, k: nat)
    requires OrderInv(s) && CanRecvReply(c, s, k)
    ensures OrderInv(RecvReplyStep(c, s, k))
  {
  }

  lemma RecvReplyCalls(c: Config, s: State, k: nat)
    requires CallsInv(c, s) && CanRecvReply(c, s, k)
    ensures CallsInv(c, RecvReplyStep(c, s, k))
  {
    hide Calls.Inv;
    var q := s.calls;
    var id := q.rpc[k].Key();
    Calls.FindsCaller(c, q.app, q.queue, q.pend, q.rpc, s.life.starts, s.waits, s.draining, k);
    var a := Loc(id.rank, q.pend[id]);
    Calls.AnswerInv(c, q.app, q.queue, q.pend, q.rpc, s.life.starts, s.waits, s.draining, k,
                    q.app[a].(req := Done(q.app[a].req.call, q.rpc[k].msg.result)));
  }

  lemma RecvReplyRest(c: Config, s: State, k: nat)
    requires CallsInv(c, s) && QuoteInv(s) && HistInv(s) && CanRecvReply(c, s, k)
    ensures var t := RecvReplyStep(c, s, k); QuoteInv(t) && HistInv(t)
  {
    var q := s.calls;
    Joins.Delivered(c, q.app, q.queue, q.pend, q.rpc, s.life.starts, s.waits, s.draining, s.hist, k);
    Joins.AppChange(s.life.gtab, s.hist, s.life.lt, q.app, RecvReplyStep(c, s, k).calls.app, s.life.starts, s.life.ctl);
  }

  lemma RecvReplyUntouched(c: Config, s: State, k: nat)
    requires LifeInv(c, s) && WaitInv(s) && SeqInv(c, s) && CanRecvReply(c, s, k)
    ensures var t := RecvReplyStep(c, s, k); LifeInv(c, t) && WaitInv(t) && SeqInv(c, t)
  {
    hide Life.Inv, Joins.WaitInv, Joins.GensOk;
  }

  lemma RecvReplyKeeps(c: Config, s: State, k: nat)
    requires Inv(c, s) && CanRecvReply(c, s, k)
    ensures Inv(c, RecvReplyStep(c, s, k))
  {
    hide LifeInv, CallsInv, OrderInv, HistInv, QuoteInv, WaitInv, SeqInv, Shutdown.Inv;
    RecvReplyUntouched(c, s, k);
    RecvReplyOrder(c, s, k);
    RecvReplyCalls(c, s, k);
    RecvReplyRest(c, s, k);
  }
}
