/** TERMINATED and DETACH keep the invariant. */
module TerminateSteps {
  import opened Types
  import opened Machine
  import opened Invariant
  import opened MessageSteps
  import Life
  import Calls
  import Order
  import Joins
  import Shutdown

  // --- TERMINATED

  lemma EndSlotLife(c: Config, s: State, k: nat, free: bool)
    requires LifeInv(c, s) && CanRecvTerminated(c, s, k)
    ensures TerminatedValid(s.life.gtab, s.life.ctl[k])
    ensures Life.Inv(c, EndSlot(s.life, k, free), s.clock, s.draining)
  {
    var v := s.life;
    var i := v.ctl[k].msg.thread.idx;
    assert Life.MsgOk(v.gtab, v.starts, v.ctl[k]);
    var z := v.gtab[i].(terminated := v.ctl[k].msg.fin, hasLtab := false);
    var g := if free then FreeSlot(z) else z;
    assert Life.SlotOk(c, v.gtab[i], i, v.lt);
    Life.TerminatedIsLoose(c, v.gtab, v.lt, v.starts, v.ctl, s.clock, s.draining, k);
    Life.DropTerminated(c, v.gtab, v.lt, v.starts, v.ctl, s.clock, s.draining, k);
    Life.SlotChange(c, v.gtab, v.lt, v.starts, v.ctl - {k}, i, g);
    Life.UsedChange(v.gtab, i, g);
    Life.RunningChange(v.gtab, v.starts, i, g);
  }

  /** The slot a TERMINATED names, and the history of its thread. */
  lemma EndedThread(c: Config, s: State, k: nat)
    requires LifeInv(c, s) && HistInv(s) && CanRecvTerminated(c, s, k)
    ensures var h := s.life.ctl[k].msg.thread;
            && Accepts(s.life.gtab, h) && !NeedFinalState(s.life.ctl[k].msg.fin)
               && TerminatedValid(s.life.gtab, s.life.ctl[k])
            && s.life.gtab[h.idx].tid < |s.hist| && s.hist[s.life.gtab[h.idx].tid].fin.Some?
  {
  }

  lemma EndSlotHist(c: Config, s: State, k: nat, free: bool)
    requires LifeInv(c, s) && HistInv(s) && CanRecvTerminated(c, s, k)
    ensures s.life.ctl[k].msg.thread.idx < |s.life.gtab|
    ensures var v := EndSlot(s.life, k, free); Joins.HistInv(v.gtab, s.hist, v.lt, s.calls.app, v.starts, v.ctl)
  {
    hide Life.Inv, Joins.HistInv;
    EndedThread(c, s, k);
    var v := s.life;
    var i := v.ctl[k].msg.thread.idx;
    var z := v.gtab[i].(terminated := v.ctl[k].msg.fin, hasLtab := false);
    Joins.CtlChange(v.gtab, s.hist, v.lt, s.calls.app, v.starts, v.ctl, v.lt, v.starts, v.ctl - {k});
    Joins.SlotChange(v.gtab, s.hist, v.lt, s.calls.app, v.starts, v.ctl - {k}, i, if free then FreeSlot(z) else z);
  }

  lemma EndSlotOrder(c: Config, s: State, k: nat)
    requires OrderInv(s) && CanRecvTerminated(c, s, k)
    ensures Order.Inv(s.calls.pend, s.calls.rpc, s.life.lt, s.life.starts, s.life.ctl - {k})
  {
    Order.CtlChange(s.calls.pend, s.calls.rpc, s.life.lt, s.life.starts, s.life.ctl, s.life.ctl - {k});
  }

  /** Nobody waits: the slot becomes a zombie, or is freed if detached. */
  lemma UnwaitedKeeps(c: Config, s: State, k: nat)
    requires Inv(c, s) && CanRecvTerminated(c, s, k) && FindWait(s.waits, s.life.ctl[k].msg.thread).None?
    ensures Inv(c, RecvTerminatedStep(c, s, k))
  {
    hide Life.Inv, Calls.Inv, Order.Inv, Joins.HistInv, Joins.QuoteInv, Joins.WaitInv, Joins.GensOk, Shutdown.Inv;
    var h := s.life.ctl[k].msg.thread;
    EndedThread(c, s, k);
    var g := s.life.gtab[h.idx];
    EndSlotLife(c, s, k, g.detached);
    EndSlotHist(c, s, k, g.detached);
    EndSlotOrder(c, s, k);
    var z := g.(terminated := s.life.ctl[k].msg.fin, hasLtab := false);
    Joins.SlotWaits(s.life.gtab, s.waits, s.hist, h.idx, if g.detached then FreeSlot(z) else z);
  }

  /** Nobody can wait for a detached thread. */
  lemma WaitedIsAttached(s: State, h: Handle, x: nat)
    requires WaitInv(s) && Accepts(s.life.gtab, h) && FindWait(s.waits, h) == Some(x)
    ensures !s.life.gtab[h.idx].detached
  {
  }

  /** Somebody waits: the slot is freed and the value handed over. */
  lemma WaitedJoins(c: Config, s: State, k: nat)
    requires LifeInv(c, s) && HistInv(s) && CanRecvTerminated(c, s, k)
    ensures s.life.ctl[k].msg.thread.idx < |s.life.gtab|
    ensures var v := EndSlot(s.life, k, true);
            var g := s.life.gtab[s.life.ctl[k].msg.thread.idx];
            var hist' := MarkJoined(s.hist, g.tid);
            && Joins.Grows(s.hist, hist') && Joins.Joined(hist', s.life.ctl[k].msg.thread, g.ret)
            && Joins.HistInv(v.gtab, hist', v.lt, s.calls.app, v.starts, v.ctl)
  {
    hide Life.Inv, Joins.HistInv;
    EndedThread(c, s, k);
    EndSlotHist(c, s, k, false);
    var v := EndSlot(s.life, k, false);
    var i := s.life.ctl[k].msg.thread.idx;
    Joins.Joins(c, v.gtab, s.hist, v.lt, s.calls.app, v.starts, v.ctl, i);
    assert EndSlot(s.life, k, true).gtab == v.gtab[i := FreeSlot(v.gtab[i])];
  }

  lemma WaitedHist(c: Config, s: State, k: nat, x: nat)
    requires LifeInv(c, s) && HistInv(s) && WaitInv(s) && SeqInv(c, s)
    requires CanRecvTerminated(c, s, k) && FindWait(s.waits, s.life.ctl[k].msg.thread) == Some(x)
    ensures var t := RecvTerminatedStep(c, s, k); HistInv(t) && SeqInv(c, t)
  {
    hide Life.Inv, Joins.HistInv, Joins.WaitInv, Joins.GensOk;
    EndedThread(c, s, k);
    var g := s.life.gtab[s.life.ctl[k].msg.thread.idx];
    WaitedIsAttached(s, s.life.ctl[k].msg.thread, x);
    WaitedJoins(c, s, k);
    Joins.GensGrow(s.hist, MarkJoined(s.hist, g.tid), s.src[0], s.wrapped);
  }

  lemma WaitedCalls(c: Config, s: State, k: nat, x: nat)
    requires CallsInv(c, s) && OrderInv(s)
    requires CanRecvTerminated(c, s, k) && TerminatedValid(s.life.gtab, s.life.ctl[k])
             && FindWait(s.waits, s.life.ctl[k].msg.thread) == Some(x)
    ensures var t := RecvTerminatedStep(c, s, k); CallsInv(c, t) && OrderInv(t)
  {
    hide Calls.Inv, Order.Inv, RpcStamps;
    var ok := 0 !in s.draining;
    var m := JoinedFor(x, s.waits[x], s.life.gtab[s.life.ctl[k].msg.thread.idx]);
    EndWaitCalls(c, s.calls, s.life.starts, s.waits, s.draining, x, ok, s.clock, m);
    EndSlotOrder(c, s, k);
    PutOrder(s.calls.pend, s.calls.rpc, s.life.lt, s.life.starts, s.life.ctl - {k}, ok, s.clock, m);
  }

  lemma WaitedQuote(c: Config, s: State, k: nat, x: nat)
    requires LifeInv(c, s) && CallsInv(c, s) && HistInv(s) && QuoteInv(s) && WaitInv(s)
    requires CanRecvTerminated(c, s, k) && FindWait(s.waits, s.life.ctl[k].msg.thread) == Some(x)
    ensures QuoteInv(RecvTerminatedStep(c, s, k))
  {
    hide Life.Inv, Joins.WaitInv, Joins.RetOk, Joins.HostOk, Joins.CtlOk, Calls.Blocks, Calls.TokensOk;
    EndedThread(c, s, k);
    WaitedIsAttached(s, s.life.ctl[k].msg.thread, x);
    WaitedJoins(c, s, k);
    var q := s.calls;
    var g := s.life.gtab[s.life.ctl[k].msg.thread.idx];
    var hist := MarkJoined(s.hist, g.tid);
    Joins.QuotesGrow(q.app, q.pend, q.rpc, s.hist, hist);
    PutQuote(q.app, q.pend, q.rpc, hist, 0 !in s.draining, s.clock, JoinedFor(x, s.waits[x], g));
  }

  lemma WaitedLife(c: Config, s: State, k: nat, x: nat)
    requires LifeInv(c, s) && Shutdown.Inv(c, s.bc, s.draining, s.clock)
    requires CanRecvTerminated(c, s, k) && FindWait(s.waits, s.life.ctl[k].msg.thread) == Some(x)
    ensures var t := RecvTerminatedStep(c, s, k); LifeInv(c, t) && Shutdown.Inv(c, t.bc, t.draining, t.clock)
  {
    hide Life.Inv, Shutdown.Inv;
    EndSlotLife(c, s, k, true);
    Later(c, s.(life := EndSlot(s.life, k, true)), Tick(s.clock, 0 !in s.draining));
  }

  lemma WaitedWaits(c: Config, s: State, k: nat, x: nat)
    requires LifeInv(c, s) && HistInv(s) && WaitInv(s)
    requires CanRecvTerminated(c, s, k) && FindWait(s.waits, s.life.ctl[k].msg.thread) == Some(x)
    ensures WaitInv(RecvTerminatedStep(c, s, k))
  {
    hide Life.Inv, Joins.HistInv, First, Put, Tick;
    var h := s.life.ctl[k].msg.thread;
    EndedThread(c, s, k);
    var g := s.life.gtab[h.idx];
    WaitedIsAttached(s, h, x);
    WaitedJoins(c, s, k);
    var z := g.(terminated := s.life.ctl[k].msg.fin, hasLtab := false);
    var hist := MarkJoined(s.hist, g.tid);
    Joins.CutWaits(s.life.gtab, s.waits, s.hist, {x});
    Joins.WaitsGrow(s.life.gtab, s.waits - {x}, s.hist, hist);
    Joins.SlotWaits(s.life.gtab, s.waits - {x}, hist, h.idx, FreeSlot(z));
  }

  lemma WaitedKeeps(c: Config, s: State, k: nat, x: nat)
    requires Inv(c, s) && CanRecvTerminated(c, s, k) && FindWait(s.waits, s.life.ctl[k].msg.thread) == Some(x)
    ensures Inv(c, RecvTerminatedStep(c, s, k))
  {
    hide LifeInv, CallsInv, OrderInv, HistInv, QuoteInv, WaitInv, SeqInv, Shutdown.Inv;
    EndSlotLife(c, s, k, true);
    WaitedLife(c, s, k, x);
    WaitedHist(c, s, k, x);
    WaitedCalls(c, s, k, x);
    WaitedQuote(c, s, k, x);
    WaitedWaits(c, s, k, x);
  }

  lemma RecvTerminatedKeeps(c: Config, s: State, k: nat)
    requires Inv(c, s) && CanRecvTerminated(c, s, k)
    ensures Inv(c, RecvTerminatedStep(c, s, k))
  {
    hide Inv;
    match FindWait(s.waits, s.life.ctl[k].msg.thread)
    case None => UnwaitedKeeps(c, s, k);
    case Some(x) => WaitedKeeps(c, s, k, x);
  }

  // --- DETACH

  /** What the waiting joiner of a thread that gets detached is told. */
  ghost function Abandoned(s: State, x: nat): Rpc
    requires x in s.waits
  {
    Rpc(0, s.waits[x].caller.rank, Answer(x, JOIN, Refused(EINVAL)))
  }

  lemma DetachLife(c: Config, s: State, h: Handle)
    requires LifeInv(c, s) && Accepts(s.life.gtab, h)
    ensures Life.Inv(c, s.life.(gtab := s.life.gtab[h.idx := s.life.gtab[h.idx].(detached := true)]), s.clock,
                     s.draining)
  {
    var v := s.life;
    var g := v.gtab[h.idx].(detached := true);
    assert Life.SlotOk(c, v.gtab[h.idx], h.idx, v.lt);
    Life.SlotData(c, v.gtab, v.lt, v.starts, v.ctl, h.idx, g);
    Life.UsedChange(v.gtab, h.idx, g);
    Life.RunningChange(v.gtab, v.starts, h.idx, g);
  }

  lemma DetachTables(c: Config, s: State, k: nat)
    requires LifeInv(c, s) && Shutdown.Inv(c, s.bc, s.draining, s.clock) && HistInv(s)
    requires CanRecvAsk(c, s, k, DETACH) && Accepts(s.life.gtab, s.calls.rpc[k].msg.call.thread)
    ensures var t := RecvDetachStep(c, s, k); LifeInv(c, t) && Shutdown.Inv(c, t.bc, t.draining, t.clock) && HistInv(t)
  {
    hide Life.Inv, Joins.HistInv, Shutdown.Inv;
    var h := s.calls.rpc[k].msg.call.thread;
    var t := RecvDetachStep(c, s, k);
    var g := s.life.gtab[h.idx].(detached := true);
    DetachLife(c, s, h);
    Later(c, s.(life := t.life), t.clock);
    EndedAlready(s, h);
    Joins.SlotChange(s.life.gtab, s.hist, s.life.lt, s.calls.app, s.life.starts, s.life.ctl, h.idx, g);
  }

  /** A slot marked terminated has its thread's value. */
  lemma EndedAlready(s: State, h: Handle)
    requires HistInv(s) && Accepts(s.life.gtab, h)
    ensures var g := s.life.gtab[h.idx]; g.tid < |s.hist| && (g.terminated != 0 ==> s.hist[g.tid].fin.Some?)
  {
  }

  lemma AbandonedCalls(c: Config, s: State, k: nat, x: nat)
    requires CallsInv(c, s) && CanRecvAsk(c, s, k, DETACH) && x in s.waits
    ensures var ok := 0 !in s.draining;
            var q := Replied(s.calls, k, ok, s.clock, Result(0, s.calls.rpc[k].msg.call.thread, NoData));
            var rpc := Put(q.rpc, ok, Tick(s.clock, ok), Abandoned(s, x));
            && Calls.Inv(c, q.app, q.queue, q.pend, rpc, s.life.starts, s.waits - {x}, s.draining)
            && RpcStamps(rpc, Tick(Tick(s.clock, ok), ok))
  {
    hide Calls.Inv, RpcStamps;
    var ok := 0 !in s.draining;
    var res := Result(0, s.calls.rpc[k].msg.call.thread, NoData);
    RepliedCalls(c, s.calls, s.life.starts, s.waits, s.draining, k, ok, s.clock, res);
    EndWaitCalls(c, Replied(s.calls, k, ok, s.clock, res), s.life.starts, s.waits, s.draining, x, ok,
                 Tick(s.clock, ok), Abandoned(s, x));
  }

  lemma DetachCalls(c: Config, s: State, k: nat)
    requires CallsInv(c, s) && CanRecvAsk(c, s, k, DETACH) && Accepts(s.life.gtab, s.calls.rpc[k].msg.call.thread)
    ensures CallsInv(c, RecvDetachStep(c, s, k))
  {
    hide Calls.Inv, RpcStamps, Put, FindWait;
    var h := s.calls.rpc[k].msg.call.thread;
    var ok := 0 !in s.draining;
    var res := Result(0, h, NoData);
    var t := RecvDetachStep(c, s, k);
    if FindWait(s.waits, h).Some? {
      AbandonedCalls(c, s, k, FindWait(s.waits, h).value);
    } else {
      RepliedCalls(c, s.calls, s.life.starts, s.waits, s.draining, k, ok, s.clock, res);
    }
  }

  lemma DetachOrder(c: Config, s: State, k: nat)
    requires OrderInv(s) && CanRecvAsk(c, s, k, DETACH) && Accepts(s.life.gtab, s.calls.rpc[k].msg.call.thread)
    ensures OrderInv(RecvDetachStep(c, s, k))
  {
    hide Order.Inv, Put, FindWait;
    var h := s.calls.rpc[k].msg.call.thread;
    var ok := 0 !in s.draining;
    var q := Replied(s.calls, k, ok, s.clock, Result(0, h, NoData));
    RepliedOrder(s.calls, s.life.lt, s.life.starts, s.life.ctl, k, ok, s.clock, Result(0, h, NoData));
    match FindWait(s.waits, h)
    case None =>
    case Some(x) =>
      PutOrder(q.pend, q.rpc, s.life.lt, s.life.starts, s.life.ctl, ok, Tick(s.clock, ok),
               Abandoned(s, x));
  }

  lemma DetachQuote(c: Config, s: State, k: nat)
    requires QuoteInv(s) && CanRecvAsk(c, s, k, DETACH) && Accepts(s.life.gtab, s.calls.rpc[k].msg.call.thread)
    ensures QuoteInv(RecvDetachStep(c, s, k))
  {
    hide Joins.QuoteInv;
    var h := s.calls.rpc[k].msg.call.thread;
    var ok := 0 !in s.draining;
    var q := Replied(s.calls, k, ok, s.clock, Result(0, h, NoData));
    RepliedQuote(s.calls, s.hist, k, ok, s.clock, Result(0, h, NoData));
    match FindWait(s.waits, h)
    case None =>
    case Some(x) =>
      PutQuote(q.app, q.pend, q.rpc, s.hist, ok, Tick(s.clock, ok),
               Abandoned(s, x));
  }

  lemma DetachWaits(c: Config, s: State, k: nat)
    requires WaitInv(s) && SeqInv(c, s) && CanRecvAsk(c, s, k, DETACH)
             && Accepts(s.life.gtab, s.calls.rpc[k].msg.call.thread)
    ensures var t := RecvDetachStep(c, s, k); WaitInv(t) && SeqInv(c, t)
  {
    var h := s.calls.rpc[k].msg.call.thread;
    var g := s.life.gtab[h.idx].(detached := true);
    match FindWait(s.waits, h)
    case None =>
      Joins.SlotWaits(s.life.gtab, s.waits, s.hist, h.idx, g);
    case Some(x) =>
      Joins.CutWaits(s.life.gtab, s.waits, s.hist, {x});
      Joins.SlotWaits(s.life.gtab, s.waits - {x}, s.hist, h.idx, g);
  }

  lemma DetachOkKeeps(c: Config, s: State, k: nat)
    requires Inv(c, s) && CanRecvAsk(c, s, k, DETACH) && Accepts(s.life.gtab, s.calls.rpc[k].msg.call.thread)
    ensures Inv(c, RecvDetachStep(c, s, k))
  {
    hide LifeInv, CallsInv, OrderInv, HistInv, QuoteInv, WaitInv, SeqInv, Shutdown.Inv;
    DetachTables(c, s, k);
    DetachCalls(c, s, k);
    DetachOrder(c, s, k);
    DetachQuote(c, s, k);
    DetachWaits(c, s, k);
  }

  lemma RecvDetachKeeps(c: Config, s: State, k: nat)
    requires Inv(c, s) && CanRecvAsk(c, s, k, DETACH)
    ensures Inv(c, RecvDetachStep(c, s, k))
  {
    hide Inv;
    if Accepts(s.life.gtab, s.calls.rpc[k].msg.call.thread) { DetachOkKeeps(c, s, k); }
    else { ReplyOnly(c, s, k, 0 !in s.draining, Refused(ESRCH)); }
  }
}
