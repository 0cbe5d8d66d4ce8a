/** Manager turns that take a request off mgrreqq, and the shutdown steps, keep
    the invariant. */
module RequestSteps {
  import opened Types
  import opened Machine
  import opened Invariant
  import Sequence
  import Life
  import Calls
  import Order
  import Joins
  import Shutdown

  // --- CREATE, DETACH, CANCEL, JOIN

  lemma TakeCallSeq(c: Config, s: State, r: nat, xid: nat, src: nat, wrap: bool)
    requires SeqInv(c, s) && WaitInv(s) && CanTakeCall(c, s, r, xid, src, wrap)
    ensures var t := TakeCallStep(c, s, r, xid, src, wrap); SeqInv(c, t) && WaitInv(t)
  {
    var op := s.calls.app[Loc(r, s.calls.queue[r][0])].req.call.Op();
    Sequence.DrewValid(c.N, r, s.src[r], xid, src, wrap, XidsOf(s.calls.pend, r, op));
    hide Sequence.Drew, Joins.WaitInv, SendCall, XidsOf;
  }

  lemma HeadWaits(c: Config, s: State, r: nat)
    requires CallsInv(c, s) && Heads(s, r)
    ensures Calls.OnQueue(s.calls.app[Loc(r, s.calls.queue[r][0])].req)
  {
  }

  lemma SendCallInv(c: Config, q: Machine.Calls, starts: Life.Starts, waits: Calls.Waits, draining: set<nat>,
                    clock: nat, r: nat, xid: nat)
    requires Calls.Inv(c, q.app, q.queue, q.pend, q.rpc, starts, waits, draining) && clock !in q.rpc
    requires r < |q.queue| && q.queue[r] != [] && Loc(r, q.queue[r][0]) in q.app
             && q.app[Loc(r, q.queue[r][0])].req.BusyCall?
    requires xid % c.N == r && CallId(r, q.app[Loc(r, q.queue[r][0])].req.call.Op(), xid) !in q.pend
    ensures var t := SendCall(q, true, clock, r, xid);
            Calls.Inv(c, t.app, t.queue, t.pend, t.rpc, starts, waits, draining)
  {
    var p := q.app[Loc(r, q.queue[r][0])];
    Calls.SendInv(c, q.app, q.queue, q.pend, q.rpc, starts, waits, draining, r,
                  p.(req := BusyCall(p.req.call, Some(xid))), Rpc(r, p.req.call.Peer(), Ask(xid, p.req.call)), clock);
  }

  lemma RefuseCallInv(c: Config, q: Machine.Calls, starts: Life.Starts, waits: Calls.Waits, draining: set<nat>,
                      clock: nat, r: nat, xid: nat)
    requires Calls.Inv(c, q.app, q.queue, q.pend, q.rpc, starts, waits, draining)
    requires r < |q.queue| && q.queue[r] != [] && Loc(r, q.queue[r][0]) in q.app
             && q.app[Loc(r, q.queue[r][0])].req.BusyCall?
    ensures var t := SendCall(q, false, clock, r, xid);
            Calls.Inv(c, t.app, t.queue, t.pend, t.rpc, starts, waits, draining)
  {
    var p := q.app[Loc(r, q.queue[r][0])];
    Calls.DequeueRestInv(c, q.app, q.queue, q.pend, q.rpc, starts, waits, draining, r,
                         p.(req := Done(p.req.call, Refused(EIO))));
  }

  lemma TakeCallCalls(c: Config, s: State, r: nat, xid: nat, src: nat, wrap: bool)
    requires CallsInv(c, s) && CanTakeCall(c, s, r, xid, src, wrap)
    ensures CallsInv(c, TakeCallStep(c, s, r, xid, src, wrap))
  {
    var t := SendCall(s.calls, r !in s.draining, s.clock, r, xid);
    assert t.app.Keys == s.calls.app.Keys;
    assert RpcStamps(t.rpc, Tick(s.clock, r !in s.draining));
    if r in s.draining { RefuseCallInv(c, s.calls, s.life.starts, s.waits, s.draining, s.clock, r, xid); }
    else { SendCallInv(c, s.calls, s.life.starts, s.waits, s.draining, s.clock, r, xid); }
  }

  lemma TakeCallHist(c: Config, s: State, r: nat, xid: nat, src: nat, wrap: bool)
    requires HistInv(s) && CanTakeCall(c, s, r, xid, src, wrap)
    ensures HistInv(TakeCallStep(c, s, r, xid, src, wrap))
  {
  }

  lemma TakeCallQuote(c: Config, s: State, r: nat, xid: nat, src: nat, wrap: bool)
    requires QuoteInv(s) && CallsInv(c, s) && CanTakeCall(c, s, r, xid, src, wrap)
    ensures QuoteInv(TakeCallStep(c, s, r, xid, src, wrap))
  {
    HeadWaits(c, s, r);
    var q := s.calls;
    var a := Loc(r, q.queue[r][0]);
    var call := q.app[a].req.call;
    if r in s.draining {
      Joins.QuietApp(c, q.app, q.pend, q.rpc, s.hist, a, q.app[a].(req := Done(call, Refused(EIO))));
    } else {
      var p := q.app[a].(req := BusyCall(call, Some(xid)));
      var id := CallId(r, call.Op(), xid);
      Joins.SentApp(c, q.app, q.pend, q.rpc, s.hist, a, p, id);
      Joins.AddReply(q.app[a := p], q.pend[id := a.lidx], q.rpc, s.hist, s.clock, Rpc(r, call.Peer(), Ask(xid, call)));
    }
  }

  lemma TakeCallOrder(c: Config, s: State, r: nat, xid: nat, src: nat, wrap: bool)
    requires LifeInv(c, s) && CallsInv(c, s) && OrderInv(s) && CanTakeCall(c, s, r, xid, src, wrap)
    ensures OrderInv(TakeCallStep(c, s, r, xid, src, wrap))
  {
    var q := s.calls;
    var call := q.app[Loc(r, q.queue[r][0])].req.call;
    if r !in s.draining {
      Calls.TokensPend(q.pend, q.rpc, s.life.starts, s.waits, s.draining);
      Order.AddAsk(q.pend, q.rpc, s.life.lt, s.life.starts, s.life.ctl, s.clock, s.draining,
                   Rpc(r, call.Peer(), Ask(xid, call)), q.queue[r][0]);
    }
  }

  lemma TakeCallKeeps(c: Config, s: State, r: nat, xid: nat, src: nat, wrap: bool)
    requires Inv(c, s) && CanTakeCall(c, s, r, xid, src, wrap)
    ensures Inv(c, TakeCallStep(c, s, r, xid, src, wrap))
  {
    Later(c, s, TakeCallStep(c, s, r, xid, src, wrap).clock);
    TakeCallSeq(c, s, r, xid, src, wrap);
    TakeCallCalls(c, s, r, xid, src, wrap);
    TakeCallHist(c, s, r, xid, src, wrap);
    TakeCallQuote(c, s, r, xid, src, wrap);
    TakeCallOrder(c, s, r, xid, src, wrap);
  }

  // --- RETCLEAN

  /** The slot of a terminating thread points at no other ltab entry. */
  lemma DisconnectedIs(c: Config, v: Machine.Life, a: Loc)
    requires Life.SlotsOk(c, v.gtab, v.lt) && Life.LocalsOk(c, v.gtab, v.lt) && a in v.lt
    ensures !Disconnected(v, a).hasLtab && Life.SameKeys(v.gtab[v.lt[a].gidx], Disconnected(v, a))
  {
  }

  lemma TakeRetcleanLife(c: Config, s: State, r: nat)
    requires LifeInv(c, s) && Calls.FinalOk(s.calls.app) && CanTakeRetclean(c, s, r)
    ensures LifeInv(c, TakeRetcleanStep(c, s, r))
  {
    var v := s.life;
    var a := Loc(r, s.calls.queue[r][0]);
    DisconnectedIs(c, v, a);
    Life.RetcleanKeeps(c, v.gtab, v.lt, v.starts, v.ctl, s.clock, s.draining, a, Disconnected(v, a), s.calls.app[a].st);
    Life.UsedChange(v.gtab, v.lt[a].gidx, Disconnected(v, a));
    Life.RunningChange(v.gtab, v.starts, v.lt[a].gidx, Disconnected(v, a));
  }

  lemma TakeRetcleanCalls(c: Config, s: State, r: nat)
    requires CallsInv(c, s) && CanTakeRetclean(c, s, r)
    ensures CallsInv(c, TakeRetcleanStep(c, s, r))
  {
    var q := s.calls;
    Calls.DequeueGoneInv(c, q.app, q.queue, q.pend, q.rpc, s.life.starts, s.waits, s.draining, r);
  }

  lemma TakeRetcleanOrder(c: Config, s: State, r: nat)
    requires OrderInv(s) && Life.StampsOk(s.life.ctl, s.clock) && CanTakeRetclean(c, s, r)
    ensures OrderInv(TakeRetcleanStep(c, s, r))
  {
    var t := TakeRetcleanStep(c, s, r);
    Order.CtlChange(s.calls.pend, s.calls.rpc, s.life.lt, s.life.starts, s.life.ctl, t.life.ctl);
    Order.Less(s.calls.pend, s.calls.rpc, s.life.lt, s.life.starts, t.life.ctl, {}, {}, {Loc(r, s.calls.queue[r][0])});
    assert s.calls.pend - {} == s.calls.pend && s.calls.rpc - {} == s.calls.rpc;
  }

  lemma TakeRetcleanHist(c: Config, s: State, r: nat)
    requires LifeInv(c, s) && HistInv(s) && CanTakeRetclean(c, s, r)
    ensures HistInv(TakeRetcleanStep(c, s, r))
  {
    var t := TakeRetcleanStep(c, s, r);
    var a := Loc(r, s.calls.queue[r][0]);
    var e := s.life.lt[a];
    var g := Disconnected(s.life, a);
    assert Life.Live(s.life.gtab, Handle(e.gidx, e.gen));
    Joins.SlotChange(s.life.gtab, s.hist, s.life.lt, s.calls.app, s.life.starts, s.life.ctl, e.gidx, g);
    var gtab := s.life.gtab[e.gidx := g];
    if r !in s.draining {
      Joins.CtlSend(gtab, s.hist, s.life.lt, s.calls.app, s.life.starts, s.life.ctl, s.clock,
                    Ctl(r, 0, Terminated(Handle(e.gidx, e.gen), s.calls.app[a].st)));
    }
    Joins.CtlChange(gtab, s.hist, s.life.lt, s.calls.app, s.life.starts, t.life.ctl, s.life.lt - {a}, s.life.starts,
                    t.life.ctl);
    Joins.AppChange(gtab, s.hist, s.life.lt - {a}, s.calls.app, s.calls.app - {a}, s.life.starts, t.life.ctl);
  }

  lemma TakeRetcleanRest(c: Config, s: State, r: nat)
    requires WaitInv(s) && QuoteInv(s) && Calls.PendOk(c, s.calls.app, s.calls.pend) && CanTakeRetclean(c, s, r)
    ensures WaitInv(TakeRetcleanStep(c, s, r)) && QuoteInv(TakeRetcleanStep(c, s, r))
  {
    var a := Loc(r, s.calls.queue[r][0]);
    Joins.GoneApp(c, s.calls.app, s.calls.pend, s.calls.rpc, s.hist, a);
    Joins.SlotWaits(s.life.gtab, s.waits, s.hist, s.life.lt[a].gidx, Disconnected(s.life, a));
  }

  lemma TakeRetcleanKeeps(c: Config, s: State, r: nat)
    requires Inv(c, s) && CanTakeRetclean(c, s, r)
    ensures Inv(c, TakeRetcleanStep(c, s, r))
  {
    TreeLater(c, s, TakeRetcleanStep(c, s, r).clock);
    TakeRetcleanLife(c, s, r);
    TakeRetcleanCalls(c, s, r);
    TakeRetcleanOrder(c, s, r);
    TakeRetcleanHist(c, s, r);
    TakeRetcleanRest(c, s, r);
  }

  // --- shutdown: APP0_RET, the test in the main loop, BCASTSHUTDOWN

  lemma NothingToRankZero(c: Config, s: State)
    requires c.Valid() && Shutdown.Inv(c, s.bc, s.draining, s.clock)
    ensures var t := BroadcastShutdown(c, s, 0); Shutdown.Inv(c, t.bc, t.draining, t.clock)
  {
    if 0 !in s.draining {
      Shutdown.BroadcastKeeps(c, s.bc, s.draining, s.clock, 0, {});
      var t := BroadcastShutdown(c, s, 0);
      assert t.bc - {} == t.bc;
    }
  }

  lemma BroadcastLife(c: Config, s: State, r: nat)
    requires LifeInv(c, s)
    ensures LifeInv(c, BroadcastShutdown(c, s, r))
  {
    var t := BroadcastShutdown(c, s, r);
    Life.Later(s.life.lt, s.life.starts, s.life.ctl, s.clock, s.draining, t.clock, t.draining);
  }

  lemma BroadcastCalls(c: Config, s: State, r: nat)
    requires CallsInv(c, s)
    ensures CallsInv(c, BroadcastShutdown(c, s, r))
  {
  }

  lemma QuiesceKeeps(c: Config, s: State)
    requires Inv(c, s)
    ensures Inv(c, BroadcastShutdown(c, s, 0))
  {
    BroadcastLife(c, s, 0);
    BroadcastCalls(c, s, 0);
    NothingToRankZero(c, s);
  }

  lemma RecvShutdownTree(c: Config, s: State, k: nat)
    requires c.Valid() && Shutdown.Inv(c, s.bc, s.draining, s.clock) && k in s.bc
    ensures var t := BroadcastShutdown(c, s, s.bc[k].dst); Shutdown.Inv(c, t.bc - {k}, t.draining, t.clock)
  {
    Shutdown.BroadcastKeeps(c, s.bc, s.draining, s.clock, s.bc[k].dst, {k});
  }

  lemma RecvShutdownKeeps(c: Config, s: State, k: nat)
    requires Inv(c, s) && CanRecvShutdown(c, s, k)
    ensures Inv(c, RecvShutdownStep(c, s, k))
  {
    BroadcastLife(c, s, s.bc[k].dst);
    BroadcastCalls(c, s, s.bc[k].dst);
    RecvShutdownTree(c, s, k);
  }

  lemma MainCalls(c: Config, s: State)
    requires CallsInv(c, s) && CanTakeMain(c, s)
    ensures CallsInv(c, MainEnded(s))
  {
    var q := s.calls;
    var a := Loc(0, q.queue[0][0]);
    Calls.DequeueRestInv(c, q.app, q.queue, q.pend, q.rpc, s.life.starts, s.waits, s.draining, 0,
                         q.app[a].(req := Idle));
  }

  lemma MainRest(c: Config, s: State)
    requires HistInv(s) && QuoteInv(s) && CallsInv(c, s) && CanTakeMain(c, s)
    ensures HistInv(MainEnded(s)) && QuoteInv(MainEnded(s))
  {
    var a := Loc(0, s.calls.queue[0][0]);
    var p := s.calls.app[a].(req := Idle);
    Joins.AppChange(s.life.gtab, s.hist, s.life.lt, s.calls.app, s.calls.app[a := p], s.life.starts, s.life.ctl);
    Joins.QuietApp(c, s.calls.app, s.calls.pend, s.calls.rpc, s.hist, a, p);
  }

  lemma TakeMainKeeps(c: Config, s: State)
    requires Inv(c, s) && CanTakeMain(c, s)
    ensures Inv(c, TakeMainStep(c, s))
  {
    MainCalls(c, s);
    MainRest(c, s);
    QuiesceKeeps(c, MainEnded(s));
  }
}
