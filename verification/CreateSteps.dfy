/** CREATE, START and STARTED keep the invariant. */
module CreateSteps {
  import opened Types
  import opened Machine
  import opened Invariant
  import opened MessageSteps
  import Sequence
  import Life
  import Calls
  import Order
  import Joins
  import Shutdown

  // --- CREATE

  ghost predicate Creates(c: Config, s: State, k: nat, p: nat, xid: nat, src: nat, wrap: bool) {
    CanRecvCreate(c, s, k, p, xid, src, wrap) && CreateError(c, s.life.nAlloc, s.calls.rpc[k].msg.call.disp) == 0
  }

  /** The new slot and its pending START. */
  lemma NewSlotIs(c: Config, s: State, k: nat, p: nat, xid: nat, src: nat, wrap: bool)
    requires SeqInv(c, s) && Creates(c, s, k, p, xid, src, wrap)
    ensures var g := NewSlot(s, p, s.calls.rpc[k].msg.call.disp);
            Life.CanCreate(c, s.life.gtab, s.life.starts, p, g, xid,
                           StartRec(Handle(p, g.gen), s.calls.rpc[k].Key(), g.tid))
  {
  }

  lemma CreateLife(c: Config, s: State, p: nat, g: Slot, y: nat, rec: StartRec)
    requires LifeInv(c, s) && Life.CanCreate(c, s.life.gtab, s.life.starts, p, g, y, rec)
    ensures Life.Inv(c, CreateThread(s.life, s.clock, p, g, y, rec), s.clock + 1, s.draining)
  {
    var v := s.life;
    Life.CreateKeeps(c, v.gtab, v.lt, v.starts, v.ctl, s.clock, s.draining, p, g, y, rec);
    Life.CreateCounters(v.gtab, v.starts, p, g, y, rec);
  }

  lemma CreateOrder(c: Config, s: State, p: nat, g: Slot, y: nat, k: nat)
    requires LifeInv(c, s) && CallsInv(c, s) && OrderInv(s) && RpcReady(s, k)
    requires s.calls.rpc[k].dst == 0 && s.calls.rpc[k].msg.Ask? && s.calls.rpc[k].msg.call.CallCreate?
    requires Life.CanCreate(c, s.life.gtab, s.life.starts, p, g, y,
                            StartRec(Handle(p, g.gen), s.calls.rpc[k].Key(), g.tid))
    ensures var v := CreateThread(s.life, s.clock, p, g, y, StartRec(Handle(p, g.gen), s.calls.rpc[k].Key(), g.tid));
            Order.Inv(s.calls.pend, s.calls.rpc - {k}, v.lt, v.starts, v.ctl)
  {
    hide Life.CountersOk, Life.PairsOk, Life.HostedOk, Life.OrderOk, Life.ComingOk, Life.SlotsOk, Calls.Blocks,
      Calls.ContentOk;
    var v := s.life;
    var rec := StartRec(Handle(p, g.gen), s.calls.rpc[k].Key(), g.tid);
    Life.UnusedIsLoose(c, v.gtab, v.lt, v.starts, v.ctl, p);
    Calls.TokensPend(s.calls.pend, s.calls.rpc, v.starts, s.waits, s.draining);
    Order.AddStart(c, v.gtab, s.calls.pend, s.calls.rpc, v.lt, v.starts, v.ctl, k, y, rec);
    CreateOrderWire(s.calls.pend, s.calls.rpc, v.lt, v.starts[y := rec], v.ctl, k, s.clock,
                    Ctl(0, g.rank, Start(y, rec.thread)));
  }

  lemma CreateOrderWire(pend: Calls.Pend, rpc: Calls.Wire, lt: Life.Ltab, starts: Life.Starts, ctl: Life.Wire, k: nat,
                        clock: nat, p: Ctl)
    requires Order.Inv(pend, rpc, lt, starts, ctl) && Life.StampsOk(ctl, clock)
    ensures Order.Inv(pend, rpc - {k}, lt, starts, ctl[clock := p])
  {
    Order.Less(pend, rpc, lt, starts, ctl, {}, {k}, {});
    assert pend - {} == pend && lt - {} == lt;
    Order.CtlChange(pend, rpc - {k}, lt, starts, ctl, ctl[clock := p]);
  }

  lemma CreateHist(c: Config, s: State, p: nat, g: Slot, y: nat, rec: StartRec)
    requires LifeInv(c, s) && HistInv(s) && Life.CanCreate(c, s.life.gtab, s.life.starts, p, g, y, rec)
             && g.tid == |s.hist|
    ensures var v := CreateThread(s.life, s.clock, p, g, y, rec);
            var hist' := s.hist + [Thread(rec.thread, g.disp, false, None, 0)];
            Joins.Grows(s.hist, hist') && Joins.HistInv(v.gtab, hist', v.lt, s.calls.app, v.starts, v.ctl)
  {
    hide Joins.HistInv, Life.CountersOk, Life.SlotsOk;
    var v := s.life;
    var hist' := s.hist + [Thread(rec.thread, g.disp, false, None, 0)];
    Life.UnusedIsLoose(c, v.gtab, v.lt, v.starts, v.ctl, p);
    Joins.NewThread(c, v.gtab, s.hist, v.lt, s.calls.app, v.starts, v.ctl, p, g);
    KnownStarts(v.gtab, v.starts, v.ctl);
    Life.NewStart(v.lt, v.starts, v.ctl, s.clock, s.draining, y, rec);
    var gtab, starts := v.gtab[p := g], v.starts[y := rec];
    Joins.CtlChange(gtab, hist', v.lt, s.calls.app, v.starts, v.ctl, v.lt, starts, v.ctl);
    Joins.CtlSend(gtab, hist', v.lt, s.calls.app, starts, v.ctl, s.clock, Ctl(0, g.rank, Start(y, rec.thread)));
  }

  lemma KnownStarts(gtab: Life.Gtab, starts: Life.Starts, ctl: Life.Wire)
    requires Life.MsgsOk(gtab, starts, ctl)
    ensures forall k :: k in ctl && ctl[k].msg.Started? ==> ctl[k].msg.xid in starts
  {
  }

  lemma CreateQuote(c: Config, s: State, k: nat, hist: Joins.Hist)
    requires QuoteInv(s) && HistInv(s) && Joins.Grows(s.hist, hist) && Joins.JoinsOk(hist)
    ensures Joins.QuoteInv(s.calls.app, s.calls.pend, s.calls.rpc - {k}, hist)
  {
  }

  lemma CreateSeq(c: Config, s: State, k: nat, p: nat, xid: nat, src: nat, wrap: bool)
    requires c.Valid() && SeqInv(c, s) && Creates(c, s, k, p, xid, src, wrap)
    ensures SeqInv(c, RecvCreateStep(c, s, k, p, xid, src, wrap))
  {
    var next := Sequence.NextSrc(c.N, 0, s.src[0]);
    Sequence.DrewValid(c.N, 0, next, xid, src, wrap, s.life.starts.Keys);
    hide Sequence.Drew, First, Put;
  }

  lemma CreateWaits(c: Config, s: State, k: nat, p: nat, xid: nat, src: nat, wrap: bool)
    requires WaitInv(s) && Creates(c, s, k, p, xid, src, wrap)
    ensures WaitInv(RecvCreateStep(c, s, k, p, xid, src, wrap))
  {
    hide Joins.WaitInv;
    var t := RecvCreateStep(c, s, k, p, xid, src, wrap);
    Joins.WaitsGrow(s.life.gtab, s.waits, s.hist, t.hist);
    Joins.SlotWaits(s.life.gtab, s.waits, t.hist, p, t.life.gtab[p]);
  }

  lemma CreateCalls(c: Config, s: State, k: nat, p: nat, xid: nat, src: nat, wrap: bool)
    requires CallsInv(c, s) && Creates(c, s, k, p, xid, src, wrap)
    ensures CallsInv(c, RecvCreateStep(c, s, k, p, xid, src, wrap))
  {
    hide Calls.Inv;
    var q := s.calls;
    var rec := StartRec(Handle(p, s.src[0]), q.rpc[k].Key(), |s.hist|);
    if 0 !in s.draining { Calls.WireToStart(c, q.app, q.queue, q.pend, q.rpc, s.life.starts, s.waits, s.draining, k,
                                            xid, rec); }
    else { Calls.LoseWire(c, q.app, q.queue, q.pend, q.rpc, s.life.starts, s.waits, s.draining, k); }
  }

  lemma CreateOkKeeps(c: Config, s: State, k: nat, p: nat, xid: nat, src: nat, wrap: bool)
    requires Inv(c, s) && Creates(c, s, k, p, xid, src, wrap) && 0 !in s.draining
    ensures Inv(c, RecvCreateStep(c, s, k, p, xid, src, wrap))
  {
    hide CallsInv, SeqInv, Life.Inv, Order.Inv, Joins.HistInv, Joins.QuoteInv, WaitInv, Shutdown.Inv;
    var g := NewSlot(s, p, s.calls.rpc[k].msg.call.disp);
    var rec := StartRec(Handle(p, g.gen), s.calls.rpc[k].Key(), g.tid);
    var hist := s.hist + [Thread(rec.thread, g.disp, false, None, 0)];
    NewSlotIs(c, s, k, p, xid, src, wrap);
    CreateLife(c, s, p, g, xid, rec);
    TreeLater(c, s, s.clock + 1);
    CreateOrder(c, s, p, g, xid, k);
    CreateHist(c, s, p, g, xid, rec);
    JoinsOfHist(CreateThread(s.life, s.clock, p, g, xid, rec), hist, s.calls.app);
    CreateQuote(c, s, k, hist);
    CreateSeq(c, s, k, p, xid, src, wrap);
    CreateWaits(c, s, k, p, xid, src, wrap);
    CreateCalls(c, s, k, p, xid, src, wrap);
  }

  lemma JoinsOfHist(v: Machine.Life, hist: Joins.Hist, app: Calls.Apps)
    requires Joins.HistInv(v.gtab, hist, v.lt, app, v.starts, v.ctl)
    ensures Joins.JoinsOk(hist)
  {
  }

  /** Rank 0 is draining: the slot is freed again and no answer goes out. */
  lemma CreateDroppedTables(c: Config, s: State, p: nat, g: Slot)
    requires LifeInv(c, s) && HistInv(s)
    requires p < |s.life.gtab| && !s.life.gtab[p].used && !g.used && g.gen == 0 && !g.hasLtab && g.terminated == 0
    requires g.tid == s.life.gtab[p].tid
    ensures var v := s.life.(gtab := s.life.gtab[p := g]);
            Life.Inv(c, v, s.clock, s.draining) && Joins.HistInv(v.gtab, s.hist, v.lt, s.calls.app, v.starts, v.ctl)
  {
    var v := s.life;
    Life.UnusedIsLoose(c, v.gtab, v.lt, v.starts, v.ctl, p);
    Life.SlotChange(c, v.gtab, v.lt, v.starts, v.ctl, p, g);
    Life.UsedChange(v.gtab, p, g);
    Life.RunningChange(v.gtab, v.starts, p, g);
    Joins.SlotChange(v.gtab, s.hist, v.lt, s.calls.app, v.starts, v.ctl, p, g);
  }

  lemma CreateDroppedCalls(c: Config, s: State, k: nat)
    requires OrderInv(s) && QuoteInv(s)
    ensures Order.Inv(s.calls.pend, s.calls.rpc - {k}, s.life.lt, s.life.starts, s.life.ctl)
    ensures Joins.QuoteInv(s.calls.app, s.calls.pend, s.calls.rpc - {k}, s.hist)
  {
  }

  lemma CreateDroppedKeeps(c: Config, s: State, k: nat, p: nat, xid: nat, src: nat, wrap: bool)
    requires Inv(c, s) && Creates(c, s, k, p, xid, src, wrap) && 0 in s.draining
    ensures Inv(c, RecvCreateStep(c, s, k, p, xid, src, wrap))
  {
    hide CallsInv, SeqInv, Life.Inv, Order.Inv, Joins.HistInv, Joins.QuoteInv, WaitInv, Shutdown.Inv;
    var g := NewSlot(s, p, s.calls.rpc[k].msg.call.disp);
    CreateDroppedTables(c, s, p, FreeSlot(g.(tid := s.life.gtab[p].tid)));
    CreateDroppedCalls(c, s, k);
    CreateSeq(c, s, k, p, xid, src, wrap);
    CreateWaits(c, s, k, p, xid, src, wrap);
    CreateCalls(c, s, k, p, xid, src, wrap);
  }

  lemma RecvCreateKeeps(c: Config, s: State, k: nat, p: nat, xid: nat, src: nat, wrap: bool)
    requires Inv(c, s) && CanRecvCreate(c, s, k, p, xid, src, wrap)
    ensures Inv(c, RecvCreateStep(c, s, k, p, xid, src, wrap))
  {
    hide Inv;
    var err := CreateError(c, s.life.nAlloc, s.calls.rpc[k].msg.call.disp);
    if err != 0 { ReplyOnly(c, s, k, 0 !in s.draining, Refused(err)); }
    else if 0 !in s.draining { CreateOkKeeps(c, s, k, p, xid, src, wrap); }
    else { CreateDroppedKeeps(c, s, k, p, xid, src, wrap); }
  }

  // --- START

  /** A START always passes start_thread's checks. */
  lemma StartIsValid(c: Config, s: State, k: nat)
    requires LifeInv(c, s) && CtlReady(s, k) && s.life.ctl[k].msg.Start?
    ensures StartValid(c, s.life.gtab, s.life.ctl[k].msg.thread)
    ensures s.life.ctl[k].dst < c.N && s.life.ctl[k].msg.xid in s.life.starts
    ensures s.life.starts[s.life.ctl[k].msg.xid].thread == s.life.ctl[k].msg.thread
  {
  }

  /** What START's thread looks like to the history. */
  lemma StartHistory(c: Config, s: State, k: nat)
    requires LifeInv(c, s) && HistInv(s) && CtlReady(s, k) && s.life.ctl[k].msg.Start?
    ensures StartValid(c, s.life.gtab, s.life.ctl[k].msg.thread)
    ensures var tid := s.life.gtab[s.life.ctl[k].msg.thread.idx].tid;
            tid < |s.hist| && !s.hist[tid].started && s.hist[tid].fin.None?
  {
  }

  /** The wire after START has been answered. */
  ghost function StartAnswered(s: State, k: nat, err: nat): Life.Wire
    requires k in s.life.ctl && s.life.ctl[k].msg.Start?
  {
    var m := s.life.ctl[k];
    Put(s.life.ctl - {k}, m.dst !in s.draining, s.clock, Ctl(m.dst, 0, Started(m.msg.xid, err)))
  }

  lemma AnsweredOrder(c: Config, s: State, k: nat, err: nat)
    requires LifeInv(c, s) && OrderInv(s) && CtlReady(s, k) && s.life.ctl[k].msg.Start?
    ensures Order.Inv(s.calls.pend, s.calls.rpc, s.life.lt, s.life.starts, StartAnswered(s, k, err))
  {
    hide Life.CountersOk, Life.SlotsOk, Life.LocalsOk, Life.PairsOk, Life.HostedOk, Life.OrderOk, Life.ComingOk;
    Order.CtlChange(s.calls.pend, s.calls.rpc, s.life.lt, s.life.starts, s.life.ctl, StartAnswered(s, k, err));
  }

  lemma StartFailedLife(c: Config, s: State, k: nat, err: nat, ok: bool)
    requires LifeInv(c, s) && CtlReady(s, k) && s.life.ctl[k].msg.Start? && ok == (s.life.ctl[k].dst !in s.draining)
    ensures Life.Inv(c, s.life.(ctl := StartAnswered(s, k, err)), Tick(s.clock, ok), s.draining)
  {
    var v := s.life;
    Life.StartReply(c, v.gtab, v.lt, v.starts, v.ctl, s.clock, s.draining, k, ok, err);
  }

  lemma StartFailedHist(c: Config, s: State, k: nat, err: nat)
    requires LifeInv(c, s) && HistInv(s) && CtlReady(s, k) && s.life.ctl[k].msg.Start? && err != 0
    ensures Joins.HistInv(s.life.gtab, s.hist, s.life.lt, s.calls.app, s.life.starts, StartAnswered(s, k, err))
  {
    hide Life.Inv, Joins.HistInv;
    var v := s.life;
    var m := v.ctl[k];
    StartIsValid(c, s, k);
    StartHistory(c, s, k);
    Joins.CtlChange(v.gtab, s.hist, v.lt, s.calls.app, v.starts, v.ctl, v.lt, v.starts, v.ctl - {k});
    Joins.CtlSend(v.gtab, s.hist, v.lt, s.calls.app, v.starts, v.ctl - {k}, s.clock,
                  Ctl(m.dst, 0, Started(m.msg.xid, err)));
  }

  lemma StartFailedKeeps(c: Config, s: State, k: nat, l: nat, err: nat)
    requires Inv(c, s) && CanRecvStart(c, s, k, l, err) && err != 0
    ensures Inv(c, RecvStartStep(c, s, k, l, err))
  {
    hide Life.Inv, Calls.Inv, Order.Inv, Joins.HistInv, Joins.QuoteInv, Joins.WaitInv, Joins.GensOk, Shutdown.Inv;
    var ok := s.life.ctl[k].dst !in s.draining;
    StartIsValid(c, s, k);
    StartFailedLife(c, s, k, err, ok);
    StartFailedHist(c, s, k, err);
    AnsweredOrder(c, s, k, err);
    TreeLater(c, s, Tick(s.clock, s.life.ctl[k].dst !in s.draining));
  }

  lemma StartOkLife(c: Config, s: State, k: nat, l: nat)
    requires LifeInv(c, s) && CanRecvStart(c, s, k, l, 0) && StartValid(c, s.life.gtab, s.life.ctl[k].msg.thread)
    ensures LifeInv(c, RecvStartStep(c, s, k, l, 0))
  {
    var v := s.life;
    Life.StartOkKeeps(c, v.gtab, v.lt, v.starts, v.ctl, s.clock, s.draining, k, l);
  }

  lemma StartOkHist(c: Config, s: State, k: nat, l: nat)
    requires LifeInv(c, s) && HistInv(s) && CanRecvStart(c, s, k, l, 0)
             && StartValid(c, s.life.gtab, s.life.ctl[k].msg.thread)
    ensures var t := RecvStartStep(c, s, k, l, 0); HistInv(t) && Joins.Grows(s.hist, t.hist) && |t.hist| == |s.hist|
  {
    hide Joins.HistInv, Life.CountersOk, Life.SlotsOk;
    var v := s.life;
    var m := v.ctl[k];
    var i := m.msg.thread.idx;
    var t := RecvStartStep(c, s, k, l, 0);
    Life.StartIsAlone(v.gtab, v.lt, v.starts, v.ctl, k);
    StartIsValid(c, s, k);
    StartHistory(c, s, k);
    Joins.Begins(c, v.gtab, s.hist, v.lt, s.calls.app, v.starts, v.ctl, k, i);
    Joins.CtlSend(v.gtab, t.hist, v.lt, s.calls.app, v.starts, v.ctl - {k}, s.clock,
                  Ctl(m.dst, 0, Started(m.msg.xid, 0)));
    Joins.AddHost(v.gtab, t.hist, v.lt, s.calls.app, v.starts, StartAnswered(s, k, 0), Loc(m.dst, l),
                  Local(i, m.msg.thread.gen), App(LT_STARTING, Idle));
  }

  lemma StartOkCalls(c: Config, s: State, k: nat, l: nat)
    requires CallsInv(c, s) && CanRecvStart(c, s, k, l, 0) && StartValid(c, s.life.gtab, s.life.ctl[k].msg.thread)
    requires s.life.ctl[k].dst < c.N
    ensures CallsInv(c, RecvStartStep(c, s, k, l, 0))
  {
    hide Calls.Inv;
    var q := s.calls;
    var a := Loc(s.life.ctl[k].dst, l);
    Calls.RestInv(c, q.app, q.queue, q.pend, q.rpc, s.life.starts, s.waits, s.draining, a, App(LT_STARTING, Idle));
  }

  /** No pending call belongs to an ltab entry that is free. */
  lemma FreeHasNoCall(c: Config, s: State, a: Loc)
    requires CallsInv(c, s) && a !in s.life.lt
    ensures forall id :: id in s.calls.pend ==> Loc(id.rank, s.calls.pend[id]) != a
  {
  }

  lemma StartOkOrder(c: Config, s: State, k: nat, l: nat)
    requires LifeInv(c, s) && CallsInv(c, s) && OrderInv(s) && CanRecvStart(c, s, k, l, 0)
    requires StartValid(c, s.life.gtab, s.life.ctl[k].msg.thread)
    ensures OrderInv(RecvStartStep(c, s, k, l, 0))
  {
    hide LifeInv, CallsInv, Order.Inv;
    var m := s.life.ctl[k];
    AnsweredOrder(c, s, k, 0);
    FreeHasNoCall(c, s, Loc(m.dst, l));
    Order.AddThread(s.calls.pend, s.calls.rpc, s.life.lt, s.life.starts, StartAnswered(s, k, 0), Loc(m.dst, l),
                    Local(m.msg.thread.idx, m.msg.thread.gen));
  }

  lemma StartOkQuote(c: Config, s: State, k: nat, l: nat)
    requires CallsInv(c, s) && QuoteInv(s) && SeqInv(c, s) && CanRecvStart(c, s, k, l, 0)
    requires StartValid(c, s.life.gtab, s.life.ctl[k].msg.thread)
    requires var t := RecvStartStep(c, s, k, l, 0); HistInv(t) && Joins.Grows(s.hist, t.hist) && |t.hist| == |s.hist|
    ensures var t := RecvStartStep(c, s, k, l, 0); QuoteInv(t) && SeqInv(c, t)
  {
    hide Joins.HistOk, Joins.RetOk, Joins.HostOk, Joins.CtlOk, Joins.GensOk, Calls.TokensOk, Calls.ContentOk;
    var t := RecvStartStep(c, s, k, l, 0);
    var q := s.calls;
    Joins.QuotesGrow(q.app, q.pend, q.rpc, s.hist, t.hist);
    Joins.QuietApp(c, q.app, q.pend, q.rpc, t.hist, Loc(s.life.ctl[k].dst, l), App(LT_STARTING, Idle));
    Joins.GensGrow(s.hist, t.hist, s.src[0], s.wrapped);
  }

  lemma StartOkWaits(c: Config, s: State, k: nat, l: nat)
    requires HistInv(s) && WaitInv(s) && CanRecvStart(c, s, k, l, 0)
             && StartValid(c, s.life.gtab, s.life.ctl[k].msg.thread)
    ensures WaitInv(RecvStartStep(c, s, k, l, 0))
  {
    hide Joins.RetOk, Joins.HostOk, Joins.CtlOk, Joins.WaitInv, Put, First, MarkStarted;
    Joins.WaitsStart(s.life.gtab, s.waits, s.hist, s.life.ctl[k].msg.thread.idx);
  }

  lemma StartOkKeeps(c: Config, s: State, k: nat, l: nat)
    requires Inv(c, s) && CanRecvStart(c, s, k, l, 0)
    ensures Inv(c, RecvStartStep(c, s, k, l, 0))
  {
    hide LifeInv, CallsInv, OrderInv, HistInv, QuoteInv, SeqInv, Joins.WaitInv, Shutdown.Inv;
    StartIsValid(c, s, k);
    StartOkLife(c, s, k, l);
    StartOkHist(c, s, k, l);
    StartOkCalls(c, s, k, l);
    StartOkOrder(c, s, k, l);
    StartOkQuote(c, s, k, l);
    StartOkWaits(c, s, k, l);
    TreeLater(c, s, Tick(s.clock, s.life.ctl[k].dst !in s.draining));
  }

  lemma RecvStartKeeps(c: Config, s: State, k: nat, l: nat, err: nat)
    requires Inv(c, s) && CanRecvStart(c, s, k, l, err)
    ensures Inv(c, RecvStartStep(c, s, k, l, err))
  {
    hide Inv;
    if err == 0 { StartOkKeeps(c, s, k, l); } else { StartFailedKeeps(c, s, k, l, err); }
  }

  // --- STARTED

  /** A STARTED always finds its START request. */
  lemma StartedIsPending(c: Config, s: State, k: nat)
    requires LifeInv(c, s) && CtlReady(s, k) && s.life.ctl[k].msg.Started?
    ensures s.life.ctl[k].dst == 0 && s.life.ctl[k].msg.xid in s.life.starts
    ensures var h := s.life.starts[s.life.ctl[k].msg.xid].thread; Accepts(s.life.gtab, h)
  {
  }

  lemma StartedOkLife(c: Config, s: State, k: nat)
    requires LifeInv(c, s) && CanRecvStarted(c, s, k) && s.life.ctl[k].msg.err == 0
             && s.life.ctl[k].msg.xid in s.life.starts
    ensures Life.Inv(c, FinishStart(s.life, k), s.clock, s.draining)
  {
    var v := s.life;
    Life.StartedKeeps(c, v.gtab, v.lt, v.starts, v.ctl, s.clock, s.draining, k);
    Life.FinishStart(c, v.gtab, v.starts, v.ctl[k].msg.xid);
  }

  lemma StartedErrLife(c: Config, s: State, k: nat)
    requires LifeInv(c, s) && CanRecvStarted(c, s, k) && s.life.ctl[k].msg.err != 0
             && s.life.ctl[k].msg.xid in s.life.starts
    ensures Life.Inv(c, FinishStart(s.life, k), s.clock, s.draining)
  {
    var v := s.life;
    var y := v.ctl[k].msg.xid;
    var i := v.starts[y].thread.idx;
    assert Life.SlotOk(c, v.gtab[i], i, v.lt);
    Life.StartedKeeps(c, v.gtab, v.lt, v.starts, v.ctl, s.clock, s.draining, k);
    Life.FailedIsLoose(c, v.gtab, v.lt, v.starts, v.ctl, k);
    Life.SlotChange(c, v.gtab, v.lt, v.starts - {y}, v.ctl - {k}, i, FreeSlot(v.gtab[i]));
    StartedErrCounters(c, v, y, i);
  }

  lemma StartedErrCounters(c: Config, v: Machine.Life, y: nat, i: nat)
    requires Life.CountersOk(v) && Life.StartsOk(c, v.gtab, v.starts) && y in v.starts && i == v.starts[y].thread.idx
    ensures Life.CountersOk(v.(starts := v.starts - {y}, nStarting := v.nStarting - 1,
                               gtab := v.gtab[i := FreeSlot(v.gtab[i])], nAlloc := v.nAlloc - 1))
  {
    Life.FinishStart(c, v.gtab, v.starts, y);
    Life.UsedChange(v.gtab, i, FreeSlot(v.gtab[i]));
    Life.RunningChange(v.gtab, v.starts - {y}, i, FreeSlot(v.gtab[i]));
  }

  lemma StartedLife(c: Config, s: State, k: nat)
    requires LifeInv(c, s) && Shutdown.Inv(c, s.bc, s.draining, s.clock) && CanRecvStarted(c, s, k)
    ensures var t := RecvStartedStep(c, s, k); LifeInv(c, t) && Shutdown.Inv(c, t.bc, t.draining, t.clock)
  {
    hide Life.Inv, Shutdown.Inv;
    StartedIsPending(c, s, k);
    if s.life.ctl[k].msg.err == 0 { StartedOkLife(c, s, k); } else { StartedErrLife(c, s, k); }
    Later(c, s.(life := FinishStart(s.life, k)), Tick(s.clock, 0 !in s.draining));
  }

  lemma StartedCalls(c: Config, s: State, k: nat)
    requires LifeInv(c, s) && CallsInv(c, s) && CanRecvStarted(c, s, k)
    ensures CallsInv(c, RecvStartedStep(c, s, k))
  {
    hide Life.Inv, Calls.Blocks, Calls.TokensOk;
    StartedIsPending(c, s, k);
    var q := s.calls;
    var y := s.life.ctl[k].msg.xid;
    var m := CreatedFor(s.life.starts[y], s.life.ctl[k].msg.err);
    if 0 !in s.draining { Calls.StartToWire(c, q.app, q.queue, q.pend, q.rpc, s.life.starts, s.waits, s.draining, y, m,
                                            s.clock); }
    else { Calls.LoseStart(c, q.app, q.queue, q.pend, q.rpc, s.life.starts, s.waits, s.draining, y); }
  }

  lemma StartedOrder(c: Config, s: State, k: nat)
    requires LifeInv(c, s) && OrderInv(s) && CanRecvStarted(c, s, k)
    ensures OrderInv(RecvStartedStep(c, s, k))
  {
    hide LifeInv, Order.Inv;
    StartedIsPending(c, s, k);
    var q := s.calls;
    var y := s.life.ctl[k].msg.xid;
    Order.EndStart(q.pend, q.rpc, s.life.lt, s.life.starts, s.life.ctl, k);
    PutOrder(q.pend, q.rpc, s.life.lt, s.life.starts - {y}, s.life.ctl - {k}, 0 !in s.draining, s.clock,
             CreatedFor(s.life.starts[y], s.life.ctl[k].msg.err));
  }

  /** STARTED tells the truth about its thread. */
  lemma StartedHistory(c: Config, s: State, k: nat)
    requires LifeInv(c, s) && HistInv(s) && CtlReady(s, k) && s.life.ctl[k].msg.Started?
    ensures s.life.ctl[k].msg.xid in s.life.starts
    ensures var h := s.life.starts[s.life.ctl[k].msg.xid].thread;
            && Accepts(s.life.gtab, h)
            && var tid := s.life.gtab[h.idx].tid;
               tid < |s.hist| && s.hist[tid].h == h && s.hist[tid].started == (s.life.ctl[k].msg.err == 0)
  {
  }

  /** The other messages are not about the START request that ends. */
  lemma OthersAbout(s: State, k: nat)
    requires Life.PairsOk(s.life.starts, s.life.ctl) && Life.MsgsOk(s.life.gtab, s.life.starts, s.life.ctl)
    requires CtlReady(s, k) && s.life.ctl[k].msg.Started?
    ensures forall j :: j in s.life.ctl && j != k ==>
              Life.About(s.life.starts - {s.life.ctl[k].msg.xid}, s.life.ctl[j].msg) == Life.About(s.life.starts,
                s.life.ctl[j].msg)
  {
  }

  lemma StartedHist(c: Config, s: State, k: nat)
    requires LifeInv(c, s) && HistInv(s) && CanRecvStarted(c, s, k)
    ensures HistInv(RecvStartedStep(c, s, k))
  {
    hide Joins.HistInv, Life.CountersOk, Life.SlotsOk, Life.LocalsOk;
    var v := s.life;
    var y := v.ctl[k].msg.xid;
    StartedIsPending(c, s, k);
    OthersAbout(s, k);
    var i := v.starts[y].thread.idx;
    Joins.CtlChange(v.gtab, s.hist, v.lt, s.calls.app, v.starts, v.ctl, v.lt, v.starts - {y}, v.ctl - {k});
    Joins.SlotChange(v.gtab, s.hist, v.lt, s.calls.app, v.starts - {y}, v.ctl - {k}, i, FreeSlot(v.gtab[i]));
  }

  lemma StartedQuote(c: Config, s: State, k: nat)
    requires LifeInv(c, s) && HistInv(s) && QuoteInv(s) && CanRecvStarted(c, s, k)
    ensures QuoteInv(RecvStartedStep(c, s, k))
  {
    hide Life.Inv, Joins.HistInv, Joins.QuoteInv;
    var q := s.calls;
    StartedIsPending(c, s, k);
    StartedHistory(c, s, k);
    PutQuote(q.app, q.pend, q.rpc, s.hist, 0 !in s.draining, s.clock,
             CreatedFor(s.life.starts[s.life.ctl[k].msg.xid], s.life.ctl[k].msg.err));
  }

  /** Nobody who waits for a thread that was started, or for a unique handle that a
      create has returned, waits for a thread whose start failed. */
  lemma FailedUnwaited(c: Config, s: State, k: nat)
    requires LifeInv(c, s) && HistInv(s) && WaitInv(s)
    requires CtlReady(s, k) && s.life.ctl[k].msg.Started? && s.life.ctl[k].msg.err != 0
    ensures s.life.ctl[k].msg.xid in s.life.starts
    ensures var h := s.life.starts[s.life.ctl[k].msg.xid].thread;
            forall x :: x in s.waits && s.waits[x].thread == h ==>
              !s.hist[s.waits[x].tid].started && !(Known(s.hist, h) && Joins.Unique(s.hist, h))
  {
    hide Life.Inv, Joins.RetOk, Joins.HostOk, Joins.CtlOk, First;
    StartedHistory(c, s, k);
  }

  lemma StartedWaits(c: Config, s: State, k: nat)
    requires LifeInv(c, s) && HistInv(s) && WaitInv(s) && SeqInv(c, s) && CanRecvStarted(c, s, k)
    ensures var t := RecvStartedStep(c, s, k); WaitInv(t) && SeqInv(c, t)
  {
    hide LifeInv, HistInv, Joins.WaitInv, Joins.GensOk;
    StartedIsPending(c, s, k);
    StartedHistory(c, s, k);
    if s.life.ctl[k].msg.err != 0 {
      var h := s.life.starts[s.life.ctl[k].msg.xid].thread;
      Joins.SlotWaits(s.life.gtab, s.waits, s.hist, h.idx, FreeSlot(s.life.gtab[h.idx]));
    }
  }

  lemma RecvStartedKeeps(c: Config, s: State, k: nat)
    requires Inv(c, s) && CanRecvStarted(c, s, k)
    ensures Inv(c, RecvStartedStep(c, s, k))
  {
    hide LifeInv, CallsInv, OrderInv, HistInv, QuoteInv, SeqInv, WaitInv, Shutdown.Inv;
    StartedLife(c, s, k);
    StartedCalls(c, s, k);
    StartedOrder(c, s, k);
    StartedHist(c, s, k);
    StartedQuote(c, s, k);
    StartedWaits(c, s, k);
  }
}
