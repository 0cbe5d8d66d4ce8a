/** Return values and joins: what a joiner is told, how often, and which thread a
    pending JOINWAIT names. */
module Joins {
  import opened Types
  import opened Machine
  import Life
  import Calls

  type Hist = seq<Thread>

  // ------------------------------------------------------------ history

  /** A slot in use stands for one thread of the history, not yet joined, and has
      the dispatch index that thread was created with. */
  ghost predicate HistOk(gtab: Life.Gtab, hist: Hist) {
    forall i :: 0 <= i < |gtab| && gtab[i].used ==>
      && gtab[i].tid < |hist|
      && hist[gtab[i].tid].h == Handle(i, gtab[i].gen) && hist[gtab[i].tid].joins == 0
      && hist[gtab[i].tid].disp == gtab[i].disp
  }

  /** At most one successful JOINED per thread, and only after it ended. */
  ghost predicate JoinsOk(hist: Hist) {
    forall t :: 0 <= t < |hist| ==> hist[t].joins <= 1 && (hist[t].joins == 1 ==> hist[t].fin.Some?)
  }

  /** The table holds the value the thread left behind. */
  ghost predicate RetOk(gtab: Life.Gtab, hist: Hist) {
    forall i :: 0 <= i < |gtab| && gtab[i].used && gtab[i].tid < |hist| ==>
      && (hist[gtab[i].tid].fin.Some? ==> gtab[i].ret == hist[gtab[i].tid].fin.value)
      && (gtab[i].terminated != 0 ==> hist[gtab[i].tid].fin.Some?)
  }

  ghost predicate HostOk(gtab: Life.Gtab, hist: Hist, lt: Life.Ltab, app: Calls.Apps) {
    forall a :: a in lt && a in app && lt[a].gidx < |gtab| && gtab[lt[a].gidx].tid < |hist| ==>
      && hist[gtab[lt[a].gidx].tid].started
      && (hist[gtab[lt[a].gidx].tid].fin.Some? <==> app[a].req.BusyRetclean?)
  }

  /** What a control message says about its thread's history. */
  ghost predicate CtlHist(m: CtlMsg, t: Thread) {
    match m
    case Start(_, _) => !t.started && t.fin.None?
    case Started(_, err) => t.started == (err == 0)
    case Terminated(_, _) => t.fin.Some?
  }

  ghost predicate CtlOk(gtab: Life.Gtab, hist: Hist, starts: Life.Starts, ctl: Life.Wire) {
    forall k ::
      && k in ctl && 0 <= Life.About(starts, ctl[k].msg) < |gtab|
      && gtab[Life.About(starts, ctl[k].msg)].tid < |hist| ==>
      CtlHist(ctl[k].msg, hist[gtab[Life.About(starts, ctl[k].msg)].tid])
  }

  // ------------------------------------------------------------ results

  /** Some thread with handle h ended with value ret and was joined, once. */
  ghost predicate Joined(hist: Hist, h: Handle, ret: Ret) {
    exists t: nat :: t < |hist| && hist[t].h == h && hist[t].joins == 1 && hist[t].fin == Some(ret)
  }

  ghost predicate ResultOk(hist: Hist, op: Op, res: Result) {
    res.err == 0 ==>
      (op == JOIN ==> Joined(hist, res.thread, res.ret)) && (op == CREATE ==> Known(hist, res.thread))
  }

  /** A reply that reports success is true, and answers the question asked. */
  ghost predicate RepliesOk(app: Calls.Apps, pend: Calls.Pend, rpc: Calls.Wire, hist: Hist) {
    forall k :: k in rpc && rpc[k].msg.Answer? ==>
      && ResultOk(hist, rpc[k].msg.op, rpc[k].msg.result)
      && (rpc[k].msg.op == JOIN && rpc[k].msg.result.err == 0 ==>
            Calls.CallIs(app, pend, rpc[k].Key(), CallJoin(rpc[k].msg.result.thread)))
  }

  ghost predicate DoneOk(app: Calls.Apps, hist: Hist) {
    forall a :: a in app && app[a].req.Done? ==>
      && ResultOk(hist, app[a].req.call.Op(), app[a].req.result)
      && (app[a].req.call.CallJoin? && app[a].req.result.err == 0 ==>
            app[a].req.call.thread == app[a].req.result.thread)
  }

  // ------------------------------------------------------------ JOINWAIT

  /** At most one JOINWAIT per thread, none for a detached or terminated one. */
  ghost predicate WaitsOk(gtab: Life.Gtab, waits: Calls.Waits) {
    && (forall x :: x in waits && Accepts(gtab, waits[x].thread) ==>
          !gtab[waits[x].thread.idx].detached && gtab[waits[x].thread.idx].terminated == 0)
    && (forall x, y :: x in waits && y in waits && waits[x].thread == waits[y].thread ==> x == y)
  }

  /** Until rank 0's source wraps, handles of distinct threads differ. */
  ghost predicate GensOk(hist: Hist, src: nat, wrapped: bool) {
    !wrapped ==>
      && (forall t, u :: 0 <= t < u < |hist| ==> hist[t].h.gen < hist[u].h.gen)
      && (forall t :: 0 <= t < |hist| ==> hist[t].h.gen < src)
  }

  /** The slot that h names is allocated, and to thread t. */
  predicate SlotOf(gtab: Life.Gtab, h: Handle, t: nat) {
    Accepts(gtab, h) && gtab[h.idx].tid == t
  }

  /** A pending JOINWAIT for a thread whose pthread was created names its slot. */
  ghost predicate WaitsLive(gtab: Life.Gtab, waits: Calls.Waits, hist: Hist) {
    forall x :: x in waits ==>
      var w := waits[x];
      w.tid < |hist| && hist[w.tid].h == w.thread && (hist[w.tid].started ==> SlotOf(gtab, w.thread, w.tid))
  }

  // ------------------------------------------------------------ history only grows

  ghost predicate Grows(hist: Hist, hist': Hist) {
    && |hist| <= |hist'|
    && forall t :: 0 <= t < |hist| ==>
         && hist'[t].h == hist[t].h && hist'[t].disp == hist[t].disp && (hist[t].started ==> hist'[t].started)
         && (hist[t].fin.Some? ==> hist'[t].fin == hist[t].fin) && hist[t].joins <= hist'[t].joins
  }

  /** Everything that only quotes the history survives its growth. */
  lemma QuotesGrow(app: Calls.Apps, pend: Calls.Pend, rpc: Calls.Wire, hist: Hist, hist': Hist)
    requires Grows(hist, hist') && JoinsOk(hist')
    requires RepliesOk(app, pend, rpc, hist) && DoneOk(app, hist)
    ensures RepliesOk(app, pend, rpc, hist') && DoneOk(app, hist')
  {
  }

  /** At most one thread of the history has handle h. */
  ghost predicate Unique(hist: Hist, h: Handle) {
    forall t, u :: 0 <= t < u < |hist| && hist[t].h == h ==> hist[u].h != h
  }

  /** Before rank 0's source wraps every handle is unique. */
  lemma UniqueBeforeWrap(hist: Hist, src: nat, h: Handle)
    requires GensOk(hist, src, false)
    ensures Unique(hist, h)
  {
  }

  /** A unique handle that was given out and that the table accepts is that of the
      slot's own, started thread. */
  lemma AcceptedIsStarted(gtab: Life.Gtab, hist: Hist, h: Handle)
    requires HistOk(gtab, hist) && Unique(hist, h) && Accepts(gtab, h) && Known(hist, h)
    ensures hist[gtab[h.idx].tid].started
  {
  }

  // ------------------------------------------------------------ what steps do to the history

  ghost predicate HistInv(gtab: Life.Gtab, hist: Hist, lt: Life.Ltab, app: Calls.Apps, starts: Life.Starts,
                          ctl: Life.Wire) {
    HistOk(gtab, hist) && JoinsOk(hist) && RetOk(gtab, hist) && HostOk(gtab, hist, lt, app)
    && CtlOk(gtab, hist, starts, ctl)
  }

  /** Blocks change, but nobody starts or stops waiting for its clean-up. */
  lemma AppChange(gtab: Life.Gtab, hist: Hist, lt: Life.Ltab, app: Calls.Apps, app': Calls.Apps, starts: Life.Starts,
                  ctl: Life.Wire)
    requires HistInv(gtab, hist, lt, app, starts, ctl)
    requires forall a :: a in lt && a in app' ==> a in app && (app'[a].req.BusyRetclean? <==> app[a].req.BusyRetclean?)
    ensures HistInv(gtab, hist, lt, app', starts, ctl)
  {
  }

  /** A slot keeps what the history says about it, or is freed. */
  lemma SlotChange(gtab: Life.Gtab, hist: Hist, lt: Life.Ltab, app: Calls.Apps, starts: Life.Starts, ctl: Life.Wire,
                   i: nat, g: Slot)
    requires HistInv(gtab, hist, lt, app, starts, ctl) && i < |gtab| && g.tid == gtab[i].tid
    requires g.used ==> gtab[i].used && g.gen == gtab[i].gen && g.ret == gtab[i].ret && g.disp == gtab[i].disp
    requires g.used && g.terminated != 0 && gtab[i].tid < |hist| ==> hist[gtab[i].tid].fin.Some?
    ensures HistInv(gtab[i := g], hist, lt, app, starts, ctl)
  {
  }

  /** Control messages and records that stay are still about the same slots. */
  lemma CtlChange(gtab: Life.Gtab, hist: Hist, lt: Life.Ltab, app: Calls.Apps, starts: Life.Starts, ctl: Life.Wire,
                  lt': Life.Ltab, starts': Life.Starts, ctl': Life.Wire)
    requires HistInv(gtab, hist, lt, app, starts, ctl)
    requires forall k :: k in ctl' ==>
               k in ctl && ctl'[k] == ctl[k] && Life.About(starts', ctl'[k].msg) == Life.About(starts, ctl[k].msg)
    requires forall a :: a in lt' ==> a in lt && lt'[a] == lt[a]
    ensures HistInv(gtab, hist, lt', app, starts', ctl')
  {
  }

  lemma CtlSend(gtab: Life.Gtab, hist: Hist, lt: Life.Ltab, app: Calls.Apps, starts: Life.Starts, ctl: Life.Wire,
                clock: nat, p: Ctl)
    requires HistInv(gtab, hist, lt, app, starts, ctl)
    requires var i := Life.About(starts, p.msg);
             0 <= i < |gtab| && gtab[i].tid < |hist| && CtlHist(p.msg, hist[gtab[i].tid])
    ensures HistInv(gtab, hist, lt, app, starts, ctl[clock := p])
  {
  }

  /** retclean_request stores the value the thread leaves behind. */
  lemma Leaves(c: Config, gtab: Life.Gtab, hist: Hist, lt: Life.Ltab, app: Calls.Apps, starts: Life.Starts,
               ctl: Life.Wire, a: Loc, p: App, v: Ret)
    requires HistInv(gtab, hist, lt, app, starts, ctl)
    requires Life.LocalsOk(c, gtab, lt) && Life.HostedOk(lt, starts, ctl) && Life.MsgsOk(gtab, starts, ctl)
    requires a in lt && a in app && !app[a].req.BusyRetclean? && p.req.BusyRetclean?
    ensures var i := lt[a].gidx;
            gtab[i].tid < |hist|
            && var hist' := hist[gtab[i].tid := hist[gtab[i].tid].(fin := Some(v))];
               Grows(hist, hist') && HistInv(gtab[i := gtab[i].(ret := v)], hist', lt, app[a := p], starts, ctl)
  {
    var i := lt[a].gidx;
    assert Life.Live(gtab, Handle(i, lt[a].gen));
    var t := gtab[i].tid;
    var hist' := hist[t := hist[t].(fin := Some(v))];
    var g' := gtab[i := gtab[i].(ret := v)];
    assert hist[t].h.idx == i && hist[t].fin.None?;
    assert OnlySlot(gtab, hist, i) by { TidsDiffer(gtab, hist, i); }
    LeavesHost(c, gtab, hist, lt, app, a, p, v);
    forall k | k in ctl
      ensures 0 <= Life.About(starts, ctl[k].msg) < |gtab| && gtab[Life.About(starts, ctl[k].msg)].used
    {
      assert Life.MsgOk(gtab, starts, ctl[k]);
    }
    LeavesCtl(gtab, hist, lt, starts, ctl, a, v);
  }

  /** No other slot in use stands for slot i's thread. */
  ghost predicate OnlySlot(gtab: Life.Gtab, hist: Hist, i: nat)
    requires i < |gtab|
  {
    forall j :: 0 <= j < |gtab| && j != i && gtab[j].used ==> gtab[j].tid != gtab[i].tid
  }

  lemma TidsDiffer(gtab: Life.Gtab, hist: Hist, i: nat)
    requires HistOk(gtab, hist) && i < |gtab| && gtab[i].used
    ensures OnlySlot(gtab, hist, i)
  {
  }

  lemma LeavesHost(c: Config, gtab: Life.Gtab, hist: Hist, lt: Life.Ltab, app: Calls.Apps, a: Loc, p: App, v: Ret)
    requires HistOk(gtab, hist) && HostOk(gtab, hist, lt, app) && Life.LocalsOk(c, gtab, lt)
    requires a in lt && a in app && p.req.BusyRetclean? && gtab[lt[a].gidx].tid < |hist|
    ensures var i := lt[a].gidx;
            HostOk(gtab[i := gtab[i].(ret := v)], hist[gtab[i].tid := hist[gtab[i].tid].(fin := Some(v))], lt,
                   app[a := p])
  {
  }

  lemma LeavesCtl(gtab: Life.Gtab, hist: Hist, lt: Life.Ltab, starts: Life.Starts, ctl: Life.Wire, a: Loc, v: Ret)
    requires CtlOk(gtab, hist, starts, ctl) && Life.HostedOk(lt, starts, ctl)
    requires a in lt && lt[a].gidx < |gtab| && gtab[lt[a].gidx].tid < |hist|
    requires forall k ::
               && k in ctl && 0 <= Life.About(starts, ctl[k].msg) < |gtab|
               && Life.About(starts, ctl[k].msg) != lt[a].gidx ==>
               gtab[Life.About(starts, ctl[k].msg)].tid != gtab[lt[a].gidx].tid
    ensures var i := lt[a].gidx;
            CtlOk(gtab[i := gtab[i].(ret := v)], hist[gtab[i].tid := hist[gtab[i].tid].(fin := Some(v))], starts, ctl)
  {
  }

  /** RecvCreate: a new thread in a free slot. */
  lemma NewThread(c: Config, gtab: Life.Gtab, hist: Hist, lt: Life.Ltab, app: Calls.Apps, starts: Life.Starts,
                  ctl: Life.Wire, p: nat, g: Slot)
    requires HistInv(gtab, hist, lt, app, starts, ctl)
    requires p < |gtab| && Life.Loose(lt, starts, ctl, p)
    requires g.used && g.tid == |hist| && g.terminated == 0
    requires Life.LocalsOk(c, gtab, lt) && Life.MsgsOk(gtab, starts, ctl)
    ensures var hist' := hist + [Thread(Handle(p, g.gen), g.disp, false, None, 0)];
            Grows(hist, hist') && HistInv(gtab[p := g], hist', lt, app, starts, ctl)
  {
    var hist' := hist + [Thread(Handle(p, g.gen), g.disp, false, None, 0)];
    var w := gtab[p := g];
    forall a | a in lt && a in app
      ensures hist'[w[lt[a].gidx].tid].started && (hist'[w[lt[a].gidx].tid].fin.Some? <==> app[a].req.BusyRetclean?)
    {
      assert Life.Live(gtab, Handle(lt[a].gidx, lt[a].gen));
    }
    forall k | k in ctl ensures CtlHist(ctl[k].msg, hist'[w[Life.About(starts, ctl[k].msg)].tid]) {
      assert Life.MsgOk(gtab, starts, ctl[k]);
    }
  }

  /** RecvStart: the pthread exists from now on. */
  lemma Begins(c: Config, gtab: Life.Gtab, hist: Hist, lt: Life.Ltab, app: Calls.Apps, starts: Life.Starts,
               ctl: Life.Wire, k: nat, i: nat)
    requires HistInv(gtab, hist, lt, app, starts, ctl)
    requires Life.LocalsOk(c, gtab, lt) && Life.MsgsOk(gtab, starts, ctl)
    requires k in ctl && ctl[k].msg.Start? && i == ctl[k].msg.thread.idx && i < |gtab| && gtab[i].used
    requires forall j :: j in ctl && Life.About(starts, ctl[j].msg) == i ==> j == k
    requires forall a :: a in lt ==> lt[a].gidx != i
    ensures gtab[i].tid < |hist| && hist[gtab[i].tid].fin.None?
    ensures var hist' := hist[gtab[i].tid := hist[gtab[i].tid].(started := true)];
            Grows(hist, hist') && HistInv(gtab, hist', lt, app, starts, ctl - {k})
  {
    var t := gtab[i].tid;
    var hist' := hist[t := hist[t].(started := true)];
    TidsDiffer(gtab, hist, i);
    assert CtlHist(ctl[k].msg, hist[t]);
    forall a | a in lt ensures gtab[lt[a].gidx].tid != t {
      assert Life.Live(gtab, Handle(lt[a].gidx, lt[a].gen));
    }
    forall j | j in ctl - {k} ensures var m := Life.About(starts, ctl[j].msg); 0 <= m < |gtab| && gtab[m].tid != t {
      assert Life.MsgOk(gtab, starts, ctl[j]);
    }
  }

  lemma AddHost(gtab: Life.Gtab, hist: Hist, lt: Life.Ltab, app: Calls.Apps, starts: Life.Starts, ctl: Life.Wire,
                a: Loc, e: Local, p: App)
    requires HistInv(gtab, hist, lt, app, starts, ctl) && a !in lt
    requires e.gidx < |gtab| && gtab[e.gidx].tid < |hist| && hist[gtab[e.gidx].tid].started
             && hist[gtab[e.gidx].tid].fin.None?
    requires !p.req.BusyRetclean?
    ensures HistInv(gtab, hist, lt[a := e], app[a := p], starts, ctl)
  {
  }

  /** A successful JOINED: the slot is free, the thread counts as joined. */
  lemma Joins(c: Config, gtab: Life.Gtab, hist: Hist, lt: Life.Ltab, app: Calls.Apps, starts: Life.Starts,
              ctl: Life.Wire, i: nat)
    requires HistInv(gtab, hist, lt, app, starts, ctl)
    requires i < |gtab| && gtab[i].used && gtab[i].tid < |hist| && hist[gtab[i].tid].fin.Some?
    ensures var hist' := MarkJoined(hist, gtab[i].tid);
            && Grows(hist, hist') && HistInv(gtab[i := FreeSlot(gtab[i])], hist', lt, app, starts, ctl)
            && Joined(hist', Handle(i, gtab[i].gen), gtab[i].ret)
  {
    var t := gtab[i].tid;
    var hist' := MarkJoined(hist, t);
    TidsDiffer(gtab, hist, i);
    SlotChange(gtab, hist, lt, app, starts, ctl, i, FreeSlot(gtab[i]));
    assert hist'[t].h == Handle(i, gtab[i].gen) && hist'[t].joins == 1 && hist'[t].fin == Some(gtab[i].ret);
  }

  // ------------------------------------------------------------ what steps do to results

  ghost predicate QuoteInv(app: Calls.Apps, pend: Calls.Pend, rpc: Calls.Wire, hist: Hist) {
    RepliesOk(app, pend, rpc, hist) && DoneOk(app, hist)
  }

  lemma AddReply(app: Calls.Apps, pend: Calls.Pend, rpc: Calls.Wire, hist: Hist, clock: nat, m: Rpc)
    requires QuoteInv(app, pend, rpc, hist)
    requires m.msg.Answer? ==> ResultOk(hist, m.msg.op, m.msg.result)
    requires m.msg.Answer? && m.msg.op == JOIN && m.msg.result.err == 0 ==>
               Calls.CallIs(app, pend, m.Key(), CallJoin(m.msg.result.thread))
    ensures QuoteInv(app, pend, rpc[clock := m], hist)
  {
  }

  lemma CutReply(app: Calls.Apps, pend: Calls.Pend, rpc: Calls.Wire, hist: Hist, ks: set<nat>)
    requires QuoteInv(app, pend, rpc, hist)
    ensures QuoteInv(app, pend, rpc - ks, hist)
  {
  }

  /** A block that is not pending changes and shows no new result or question. */
  lemma QuietApp(c: Config, app: Calls.Apps, pend: Calls.Pend, rpc: Calls.Wire, hist: Hist, a: Loc, p: App)
    requires QuoteInv(app, pend, rpc, hist) && Calls.PendOk(c, app, pend)
    requires a in app && app[a].req.BusyCall? && app[a].req.xid.Some? ==> p.req == app[a].req
    requires p.req.Done? ==> p.req.result.err != 0 || (a in app && p.req == app[a].req)
    ensures QuoteInv(app[a := p], pend, rpc, hist)
  {
  }

  lemma GoneApp(c: Config, app: Calls.Apps, pend: Calls.Pend, rpc: Calls.Wire, hist: Hist, a: Loc)
    requires QuoteInv(app, pend, rpc, hist) && Calls.PendOk(c, app, pend)
    requires a in app && !(app[a].req.BusyCall? && app[a].req.xid.Some?)
    ensures QuoteInv(app - {a}, pend, rpc, hist)
  {
  }

  /** A request is sent: its block becomes pending. */
  lemma SentApp(c: Config, app: Calls.Apps, pend: Calls.Pend, rpc: Calls.Wire, hist: Hist, a: Loc, p: App, id: CallId)
    requires QuoteInv(app, pend, rpc, hist) && Calls.PendOk(c, app, pend)
    requires a in app && app[a].req.BusyCall? && app[a].req.xid.None? && p.req.BusyCall?
             && p.req.call == app[a].req.call
    requires id !in pend
    ensures QuoteInv(app[a := p], pend[id := a.lidx], rpc, hist)
  {
  }

  /** The reply hands its result to the block that asked. */
  lemma Delivered(c: Config, app: Calls.Apps, queue: seq<seq<nat>>, pend: Calls.Pend, rpc: Calls.Wire,
                  starts: Life.Starts, waits: Calls.Waits,
                  draining: set<nat>, hist: Hist, k: nat)
    requires QuoteInv(app, pend, rpc, hist) && Calls.Inv(c, app, queue, pend, rpc, starts, waits, draining)
    requires k in rpc && rpc[k].msg.Answer?
    ensures var id := rpc[k].Key();
            && id in pend
            && var a := Loc(id.rank, pend[id]);
            && a in app && app[a].req.BusyCall?
            && QuoteInv(app[a := app[a].(req := Done(app[a].req.call, rpc[k].msg.result))], pend - {id}, rpc - {k},
                        hist)
  {
    var id := rpc[k].Key();
    var v := Calls.Tokens(rpc, starts, waits);
    assert Calls.OnWire(k) in v && v[Calls.OnWire(k)] == id;
    var a := Loc(id.rank, pend[id]);
    assert Calls.PendsAs(app, id, pend[id]);
    var app' := app[a := app[a].(req := Done(app[a].req.call, rpc[k].msg.result))];
    forall j | j in rpc - {k} ensures rpc[j].Key() != id { assert Calls.OnWire(j) in v; }
    assert Calls.SameCalls(app, pend, app', pend - {id}, Some(id));
  }

  // ------------------------------------------------------------ what steps do to JOINWAITs

  ghost predicate WaitInv(gtab: Life.Gtab, waits: Calls.Waits, hist: Hist) {
    WaitsOk(gtab, waits) && WaitsLive(gtab, waits, hist)
  }

  /** A slot changes only in ways no JOINWAIT can notice, is taken for a new thread,
      or loses a thread that nobody waits for or that never started. */
  lemma SlotWaits(gtab: Life.Gtab, waits: Calls.Waits, hist: Hist, i: nat, g: Slot)
    requires WaitInv(gtab, waits, hist) && i < |gtab|
    requires || (g.used == gtab[i].used && g.gen == gtab[i].gen && g.tid == gtab[i].tid
                 && g.detached == gtab[i].detached && g.terminated == gtab[i].terminated)
             || (g.used && !g.detached && g.terminated == 0 && !gtab[i].used)
             || (forall x :: x in waits ==>
                   waits[x].thread != Handle(i, gtab[i].gen) && waits[x].thread != Handle(i, g.gen))
             || (!g.used && forall x :: x in waits ==> waits[x].thread != Handle(i, gtab[i].gen))
             || (!g.used && !gtab[i].used)
             || (!g.used && gtab[i].tid < |hist| && !hist[gtab[i].tid].started)
    ensures WaitInv(gtab[i := g], waits, hist)
  {
  }

  lemma CutWaits(gtab: Life.Gtab, waits: Calls.Waits, hist: Hist, x: set<nat>)
    requires WaitInv(gtab, waits, hist)
    ensures WaitInv(gtab, waits - x, hist)
  {
  }

  lemma AddWait(gtab: Life.Gtab, waits: Calls.Waits, hist: Hist, x: nat, rec: WaitRec)
    requires WaitInv(gtab, waits, hist) && HistOk(gtab, hist) && SlotOf(gtab, rec.thread, rec.tid)
    requires !gtab[rec.thread.idx].detached && gtab[rec.thread.idx].terminated == 0
    requires forall y :: y in waits ==> waits[y].thread != rec.thread
    ensures WaitInv(gtab, waits[x := rec], hist)
  {
  }

  /** The history grows and nobody starts. */
  lemma WaitsGrow(gtab: Life.Gtab, waits: Calls.Waits, hist: Hist, hist': Hist)
    requires WaitInv(gtab, waits, hist) && Grows(hist, hist')
    requires forall t :: 0 <= t < |hist| ==> hist'[t].started == hist[t].started
    ensures WaitInv(gtab, waits, hist')
  {
  }

  /** The thread of slot i starts. */
  lemma WaitsStart(gtab: Life.Gtab, waits: Calls.Waits, hist: Hist, i: nat)
    requires WaitInv(gtab, waits, hist) && HistOk(gtab, hist) && i < |gtab| && gtab[i].used
    ensures WaitInv(gtab, waits, MarkStarted(hist, gtab[i].tid))
  {
  }

  lemma GensGrow(hist: Hist, hist': Hist, src: nat, wrapped: bool)
    requires GensOk(hist, src, wrapped) && Grows(hist, hist') && |hist'| == |hist|
    ensures GensOk(hist', src, wrapped)
  {
  }
}
