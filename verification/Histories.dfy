/** What holds over whole runs: slots are reclaimed safely, a thread is joined at
    most once, a rank is told to shut down at most once, and a zombie that is
    detached keeps its slot for good. */
module Histories {
  import opened Types
  import opened Machine
  import opened Invariant
  import opened Protocol
  import Life
  import Joins
  import Shutdown
  import Router
  import Sequence
  import AppSteps
  import TerminateSteps

  // ------------------------------------------------------------ one step

  /** A slot that detached after its thread had terminated. */
  predicate Leaked(g: Slot) {
    g.used && g.detached && g.terminated != 0
  }

  /** One slot across one step, n threads having been created before it and the
      next one due on rank r. */
  ghost predicate SlotEvolves(g: Slot, g': Slot, n: nat, r: nat) {
    && (Leaked(g) ==> Leaked(g'))
    && (g.used && g.detached && g.terminated == 0 && g'.used ==> g'.detached && g'.terminated == 0)
    && (g'.used ==>
          || (g.used && g'.gen == g.gen && g'.tid == g.tid && g'.rank == g.rank && g'.disp == g.disp)
          || (!g.used && g'.tid == n && g'.rank == r))
  }

  ghost predicate SlotsEvolve(gtab: Life.Gtab, gtab': Life.Gtab, n: nat, r: nat) {
    |gtab'| == |gtab| && forall i :: 0 <= i < |gtab| ==> SlotEvolves(gtab[i], gtab'[i], n, r)
  }

  ghost predicate Evolves(s: State, t: State) {
    && SlotsEvolve(s.life.gtab, t.life.gtab, |s.hist|, s.nextRank) && Joins.Grows(s.hist, t.hist)
    && (s.wrapped ==> t.wrapped) && s.draining <= t.draining
  }

  lemma OneSlotEvolves(gtab: Life.Gtab, i: nat, g: Slot, n: nat, r: nat)
    requires i < |gtab| && SlotEvolves(gtab[i], g, n, r)
    ensures SlotsEvolve(gtab, gtab[i := g], n, r)
  {
  }

  /** The steps of application threads. */
  predicate AppStep(e: Step) {
    e.AppRun? || e.AppIssue? || e.AppWake? || e.AppExit? || e.AppRetclean? || e.AppMainReturn?
  }

  /** Manager turns on requests and messages of thread creation. */
  predicate CreateStep(e: Step) {
    e.TakeCall? || e.TakeRetclean? || e.RecvCreate? || e.RecvStart? || e.RecvStarted?
  }

  /** Steps of the shutdown broadcast. */
  predicate DrainStep(e: Step) {
    e.TakeMain? || e.RecvShutdown? || e.Quiesce?
  }

  lemma PlainAppEvolves(c: Config, s: State, e: Step)
    requires Enabled(c, s, e) && (e.AppIssue? || e.AppWake? || e.AppExit? || e.AppMainReturn?)
    ensures Evolves(s, Next(c, s, e))
  {
  }

  lemma DrainEvolves(c: Config, s: State, e: Step)
    requires Enabled(c, s, e) && DrainStep(e)
    ensures Evolves(s, Next(c, s, e))
  {
    hide SendAll;
    SameEvolves(s.life.gtab, |s.hist|, s.nextRank);
  }

  lemma PlainEvolves(c: Config, s: State, e: Step)
    requires Enabled(c, s, e) && (e.RecvCancel? || e.RecvReply?)
    ensures Evolves(s, Next(c, s, e))
  {
    hide Replied, Cancelled, Tick;
    SameEvolves(s.life.gtab, |s.hist|, s.nextRank);
  }

  lemma RunEvolves(c: Config, s: State, a: Loc)
    requires CanRun(c, s, a)
    ensures Evolves(s, Machine.Run(c, s, a))
  {
  }

  lemma RetcleanEvolves(c: Config, s: State, a: Loc, fin: nat, ret: Ret)
    requires LifeInv(c, s) && HistInv(s) && CanRetclean(c, s, a, fin)
    ensures Evolves(s, Retclean(c, s, a, fin, ret))
  {
    hide Life.Inv, Joins.HistInv;
    AppSteps.RetcleanHist(c, s, a, fin, ret);
    var i := s.life.lt[a].gidx;
    OneSlotEvolves(s.life.gtab, i, s.life.gtab[i].(ret := FinalRet(FinalState(s.calls.app[a].st, fin), ret)), |s.hist|,
                   s.nextRank);
  }

  lemma TakeEvolves(c: Config, s: State, e: Step)
    requires Enabled(c, s, e) && (e.TakeCall? || e.TakeRetclean?)
    ensures Evolves(s, Next(c, s, e))
  {
  }

  lemma CreateEvolves(c: Config, s: State, k: nat, p: nat, xid: nat, src: nat, wrap: bool)
    requires CanRecvCreate(c, s, k, p, xid, src, wrap)
    ensures Evolves(s, RecvCreateStep(c, s, k, p, xid, src, wrap))
  {
  }

  lemma StartEvolves(c: Config, s: State, k: nat, l: nat, err: nat)
    requires CanRecvStart(c, s, k, l, err)
    ensures Evolves(s, RecvStartStep(c, s, k, l, err))
  {
  }

  lemma StartedEvolves(c: Config, s: State, k: nat)
    requires LifeInv(c, s) && CanRecvStarted(c, s, k)
    ensures Evolves(s, RecvStartedStep(c, s, k))
  {
    hide Life.CountersOk, Life.WireOk, Life.MsgsOk, Life.LocalsOk, Life.SlotsOk;
  }

  lemma TerminatedIsLive(c: Config, s: State, k: nat)
    requires LifeInv(c, s) && CanRecvTerminated(c, s, k)
    ensures var h := s.life.ctl[k].msg.thread; Accepts(s.life.gtab, h) && s.life.gtab[h.idx].terminated == 0
  {
  }

  lemma TerminatedEvolves(c: Config, s: State, k: nat)
    requires LifeInv(c, s) && CanRecvTerminated(c, s, k)
    ensures Evolves(s, RecvTerminatedStep(c, s, k))
  {
    hide LifeInv, SlotsEvolve, Put, Tick, FindWait, First;
    TerminatedIsLive(c, s, k);
    var i := s.life.ctl[k].msg.thread.idx;
    var g := s.life.gtab[i].(terminated := s.life.ctl[k].msg.fin, hasLtab := false);
    SameEvolves(s.life.gtab, |s.hist|, s.nextRank);
    if !g.detached { OneSlotEvolves(s.life.gtab, i, g, |s.hist|, s.nextRank); }
    OneSlotEvolves(s.life.gtab, i, FreeSlot(g), |s.hist|, s.nextRank);
  }

  lemma DetachEvolves(c: Config, s: State, k: nat)
    requires CanRecvAsk(c, s, k, DETACH)
    ensures Evolves(s, RecvDetachStep(c, s, k))
  {
    hide Replied, Put, Tick, FindWait, SlotsEvolve, First;
    var h := s.calls.rpc[k].msg.call.thread;
    if Accepts(s.life.gtab, h) {
      OneSlotEvolves(s.life.gtab, h.idx, s.life.gtab[h.idx].(detached := true), |s.hist|, s.nextRank);
    } else {
      SameEvolves(s.life.gtab, |s.hist|, s.nextRank);
    }
  }

  lemma SameEvolves(gtab: Life.Gtab, n: nat, r: nat)
    ensures SlotsEvolve(gtab, gtab, n, r)
  {
  }

  lemma JoinEvolves(c: Config, s: State, k: nat)
    requires CanRecvAsk(c, s, k, JOIN)
    ensures Evolves(s, RecvJoinStep(c, s, k))
  {
    hide Replied, Tick, FindWait, First, SlotsEvolve;
    var h := s.calls.rpc[k].msg.call.thread;
    SameEvolves(s.life.gtab, |s.hist|, s.nextRank);
    if WhichJoin(s, h) == JoinZombie {
      OneSlotEvolves(s.life.gtab, h.idx, FreeSlot(s.life.gtab[h.idx]), |s.hist|, s.nextRank);
    }
  }

  lemma StepEvolves(c: Config, s: State, e: Step)
    requires Inv(c, s) && Enabled(c, s, e)
    ensures Evolves(s, Next(c, s, e))
  {
    hide Evolves, LifeInv, CallsInv, OrderInv, HistInv, QuoteInv, WaitInv, SeqInv, Shutdown.Inv;
    match e
    case AppRun(a) => RunEvolves(c, s, a);
    case AppRetclean(a, fin, ret) => RetcleanEvolves(c, s, a, fin, ret);
    case RecvCreate(k, p, xid, src, wrap) => CreateEvolves(c, s, k, p, xid, src, wrap);
    case RecvStart(k, l, err) => StartEvolves(c, s, k, l, err);
    case RecvStarted(k) => StartedEvolves(c, s, k);
    case RecvTerminated(k) => TerminatedEvolves(c, s, k);
    case RecvDetach(k) => DetachEvolves(c, s, k);
    case RecvJoin(k) => JoinEvolves(c, s, k);
    case TakeCall(_, _, _, _) => TakeEvolves(c, s, e);
    case TakeRetclean(_) => TakeEvolves(c, s, e);
    case AppIssue(_, _) => PlainAppEvolves(c, s, e);
    case AppWake(_) => PlainAppEvolves(c, s, e);
    case AppExit(_) => PlainAppEvolves(c, s, e);
    case AppMainReturn => PlainAppEvolves(c, s, e);
    case RecvCancel(_) => PlainEvolves(c, s, e);
    case RecvReply(_) => PlainEvolves(c, s, e);
    case _ => DrainEvolves(c, s, e);
  }

  // ------------------------------------------------------------ reclamation

  /** h was the handle of a thread and the table no longer accepts it. */
  ghost predicate Retired(s: State, h: Handle) {
    !Accepts(s.life.gtab, h) && exists t: nat :: t < |s.hist| && s.hist[t].h == h
  }

  lemma RetiredStep(s: State, t: State, h: Handle)
    requires Evolves(s, t) && Retired(s, h) && Joins.HistOk(t.life.gtab, t.hist) && Joins.Unique(t.hist, h)
    ensures Retired(t, h)
  {
  }

  lemma RetiredNext(c: Config, s: State, e: Step, h: Handle)
    requires Inv(c, s) && Enabled(c, s, e) && Retired(s, h) && Joins.Unique(Next(c, s, e).hist, h)
    ensures Retired(Next(c, s, e), h)
  {
    var t := Next(c, s, e);
    hide Inv, Next, Enabled, Evolves, Retired, Joins.Unique;
    StepKeeps(c, s, e);
    StepEvolves(c, s, e);
    HistoryOf(c, t);
    RetiredStep(s, t, h);
  }

  lemma UniqueStays(hist: Joins.Hist, hist': Joins.Hist, h: Handle)
    requires Joins.Grows(hist, hist') && Joins.Unique(hist', h)
    ensures Joins.Unique(hist, h)
  {
  }

  /** A handle that is unique in the end was unique all along. */
  lemma {:induction false} UniqueBefore(c: Config, ss: seq<State>, es: seq<Step>, h: Handle, i: nat, j: nat)
    requires Protocol.Run(c, ss, es) && i <= j <= |es| && Joins.Unique(ss[j].hist, h)
    ensures Joins.Unique(ss[i].hist, h)
    decreases j
  {
    hide Inv, Enabled, Next, Init, SlotsEvolve, Joins.Grows, Joins.Unique;
    if i < j {
      RunKeeps(c, ss, es, j - 1);
      StepEvolves(c, ss[j - 1], es[j - 1]);
      UniqueStays(ss[j - 1].hist, ss[j].hist, h);
      UniqueBefore(c, ss, es, h, i, j - 1);
    }
  }

  lemma HistoryOf(c: Config, s: State)
    requires Inv(c, s)
    ensures 0 < |s.src| && Joins.HistOk(s.life.gtab, s.hist) && Joins.JoinsOk(s.hist)
            && Joins.GensOk(s.hist, s.src[0], s.wrapped)
  {
  }

  /** Until rank 0's source wraps, every handle is unique. */
  lemma UniqueUntilWrap(c: Config, s: State, h: Handle)
    requires Reached(c, s) && !s.wrapped
    ensures Joins.Unique(s.hist, h)
  {
    hide Inv, Reached, Joins.Unique, Joins.GensOk;
    ReachedInv(c, s);
    HistoryOf(c, s);
    Joins.UniqueBeforeWrap(s.hist, s.src[0], h);
  }

  /** A handle the table has dropped is not accepted again, in any later state of
      any run in which it is still the handle of one thread only. */
  lemma {:induction false} RetiredForever(c: Config, ss: seq<State>, es: seq<Step>, h: Handle, i: nat, j: nat)
    requires Protocol.Run(c, ss, es) && i <= j <= |es| && Retired(ss[i], h) && Joins.Unique(ss[j].hist, h)
    ensures Retired(ss[j], h)
    decreases j
  {
    hide Inv, Retired, Enabled, Next, Init, Joins.Unique;
    if i < j {
      RunKeeps(c, ss, es, j - 1);
      UniqueBefore(c, ss, es, h, j - 1, j);
      RetiredForever(c, ss, es, h, i, j - 1);
      RetiredNext(c, ss[j - 1], es[j - 1], h);
    }
  }

  /** When a slot is freed, no rank has an ltab entry for it, before or after,
      and its handle is retired. */
  lemma FreedWhileUnhosted(c: Config, s: State, e: Step, i: nat)
    requires Reached(c, s) && Enabled(c, s, e) && Frees(c, s, e, i)
    ensures forall a :: a in s.life.lt ==> s.life.lt[a].gidx != i
    ensures forall a :: a in Next(c, s, e).life.lt ==> Next(c, s, e).life.lt[a].gidx != i
    ensures Retired(Next(c, s, e), Handle(i, s.life.gtab[i].gen))
  {
    ReachedInv(c, s);
    FreeingKeepsLtab(c, s, e, i);
    FreedIsRetired(c, s, e, i);
    hide Enabled, Next;
    StepKeeps(c, s, e);
    UnusedUnhosted(c, Next(c, s, e), i);
  }

  /** Step e frees slot i. */
  ghost predicate Frees(c: Config, s: State, e: Step, i: nat)
    requires Enabled(c, s, e)
  {
    i < |s.life.gtab| && s.life.gtab[i].used && i < |Next(c, s, e).life.gtab| && !Next(c, s, e).life.gtab[i].used
  }

  lemma UnusedUnhosted(c: Config, t: State, i: nat)
    requires Inv(c, t) && i < |t.life.gtab| && !t.life.gtab[i].used
    ensures forall a :: a in t.life.lt ==> t.life.lt[a].gidx != i
  {
    assert Life.LocalsOk(c, t.life.gtab, t.life.lt);
  }

  lemma FreedIsRetired(c: Config, s: State, e: Step, i: nat)
    requires Inv(c, s) && Enabled(c, s, e) && Frees(c, s, e, i)
    ensures Retired(Next(c, s, e), Handle(i, s.life.gtab[i].gen))
  {
    hide Inv, Enabled, Next, SlotsEvolve;
    var t := Next(c, s, e);
    StepEvolves(c, s, e);
    HistoryOf(c, s);
    assert t.hist[s.life.gtab[i].tid].h == Handle(i, s.life.gtab[i].gen);
  }

  lemma FreeingKeepsLtab(c: Config, s: State, e: Step, i: nat)
    requires Enabled(c, s, e) && Frees(c, s, e, i)
    ensures Next(c, s, e).life.lt == s.life.lt
  {
    if AppStep(e) { AppKeepsLtab(c, s, e); }
    else if CreateStep(e) { CreateKeepsLtab(c, s, e, i); }
    else if DrainStep(e) { DrainKeepsLtab(c, s, e); }
    else { OthersKeepLtab(c, s, e); }
  }

  lemma AppKeepsLtab(c: Config, s: State, e: Step)
    requires Enabled(c, s, e) && AppStep(e)
    ensures Next(c, s, e).life.lt == s.life.lt
  {
  }

  lemma CreateKeepsUsed(c: Config, s: State, k: nat, p: nat, xid: nat, src: nat, wrap: bool, i: nat)
    requires CanRecvCreate(c, s, k, p, xid, src, wrap) && i < |s.life.gtab| && s.life.gtab[i].used
    ensures var gtab := RecvCreateStep(c, s, k, p, xid, src, wrap).life.gtab;
            |gtab| == |s.life.gtab| && gtab[i].used
  {
    hide Put, Tick, Replied, FreeSlot, First;
  }

  lemma StartKeepsUsed(c: Config, s: State, k: nat, l: nat, err: nat)
    requires CanRecvStart(c, s, k, l, err)
    ensures RecvStartStep(c, s, k, l, err).life.gtab == s.life.gtab
  {
    hide Put, Tick, MarkStarted;
  }

  /** Of these steps only STARTED frees slots. */
  lemma CreateFreesNothing(c: Config, s: State, e: Step, i: nat)
    requires Enabled(c, s, e) && CreateStep(e) && !e.RecvStarted? && i < |s.life.gtab| && s.life.gtab[i].used
    ensures i < |Next(c, s, e).life.gtab| && Next(c, s, e).life.gtab[i].used
  {
    hide SendCall, Put, Tick, RecvCreateStep, RecvStartStep, CreateError, First;
    match e
    case RecvCreate(k, p, xid, src, wrap) => CreateKeepsUsed(c, s, k, p, xid, src, wrap, i);
    case RecvStart(k, l, err) => StartKeepsUsed(c, s, k, l, err);
    case _ =>
  }

  lemma StartedKeepsLtab(c: Config, s: State, k: nat)
    requires CanRecvStarted(c, s, k)
    ensures RecvStartedStep(c, s, k).life.lt == s.life.lt
  {
    hide Put, Tick, First;
  }

  lemma CreateKeepsLtab(c: Config, s: State, e: Step, i: nat)
    requires Enabled(c, s, e) && CreateStep(e) && Frees(c, s, e, i)
    ensures e.RecvStarted? && Next(c, s, e).life.lt == s.life.lt
  {
    if e.RecvStarted? { StartedKeepsLtab(c, s, e.k); } else { CreateFreesNothing(c, s, e, i); }
  }

  lemma DrainKeepsLtab(c: Config, s: State, e: Step)
    requires Enabled(c, s, e) && DrainStep(e)
    ensures Next(c, s, e).life.lt == s.life.lt
  {
    hide SendAll;
  }

  lemma TerminatedKeepsLtab(c: Config, s: State, k: nat)
    requires CanRecvTerminated(c, s, k)
    ensures RecvTerminatedStep(c, s, k).life.lt == s.life.lt
  {
    hide Put, Tick, FindWait, First;
  }

  lemma JoinKeepsLtab(c: Config, s: State, k: nat)
    requires CanRecvAsk(c, s, k, JOIN)
    ensures RecvJoinStep(c, s, k).life.lt == s.life.lt
  {
    hide Replied, Tick;
  }

  lemma DetachKeepsLtab(c: Config, s: State, k: nat)
    requires CanRecvAsk(c, s, k, DETACH)
    ensures RecvDetachStep(c, s, k).life.lt == s.life.lt
  {
    hide Replied, Put, Tick, FindWait, First;
  }

  lemma OthersKeepLtab(c: Config, s: State, e: Step)
    requires Enabled(c, s, e) && !AppStep(e) && !CreateStep(e) && !DrainStep(e)
    ensures Next(c, s, e).life.lt == s.life.lt
  {
    hide RecvTerminatedStep, RecvJoinStep, RecvDetachStep, Cancelled;
    match e
    case RecvTerminated(k) => TerminatedKeepsLtab(c, s, k);
    case RecvJoin(k) => JoinKeepsLtab(c, s, k);
    case RecvDetach(k) => DetachKeepsLtab(c, s, k);
    case _ =>
  }

  // ------------------------------------------------------------ round robin

  /** Threads are dealt out to the ranks in turn: the k-th thread runs on rank
      k modulo the world size, as long as rank 0 does not refuse creates. */
  ghost predicate InTurn(c: Config, s: State) {
    && 0 < c.N && (0 !in s.draining ==> s.nextRank == |s.hist| % c.N)
    && forall i :: 0 <= i < |s.life.gtab| && s.life.gtab[i].used ==>
         s.life.gtab[i].rank == s.life.gtab[i].tid % c.N && s.life.gtab[i].tid < |s.hist|
  }

  /** What a step does to the turn. */
  ghost predicate Turns(c: Config, s: State, t: State) {
    || (t.nextRank == s.nextRank && |t.hist| == |s.hist|)
    || (0 < c.N && t.nextRank == (s.nextRank + 1) % c.N && |t.hist| == |s.hist| + 1 && 0 !in s.draining)
    || (0 in s.draining && |t.hist| == |s.hist|)
  }

  lemma AppTurns(c: Config, s: State, e: Step)
    requires Enabled(c, s, e) && AppStep(e)
    ensures Turns(c, s, Next(c, s, e))
  {
  }

  lemma CreateTurns(c: Config, s: State, e: Step)
    requires c.Valid() && Enabled(c, s, e) && CreateStep(e)
    ensures Turns(c, s, Next(c, s, e))
  {
    hide SendCall, Put, Tick, Replied;
  }

  lemma DrainTurns(c: Config, s: State, e: Step)
    requires Enabled(c, s, e) && DrainStep(e)
    ensures Turns(c, s, Next(c, s, e))
  {
    hide SendAll;
  }

  lemma OthersTurn(c: Config, s: State, e: Step)
    requires Enabled(c, s, e) && !AppStep(e) && !CreateStep(e) && !DrainStep(e)
    ensures Turns(c, s, Next(c, s, e))
  {
    hide Replied, Put, Tick, FindWait, Cancelled, First;
  }

  lemma StepTurns(c: Config, s: State, e: Step)
    requires c.Valid() && Enabled(c, s, e)
    ensures Turns(c, s, Next(c, s, e))
  {
    hide Next, Turns;
    if AppStep(e) { AppTurns(c, s, e); }
    else if CreateStep(e) { CreateTurns(c, s, e); }
    else if DrainStep(e) { DrainTurns(c, s, e); }
    else { OthersTurn(c, s, e); }
  }

  lemma InTurnStep(c: Config, s: State, t: State)
    requires InTurn(c, s) && Evolves(s, t) && Turns(c, s, t) && (0 in s.draining ==> 0 in t.draining)
    requires Joins.HistOk(t.life.gtab, t.hist)
    ensures InTurn(c, t)
  {
    NextTurn(|s.hist|, c.N);
    forall i | 0 <= i < |t.life.gtab| && t.life.gtab[i].used ensures t.life.gtab[i].rank == t.life.gtab[i].tid % c.N {
      assert SlotEvolves(s.life.gtab[i], t.life.gtab[i], |s.hist|, s.nextRank);
    }
  }

  lemma NextTurn(k: nat, n: nat)
    requires 0 < n
    ensures (k % n + 1) % n == (k + 1) % n
  {
    if k % n + 1 < n {
      Sequence.DivUnique(n, k % n + 1, 0, k % n + 1);
      Sequence.DivUnique(n, k + 1, k / n, k % n + 1);
    } else {
      Sequence.DivUnique(n, n, 1, 0);
      assert (k / n + 1) * n == k / n * n + n;
      Sequence.DivUnique(n, k + 1, k / n + 1, 0);
    }
  }

  /** In every state of every run, threads are where the round robin put them. */
  lemma {:induction false} RoundRobin(c: Config, ss: seq<State>, es: seq<Step>, i: nat)
    requires Protocol.Run(c, ss, es) && i <= |es|
    ensures InTurn(c, ss[i])
  {
    hide Inv, Enabled, Next, Init, InTurn, Evolves, Turns;
    if i == 0 {
      InitInTurn(c);
    } else {
      RoundRobin(c, ss, es, i - 1);
      RunKeeps(c, ss, es, i - 1);
      RunKeeps(c, ss, es, i);
      StepEvolves(c, ss[i - 1], es[i - 1]);
      StepTurns(c, ss[i - 1], es[i - 1]);
      HistoryOf(c, ss[i]);
      StillDraining(ss[i - 1], ss[i]);
      InTurnStep(c, ss[i - 1], ss[i]);
    }
  }

  lemma StillDraining(s: State, t: State)
    requires Evolves(s, t)
    ensures 0 in s.draining ==> 0 in t.draining
  {
  }

  lemma InitInTurn(c: Config)
    requires c.Valid()
    ensures InTurn(c, Init(c))
  {
    Sequence.Itself(c.N, 0);
  }

  // ------------------------------------------------------------ detaching a zombie

  lemma TerminatedFreesDetached(c: Config, s: State, k: nat)
    requires Reached(c, s) && CanRecvTerminated(c, s, k)
    requires s.life.ctl[k].msg.thread.idx < |s.life.gtab| && s.life.gtab[s.life.ctl[k].msg.thread.idx].detached
    ensures !RecvTerminatedStep(c, s, k).life.gtab[s.life.ctl[k].msg.thread.idx].used
  {
    hide Reached, First, FindWait, Put, Tick;
    TerminatedIsInOrder(c, s, k);
  }

  /** A leaked slot stays allocated, to the same thread, in every later state of
      every run. */
  lemma {:induction false} LeakedForever(c: Config, ss: seq<State>, es: seq<Step>, i: nat, j: nat, slot: nat)
    requires Protocol.Run(c, ss, es) && i <= j <= |es|
    requires slot < |ss[i].life.gtab| && Leaked(ss[i].life.gtab[slot])
    ensures slot < |ss[j].life.gtab| && Leaked(ss[j].life.gtab[slot])
            && ss[j].life.gtab[slot].gen == ss[i].life.gtab[slot].gen
    decreases j
  {
    hide Inv, Enabled, Next, Init;
    if i < j {
      LeakedForever(c, ss, es, i, j - 1, slot);
      RunKeeps(c, ss, es, j - 1);
      StepEvolves(c, ss[j - 1], es[j - 1]);
      assert SlotEvolves(ss[j - 1].life.gtab[slot], ss[j].life.gtab[slot], |ss[j - 1].hist|, ss[j - 1].nextRank);
    }
  }

  /** The handle is that of a slot nobody will ever free. */
  predicate HoldsLeak(s: State, h: Handle) {
    Accepts(s.life.gtab, h) && Leaked(s.life.gtab[h.idx])
  }

  /** Its thread is detached and alive, so that TERMINATED will free the slot, or
      the slot has been freed already. */
  ghost predicate Reclaims(s: State, h: Handle) {
    Retired(s, h) || (Accepts(s.life.gtab, h) && s.life.gtab[h.idx].detached && s.life.gtab[h.idx].terminated == 0)
  }

  lemma ReclaimsStep(s: State, t: State, h: Handle)
    requires Evolves(s, t) && Joins.HistOk(s.life.gtab, s.hist) && Reclaims(s, h) && !Retired(s, h)
    ensures Reclaims(t, h)
  {
    hide Joins.Grows, SlotEvolves;
    SlotReclaims(s.life.gtab[h.idx], t.life.gtab[h.idx], |s.hist|, s.nextRank);
    HistKept(s.hist, t.hist, s.life.gtab[h.idx].tid);
  }

  lemma SlotReclaims(g: Slot, g': Slot, n: nat, r: nat)
    requires SlotEvolves(g, g', n, r) && g.used && g.detached && g.terminated == 0
    ensures g'.used ==> g'.gen == g.gen && g'.detached && g'.terminated == 0
  {
  }

  lemma HistKept(hist: Joins.Hist, hist': Joins.Hist, t: nat)
    requires Joins.Grows(hist, hist') && t < |hist|
    ensures t < |hist'| && hist'[t].h == hist[t].h
  {
  }

  lemma ReclaimsNext(c: Config, s: State, e: Step, h: Handle)
    requires Inv(c, s) && Enabled(c, s, e) && Reclaims(s, h) && Joins.Unique(Next(c, s, e).hist, h)
    ensures Reclaims(Next(c, s, e), h)
  {
    hide Inv, Next, Enabled, Evolves, Retired, Joins.Unique;
    StepEvolves(c, s, e);
    HistoryOf(c, s);
    if Retired(s, h) { RetiredNext(c, s, e, h); } else { ReclaimsStep(s, Next(c, s, e), h); }
  }

  lemma {:induction false} ReclaimsForever(c: Config, ss: seq<State>, es: seq<Step>, h: Handle, i: nat, j: nat)
    requires Protocol.Run(c, ss, es) && i <= j <= |es| && Reclaims(ss[i], h) && Joins.Unique(ss[j].hist, h)
    ensures Reclaims(ss[j], h)
    decreases j
  {
    hide Inv, Reclaims, Enabled, Next, Init, Joins.Unique;
    if i < j {
      RunKeeps(c, ss, es, j - 1);
      UniqueBefore(c, ss, es, h, j - 1, j);
      ReclaimsForever(c, ss, es, h, i, j - 1);
      ReclaimsNext(c, ss[j - 1], es[j - 1], h);
    }
  }

  /** In state s, DETACH message k names a thread the table accepts. */
  ghost predicate Detaches(c: Config, s: State, k: nat, h: Handle) {
    CanRecvAsk(c, s, k, DETACH) && s.calls.rpc[k].msg.call.thread == h && Accepts(s.life.gtab, h)
  }

  lemma DetachedSlot(c: Config, s: State, k: nat, h: Handle)
    requires Detaches(c, s, k, h)
    ensures var t := RecvDetachStep(c, s, k);
            if s.life.gtab[h.idx].terminated != 0 then HoldsLeak(t, h) else Reclaims(t, h)
  {
    hide Replied, Put, Tick, FindWait, First;
  }

  /** The exact condition under which DETACH loses a slot.  Rank 0 processes a
      DETACH in step i of a run.  If it had processed the thread's TERMINATED
      before, the handle holds a leaked slot in every later state.  Otherwise it
      never does: in each later state the thread is alive or its slot was freed. */
  lemma DetachLeaksExactlyZombies(c: Config, ss: seq<State>, es: seq<Step>, i: nat, j: nat, h: Handle)
    requires Protocol.Run(c, ss, es) && i < j <= |es| && Joins.Unique(ss[j].hist, h)
    requires es[i].RecvDetach? && Detaches(c, ss[i], es[i].k, h)
    ensures HoldsLeak(ss[j], h) <==> ss[i].life.gtab[h.idx].terminated != 0
    ensures Reclaims(ss[j], h) <==> ss[i].life.gtab[h.idx].terminated == 0
  {
    assert ss[i + 1] == RecvDetachStep(c, ss[i], es[i].k);
    hide Inv, Enabled, Next, Init, RecvDetachStep, Retired, Joins.Unique;
    DetachedSlot(c, ss[i], es[i].k, h);
    if ss[i].life.gtab[h.idx].terminated != 0 {
      LeakedForever(c, ss, es, i + 1, j, h.idx);
      LeakIsNotReclaimed(ss[j], h);
    } else {
      ReclaimsForever(c, ss, es, h, i + 1, j);
      if HoldsLeak(ss[j], h) { LeakIsNotReclaimed(ss[j], h); }
    }
  }

  lemma LeakIsNotReclaimed(s: State, h: Handle)
    requires HoldsLeak(s, h)
    ensures !Reclaims(s, h)
  {
  }

  // ------------------------------------------------------------ joined at most once

  /** The message with stamp k, sent in the step from s to t, is a JOINED that
      reports success for handle h. */
  ghost predicate JoinedSent(s: State, t: State, h: Handle, k: nat) {
    k in t.calls.rpc && k !in s.calls.rpc && JoinedMsg(t.calls.rpc[k].msg, h)
  }

  ghost predicate SendsJoined(s: State, t: State, h: Handle) {
    exists k :: JoinedSent(s, t, h, k)
  }

  predicate JoinedMsg(m: RpcMsg, h: Handle) {
    m.Answer? && m.op == JOIN && m.result.err == 0 && m.result.thread == h
  }

  ghost predicate HasBeenJoined(hist: Joins.Hist, h: Handle) {
    exists u: nat :: u < |hist| && hist[u].h == h && hist[u].joins == 1
  }

  /** Thread u of the history is joined by this step. */
  ghost predicate Marks(hist: Joins.Hist, hist': Joins.Hist, u: nat, h: Handle) {
    u < |hist| == |hist'| && hist[u].h == h && hist[u].joins == 0 && hist'[u].joins == 1
  }

  lemma ZombieMarks(c: Config, s: State, k: nat, h: Handle)
    requires HistInv(s) && CanRecvAsk(c, s, k, JOIN) && SendsJoined(s, RecvJoinStep(c, s, k), h)
    ensures exists u: nat :: Marks(s.hist, RecvJoinStep(c, s, k).hist, u, h)
  {
    hide Joins.RetOk, Joins.HostOk, Joins.CtlOk, First;
    assert s.calls.rpc[k].msg.call.thread == h;
    assert Marks(s.hist, RecvJoinStep(c, s, k).hist, s.life.gtab[h.idx].tid, h);
  }

  lemma WaitedMarks(c: Config, s: State, k: nat, h: Handle)
    requires LifeInv(c, s) && HistInv(s) && WaitInv(s) && CanRecvTerminated(c, s, k)
             && SendsJoined(s, RecvTerminatedStep(c, s, k), h)
    ensures exists u: nat :: Marks(s.hist, RecvTerminatedStep(c, s, k).hist, u, h)
  {
    hide First;
    TerminateSteps.EndedThread(c, s, k);
    hide Life.Inv, Joins.RetOk, Joins.HostOk, Joins.CtlOk;
    assert s.life.ctl[k].msg.thread == h;
    TerminateSteps.WaitedIsAttached(s, h, FindWait(s.waits, h).value);
    assert Marks(s.hist, RecvTerminatedStep(c, s, k).hist, s.life.gtab[h.idx].tid, h);
  }

  lemma AppSendsNothing(c: Config, s: State, e: Step)
    requires Enabled(c, s, e) && AppStep(e)
    ensures Next(c, s, e).calls.rpc == s.calls.rpc
  {
  }

  lemma CreateDoesNotJoin(c: Config, s: State, e: Step, h: Handle)
    requires Enabled(c, s, e) && CreateStep(e)
    ensures !SendsJoined(s, Next(c, s, e), h)
  {
    hide First;
  }

  lemma DrainDoesNotJoin(c: Config, s: State, e: Step, h: Handle)
    requires Enabled(c, s, e) && (DrainStep(e) || e.RecvReply?)
    ensures !SendsJoined(s, Next(c, s, e), h)
  {
  }

  lemma DetachDoesNotJoin(c: Config, s: State, k: nat, h: Handle)
    requires CanRecvAsk(c, s, k, DETACH)
    ensures !SendsJoined(s, RecvDetachStep(c, s, k), h)
  {
    var t := RecvDetachStep(c, s, k);
    assert forall j :: !JoinedSent(s, t, h, j);
  }

  lemma CancelDoesNotJoin(c: Config, s: State, k: nat, h: Handle)
    requires CanRecvAsk(c, s, k, CANCEL)
    ensures !SendsJoined(s, RecvCancelStep(c, s, k), h)
  {
  }

  lemma OthersDoNotJoin(c: Config, s: State, e: Step, h: Handle)
    requires Enabled(c, s, e) && !e.RecvJoin? && !e.RecvTerminated?
    ensures !SendsJoined(s, Next(c, s, e), h)
  {
    if AppStep(e) { AppSendsNothing(c, s, e); }
    hide RecvDetachStep, RecvCancelStep, SendsJoined;
    if CreateStep(e) { CreateDoesNotJoin(c, s, e, h); }
    else if DrainStep(e) || e.RecvReply? { DrainDoesNotJoin(c, s, e, h); }
    else if e.RecvDetach? { DetachDoesNotJoin(c, s, e.k, h); }
    else if e.RecvCancel? { CancelDoesNotJoin(c, s, e.k, h); }
  }

  lemma JoinedMarks(c: Config, s: State, e: Step, h: Handle)
    requires Inv(c, s) && Enabled(c, s, e) && SendsJoined(s, Next(c, s, e), h)
    ensures exists u: nat :: Marks(s.hist, Next(c, s, e).hist, u, h)
  {
    hide SendsJoined, Marks, LifeInv, CallsInv, OrderInv, HistInv, QuoteInv, WaitInv, SeqInv, Shutdown.Inv;
    match e
    case RecvJoin(k) => ZombieMarks(c, s, k, h);
    case RecvTerminated(k) => WaitedMarks(c, s, k, h);
    case _ => OthersDoNotJoin(c, s, e, h);
  }

  lemma JoinsOnce(hist: Joins.Hist, hist': Joins.Hist, h: Handle)
    requires Joins.Unique(hist', h) && Joins.Grows(hist, hist') && Joins.JoinsOk(hist')
    ensures HasBeenJoined(hist, h) ==> HasBeenJoined(hist', h)
    ensures (exists u: nat :: Marks(hist, hist', u, h)) ==> !HasBeenJoined(hist, h) && HasBeenJoined(hist', h)
  {
  }

  lemma JoinStep(c: Config, s: State, e: Step, h: Handle)
    requires Inv(c, s) && Enabled(c, s, e) && Joins.Unique(Next(c, s, e).hist, h)
    ensures var t := Next(c, s, e);
            && (HasBeenJoined(s.hist, h) ==> HasBeenJoined(t.hist, h))
            && (SendsJoined(s, t, h) ==> !HasBeenJoined(s.hist, h) && HasBeenJoined(t.hist, h))
  {
    var t := Next(c, s, e);
    hide Inv, Enabled, Next, SendsJoined, HasBeenJoined, Marks, Joins.Unique;
    StepKeeps(c, s, e);
    StepEvolves(c, s, e);
    HistoryOf(c, t);
    JoinsOnce(s.hist, t.hist, h);
    if SendsJoined(s, t, h) { JoinedMarks(c, s, e, h); }
  }

  /** A step sends at most one such JOINED. */
  lemma OneJoined(c: Config, s: State, e: Step, h: Handle, k: nat)
    requires Enabled(c, s, e) && JoinedSent(s, Next(c, s, e), h, k)
    ensures k == s.clock
  {
    if e.RecvJoin? { JoinStamps(c, s, e.k, k); }
    else if e.RecvTerminated? { TerminatedStamps(c, s, e.k, k); }
    else {
      OthersDoNotJoin(c, s, e, h);
      assert SendsJoined(s, Next(c, s, e), h);
    }
  }

  lemma JoinStamps(c: Config, s: State, k: nat, j: nat)
    requires CanRecvAsk(c, s, k, JOIN) && j in RecvJoinStep(c, s, k).calls.rpc && j !in s.calls.rpc
    ensures j == s.clock
  {
    hide First;
  }

  lemma TerminatedStamps(c: Config, s: State, k: nat, j: nat)
    requires CanRecvTerminated(c, s, k) && j in RecvTerminatedStep(c, s, k).calls.rpc && j !in s.calls.rpc
    ensures j == s.clock
  {
    hide First;
  }

  lemma {:induction false} StaysJoined(c: Config, ss: seq<State>, es: seq<Step>, h: Handle, i: nat, j: nat)
    requires Protocol.Run(c, ss, es) && Joins.Unique(ss[|es|].hist, h) && i < j <= |es|
             && SendsJoined(ss[i], ss[i + 1], h)
    ensures HasBeenJoined(ss[j].hist, h)
    decreases j
  {
    hide Inv, Enabled, Next, Init, SendsJoined, HasBeenJoined, Joins.Unique;
    RunKeeps(c, ss, es, j - 1);
    UniqueBefore(c, ss, es, h, j, |es|);
    JoinStep(c, ss[j - 1], es[j - 1], h);
    if i + 1 < j { StaysJoined(c, ss, es, h, i, j - 1); }
  }

  lemma JoinedInOneStep(c: Config, ss: seq<State>, es: seq<Step>, h: Handle, i: nat, j: nat)
    requires Protocol.Run(c, ss, es) && Joins.Unique(ss[|es|].hist, h) && i < j < |es|
             && SendsJoined(ss[i], ss[i + 1], h)
    ensures !SendsJoined(ss[j], ss[j + 1], h)
  {
    hide Inv, Enabled, Next, Init, SendsJoined, HasBeenJoined, Joins.Unique;
    StaysJoined(c, ss, es, h, i, j);
    RunKeeps(c, ss, es, j);
    UniqueBefore(c, ss, es, h, j + 1, |es|);
    JoinStep(c, ss[j], es[j], h);
  }

  /** Over any run, at most one JOINED reports success for a handle that only one
      thread had. */
  lemma JoinedAtMostOnce(c: Config, ss: seq<State>, es: seq<Step>, h: Handle, i: nat, k: nat, i': nat, k': nat)
    requires Protocol.Run(c, ss, es) && Joins.Unique(ss[|es|].hist, h)
    requires i < |es| && JoinedSent(ss[i], ss[i + 1], h, k) && i' < |es| && JoinedSent(ss[i'], ss[i' + 1], h, k')
    ensures i == i' && k == k'
  {
    hide Enabled, Next, Init, JoinedSent, Joins.Unique;
    assert SendsJoined(ss[i], ss[i + 1], h) && SendsJoined(ss[i'], ss[i' + 1], h);
    if i < i' { JoinedInOneStep(c, ss, es, h, i, i'); } else if i' < i { JoinedInOneStep(c, ss, es, h, i', i); }
    OneJoined(c, ss[i], es[i], h, k);
    OneJoined(c, ss[i'], es[i'], h, k');
  }

  // ------------------------------------------------------------ told at most once

  /** The message with stamp k, sent in the step from s to t, tells rank r to shut
      down. */
  ghost predicate NoticeSent(s: State, t: State, r: nat, k: nat) {
    k in t.bc && k !in s.bc && t.bc[k].dst == r
  }

  ghost predicate SendsNotice(s: State, t: State, r: nat) {
    exists k :: NoticeSent(s, t, r, k)
  }

  /** Only the parent sends rank r its notice, in the step that makes it drain. */
  lemma NoticeStep(c: Config, s: State, e: Step, r: nat)
    requires c.Valid() && Enabled(c, s, e) && 0 < r < c.N
    ensures var t := Next(c, s, e);
            var q := Router.Parent(0, c.N, r);
            && (q in s.draining ==> q in t.draining)
            && (SendsNotice(s, t, r) ==> q !in s.draining && q in t.draining)
  {
    if AppStep(e) { AppNoNotices(c, s, e); }
    else if CreateStep(e) { CreateNoNotices(c, s, e); }
    else if DrainStep(e) { DrainNotices(c, s, e, r); }
    else { NoNotices(c, s, e); }
  }

  lemma DrainNotices(c: Config, s: State, e: Step, r: nat)
    requires c.Valid() && Enabled(c, s, e) && DrainStep(e) && 0 < r < c.N
    ensures var t := Next(c, s, e);
            var q := Router.Parent(0, c.N, r);
            && (q in s.draining ==> q in t.draining)
            && (SendsNotice(s, t, r) ==> q !in s.draining && q in t.draining)
  {
    hide Router.Parent, BroadcastShutdown;
    match e
    case TakeMain => BroadcastNotices(c, MainEnded(s), s, 0, r);
    case Quiesce => BroadcastNotices(c, s, s, 0, r);
    case RecvShutdown(k) =>
      BroadcastNotices(c, s, s, s.bc[k].dst, r);
      var t := BroadcastShutdown(c, s, s.bc[k].dst);
      assert forall j :: NoticeSent(s, RecvShutdownStep(c, s, k), r, j) ==> NoticeSent(s, t, r, j);
  }

  lemma AppNoNotices(c: Config, s: State, e: Step)
    requires Enabled(c, s, e) && AppStep(e)
    ensures Next(c, s, e).bc == s.bc && Next(c, s, e).draining == s.draining
  {
  }

  lemma CreateNoNotices(c: Config, s: State, e: Step)
    requires Enabled(c, s, e) && CreateStep(e)
    ensures Next(c, s, e).bc == s.bc && Next(c, s, e).draining == s.draining
  {
    hide SendCall, Put, Tick, Replied, FinishStart, EndThread, CreateThread, First;
  }

  lemma NoNotices(c: Config, s: State, e: Step)
    requires Enabled(c, s, e) && !AppStep(e) && !CreateStep(e) && !DrainStep(e)
    ensures Next(c, s, e).bc == s.bc && Next(c, s, e).draining == s.draining
  {
    hide Replied, Put, Tick, FindWait, Cancelled, First;
  }

  /** A notice broadcast in this step went to a child of p. */
  lemma NoticeToChild(c: Config, s1: State, s: State, p: nat, r: nat, k: nat)
    requires s1.bc == s.bc && s1.draining == s.draining && c.Valid() && 0 < r < c.N
    requires NoticeSent(s, BroadcastShutdown(c, s1, p), r, k)
    ensures p < c.N && p !in s.draining
    ensures var kids := Router.Children(0, c.N, p);
            s1.clock <= k < s1.clock + |kids| && kids[k - s1.clock] == r
  {
    if p !in s.draining && p < c.N {
      var kids := Router.Children(0, c.N, p);
      Shutdown.SendAllIs(s1.bc, s1.clock, p, kids);
      var bc := SendAll(s1.bc, s1.clock, p, kids);
      assert bc[s1.clock + (k - s1.clock)] == Bcast(p, kids[k - s1.clock]);
    }
  }

  lemma BroadcastNotices(c: Config, s1: State, s: State, p: nat, r: nat)
    requires s1.bc == s.bc && s1.draining == s.draining && c.Valid() && 0 < r < c.N
    ensures var t := BroadcastShutdown(c, s1, p);
            && s.draining <= t.draining
            && forall k :: NoticeSent(s, t, r, k) ==>
                 Router.Parent(0, c.N, r) !in s.draining && Router.Parent(0, c.N, r) in t.draining
  {
    hide SendAll, Router.Children, Router.Parent, NoticeSent;
    var t := BroadcastShutdown(c, s1, p);
    forall k | NoticeSent(s, t, r, k)
      ensures Router.Parent(0, c.N, r) !in s.draining && Router.Parent(0, c.N, r) in t.draining
    {
      NoticeToChild(c, s1, s, p, r, k);
      Router.ChildIffParent(0, c.N, p, r);
    }
  }

  /** One broadcast tells a rank at most once. */
  lemma OneNoticeEach(c: Config, s1: State, s: State, p: nat, r: nat, k: nat, k': nat)
    requires s1.bc == s.bc && s1.draining == s.draining && c.Valid() && 0 < r < c.N
    requires NoticeSent(s, BroadcastShutdown(c, s1, p), r, k) && NoticeSent(s, BroadcastShutdown(c, s1, p), r, k')
    ensures k == k'
  {
    hide SendAll, Router.Children, NoticeSent, BroadcastShutdown;
    NoticeToChild(c, s1, s, p, r, k);
    NoticeToChild(c, s1, s, p, r, k');
    Router.ChildrenDistinct(0, c.N, p);
  }

  /** A step tells a rank at most once. */
  lemma OneNotice(c: Config, s: State, e: Step, r: nat, k: nat, k': nat)
    requires c.Valid() && Enabled(c, s, e) && 0 < r < c.N
    requires NoticeSent(s, Next(c, s, e), r, k) && NoticeSent(s, Next(c, s, e), r, k')
    ensures k == k'
  {
    if AppStep(e) { AppNoNotices(c, s, e); }
    else if CreateStep(e) { CreateNoNotices(c, s, e); }
    else if !DrainStep(e) { NoNotices(c, s, e); }
    else { OneDrainNotice(c, s, e, r, k, k'); }
  }

  lemma OneDrainNotice(c: Config, s: State, e: Step, r: nat, k: nat, k': nat)
    requires c.Valid() && Enabled(c, s, e) && DrainStep(e) && 0 < r < c.N
    requires NoticeSent(s, Next(c, s, e), r, k) && NoticeSent(s, Next(c, s, e), r, k')
    ensures k == k'
  {
    hide BroadcastShutdown;
    match e
    case TakeMain => OneNoticeEach(c, MainEnded(s), s, 0, r, k, k');
    case Quiesce => OneNoticeEach(c, s, s, 0, r, k, k');
    case RecvShutdown(j) => OneNoticeEach(c, s, s, s.bc[j].dst, r, k, k');
  }

  lemma {:induction false} StaysDraining(c: Config, ss: seq<State>, es: seq<Step>, r: nat, i: nat, j: nat)
    requires Protocol.Run(c, ss, es) && 0 < r < c.N && i < j <= |es| && SendsNotice(ss[i], ss[i + 1], r)
    ensures Router.Parent(0, c.N, r) in ss[j].draining
    decreases j
  {
    hide Inv, Enabled, Next, Init, SendsNotice, Router.Parent;
    NoticeStep(c, ss[j - 1], es[j - 1], r);
    if i + 1 < j { StaysDraining(c, ss, es, r, i, j - 1); }
  }

  lemma NoticedInOneStep(c: Config, ss: seq<State>, es: seq<Step>, r: nat, i: nat, j: nat)
    requires Protocol.Run(c, ss, es) && 0 < r < c.N && i < j < |es| && SendsNotice(ss[i], ss[i + 1], r)
    ensures !SendsNotice(ss[j], ss[j + 1], r)
  {
    hide Inv, Enabled, Next, Init, SendsNotice, Router.Parent;
    StaysDraining(c, ss, es, r, i, j);
    NoticeStep(c, ss[j], es[j], r);
  }

  /** Over any run, each rank other than 0 is sent at most one BCASTSHUTDOWN. */
  lemma NoticedAtMostOnce(c: Config, ss: seq<State>, es: seq<Step>, r: nat, i: nat, k: nat, i': nat, k': nat)
    requires Protocol.Run(c, ss, es) && 0 < r < c.N
    requires i < |es| && NoticeSent(ss[i], ss[i + 1], r, k) && i' < |es| && NoticeSent(ss[i'], ss[i' + 1], r, k')
    ensures i == i' && k == k'
  {
    hide Enabled, Next, Init, NoticeSent;
    assert SendsNotice(ss[i], ss[i + 1], r) && SendsNotice(ss[i'], ss[i' + 1], r);
    if i < i' { NoticedInOneStep(c, ss, es, r, i, i'); } else if i' < i { NoticedInOneStep(c, ss, es, r, i', i); }
    OneNotice(c, ss[i], es[i], r, k, k');
  }
}
