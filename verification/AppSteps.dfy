/** Steps of application threads keep the invariant. */
module AppSteps {
  import opened Types
  import opened Machine
  import opened Invariant
  import Life
  import Calls
  import Joins

  // --- dthreadwrap

  lemma RunLife(c: Config, s: State, a: Loc)
    requires LifeInv(c, s) && CanRun(c, s, a)
    ensures LifeInv(c, Run(c, s, a))
  {
    var v := s.life;
    var i := v.lt[a].gidx;
    var g := v.gtab[i].(hasLtab := true, ltabIdx := a.lidx);
    assert Life.Live(v.gtab, Handle(i, v.lt[a].gen));
    Life.SlotData(c, v.gtab, v.lt, v.starts, v.ctl, i, g);
    SameCounts(v, i, g);
  }

  lemma SameCounts(v: Machine.Life, i: nat, g: Slot)
    requires Life.CountersOk(v) && i < |v.gtab| && g.used == v.gtab[i].used && g.terminated == v.gtab[i].terminated
    ensures Life.CountersOk(v.(gtab := v.gtab[i := g]))
  {
    Life.UsedChange(v.gtab, i, g);
    Life.RunningChange(v.gtab, v.starts, i, g);
  }

  lemma RunCalls(c: Config, s: State, a: Loc)
    requires CallsInv(c, s) && CanRun(c, s, a)
    ensures CallsInv(c, Run(c, s, a))
  {
    var q := s.calls;
    Calls.KeepReqInv(c, q.app, q.queue, q.pend, q.rpc, s.life.starts, s.waits, s.draining, a,
                     q.app[a].(st := LT_RUNNING));
  }

  lemma RunHist(s: State, c: Config, a: Loc)
    requires HistInv(s) && CanRun(c, s, a)
    ensures HistInv(Run(c, s, a))
  {
  }

  lemma RunQuote(s: State, c: Config, a: Loc)
    requires QuoteInv(s) && Calls.PendOk(c, s.calls.app, s.calls.pend) && CanRun(c, s, a)
    ensures QuoteInv(Run(c, s, a))
  {
  }

  lemma RunWait(s: State, c: Config, a: Loc)
    requires WaitInv(s) && CanRun(c, s, a)
    ensures WaitInv(Run(c, s, a))
  {
  }

  lemma RunKeeps(c: Config, s: State, a: Loc)
    requires Inv(c, s) && CanRun(c, s, a)
    ensures Inv(c, Run(c, s, a))
  {
    RunLife(c, s, a);
    RunCalls(c, s, a);
    RunHist(s, c, a);
    RunQuote(s, c, a);
    RunWait(s, c, a);
  }

  // --- the application side of create, detach, cancel and join

  lemma IssueCalls(c: Config, s: State, a: Loc, call: Call)
    requires CallsInv(c, s) && CanIssue(c, s, a, call)
    ensures CallsInv(c, Issue(c, s, a, call))
  {
    var q := s.calls;
    Calls.EnqueueInv(c, q.app, q.queue, q.pend, q.rpc, s.life.starts, s.waits, s.draining, a,
                     q.app[a].(req := BusyCall(call, None)));
  }

  /** Blocks that are not about to be cleaned up may change freely. */
  lemma QuietHist(s: State, a: Loc, p: App)
    requires HistInv(s) && a in s.calls.app && !s.calls.app[a].req.BusyRetclean? && !p.req.BusyRetclean?
    ensures Joins.HistInv(s.life.gtab, s.hist, s.life.lt, s.calls.app[a := p], s.life.starts, s.life.ctl)
  {
  }

  lemma IssueQuote(c: Config, s: State, a: Loc, call: Call)
    requires QuoteInv(s) && Calls.PendOk(c, s.calls.app, s.calls.pend) && CanIssue(c, s, a, call)
    ensures QuoteInv(Issue(c, s, a, call))
  {
    Joins.QuietApp(c, s.calls.app, s.calls.pend, s.calls.rpc, s.hist, a, s.calls.app[a].(req := BusyCall(call, None)));
  }

  lemma IssueKeeps(c: Config, s: State, a: Loc, call: Call)
    requires Inv(c, s) && CanIssue(c, s, a, call)
    ensures Inv(c, Issue(c, s, a, call))
  {
    IssueCalls(c, s, a, call);
    QuietHist(s, a, s.calls.app[a].(req := BusyCall(call, None)));
    IssueQuote(c, s, a, call);
  }

  lemma WakeCalls(c: Config, s: State, a: Loc)
    requires CallsInv(c, s) && CanWake(c, s, a)
    ensures CallsInv(c, Wake(c, s, a))
  {
    var q := s.calls;
    Calls.RestInv(c, q.app, q.queue, q.pend, q.rpc, s.life.starts, s.waits, s.draining, a, q.app[a].(req := Idle));
  }

  lemma QuietQuote(c: Config, s: State, a: Loc, p: App)
    requires QuoteInv(s) && Calls.PendOk(c, s.calls.app, s.calls.pend)
    requires a in s.calls.app && Calls.Resting(s.calls.app[a].req) && !p.req.BusyCall? && !p.req.Done?
    ensures Joins.QuoteInv(s.calls.app[a := p], s.calls.pend, s.calls.rpc, s.hist)
  {
  }

  lemma WakeKeeps(c: Config, s: State, a: Loc)
    requires Inv(c, s) && CanWake(c, s, a)
    ensures Inv(c, Wake(c, s, a))
  {
    var p := s.calls.app[a].(req := Idle);
    WakeCalls(c, s, a);
    QuietHist(s, a, p);
    QuietQuote(c, s, a, p);
  }

  // --- dthread_exit_common

  lemma ExitCalls(c: Config, s: State, a: Loc)
    requires CallsInv(c, s) && CanExit(c, s, a)
    ensures CallsInv(c, Exit(c, s, a))
  {
    var q := s.calls;
    Calls.KeepReqInv(c, q.app, q.queue, q.pend, q.rpc, s.life.starts, s.waits, s.draining, a,
                     q.app[a].(st := LT_EXITED));
  }

  lemma ExitKeeps(c: Config, s: State, a: Loc)
    requires Inv(c, s) && CanExit(c, s, a)
    ensures Inv(c, Exit(c, s, a))
  {
    var p := s.calls.app[a].(st := LT_EXITED);
    ExitCalls(c, s, a);
    QuietHist(s, a, p);
    QuietQuote(c, s, a, p);
  }

  // --- retclean_request

  lemma RetcleanLife(c: Config, s: State, a: Loc, fin: nat, ret: Ret)
    requires LifeInv(c, s) && CanRetclean(c, s, a, fin)
    ensures LifeInv(c, Retclean(c, s, a, fin, ret))
  {
    var v := s.life;
    var i := v.lt[a].gidx;
    var g := v.gtab[i].(ret := FinalRet(FinalState(s.calls.app[a].st, fin), ret));
    assert Life.Live(v.gtab, Handle(i, v.lt[a].gen));
    Life.SlotData(c, v.gtab, v.lt, v.starts, v.ctl, i, g);
    SameCounts(v, i, g);
  }

  lemma RetcleanCalls(c: Config, s: State, a: Loc, fin: nat, ret: Ret)
    requires CallsInv(c, s) && CanRetclean(c, s, a, fin)
    ensures CallsInv(c, Retclean(c, s, a, fin, ret))
  {
    var q := s.calls;
    Calls.EnqueueInv(c, q.app, q.queue, q.pend, q.rpc, s.life.starts, s.waits, s.draining, a,
                     App(FinalState(q.app[a].st, fin), BusyRetclean));
  }

  lemma RetcleanHist(c: Config, s: State, a: Loc, fin: nat, ret: Ret)
    requires LifeInv(c, s) && HistInv(s) && CanRetclean(c, s, a, fin)
    ensures var t := Retclean(c, s, a, fin, ret); HistInv(t) && Joins.Grows(s.hist, t.hist) && |t.hist| == |s.hist|
  {
    var st := FinalState(s.calls.app[a].st, fin);
    Joins.Leaves(c, s.life.gtab, s.hist, s.life.lt, s.calls.app, s.life.starts, s.life.ctl, a, App(st, BusyRetclean),
                 FinalRet(st, ret));
  }

  lemma RetcleanQuote(c: Config, s: State, a: Loc, fin: nat, ret: Ret)
    requires LifeInv(c, s) && HistInv(s) && QuoteInv(s) && Calls.PendOk(c, s.calls.app, s.calls.pend)
             && CanRetclean(c, s, a, fin)
    ensures QuoteInv(Retclean(c, s, a, fin, ret))
  {
    var t := Retclean(c, s, a, fin, ret);
    RetcleanHist(c, s, a, fin, ret);
    QuietQuote(c, s, a, App(FinalState(s.calls.app[a].st, fin), BusyRetclean));
    Joins.QuotesGrow(t.calls.app, s.calls.pend, s.calls.rpc, s.hist, t.hist);
  }

  lemma RetcleanRest(c: Config, s: State, a: Loc, fin: nat, ret: Ret)
    requires LifeInv(c, s) && HistInv(s) && WaitInv(s) && SeqInv(c, s) && CanRetclean(c, s, a, fin)
    ensures WaitInv(Retclean(c, s, a, fin, ret)) && SeqInv(c, Retclean(c, s, a, fin, ret))
  {
    var t := Retclean(c, s, a, fin, ret);
    RetcleanHist(c, s, a, fin, ret);
    var i := s.life.lt[a].gidx;
    Joins.WaitsGrow(s.life.gtab, s.waits, s.hist, t.hist);
    Joins.SlotWaits(s.life.gtab, s.waits, t.hist, i,
                    s.life.gtab[i].(ret := FinalRet(FinalState(s.calls.app[a].st, fin), ret)));
    Joins.GensGrow(s.hist, t.hist, s.src[0], s.wrapped);
  }

  lemma RetcleanKeeps(c: Config, s: State, a: Loc, fin: nat, ret: Ret)
    requires Inv(c, s) && CanRetclean(c, s, a, fin)
    ensures Inv(c, Retclean(c, s, a, fin, ret))
  {
    RetcleanLife(c, s, a, fin, ret);
    RetcleanCalls(c, s, a, fin, ret);
    RetcleanHist(c, s, a, fin, ret);
    RetcleanQuote(c, s, a, fin, ret);
    RetcleanRest(c, s, a, fin, ret);
  }

  // --- app0wrap

  lemma MainReturnCalls(c: Config, s: State)
    requires CallsInv(c, s) && CanMainReturn(c, s)
    ensures CallsInv(c, MainReturn(c, s))
  {
    var q := s.calls;
    Calls.EnqueueInv(c, q.app, q.queue, q.pend, q.rpc, s.life.starts, s.waits, s.draining, Loc(0, 0),
                     App(LT_RETURNED, BusyMain));
  }

  lemma MainReturnKeeps(c: Config, s: State)
    requires Inv(c, s) && CanMainReturn(c, s)
    ensures Inv(c, MainReturn(c, s))
  {
    MainReturnCalls(c, s);
    QuietHist(s, Loc(0, 0), App(LT_RETURNED, BusyMain));
    QuietQuote(c, s, Loc(0, 0), App(LT_RETURNED, BusyMain));
  }
}
