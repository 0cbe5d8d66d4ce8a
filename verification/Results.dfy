/** What successful calls hand back, over whole runs: a JOIN the value its thread left,
    a CREATE a started thread with the dispatch index asked for. */
module Results {
  import opened Types
  import opened Machine
  import opened Invariant
  import opened Protocol
  import opened Outcomes
  import Sequence
  import Life
  import Joins
  import Shutdown
  import Histories
  import Answers

  // ------------------------------------------------------------ the value a thread leaves

  /** The thread h ends in step e and leaves v behind: the value it returned or gave
      to dthread_exit, or, if it was cancelled or is cleaned up, the mark of that. */
  ghost predicate Leaves(s: State, e: Step, h: Handle, v: Ret) {
    && e.AppRetclean? && Hosts(s, e.a, h) && e.a in s.calls.app
    && var st := s.calls.app[e.a].st;
       v == if st == LT_EXITED || (st <= LT_RUNNING && e.fin == LT_RETURNED) then e.ret else Canceled
  }

  /** No other step gives a thread its value, or changes it. */
  ghost predicate NoValue(hist: Joins.Hist, hist': Joins.Hist) {
    forall t :: 0 <= t < |hist'| && hist'[t].fin.Some? ==> t < |hist| && hist[t].fin == hist'[t].fin
  }

  lemma QuietNoValue(c: Config, s: State, e: Step)
    requires Enabled(c, s, e) && (Histories.AppStep(e) || Histories.DrainStep(e)) && !e.AppRetclean?
    ensures NoValue(s.hist, Next(c, s, e).hist)
  {
    hide First, SendAll;
  }

  lemma RequestNoValue(c: Config, s: State, e: Step)
    requires Enabled(c, s, e) && (e.TakeCall? || e.TakeRetclean? || e.RecvReply? || e.RecvCancel? || e.RecvStarted?)
    ensures NoValue(s.hist, Next(c, s, e).hist)
  {
    hide First, Put, Tick, SendCall, Sequence.Drew, Cancelled, Replied, FinishStart;
  }

  lemma CreateNoValue(c: Config, s: State, e: Step)
    requires Enabled(c, s, e) && (e.RecvCreate? || e.RecvStart?)
    ensures NoValue(s.hist, Next(c, s, e).hist)
  {
    hide First, Put, Tick, Sequence.Drew, Replied, CreateThread;
  }

  lemma MessageNoValue(c: Config, s: State, e: Step)
    requires Enabled(c, s, e) && (e.RecvTerminated? || e.RecvDetach? || e.RecvJoin?)
    ensures NoValue(s.hist, Next(c, s, e).hist)
  {
    hide First, Put, Tick, Replied, FindWait, EndSlot, ReleaseSlot;
  }

  lemma RetcleanLeaves(c: Config, s: State, a: Loc, fin: nat, ret: Ret, t: nat)
    requires Inv(c, s) && CanRetclean(c, s, a, fin)
    requires t < |Retclean(c, s, a, fin, ret).hist| && Retclean(c, s, a, fin, ret).hist[t].fin.Some?
    ensures var w := Retclean(c, s, a, fin, ret).hist[t];
            || (t < |s.hist| && s.hist[t].fin == w.fin && s.hist[t].h == w.h)
            || Leaves(s, AppRetclean(a, fin, ret), w.h, w.fin.value)
  {
    hide OrderInv, HistInv, QuoteInv, WaitInv, SeqInv, CallsInv, Life.StartsOk, Life.MsgsOk, Life.WireOk,
      Life.CountersOk, Life.SlotsOk;
    Histories.HistoryOf(c, s);
    assert Life.Live(s.life.gtab, Handle(s.life.lt[a].gidx, s.life.lt[a].gen));
  }

  /** A thread's value was there before the step, or the step is the thread's end. */
  lemma ValueComes(c: Config, s: State, e: Step, t: nat)
    requires Inv(c, s) && Enabled(c, s, e) && t < |Next(c, s, e).hist| && Next(c, s, e).hist[t].fin.Some?
    ensures var w := Next(c, s, e).hist[t];
            || (t < |s.hist| && s.hist[t].fin == w.fin && s.hist[t].h == w.h) || Leaves(s, e, w.h, w.fin.value)
  {
    hide LifeInv, CallsInv, OrderInv, HistInv, QuoteInv, WaitInv, SeqInv, First;
    if e.AppRetclean? { RetcleanLeaves(c, s, e.a, e.fin, e.ret, t); }
    else {
      if Histories.AppStep(e) || Histories.DrainStep(e) { QuietNoValue(c, s, e); }
      else if e.TakeCall? || e.TakeRetclean? || e.RecvReply? || e.RecvCancel? || e.RecvStarted? {
        RequestNoValue(c, s, e);
      } else if e.RecvCreate? || e.RecvStart? { CreateNoValue(c, s, e); } else { MessageNoValue(c, s, e); }
      hide Next, Enabled, Leaves, Histories.SlotsEvolve;
      Histories.StepEvolves(c, s, e);
    }
  }

  /** Whoever has a value left it in some step of the run. */
  lemma {:induction false} ValueLeft(c: Config, ss: seq<State>, es: seq<Step>, j: nat, t: nat) returns (i: nat)
    requires Protocol.Run(c, ss, es) && j <= |es| && t < |ss[j].hist| && ss[j].hist[t].fin.Some?
    ensures i < j && Leaves(ss[i], es[i], ss[j].hist[t].h, ss[j].hist[t].fin.value)
    decreases j
  {
    hide Inv, Next, Enabled, Leaves;
    if j == 0 {
      assert false;
    } else {
      hide Init;
      RunKeeps(c, ss, es, j - 1);
      ValueComes(c, ss[j - 1], es[j - 1], t);
      if Leaves(ss[j - 1], es[j - 1], ss[j].hist[t].h, ss[j].hist[t].fin.value) { i := j - 1; }
      else { i := ValueLeft(c, ss, es, j - 1, t); }
    }
  }

  /** A JOIN that reports success hands back the value that the thread it named left
      when it ended, earlier in the run. */
  lemma JoinedValueWasLeft(c: Config, ss: seq<State>, es: seq<Step>, j: nat, a: Loc)
    requires Protocol.Run(c, ss, es) && j <= |es| && a in ss[j].calls.app && ss[j].calls.app[a].req.Done?
    requires ss[j].calls.app[a].req.call.CallJoin? && ss[j].calls.app[a].req.result.err == 0
    ensures var q := ss[j].calls.app[a].req;
            exists i :: 0 <= i < j && Leaves(ss[i], es[i], q.call.thread, q.result.ret)
  {
    hide Inv, Init, Next, Enabled, Leaves;
    var s := ss[j];
    var q := s.calls.app[a].req;
    RunKeeps(c, ss, es, j);
    DoneIsTrue(c, s, a);
    var t: nat :| t < |s.hist| && s.hist[t].h == q.call.thread && s.hist[t].joins == 1
      && s.hist[t].fin == Some(q.result.ret);
    var i := ValueLeft(c, ss, es, j, t);
  }

  lemma DoneIsTrue(c: Config, s: State, a: Loc)
    requires Inv(c, s) && a in s.calls.app && s.calls.app[a].req.Done? && s.calls.app[a].req.result.err == 0
    ensures var q := s.calls.app[a].req;
            q.call.CallJoin? ==>
              q.call.thread == q.result.thread && Joins.Joined(s.hist, q.call.thread, q.result.ret)
  {
    hide LifeInv, CallsInv, OrderInv, HistInv, WaitInv, SeqInv, Shutdown.Inv, Joins.RepliesOk;
  }

  /** When the TERMINATED of a thread that x waits for is received, x's caller is sent,
      unless rank 0 drains, the value that thread left. */
  lemma WaiterGetsTheValue(c: Config, ss: seq<State>, es: seq<Step>, j: nat, x: nat)
    requires Protocol.Run(c, ss, es) && j < |es| && es[j].RecvTerminated? && 0 !in ss[j].draining
    requires x in ss[j].waits && ss[j].waits[x].thread == ss[j].life.ctl[es[j].k].msg.thread
    ensures var s, t, w := ss[j], ss[j + 1], ss[j].waits[x];
            && s.clock in t.calls.rpc && t.calls.rpc[s.clock].Key() == w.caller
            && t.calls.rpc[s.clock].dst == w.caller.rank && t.calls.rpc[s.clock].msg.Answer?
            && var res := t.calls.rpc[s.clock].msg.result;
               && res.err == 0 && res.thread == w.thread
               && exists i :: 0 <= i < j && Leaves(ss[i], es[i], w.thread, res.ret)
  {
    hide Inv, Init, Leaves;
    var s, k := ss[j], es[j].k;
    assert Enabled(c, s, es[j]);
    RunKeeps(c, ss, es, j);
    var h := s.life.ctl[k].msg.thread;
    WaiterIsSent(c, s, k, x);
    hide RecvTerminatedStep, First;
    var t := EndedValue(c, s, k);
    var i := ValueLeft(c, ss, es, j, t);
  }

  lemma WaiterIsSent(c: Config, s: State, k: nat, x: nat)
    requires Inv(c, s) && CanRecvTerminated(c, s, k) && 0 !in s.draining
    requires x in s.waits && s.waits[x].thread == s.life.ctl[k].msg.thread
    ensures var t, w := RecvTerminatedStep(c, s, k), s.waits[x];
            && Accepts(s.life.gtab, w.thread) && w.caller.op == JOIN
            && s.clock in t.calls.rpc
            && t.calls.rpc[s.clock] ==
               Rpc(0, w.caller.rank, Answer(w.caller.xid, JOIN, Result(0, w.thread, s.life.gtab[w.thread.idx].ret)))
  {
    hide LifeInv, CallsInv, OrderInv, HistInv, QuoteInv, SeqInv, First, RecvTerminatedStep;
    TerminatedGives(c, s, k);
    WaitOf(c, s, x);
    assert Waited(s, s.waits[x].thread);
  }

  /** The slot of a thread whose TERMINATED is in flight holds what the thread left. */
  lemma EndedValue(c: Config, s: State, k: nat) returns (t: nat)
    requires Inv(c, s) && CanRecvTerminated(c, s, k)
    ensures var h := s.life.ctl[k].msg.thread;
            && Accepts(s.life.gtab, h) && t < |s.hist| && s.hist[t].h == h
            && s.hist[t].fin == Some(s.life.gtab[h.idx].ret)
  {
    hide CallsInv, OrderInv, QuoteInv, WaitInv, SeqInv, First, Life.LocalsOk, Life.StartsOk, Life.WireOk,
      Life.CountersOk, Life.SlotsOk, Joins.HostOk, Joins.JoinsOk;
    assert Life.MsgOk(s.life.gtab, s.life.starts, s.life.ctl[k]);
    t := s.life.gtab[s.life.ctl[k].msg.thread.idx].tid;
    assert Joins.CtlHist(s.life.ctl[k].msg, s.hist[t]);
  }

  // ------------------------------------------------------------ the thread a CREATE names

  /** Some thread with handle h was created with dispatch index d and started. */
  ghost predicate CreatedAs(hist: Joins.Hist, h: Handle, d: nat) {
    exists t: nat :: t < |hist| && hist[t].h == h && hist[t].disp == d && hist[t].started
  }

  lemma CreatedStays(hist: Joins.Hist, hist': Joins.Hist, h: Handle, d: nat)
    requires Joins.Grows(hist, hist') && CreatedAs(hist, h, d)
    ensures CreatedAs(hist', h, d)
  {
    var t: nat :| t < |hist| && hist[t].h == h && hist[t].disp == d && hist[t].started;
    assert hist'[t].h == h;
  }

  lemma {:induction false} CreatedForGood(c: Config, ss: seq<State>, es: seq<Step>, i: nat, j: nat, h: Handle, d: nat)
    requires Protocol.Run(c, ss, es) && i <= j <= |es| && CreatedAs(ss[i].hist, h, d)
    ensures CreatedAs(ss[j].hist, h, d)
    decreases j
  {
    hide Inv, Init, Next, Enabled, CreatedAs, Histories.SlotsEvolve, Joins.Grows;
    if i < j {
      CreatedForGood(c, ss, es, i, j - 1, h, d);
      RunKeeps(c, ss, es, j - 1);
      Histories.StepEvolves(c, ss[j - 1], es[j - 1]);
      CreatedStays(ss[j - 1].hist, ss[j].hist, h, d);
    }
  }

  /** The step that decides a CREATE's success starts the thread. */
  lemma DecidedIsCreated(c: Config, s: State, e: Step, a: Loc, d: nat, res: Result)
    requires Inv(c, s) && Enabled(c, s, e) && res.err == 0
    requires Answers.Decides(c, s, e, Next(c, s, e), a, CallCreate(d), res)
    ensures CreatedAs(Next(c, s, e).hist, res.thread, d)
  {
    hide Inv, CreatedAs, RecvStartStep, First, Answers.Decides;
    CreateSuccess(c, s, e, Next(c, s, e), a, d, res);
    StartCreates(c, s, e.k, e.l, d, res.thread);
  }

  lemma CreateSuccess(c: Config, s: State, e: Step, t: State, a: Loc, d: nat, res: Result)
    requires res.err == 0 && Answers.Decides(c, s, e, t, a, CallCreate(d), res)
    ensures e.RecvStart? && e.err == 0 && Accepts(s.life.gtab, res.thread) && s.life.gtab[res.thread.idx].disp == d
    ensures e.k in s.life.ctl && s.life.ctl[e.k].msg.Start? && s.life.ctl[e.k].msg.thread == res.thread
  {
  }

  lemma StartCreates(c: Config, s: State, k: nat, l: nat, d: nat, h: Handle)
    requires Inv(c, s) && CanRecvStart(c, s, k, l, 0) && s.life.ctl[k].msg.thread == h
    requires Accepts(s.life.gtab, h) && s.life.gtab[h.idx].disp == d
    ensures CreatedAs(RecvStartStep(c, s, k, l, 0).hist, h, d)
  {
    hide LifeInv, CallsInv, OrderInv, QuoteInv, WaitInv, SeqInv, HistInv, First, RecvStartStep;
    StartGives(c, s, k, l, 0);
    SlotThread(s, h);
    StartedAs(c, s, k, l);
    var t, i := RecvStartStep(c, s, k, l, 0), s.life.gtab[h.idx].tid;
    assert t.hist[i].h == h && t.hist[i].disp == d && t.hist[i].started;
  }

  lemma StartedAs(c: Config, s: State, k: nat, l: nat)
    requires CanRecvStart(c, s, k, l, 0)
    ensures var t := RecvStartStep(c, s, k, l, 0);
            |t.hist| == |s.hist| && forall i :: 0 <= i < |s.hist| ==>
              t.hist[i].h == s.hist[i].h && t.hist[i].disp == s.hist[i].disp
  {
    hide First, Put, Tick;
  }

  /** A result that a JOIN reports as success is the value some thread with that
      very handle left behind, and a successful CREATE names a started thread with
      the dispatch index that was asked for. */
  lemma ResultsAreTrue(c: Config, s: State, a: Loc)
    requires Reached(c, s) && a in s.calls.app && s.calls.app[a].req.Done? && s.calls.app[a].req.result.err == 0
    ensures var q := s.calls.app[a].req;
            && (q.call.CallJoin? ==>
                  q.call.thread == q.result.thread && Joins.Joined(s.hist, q.call.thread, q.result.ret))
            && (q.call.CallCreate? ==> CreatedAs(s.hist, q.result.thread, q.call.disp))
  {
    hide Inv, Init, Next, Enabled, CreatedAs, Joins.Joined;
    var ss, es :| Protocol.Run(c, ss, es) && s == ss[|es|];
    RunKeeps(c, ss, es, |es|);
    DoneIsTrue(c, s, a);
    var q := s.calls.app[a].req;
    if q.call.CallCreate? { CreateIsTrue(c, ss, es, a); }
  }

  lemma CreateIsTrue(c: Config, ss: seq<State>, es: seq<Step>, a: Loc)
    requires Protocol.Run(c, ss, es) && a in ss[|es|].calls.app
    requires var q := ss[|es|].calls.app[a].req; q.Done? && q.call.CallCreate? && q.result.err == 0
    ensures var q := ss[|es|].calls.app[a].req; CreatedAs(ss[|es|].hist, q.result.thread, q.call.disp)
  {
    hide Inv, Init, Next, Enabled, CreatedAs, Answers.Decides;
    var q, j := ss[|es|].calls.app[a].req, |es|;
    Answers.EveryAnswerIsRight(c, ss, es, j, a);
    var i :| 0 <= i < j && Answers.Decided(c, ss, es, i, j, a, q.call, q.result);
    RunKeeps(c, ss, es, i);
    DecidedIsCreated(c, ss[i], es[i], a, q.call.disp, q.result);
    CreatedForGood(c, ss, es, i + 1, j, q.result.thread, q.call.disp);
  }
}
