/** The final state that the table keeps of a thread is the one the thread ended in. */
module Endings {
  import opened Types
  import opened Machine
  import opened Invariant
  import opened Protocol
  import opened Outcomes
  import Sequence
  import Calls
  import Histories

  /** The thread h ends in step e with state f: exited or cancelled before, or what it
      says now. */
  ghost predicate EndsIn(s: State, e: Step, h: Handle, f: nat) {
    && e.AppRetclean? && Hosts(s, e.a, h) && e.a in s.calls.app
    && f == if s.calls.app[e.a].st <= LT_RUNNING then e.fin else s.calls.app[e.a].st
  }

  /** Thread h waits for its clean-up with state f. */
  ghost predicate Leaving(s: State, h: Handle, f: nat) {
    exists a :: Hosts(s, a, h) && a in s.calls.app && s.calls.app[a].req.BusyRetclean? && s.calls.app[a].st == f
  }

  ghost predicate Reported(s: State, h: Handle, f: nat) {
    exists k :: k in s.life.ctl && s.life.ctl[k].msg == Terminated(h, f)
  }

  ghost predicate Recorded(s: State, h: Handle, f: nat) {
    Accepts(s.life.gtab, h) && s.life.gtab[h.idx].terminated == f != 0
  }

  ghost predicate Ended(s: State, h: Handle, f: nat) {
    Leaving(s, h, f) || Reported(s, h, f) || Recorded(s, h, f)
  }

  // ------------------------------------------------------------ one step

  /** Nobody new waits for clean-up, no report appears and no slot changes its final
      state but for the worse of being free. */
  ghost predicate NoneEnds(s: State, t: State) {
    && (forall a :: a in t.life.lt && a in t.calls.app && t.calls.app[a].req.BusyRetclean? ==>
          && a in s.life.lt && s.life.lt[a] == t.life.lt[a] && a in s.calls.app
          && s.calls.app[a].req.BusyRetclean? && s.calls.app[a].st == t.calls.app[a].st)
    && (forall k :: k in t.life.ctl && t.life.ctl[k].msg.Terminated? ==>
          k in s.life.ctl && s.life.ctl[k].msg == t.life.ctl[k].msg)
    && SlotsKept(s, t)
  }

  ghost predicate SlotsKept(s: State, t: State) {
    |t.life.gtab| == |s.life.gtab| && forall i :: 0 <= i < |s.life.gtab| && t.life.gtab[i].used ==>
      || t.life.gtab[i].terminated == 0
      || (&& s.life.gtab[i].used && s.life.gtab[i].gen == t.life.gtab[i].gen
          && s.life.gtab[i].terminated == t.life.gtab[i].terminated)
  }

  lemma EndedStays(s: State, t: State, h: Handle, f: nat)
    requires NoneEnds(s, t) && Ended(t, h, f)
    ensures Ended(s, h, f)
  {
    if Leaving(t, h, f) {
      var a :| Hosts(t, a, h) && a in t.calls.app && t.calls.app[a].req.BusyRetclean? && t.calls.app[a].st == f;
      assert Hosts(s, a, h) && s.calls.app[a].st == f;
    }
  }

  lemma AppNoneEnds(c: Config, s: State, e: Step)
    requires Enabled(c, s, e) && Histories.AppStep(e) && !e.AppRetclean?
    ensures NoneEnds(s, Next(c, s, e))
  {
    hide First;
  }

  lemma DrainNoneEnds(c: Config, s: State, e: Step)
    requires Enabled(c, s, e) && Histories.DrainStep(e)
    ensures NoneEnds(s, Next(c, s, e))
  {
    hide First, BroadcastShutdown;
    match e
    case TakeMain => BroadcastKeepsThreads(c, MainEnded(s), 0);
    case RecvShutdown(k) => BroadcastKeepsThreads(c, s, s.bc[k].dst);
    case Quiesce => BroadcastKeepsThreads(c, s, 0);
  }

  lemma BroadcastKeepsThreads(c: Config, s: State, r: nat)
    ensures BroadcastShutdown(c, s, r).life == s.life && BroadcastShutdown(c, s, r).calls == s.calls
  {
    hide SendAll;
  }

  lemma TakeCallNoneEnds(c: Config, s: State, r: nat, xid: nat, src: nat, wrap: bool)
    requires CanTakeCall(c, s, r, xid, src, wrap)
    ensures NoneEnds(s, TakeCallStep(c, s, r, xid, src, wrap))
  {
    hide First, Put, Tick, Sequence.Drew;
  }

  lemma CreateNoneEnds(c: Config, s: State, k: nat, p: nat, xid: nat, src: nat, wrap: bool)
    requires CanRecvCreate(c, s, k, p, xid, src, wrap)
    ensures NoneEnds(s, RecvCreateStep(c, s, k, p, xid, src, wrap))
  {
    hide First, Put, Tick, Sequence.Drew;
  }

  lemma StartNoneEnds(c: Config, s: State, k: nat, l: nat, err: nat)
    requires CanRecvStart(c, s, k, l, err)
    ensures NoneEnds(s, RecvStartStep(c, s, k, l, err))
  {
    hide First, Tick, MarkStarted;
  }

  lemma StartedNoneEnds(c: Config, s: State, k: nat)
    requires CanRecvStarted(c, s, k)
    ensures NoneEnds(s, RecvStartedStep(c, s, k))
  {
    hide First, Put, Tick;
  }

  lemma DetachNoneEnds(c: Config, s: State, k: nat)
    requires CallsInv(c, s) && CanRecvAsk(c, s, k, DETACH)
    ensures NoneEnds(s, RecvDetachStep(c, s, k))
  {
    hide CallsInv, First, RecvDetachStep, Waited;
    DetachGives(c, s, k);
  }

  lemma CancelNoneEnds(c: Config, s: State, k: nat)
    requires CallsInv(c, s) && CanRecvAsk(c, s, k, CANCEL)
    ensures NoneEnds(s, RecvCancelStep(c, s, k))
  {
    hide CallsInv, First, Put, Tick, CancelError;
    FinalStates(c, s);
  }

  lemma FinalStates(c: Config, s: State)
    requires CallsInv(c, s)
    ensures Calls.FinalOk(s.calls.app)
  {
  }

  lemma JoinNoneEnds(c: Config, s: State, k: nat)
    requires CanRecvAsk(c, s, k, JOIN)
    ensures NoneEnds(s, RecvJoinStep(c, s, k))
  {
    hide First, Put, Tick, FindWait, MarkJoined;
  }

  lemma ReplyNoneEnds(c: Config, s: State, k: nat)
    requires CanRecvReply(c, s, k)
    ensures NoneEnds(s, RecvReplyStep(c, s, k))
  {
    hide First;
  }

  /** The thread that asks for clean-up ends; all others are as before. */
  lemma RetcleanEnds(c: Config, s: State, a: Loc, fin: nat, ret: Ret, h: Handle, f: nat)
    requires CanRetclean(c, s, a, fin) && Ended(Retclean(c, s, a, fin, ret), h, f)
    ensures Ended(s, h, f) || EndsIn(s, AppRetclean(a, fin, ret), h, f)
  {
    hide FinalRet;
    var t := Retclean(c, s, a, fin, ret);
    if Leaving(t, h, f) {
      var b :| Hosts(t, b, h) && b in t.calls.app && t.calls.app[b].req.BusyRetclean? && t.calls.app[b].st == f;
      if b != a { assert Hosts(s, b, h) && s.calls.app[b].st == f; }
    }
  }

  /** The report carries the state of the block that is cleaned up. */
  lemma TakeEnds(c: Config, s: State, r: nat, h: Handle, f: nat)
    requires CanTakeRetclean(c, s, r) && Ended(TakeRetcleanStep(c, s, r), h, f)
    ensures Ended(s, h, f)
  {
    hide First;
    var t, a := TakeRetcleanStep(c, s, r), Loc(r, s.calls.queue[r][0]);
    if Leaving(t, h, f) {
      var b :| Hosts(t, b, h) && b in t.calls.app && t.calls.app[b].req.BusyRetclean? && t.calls.app[b].st == f;
      assert Hosts(s, b, h) && s.calls.app[b].st == f;
    } else if Reported(t, h, f) {
      var k :| k in t.life.ctl && t.life.ctl[k].msg == Terminated(h, f);
      if !(k in s.life.ctl && s.life.ctl[k].msg == Terminated(h, f)) {
        assert Hosts(s, a, h) && s.calls.app[a].st == f;
      }
    }
  }

  /** What rank 0 records is what was reported. */
  lemma ReportEnds(c: Config, s: State, k: nat, h: Handle, f: nat)
    requires Inv(c, s) && CanRecvTerminated(c, s, k) && Ended(RecvTerminatedStep(c, s, k), h, f)
    ensures Ended(s, h, f)
  {
    hide LifeInv, CallsInv, OrderInv, HistInv, QuoteInv, WaitInv, SeqInv, First, RecvTerminatedStep, Waited;
    var t := RecvTerminatedStep(c, s, k);
    TerminatedGives(c, s, k);
    KeepsHosts(c, s, k);
    if Leaving(t, h, f) {
      var b :| Hosts(t, b, h) && b in t.calls.app && t.calls.app[b].req.BusyRetclean? && t.calls.app[b].st == f;
      assert Hosts(s, b, h) && s.calls.app[b].st == f;
    } else if Recorded(t, h, f) && s.life.ctl[k].msg.thread.idx == h.idx {
      assert s.life.ctl[k].msg == Terminated(h, f);
    }
  }

  lemma KeepsHosts(c: Config, s: State, k: nat)
    requires CanRecvTerminated(c, s, k)
    ensures RecvTerminatedStep(c, s, k).life.lt == s.life.lt
  {
    hide First, Put, Tick, FindWait, MarkJoined;
  }

  /** A final state in t was there in s, or its thread ends in this step. */
  lemma EndedComes(c: Config, s: State, e: Step, h: Handle, f: nat)
    requires Inv(c, s) && Enabled(c, s, e) && Ended(Next(c, s, e), h, f)
    ensures Ended(s, h, f) || EndsIn(s, e, h, f)
  {
    hide LifeInv, CallsInv, OrderInv, HistInv, QuoteInv, WaitInv, SeqInv, First, Sequence.Drew, NoneEnds, Ended;
    if e.AppRetclean? { RetcleanEnds(c, s, e.a, e.fin, e.ret, h, f); }
    else if e.TakeRetclean? { TakeEnds(c, s, e.r, h, f); }
    else if e.RecvTerminated? { ReportEnds(c, s, e.k, h, f); }
    else {
      StepNoneEnds(c, s, e);
      hide Enabled, Next;
      EndedStays(s, Next(c, s, e), h, f);
    }
  }

  lemma StepNoneEnds(c: Config, s: State, e: Step)
    requires Inv(c, s) && Enabled(c, s, e) && !e.AppRetclean? && !e.TakeRetclean? && !e.RecvTerminated?
    ensures NoneEnds(s, Next(c, s, e))
  {
    hide LifeInv, CallsInv, OrderInv, HistInv, QuoteInv, WaitInv, SeqInv, First, Sequence.Drew, NoneEnds;
    match e
    case TakeCall(r, xid, src, wrap) => TakeCallNoneEnds(c, s, r, xid, src, wrap);
    case RecvCreate(k, p, xid, src, wrap) => CreateNoneEnds(c, s, k, p, xid, src, wrap);
    case RecvStart(k, l, err) => StartNoneEnds(c, s, k, l, err);
    case RecvStarted(k) => StartedNoneEnds(c, s, k);
    case RecvDetach(k) => DetachNoneEnds(c, s, k);
    case RecvCancel(k) => CancelNoneEnds(c, s, k);
    case RecvJoin(k) => JoinNoneEnds(c, s, k);
    case RecvReply(k) => ReplyNoneEnds(c, s, k);
    case _ => if Histories.AppStep(e) { AppNoneEnds(c, s, e); } else { DrainNoneEnds(c, s, e); }
  }

  // ------------------------------------------------------------ over runs

  lemma {:induction false} EndedSomewhere(c: Config, ss: seq<State>, es: seq<Step>, j: nat, h: Handle, f: nat)
    returns (i: nat)
    requires Protocol.Run(c, ss, es) && j <= |es| && Ended(ss[j], h, f)
    ensures i < j && EndsIn(ss[i], es[i], h, f)
    decreases j
  {
    hide Inv, Next, Enabled, EndsIn;
    if j == 0 {
      assert false;
    } else {
      hide Init, Ended;
      RunKeeps(c, ss, es, j - 1);
      EndedComes(c, ss[j - 1], es[j - 1], h, f);
      if Ended(ss[j - 1], h, f) { i := EndedSomewhere(c, ss, es, j - 1, h, f); } else { i := j - 1; }
    }
  }

  /** The final state in a zombie's slot is that in which its thread ended, earlier in
      the run. */
  lemma ZombieEndedSo(c: Config, ss: seq<State>, es: seq<Step>, j: nat, h: Handle)
    requires Protocol.Run(c, ss, es) && j <= |es| && Accepts(ss[j].life.gtab, h)
    requires ss[j].life.gtab[h.idx].terminated != 0
    ensures exists i :: 0 <= i < j && EndsIn(ss[i], es[i], h, ss[j].life.gtab[h.idx].terminated)
  {
    hide Inv, Init, Next, Enabled, EndsIn, Leaving, Reported;
    var i := EndedSomewhere(c, ss, es, j, h, ss[j].life.gtab[h.idx].terminated);
  }
}
