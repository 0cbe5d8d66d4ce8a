/** Cancellation reaches its thread: every running thread is published under its
    ltab entry, so a CANCEL for it finds it. */
module Cancels {
  import opened Types
  import opened Machine
  import opened Invariant
  import opened Protocol
  import Sequence
  import Life
  import Calls
  import Histories

  // ------------------------------------------------------------ running threads are published

  ghost predicate RunningOk(s: State) {
    forall a :: a in s.life.lt && a in s.calls.app && s.calls.app[a].st == LT_RUNNING ==> Published(s, a)
  }

  /** No thread but the one that begins to run changes to running, and no slot with
      a live thread is withdrawn. */
  ghost predicate Withdraws(s: State, t: State) {
    && (forall a :: a in t.life.lt && a in t.calls.app && t.calls.app[a].st == LT_RUNNING ==>
          a in s.life.lt && s.life.lt[a] == t.life.lt[a] && a in s.calls.app && s.calls.app[a].st == LT_RUNNING)
    && |t.life.gtab| == |s.life.gtab|
    && forall i :: 0 <= i < |s.life.gtab| ==>
         || t.life.gtab[i].hasLtab == s.life.gtab[i].hasLtab || !t.life.gtab[i].used || !s.life.gtab[i].used
         || t.life.gtab[i].terminated != 0 || Unhosted(t, i)
  }

  ghost predicate Unhosted(s: State, i: nat) {
    forall a :: a in s.life.lt ==> s.life.lt[a].gidx != i
  }

  lemma AppWithdraws(c: Config, s: State, e: Step)
    requires Enabled(c, s, e) && Histories.AppStep(e) && !e.AppRun? && !e.AppRetclean?
    ensures Withdraws(s, Next(c, s, e))
  {
    hide First;
  }

  lemma RetcleanWithdraws(c: Config, s: State, a: Loc, fin: nat, ret: Ret)
    requires CanRetclean(c, s, a, fin)
    ensures Withdraws(s, Retclean(c, s, a, fin, ret))
  {
    hide FinalRet;
  }

  lemma DrainWithdraws(c: Config, s: State, e: Step)
    requires Enabled(c, s, e) && Histories.DrainStep(e)
    ensures Withdraws(s, Next(c, s, e))
  {
    hide First, SendAll;
  }

  lemma TakeWithdraws(c: Config, s: State, e: Step)
    requires LifeInv(c, s) && Enabled(c, s, e) && (e.TakeCall? || e.TakeRetclean?)
    ensures Withdraws(s, Next(c, s, e))
  {
    hide First, Put, Tick, Sequence.Drew, Life.SlotsOk, Life.StartsOk, Life.MsgsOk, Life.WireOk, Life.CountersOk;
  }

  lemma CreateWithdraws(c: Config, s: State, k: nat, p: nat, xid: nat, src: nat, wrap: bool)
    requires CanRecvCreate(c, s, k, p, xid, src, wrap)
    ensures Withdraws(s, RecvCreateStep(c, s, k, p, xid, src, wrap))
  {
    hide First, Put, Tick, Sequence.Drew;
  }

  lemma StartWithdraws(c: Config, s: State, k: nat, l: nat, err: nat)
    requires CanRecvStart(c, s, k, l, err)
    ensures Withdraws(s, RecvStartStep(c, s, k, l, err))
  {
    hide First, Put, Tick, MarkStarted;
  }

  lemma StartedWithdraws(c: Config, s: State, k: nat)
    requires CanRecvStarted(c, s, k)
    ensures Withdraws(s, RecvStartedStep(c, s, k))
  {
    hide First, Put, Tick;
  }

  lemma EndWithdraws(c: Config, s: State, k: nat)
    requires LifeInv(c, s) && CanRecvTerminated(c, s, k)
    ensures Withdraws(s, RecvTerminatedStep(c, s, k))
  {
    hide LifeInv, First, Put, Tick, FindWait, MarkJoined;
    EndIsFinal(c, s, k);
  }

  lemma EndIsFinal(c: Config, s: State, k: nat)
    requires LifeInv(c, s) && CanRecvTerminated(c, s, k)
    ensures s.life.ctl[k].msg.fin != 0
  {
    assert Life.MsgOk(s.life.gtab, s.life.starts, s.life.ctl[k]);
  }

  lemma DetachWithdraws(c: Config, s: State, k: nat)
    requires CanRecvAsk(c, s, k, DETACH)
    ensures Withdraws(s, RecvDetachStep(c, s, k))
  {
    hide First, Put, Tick, FindWait;
  }

  lemma CancelWithdraws(c: Config, s: State, k: nat)
    requires CanRecvAsk(c, s, k, CANCEL)
    ensures Withdraws(s, RecvCancelStep(c, s, k))
  {
    hide First, Put, Tick, CancelError;
  }

  lemma JoinWithdraws(c: Config, s: State, k: nat)
    requires CanRecvAsk(c, s, k, JOIN)
    ensures Withdraws(s, RecvJoinStep(c, s, k))
  {
    hide First, Put, Tick, FindWait, MarkJoined;
  }

  lemma ReplyWithdraws(c: Config, s: State, k: nat)
    requires CanRecvReply(c, s, k)
    ensures Withdraws(s, RecvReplyStep(c, s, k))
  {
    hide First;
  }

  lemma StepRunning(c: Config, s: State, e: Step)
    requires Inv(c, s) && Enabled(c, s, e) && RunningOk(s)
    ensures RunningOk(Next(c, s, e))
  {
    hide LifeInv, CallsInv, OrderInv, HistInv, QuoteInv, WaitInv, SeqInv, First, Withdraws, RunningOk;
    if e.AppRun? { RunPublishes(c, s, e.a); }
    else {
      match e {
        case AppRetclean(a, fin, ret) => RetcleanWithdraws(c, s, a, fin, ret);
        case TakeCall(_, _, _, _) => TakeWithdraws(c, s, e);
        case TakeRetclean(_) => TakeWithdraws(c, s, e);
        case RecvCreate(k, p, xid, src, wrap) => CreateWithdraws(c, s, k, p, xid, src, wrap);
        case RecvStart(k, l, err) => StartWithdraws(c, s, k, l, err);
        case RecvStarted(k) => StartedWithdraws(c, s, k);
        case RecvTerminated(k) => EndWithdraws(c, s, k);
        case RecvDetach(k) => DetachWithdraws(c, s, k);
        case RecvCancel(k) => CancelWithdraws(c, s, k);
        case RecvJoin(k) => JoinWithdraws(c, s, k);
        case RecvReply(k) => ReplyWithdraws(c, s, k);
        case _ => if Histories.AppStep(e) { AppWithdraws(c, s, e); } else { DrainWithdraws(c, s, e); }
      }
      hide Enabled, Next, Inv;
      StepKeeps(c, s, e);
      StillPublished(c, s, Next(c, s, e));
    }
  }

  lemma RunPublishes(c: Config, s: State, a: Loc)
    requires RunningOk(s) && CanRun(c, s, a)
    ensures RunningOk(Machine.Run(c, s, a))
  {
  }

  lemma StillPublished(c: Config, s: State, t: State)
    requires Inv(c, s) && Inv(c, t) && RunningOk(s) && Withdraws(s, t)
    ensures RunningOk(t)
  {
    hide CallsInv, OrderInv, HistInv, QuoteInv, WaitInv, SeqInv, Life.SlotsOk, Life.StartsOk, Life.MsgsOk, Life.WireOk,
      Life.CountersOk;
    forall a | a in t.life.lt && a in t.calls.app && t.calls.app[a].st == LT_RUNNING ensures Published(t, a) {
      var i := t.life.lt[a].gidx;
      assert Life.Live(t.life.gtab, Handle(i, t.life.lt[a].gen)) && Life.Live(s.life.gtab, Handle(i, s.life.lt[a].gen));
      assert Published(s, a);
    }
  }

  lemma {:induction false} RunRunning(c: Config, ss: seq<State>, es: seq<Step>, i: nat)
    requires Protocol.Run(c, ss, es) && i <= |es|
    ensures RunningOk(ss[i])
  {
    hide Inv, Next, Enabled;
    if i > 0 {
      hide Init, RunningOk;
      RunRunning(c, ss, es, i - 1);
      RunKeeps(c, ss, es, i - 1);
      StepRunning(c, ss[i - 1], es[i - 1]);
    }
  }

  /** Every running thread's slot leads to its entry. */
  lemma RunningIsPublished(c: Config, s: State, a: Loc)
    requires Reached(c, s) && a in s.life.lt && a in s.calls.app && s.calls.app[a].st == LT_RUNNING
    ensures Published(s, a) && s.life.gtab[s.life.lt[a].gidx].ltabIdx == a.lidx
  {
    hide Inv, Next, Enabled, Init;
    var ss, es :| Protocol.Run(c, ss, es) && s == ss[|es|];
    RunRunning(c, ss, es, |es|);
    RunKeeps(c, ss, es, |es|);
    EntryIsOwn(c, s, a);
  }

  lemma EntryIsOwn(c: Config, s: State, a: Loc)
    requires Inv(c, s) && a in s.life.lt && Published(s, a)
    ensures s.life.gtab[s.life.lt[a].gidx].ltabIdx == a.lidx
  {
    hide CallsInv, OrderInv, HistInv, QuoteInv, WaitInv, SeqInv, Life.StartsOk, Life.MsgsOk, Life.WireOk,
      Life.CountersOk;
    var i := s.life.lt[a].gidx;
    assert Life.SlotOk(c, s.life.gtab[i], i, s.life.lt);
  }

  // ------------------------------------------------------------ CANCEL

  /** A CANCEL marks the very thread it names if that thread runs on the rank that was
      asked, and touches no other block. */
  lemma CancelHitsItsThread(c: Config, s: State, k: nat)
    requires Reached(c, s) && CanRecvAsk(c, s, k, CANCEL)
    ensures var h, t := s.calls.rpc[k].msg.call.thread, Next(c, s, RecvCancel(k));
            && t.calls.app.Keys == s.calls.app.Keys
            && forall a :: a in s.calls.app ==>
                 t.calls.app[a] ==
                 if Hosts(s, a, h) && a.rank == s.calls.rpc[k].dst && s.calls.app[a].st == LT_RUNNING
                 then s.calls.app[a].(st := LT_CANCELED) else s.calls.app[a]
  {
    hide Reached, LifeInv, CallsInv, OrderInv, HistInv, QuoteInv, WaitInv, SeqInv, First, Hosts, Published,
      RecvCancelStep;
    ReachedInv(c, s);
    CancelOf(c, s, k);
    var h := s.calls.rpc[k].msg.call.thread;
    forall a | a in s.calls.app && Hosts(s, a, h) && s.calls.app[a].st == LT_RUNNING ensures Published(s, a) {
      HostsIs(s, a, h);
      RunningIsPublished(c, s, a);
    }
  }

  lemma HostsIs(s: State, a: Loc, h: Handle)
    requires Hosts(s, a, h)
    ensures a in s.life.lt
  {
  }

  lemma CancelOf(c: Config, s: State, k: nat)
    requires LifeInv(c, s) && CallsInv(c, s) && CanRecvAsk(c, s, k, CANCEL)
    ensures var h, t := s.calls.rpc[k].msg.call.thread, RecvCancelStep(c, s, k);
            && t.calls.app.Keys == s.calls.app.Keys
            && forall a :: a in s.calls.app ==>
                 t.calls.app[a] ==
                 if Hosts(s, a, h) && a.rank == s.calls.rpc[k].dst && Published(s, a) && s.calls.app[a].st == LT_RUNNING
                 then s.calls.app[a].(st := LT_CANCELED) else s.calls.app[a]
  {
    hide Life.CountersOk, Life.StartsOk, Life.MsgsOk, Life.WireOk, Calls.Inv, RpcStamps, Put, Tick, First;
    var h := s.calls.rpc[k].msg.call.thread;
    if h.idx < |s.life.gtab| { assert Life.SlotOk(c, s.life.gtab[h.idx], h.idx, s.life.lt); }
  }
}
