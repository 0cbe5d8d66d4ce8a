/** No thread is ever stuck: whatever a hosted thread is doing, there is a step that
    takes it, or what it waits for, further. */
module Liveness {
  import opened Types
  import opened Machine
  import opened Invariant
  import opened Protocol
  import Sequence
  import Life
  import Calls
  import Histories
  import Progress

  /** The states in which a thread can be when it is not being cleaned up; the main
      thread stays behind as returned. */
  predicate StateOk(a: Loc, p: App) {
    match p.req
    case BusyRetclean => true
    case BusyMain => a == Loc(0, 0) && p.st == LT_RETURNED
    case _ =>
      p.st == LT_STARTING || p.st == LT_RUNNING || p.st == LT_EXITED || p.st == LT_CANCELED
      || (a == Loc(0, 0) && p.st == LT_RETURNED)
  }

  ghost predicate StatesOk(app: Calls.Apps) {
    forall a :: a in app ==> StateOk(a, app[a])
  }

  lemma AppStates(c: Config, s: State, e: Step)
    requires Enabled(c, s, e) && Histories.AppStep(e) && StatesOk(s.calls.app)
    ensures StatesOk(Next(c, s, e).calls.app)
  {
    hide First, FinalRet;
  }

  lemma TakeStates(c: Config, s: State, e: Step)
    requires Enabled(c, s, e) && (e.TakeCall? || e.TakeRetclean? || Histories.DrainStep(e)) && StatesOk(s.calls.app)
    ensures StatesOk(Next(c, s, e).calls.app)
  {
    hide First, Put, Tick, SendAll, Sequence.Drew, EndThread;
  }

  lemma CreateStates(c: Config, s: State, e: Step)
    requires Enabled(c, s, e) && (e.RecvCreate? || e.RecvStart? || e.RecvStarted?) && StatesOk(s.calls.app)
    ensures StatesOk(Next(c, s, e).calls.app)
  {
    hide First, Put, Tick, Sequence.Drew, CreateThread, FinishStart, MarkStarted;
  }

  lemma EndStates(c: Config, s: State, e: Step)
    requires Enabled(c, s, e) && (e.RecvTerminated? || e.RecvDetach?) && StatesOk(s.calls.app)
    ensures StatesOk(Next(c, s, e).calls.app)
  {
    hide First, Put, Tick, FindWait, EndSlot, MarkJoined;
  }

  lemma JoinStates(c: Config, s: State, k: nat)
    requires CanRecvAsk(c, s, k, JOIN) && StatesOk(s.calls.app)
    ensures StatesOk(RecvJoinStep(c, s, k).calls.app)
  {
    hide First, Put, Tick, FindWait, ReleaseSlot, MarkJoined;
  }

  lemma ReplyStates(c: Config, s: State, e: Step)
    requires Enabled(c, s, e) && (e.RecvCancel? || e.RecvReply?) && StatesOk(s.calls.app)
    ensures StatesOk(Next(c, s, e).calls.app)
  {
    hide First, Put, Tick, CancelError;
  }

  lemma {:induction false} RunStates(c: Config, ss: seq<State>, es: seq<Step>, i: nat)
    requires Protocol.Run(c, ss, es) && i <= |es|
    ensures StatesOk(ss[i].calls.app)
  {
    hide Next, Enabled;
    if i > 0 {
      hide Init, StatesOk;
      RunStates(c, ss, es, i - 1);
      StepStates(c, ss[i - 1], es[i - 1]);
    }
  }

  lemma StepStates(c: Config, s: State, e: Step)
    requires Enabled(c, s, e) && StatesOk(s.calls.app)
    ensures StatesOk(Next(c, s, e).calls.app)
  {
    hide StatesOk, First, Sequence.Drew;
    if Histories.AppStep(e) { AppStates(c, s, e); }
    else if e.TakeCall? || e.TakeRetclean? || Histories.DrainStep(e) { TakeStates(c, s, e); }
    else if e.RecvCreate? || e.RecvStart? || e.RecvStarted? { CreateStates(c, s, e); }
    else if e.RecvTerminated? || e.RecvDetach? { EndStates(c, s, e); }
    else if e.RecvJoin? { JoinStates(c, s, e.k); }
    else { ReplyStates(c, s, e); }
  }

  /** What can happen next to the thread in block a: it begins to run, ends in any of
      the ways open to it, or collects its result; or its call or its clean-up is
      taken further.  Only the main thread is done when it has returned. */
  ghost predicate Moves(c: Config, s: State, a: Loc)
    requires a in s.calls.app
  {
    var p := s.calls.app[a];
    match p.req
    case Idle =>
      if p.st == LT_STARTING then Enabled(c, s, AppRun(a)) && Enabled(c, s, AppRetclean(a, LT_CANCELED, NoData))
      else if p.st == LT_RETURNED then a == Loc(0, 0)
      else forall fin, ret :: fin == LT_RETURNED || fin == LT_CANCELED || fin == LT_CLEANUP ==>
             Enabled(c, s, AppRetclean(a, fin, ret))
    case Done(_, _) => Enabled(c, s, AppWake(a))
    case BusyCall(_, _) => s.draining == {} ==> exists h :: Holds(s, a, h) && Progress.CanMove(c, s, a, h)
    case _ => a.rank < |s.calls.queue| && a.lidx in s.calls.queue[a.rank] && Progress.QueueMoves(c, s, a.rank)
  }

  /** A thread that runs may also exit, or make any call but a join of itself. */
  ghost predicate MayCall(c: Config, s: State, a: Loc)
    requires a in s.calls.app && a in s.life.lt
  {
    && Enabled(c, s, AppExit(a))
    && forall call: Call :: call.Peer() < c.N && (call.CallJoin? ==> call.thread.idx != s.life.lt[a].gidx) ==>
         Enabled(c, s, AppIssue(a, call))
  }

  lemma NoThreadIsStuck(c: Config, s: State, a: Loc)
    requires Reached(c, s) && Progress.Roomy(c) && a in s.calls.app
    ensures Moves(c, s, a)
    ensures a in s.life.lt
    ensures s.calls.app[a].req.Idle? && (s.calls.app[a].st == LT_RUNNING || s.calls.app[a].st == LT_CANCELED) ==>
              MayCall(c, s, a)
  {
    hide Inv, Init, Next, Progress.CanMove, Progress.QueueMoves, Holds;
    ReachedInv(c, s);
    Entry(c, s, a);
    ReachedStates(c, s, a);
    var q := s.calls.app[a].req;
    if q.BusyCall? {
      if s.draining == {} { Progress.BlockedCallsMove(c, s, a); }
    } else if q.BusyRetclean? || q.BusyMain? {
      Progress.QueuesMove(c, s, a.rank);
    }
  }

  lemma ReachedStates(c: Config, s: State, a: Loc)
    requires Reached(c, s) && a in s.calls.app
    ensures StateOk(a, s.calls.app[a])
  {
    hide Init, Next, Enabled, StateOk;
    var ss, es :| Protocol.Run(c, ss, es) && s == ss[|es|];
    RunStates(c, ss, es, |es|);
  }

  lemma Entry(c: Config, s: State, a: Loc)
    requires Inv(c, s) && a in s.calls.app
    ensures a in s.life.lt && s.life.lt[a].gidx < |s.life.gtab| && a.rank < |s.calls.queue|
    ensures Calls.OnQueue(s.calls.app[a].req) ==> a.lidx in s.calls.queue[a.rank]
  {
    hide OrderInv, HistInv, QuoteInv, WaitInv, SeqInv, Life.SlotsOk, Life.StartsOk, Life.MsgsOk, Life.WireOk,
      Life.CountersOk, Calls.TokensOk, Calls.ContentOk, Calls.PendOk;
    assert Life.Live(s.life.gtab, Handle(s.life.lt[a].gidx, s.life.lt[a].gen));
  }
}
