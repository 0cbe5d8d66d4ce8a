/** While no rank drains, nothing gets lost: a live thread is hosted or a control
    message about it is on the way, and a blocked call is held by something that
    can move, or waits for a live thread. */
module Progress {
  import opened Types
  import opened Machine
  import opened Invariant
  import opened Protocol
  import Sequence
  import Life
  import Calls
  import Joins
  import Histories
  import Waits

  // ------------------------------------------------------------ where things are

  /** Message k is the START or the STARTED of START request y. */
  ghost predicate Carries(ctl: Life.Wire, k: nat, y: nat) {
    k in ctl && !ctl[k].msg.Terminated? && ctl[k].msg.xid == y
  }

  ghost predicate StartsMove(starts: Life.Starts, ctl: Life.Wire) {
    forall y :: y in starts ==> exists k :: Carries(ctl, k, y)
  }

  /** Ltab entry a hosts the thread of slot i. */
  ghost predicate HostedAt(lt: Life.Ltab, a: Loc, i: nat) {
    a in lt && lt[a].gidx == i
  }

  /** Message k decides about slot i: its thread is yet to start, failed to start
      or has ended. */
  ghost predicate Decides(starts: Life.Starts, ctl: Life.Wire, k: nat, i: nat) {
    k in ctl && Life.About(starts, ctl[k].msg) == i && (ctl[k].msg.Started? ==> ctl[k].msg.err != 0)
  }

  ghost predicate Somewhere(lt: Life.Ltab, starts: Life.Starts, ctl: Life.Wire, i: nat) {
    (exists a :: HostedAt(lt, a, i)) || (exists k :: Decides(starts, ctl, k, i))
  }

  predicate Alive(gtab: Life.Gtab, i: nat) {
    i < |gtab| && gtab[i].used && gtab[i].terminated == 0
  }

  ghost predicate NoneLost(gtab: Life.Gtab, lt: Life.Ltab, starts: Life.Starts, ctl: Life.Wire) {
    forall i: nat :: Alive(gtab, i) ==> Somewhere(lt, starts, ctl, i)
  }

  /** Only the main thread asks for the end of the program. */
  ghost predicate MainOnly(app: Calls.Apps) {
    forall a :: a in app && app[a].req.BusyMain? ==> a == Loc(0, 0)
  }

  ghost predicate Placed(s: State) {
    && MainOnly(s.calls.app)
    && (s.draining == {} ==>
          StartsMove(s.life.starts, s.life.ctl) && NoneLost(s.life.gtab, s.life.lt, s.life.starts, s.life.ctl))
  }

  // ------------------------------------------------------------ steps that move nothing

  /** The step touches neither control messages nor START records nor ltab entries,
      and brings no slot to life. */
  ghost predicate SameLife(v: Machine.Life, w: Machine.Life) {
    && w.lt == v.lt && w.starts == v.starts && w.ctl == v.ctl
    && forall i: nat :: Alive(w.gtab, i) ==> Alive(v.gtab, i)
  }

  predicate MovesNothing(e: Step) {
    !e.TakeRetclean? && !e.RecvCreate? && !e.RecvStart? && !e.RecvStarted? && !e.RecvTerminated?
  }

  lemma AppMovesNothing(c: Config, s: State, e: Step)
    requires Enabled(c, s, e) && Histories.AppStep(e)
    ensures SameLife(s.life, Next(c, s, e).life)
  {
    hide FinalState, FinalRet;
  }

  lemma AppKeepsMain(c: Config, s: State, e: Step)
    requires Enabled(c, s, e) && Histories.AppStep(e) && MainOnly(s.calls.app)
    ensures MainOnly(Next(c, s, e).calls.app)
  {
    hide FinalState, FinalRet;
  }

  lemma DrainMovesNothing(c: Config, s: State, e: Step)
    requires Enabled(c, s, e) && (Histories.DrainStep(e) || e.TakeCall?)
    ensures SameLife(s.life, Next(c, s, e).life) && (MainOnly(s.calls.app) ==> MainOnly(Next(c, s, e).calls.app))
  {
    hide SendAll, Put, Tick, First;
  }

  lemma DetachMovesNothing(c: Config, s: State, k: nat)
    requires CanRecvAsk(c, s, k, DETACH)
    ensures SameLife(s.life, RecvDetachStep(c, s, k).life)
  {
    hide Replied, Put, Tick, FindWait, First;
  }

  lemma JoinMovesNothing(c: Config, s: State, k: nat)
    requires CanRecvAsk(c, s, k, JOIN)
    ensures SameLife(s.life, RecvJoinStep(c, s, k).life)
  {
    hide Replied, Put, Tick, FindWait, MarkJoined, First;
  }

  lemma AskKeepsBlocks(c: Config, s: State, k: nat)
    ensures CanRecvAsk(c, s, k, DETACH) ==> RecvDetachStep(c, s, k).calls.app == s.calls.app
    ensures CanRecvAsk(c, s, k, JOIN) ==> RecvJoinStep(c, s, k).calls.app == s.calls.app
  {
    hide Put, Tick, FindWait, MarkJoined, ReleaseSlot, First;
  }

  lemma ReplyMovesNothing(c: Config, s: State, k: nat)
    requires CanRecvReply(c, s, k)
    ensures SameLife(s.life, RecvReplyStep(c, s, k).life)
            && (MainOnly(s.calls.app) ==> MainOnly(RecvReplyStep(c, s, k).calls.app))
  {
    hide First;
    assert RecvReplyStep(c, s, k).life == s.life;
  }

  lemma CancelMovesNothing(c: Config, s: State, k: nat)
    requires CanRecvAsk(c, s, k, CANCEL)
    ensures SameLife(s.life, RecvCancelStep(c, s, k).life)
            && (MainOnly(s.calls.app) ==> MainOnly(RecvCancelStep(c, s, k).calls.app))
  {
    hide Replied, Tick, CancelError, First;
  }

  lemma PlacedSame(s: State, t: State)
    requires Placed(s) && SameLife(s.life, t.life) && (MainOnly(s.calls.app) ==> MainOnly(t.calls.app))
    requires t.draining == {} ==> s.draining == {}
    ensures Placed(t)
  {
    hide StartsMove, Somewhere, MainOnly, Alive;
  }

  // ------------------------------------------------------------ steps that move something

  lemma KeepCarried(starts: Life.Starts, ctl: Life.Wire, ctl': Life.Wire, k: nat)
    requires StartsMove(starts, ctl)
    requires forall j :: j in ctl && j != k ==> j in ctl' && ctl'[j] == ctl[j]
    requires k in ctl && !ctl[k].msg.Terminated? ==>
               ctl[k].msg.xid !in starts || exists j :: Carries(ctl', j, ctl[k].msg.xid)
    ensures StartsMove(starts, ctl')
  {
    forall y | y in starts ensures exists j :: Carries(ctl', j, y) {
      var j :| Carries(ctl, j, y);
      assert j != k ==> Carries(ctl', j, y);
    }
  }

  /** What decided about slot i, or hosted it, still does. */
  lemma KeepPlace(lt: Life.Ltab, starts: Life.Starts, ctl: Life.Wire, lt': Life.Ltab, starts': Life.Starts,
                  ctl': Life.Wire, i: nat)
    requires Somewhere(lt, starts, ctl, i)
    requires forall a :: HostedAt(lt, a, i) ==> HostedAt(lt', a, i)
    requires forall k :: Decides(starts, ctl, k, i) ==> Decides(starts', ctl', k, i)
    ensures Somewhere(lt', starts', ctl', i)
  {
  }

  lemma RetcleanPlaced(v: Machine.Life, clock: nat, a: Loc, st: nat)
    requires a in v.lt && v.lt[a].gidx < |v.gtab| && Life.StampsOk(v.ctl, clock)
    requires StartsMove(v.starts, v.ctl) && NoneLost(v.gtab, v.lt, v.starts, v.ctl)
    ensures var w := EndThread(v, true, clock, a, st);
            StartsMove(w.starts, w.ctl) && NoneLost(w.gtab, w.lt, w.starts, w.ctl)
  {
    var w := EndThread(v, true, clock, a, st);
    KeepCarried(v.starts, v.ctl, w.ctl, clock);
    forall i: nat | Alive(w.gtab, i) ensures Somewhere(w.lt, w.starts, w.ctl, i) {
      if i == v.lt[a].gidx { assert Decides(w.starts, w.ctl, clock, i); }
      else { KeepPlace(v.lt, v.starts, v.ctl, w.lt, w.starts, w.ctl, i); }
    }
  }

  lemma CreatePlaced(v: Machine.Life, clock: nat, p: nat, g: Slot, y: nat, rec: StartRec)
    requires p < |v.gtab| && Life.StampsOk(v.ctl, clock) && y !in v.starts && rec.thread.idx == p
    requires forall k :: k in v.ctl && v.ctl[k].msg.Started? ==> v.ctl[k].msg.xid in v.starts
    requires StartsMove(v.starts, v.ctl) && NoneLost(v.gtab, v.lt, v.starts, v.ctl)
    ensures var w := CreateThread(v, clock, p, g, y, rec);
            StartsMove(w.starts, w.ctl) && NoneLost(w.gtab, w.lt, w.starts, w.ctl)
  {
    var w := CreateThread(v, clock, p, g, y, rec);
    KeepCarried(v.starts, v.ctl, w.ctl, clock);
    assert Carries(w.ctl, clock, y);
    forall i: nat | Alive(w.gtab, i) ensures Somewhere(w.lt, w.starts, w.ctl, i) {
      if i == p { assert Decides(w.starts, w.ctl, clock, i); }
      else { KeepPlace(v.lt, v.starts, v.ctl, w.lt, w.starts, w.ctl, i); }
    }
  }

  /** START k is answered at once; the thread is hosted at a unless it failed. */
  lemma StartPlaced(v: Machine.Life, clock: nat, k: nat, e: nat, a: Loc)
    requires k in v.ctl && v.ctl[k].msg.Start? && Life.StampsOk(v.ctl, clock) && a !in v.lt
    requires v.ctl[k].msg.xid in v.starts && v.starts[v.ctl[k].msg.xid].thread == v.ctl[k].msg.thread
    requires StartsMove(v.starts, v.ctl) && NoneLost(v.gtab, v.lt, v.starts, v.ctl)
    ensures var h := v.ctl[k].msg.thread;
            var ctl := Put(v.ctl - {k}, true, clock, Ctl(v.ctl[k].dst, 0, Started(v.ctl[k].msg.xid, e)));
            var lt := if e == 0 then v.lt[a := Local(h.idx, h.gen)] else v.lt;
            StartsMove(v.starts, ctl) && NoneLost(v.gtab, lt, v.starts, ctl)
  {
    var h := v.ctl[k].msg.thread;
    var ctl := Put(v.ctl - {k}, true, clock, Ctl(v.ctl[k].dst, 0, Started(v.ctl[k].msg.xid, e)));
    var lt := if e == 0 then v.lt[a := Local(h.idx, h.gen)] else v.lt;
    assert Carries(ctl, clock, v.ctl[k].msg.xid);
    KeepCarried(v.starts, v.ctl, ctl, k);
    forall i: nat | Alive(v.gtab, i) ensures Somewhere(lt, v.starts, ctl, i) {
      if i != h.idx { KeepPlace(v.lt, v.starts, v.ctl, lt, v.starts, ctl, i); }
      else if e == 0 { assert HostedAt(lt, a, i); }
      else { assert Decides(v.starts, ctl, clock, i); }
    }
  }

  lemma StartedPlaced(c: Config, v: Machine.Life, k: nat)
    requires k in v.ctl && v.ctl[k].msg.Started? && v.ctl[k].msg.xid in v.starts
    requires v.starts[v.ctl[k].msg.xid].thread.idx < |v.gtab|
    requires Life.StartsOk(c, v.gtab, v.starts) && Life.PairsOk(v.starts, v.ctl)
    requires StartsMove(v.starts, v.ctl) && NoneLost(v.gtab, v.lt, v.starts, v.ctl)
    ensures var w := FinishStart(v, k);
            StartsMove(w.starts, w.ctl) && NoneLost(w.gtab, w.lt, w.starts, w.ctl)
  {
    var w := FinishStart(v, k);
    var y := v.ctl[k].msg.xid;
    hide NoneLost, Somewhere, Life.StartsOk, Life.PairsOk;
    FewerCarried(v.starts, v.ctl, y);
    KeepCarried(w.starts, v.ctl, w.ctl, k);
    assert NoneLost(w.gtab, w.lt, w.starts, w.ctl) by {
      forall i: nat | Alive(w.gtab, i) ensures Somewhere(w.lt, w.starts, w.ctl, i) { StartedKeepsPlace(c, v, k, i); }
      NoneLostIs(w);
    }
  }

  lemma NoneLostIs(w: Machine.Life)
    requires forall i: nat :: Alive(w.gtab, i) ==> Somewhere(w.lt, w.starts, w.ctl, i)
    ensures NoneLost(w.gtab, w.lt, w.starts, w.ctl)
  {
  }

  lemma FewerCarried(starts: Life.Starts, ctl: Life.Wire, y: nat)
    requires StartsMove(starts, ctl)
    ensures StartsMove(starts - {y}, ctl)
  {
  }

  lemma StartedKeepsPlace(c: Config, v: Machine.Life, k: nat, i: nat)
    requires k in v.ctl && v.ctl[k].msg.Started? && v.ctl[k].msg.xid in v.starts
    requires v.starts[v.ctl[k].msg.xid].thread.idx < |v.gtab| && Alive(FinishStart(v, k).gtab, i)
    requires Life.StartsOk(c, v.gtab, v.starts) && Life.PairsOk(v.starts, v.ctl)
             && NoneLost(v.gtab, v.lt, v.starts, v.ctl)
    ensures var w := FinishStart(v, k); Somewhere(w.lt, w.starts, w.ctl, i)
  {
    var w := FinishStart(v, k);
    assert Alive(v.gtab, i);
    KeepPlace(v.lt, v.starts, v.ctl, w.lt, w.starts, w.ctl, i);
  }

  lemma TerminatedPlaced(v: Machine.Life, k: nat, free: bool)
    requires k in v.ctl && v.ctl[k].msg.Terminated? && v.ctl[k].msg.thread.idx < |v.gtab| && v.ctl[k].msg.fin != 0
    requires StartsMove(v.starts, v.ctl) && NoneLost(v.gtab, v.lt, v.starts, v.ctl)
    ensures var w := EndSlot(v, k, free);
            StartsMove(w.starts, w.ctl) && NoneLost(w.gtab, w.lt, w.starts, w.ctl)
  {
    var w := EndSlot(v, k, free);
    KeepCarried(v.starts, v.ctl, w.ctl, k);
    forall i: nat | Alive(w.gtab, i) ensures Somewhere(w.lt, w.starts, w.ctl, i) {
      assert Alive(v.gtab, i);
      KeepPlace(v.lt, v.starts, v.ctl, w.lt, w.starts, w.ctl, i);
    }
  }

  // ------------------------------------------------------------ every step

  lemma TakeRetcleanPlaced(c: Config, s: State, r: nat)
    requires LifeInv(c, s) && CanTakeRetclean(c, s, r) && Placed(s)
    ensures Placed(TakeRetcleanStep(c, s, r))
  {
    hide Life.SlotsOk, Life.LocalsOk, Life.StartsOk, Life.MsgsOk, Life.CountersOk, StartsMove, NoneLost, EndThread;
    if s.draining == {} {
      var a := Loc(r, s.calls.queue[r][0]);
      RetcleanPlaced(s.life, s.clock, a, s.calls.app[a].st);
    }
  }

  lemma RecvCreatePlaced(c: Config, s: State, k: nat, p: nat, xid: nat, src: nat, wrap: bool)
    requires LifeInv(c, s) && CanRecvCreate(c, s, k, p, xid, src, wrap) && Placed(s)
    ensures Placed(RecvCreateStep(c, s, k, p, xid, src, wrap))
  {
    hide Life.SlotsOk, Life.LocalsOk, Life.StartsOk, Life.CountersOk, StartsMove, NoneLost, CreateThread,
      Sequence.Passed;
    if s.draining == {} && CreateError(c, s.life.nAlloc, s.calls.rpc[k].msg.call.disp) == 0 {
      var g := NewSlot(s, p, s.calls.rpc[k].msg.call.disp);
      StartedHasRecord(c, s);
      CreatePlaced(s.life, s.clock, p, g, xid, StartRec(Handle(p, g.gen), s.calls.rpc[k].Key(), g.tid));
    }
  }

  lemma StartedHasRecord(c: Config, s: State)
    requires LifeInv(c, s)
    ensures forall k :: k in s.life.ctl && s.life.ctl[k].msg.Started? ==>
              s.life.ctl[k].msg.xid in s.life.starts && s.life.ctl[k].dst == 0
  {
    forall k | k in s.life.ctl && s.life.ctl[k].msg.Started?
      ensures s.life.ctl[k].msg.xid in s.life.starts && s.life.ctl[k].dst == 0
    {
      assert Life.MsgOk(s.life.gtab, s.life.starts, s.life.ctl[k]);
    }
  }

  lemma RecvStartPlaced(c: Config, s: State, k: nat, l: nat, err: nat)
    requires LifeInv(c, s) && CanRecvStart(c, s, k, l, err) && Placed(s)
    ensures Placed(RecvStartStep(c, s, k, l, err))
  {
    hide Life.SlotsOk, Life.LocalsOk, Life.StartsOk, Life.CountersOk, StartsMove, NoneLost, MarkStarted;
    assert Life.MsgOk(s.life.gtab, s.life.starts, s.life.ctl[k]);
    var h := s.life.ctl[k].msg.thread;
    var e := StartError(c, s.life.gtab, h, err);
    if s.draining == {} {
      StartPlaced(s.life, s.clock, k, e, if e == 0 then Loc(s.life.ctl[k].dst, l) else Unused(s.life.lt));
    }
  }

  /** Some ltab place that is not occupied. */
  ghost function Unused(lt: Life.Ltab): (a: Loc)
    ensures a !in lt
  {
    var n := Above(lt.Keys);
    Loc(0, n)
  }

  ghost function Above(locs: set<Loc>): (n: nat)
    ensures forall a :: a in locs ==> a.lidx < n
  {
    if locs == {} then 0
    else var a :| a in locs; var n := Above(locs - {a}); if a.lidx < n then n else a.lidx + 1
  }

  lemma RecvStartedPlaced(c: Config, s: State, k: nat)
    requires LifeInv(c, s) && CanRecvStarted(c, s, k) && Placed(s)
    ensures Placed(RecvStartedStep(c, s, k))
  {
    hide Life.SlotsOk, Life.LocalsOk, Life.StartsOk, Life.CountersOk, Life.MsgsOk, StartsMove, NoneLost, FinishStart;
    StartedHasRecord(c, s);
    if s.draining == {} { StartedPlaced(c, s.life, k); }
  }

  lemma RecvTerminatedPlaced(c: Config, s: State, k: nat)
    requires LifeInv(c, s) && CanRecvTerminated(c, s, k) && Placed(s)
    ensures Placed(RecvTerminatedStep(c, s, k))
  {
    hide Life.SlotsOk, Life.LocalsOk, Life.StartsOk, Life.CountersOk, StartsMove, NoneLost, EndSlot, FindWait, First;
    assert Life.MsgOk(s.life.gtab, s.life.starts, s.life.ctl[k]);
    if s.draining == {} {
      TerminatedPlaced(s.life, k, false);
      TerminatedPlaced(s.life, k, true);
    }
  }

  lemma QuietStepPlaced(c: Config, s: State, e: Step)
    requires Enabled(c, s, e) && MovesNothing(e) && Placed(s) && (Next(c, s, e).draining == {} ==> s.draining == {})
    ensures Placed(Next(c, s, e))
  {
    hide Placed, MainOnly, SameLife;
    if Histories.AppStep(e) {
      AppMovesNothing(c, s, e);
      if MainOnly(s.calls.app) { AppKeepsMain(c, s, e); }
    } else if Histories.DrainStep(e) || e.TakeCall? {
      DrainMovesNothing(c, s, e);
    } else if e.RecvReply? {
      ReplyMovesNothing(c, s, e.k);
    } else if e.RecvCancel? {
      CancelMovesNothing(c, s, e.k);
    } else if e.RecvDetach? {
      DetachMovesNothing(c, s, e.k);
      AskKeepsBlocks(c, s, e.k);
    } else {
      JoinMovesNothing(c, s, e.k);
      AskKeepsBlocks(c, s, e.k);
    }
    PlacedSame(s, Next(c, s, e));
  }

  lemma DrainGrows(s: State, t: State)
    requires Histories.Evolves(s, t)
    ensures t.draining == {} ==> s.draining == {}
  {
  }

  lemma StepPlaced(c: Config, s: State, e: Step)
    requires Inv(c, s) && Enabled(c, s, e) && Placed(s)
    ensures Placed(Next(c, s, e))
  {
    hide LifeInv, CallsInv, OrderInv, HistInv, QuoteInv, WaitInv, SeqInv, Placed, Histories.Evolves, First;
    Histories.StepEvolves(c, s, e);
    DrainGrows(s, Next(c, s, e));
    match e
    case TakeRetclean(r) => TakeRetcleanPlaced(c, s, r);
    case RecvCreate(k, p, xid, src, wrap) => RecvCreatePlaced(c, s, k, p, xid, src, wrap);
    case RecvStart(k, l, err) => RecvStartPlaced(c, s, k, l, err);
    case RecvStarted(k) => RecvStartedPlaced(c, s, k);
    case RecvTerminated(k) => RecvTerminatedPlaced(c, s, k);
    case _ => QuietStepPlaced(c, s, e);
  }

  lemma {:induction false} RunPlaced(c: Config, ss: seq<State>, es: seq<Step>, i: nat)
    requires Protocol.Run(c, ss, es) && i <= |es|
    ensures Placed(ss[i])
  {
    hide Inv, Init, Next, Enabled, Placed;
    if i == 0 { InitPlaced(c); }
    else { RunPlaced(c, ss, es, i - 1); RunKeeps(c, ss, es, i - 1); StepPlaced(c, ss[i - 1], es[i - 1]); }
  }

  lemma InitPlaced(c: Config)
    requires c.Valid()
    ensures Placed(Init(c))
  {
    assert HostedAt(Init(c).life.lt, Loc(0, 0), 0);
  }

  lemma ReachedPlaced(c: Config, s: State)
    requires Reached(c, s)
    ensures Placed(s)
  {
    hide Init, Next, Enabled, Placed;
    var ss, es :| Protocol.Run(c, ss, es) && s == ss[|es|];
    RunPlaced(c, ss, es, |es|);
  }

  /** While no rank drains, a thread that is allocated and not terminated is hosted
      on its rank, or a START, a failed STARTED or a TERMINATED of its own is in
      flight; every START record has its START or STARTED in flight. */
  lemma NothingIsLost(c: Config, s: State)
    requires Reached(c, s) && s.draining == {}
    ensures forall i: nat :: Alive(s.life.gtab, i) ==> Somewhere(s.life.lt, s.life.starts, s.life.ctl, i)
    ensures forall y :: y in s.life.starts ==> exists k :: Carries(s.life.ctl, k, y)
  {
    hide Reached;
    ReachedPlaced(c, s);
  }

  // ------------------------------------------------------------ what can move

  /** Each rank has more sequence numbers than table entries. */
  ghost predicate Roomy(c: Config) {
    forall r: nat :: r < c.N ==> c.M < |Sequence.Class(c.N, r)|
  }

  /** Step e takes the message with stamp k off its channel. */
  predicate Takes(e: Step, k: nat) {
    match e
    case RecvCreate(j, _, _, _, _) => j == k
    case RecvStart(j, _, _) => j == k
    case RecvStarted(j) => j == k
    case RecvTerminated(j) => j == k
    case RecvDetach(j) => j == k
    case RecvCancel(j) => j == k
    case RecvJoin(j) => j == k
    case RecvReply(j) => j == k
    case RecvShutdown(j) => j == k
    case _ => false
  }

  ghost predicate OnChannel(s: State, k: nat, src: nat, dst: nat) {
    || (k in s.life.ctl && s.life.ctl[k].src == src && s.life.ctl[k].dst == dst)
    || (k in s.calls.rpc && s.calls.rpc[k].src == src && s.calls.rpc[k].dst == dst)
    || (k in s.bc && s.bc[k].src == src && s.bc[k].dst == dst)
  }

  ghost predicate CanReceive(c: Config, s: State, k: nat) {
    exists e :: Enabled(c, s, e) && Takes(e, k)
  }

  /** A message on this channel, no younger than k, can be received now. */
  ghost predicate ChannelMoves(c: Config, s: State, src: nat, dst: nat, k: nat) {
    exists j: nat :: j <= k && OnChannel(s, j, src, dst) && CanReceive(c, s, j)
  }

  /** The manager of rank r can take the first request off its queue. */
  ghost predicate QueueMoves(c: Config, s: State, r: nat) {
    exists e :: Enabled(c, s, e)
        && ((e.TakeCall? && e.r == r) || (e.TakeRetclean? && e.r == r) || (e.TakeMain? && r == 0))
  }

  lemma {:induction false} FirstOn(s: State, src: nat, dst: nat, k: nat) returns (j: nat)
    requires OnChannel(s, k, src, dst)
    ensures j <= k && OnChannel(s, j, src, dst) && First(s, j, src, dst)
    decreases k
  {
    j := k;
    if i: nat :| i < k && OnChannel(s, i, src, dst) {
      j := FirstOn(s, src, dst, i);
    } else {
      assert forall i :: i in s.life.ctl && s.life.ctl[i].src == src && s.life.ctl[i].dst == dst ==>
               OnChannel(s, i, src, dst);
      assert forall i :: i in s.calls.rpc && s.calls.rpc[i].src == src && s.calls.rpc[i].dst == dst ==>
               OnChannel(s, i, src, dst);
      assert forall i :: i in s.bc && s.bc[i].src == src && s.bc[i].dst == dst ==> OnChannel(s, i, src, dst);
    }
  }

  /** A map into n values that sends no two keys to the same one has at most n keys. */
  lemma {:induction false} Pigeons(m: map<nat, nat>, holes: set<nat>)
    requires forall x :: x in m ==> m[x] in holes
    requires forall x, y :: x in m && y in m && m[x] == m[y] ==> x == y
    ensures |m.Keys| <= |holes|
    decreases |holes|
  {
    if m.Keys != {} {
      var x :| x in m.Keys;
      var rest := m - {x};
      assert rest.Keys == m.Keys - {x};
      Pigeons(rest, holes - {m[x]});
    }
  }

  /** get_free_seq finds a number when only numbers of table entries are busy. */
  lemma DrawsNumber(c: Config, r: nat, src: nat, m: map<nat, nat>) returns (x: nat, wrap: bool)
    requires Roomy(c) && r < c.N && Sequence.ValidSrc(c.N, r, src)
    requires forall x :: x in m ==> m[x] < c.M
    requires forall x, y :: x in m && y in m && m[x] == m[y] ==> x == y
    ensures Sequence.Drew(c.N, r, src, x, Sequence.NextSrc(c.N, r, x), wrap, m.Keys)
  {
    hide Sequence.Drew, Sequence.ValidSrc;
    Pigeons(m, Below(c.M));
    x, wrap := Sequence.Draw(c.N, r, src, m.Keys);
  }

  lemma DrawsStartId(c: Config, s: State) returns (x: nat, wrap: bool)
    requires LifeInv(c, s) && SeqInv(c, s) && Roomy(c) && 0 < c.N
    ensures Sequence.Drew(c.N, 0, Sequence.NextSrc(c.N, 0, s.src[0]), x, Sequence.NextSrc(c.N, 0, x), wrap,
                          s.life.starts.Keys)
  {
    hide Sequence.Drew, Life.LocalsOk, Life.MsgsOk, Life.WireOk, Life.CountersOk, Life.SlotOk, Joins.GensOk;
    Sequence.NextIsValid(c.N, 0, s.src[0]);
    var m := map y | y in s.life.starts :: s.life.starts[y].thread.idx;
    assert m.Keys == s.life.starts.Keys;
    assert forall y :: y in s.life.starts ==> Life.Live(s.life.gtab, s.life.starts[y].thread);
    x, wrap := DrawsNumber(c, 0, Sequence.NextSrc(c.N, 0, s.src[0]), m);
  }

  /** Where the pending calls of rank r with this operation come from, by number. */
  ghost function Pending(pend: Calls.Pend, r: nat, op: Op): map<nat, nat> {
    map x | x in XidsOf(pend, r, op) :: pend[CallId(r, op, x)]
  }

  lemma DrawsCallId(c: Config, s: State, r: nat, op: Op) returns (x: nat, wrap: bool)
    requires LifeInv(c, s) && CallsInv(c, s) && SeqInv(c, s) && Roomy(c) && r < c.N
    ensures Sequence.Drew(c.N, r, s.src[r], x, Sequence.NextSrc(c.N, r, x), wrap, XidsOf(s.calls.pend, r, op))
  {
    hide Life.SlotsOk, Life.StartsOk, Life.MsgsOk, Life.WireOk, Life.CountersOk, Calls.TokensOk, Calls.ContentOk,
      Calls.QueueOk, Sequence.Drew, XidsOf;
    var m := Pending(s.calls.pend, r, op);
    assert m.Keys == XidsOf(s.calls.pend, r, op);
    forall x | x in m ensures m[x] < c.M && Calls.PendsAs(s.calls.app, CallId(r, op, x), m[x]) {
      assert Calls.PendsAs(s.calls.app, CallId(r, op, x), m[x]);
      assert Loc(r, m[x]) in s.life.lt;
    }
    x, wrap := DrawsNumber(c, r, s.src[r], m);
  }

  lemma CtlCanMove(c: Config, s: State, k: nat)
    requires Reached(c, s) && CtlReady(s, k)
    ensures CanReceive(c, s, k)
  {
    hide Reached, First, CanReceive, LifeInv, CallsInv, OrderInv, HistInv, QuoteInv, WaitInv, SeqInv;
    ReachedInv(c, s);
    match s.life.ctl[k].msg
    case Start(_, _) => StartCanMove(c, s, k);
    case Started(_, _) => StartedCanMove(c, s, k);
    case Terminated(_, _) => TerminatedCanMove(c, s, k);
  }

  lemma StartCanMove(c: Config, s: State, k: nat)
    requires Reached(c, s) && CtlReady(s, k) && s.life.ctl[k].msg.Start?
    ensures CanReceive(c, s, k)
  {
    hide Reached, CtlReady, CanRecvStart;
    LtabAllocSucceeds(c, s, k);
    var l: nat :| CanRecvStart(c, s, k, l, 0);
    assert Enabled(c, s, RecvStart(k, l, 0));
  }

  lemma TerminatedCanMove(c: Config, s: State, k: nat)
    requires CtlReady(s, k) && s.life.ctl[k].msg.Terminated?
    ensures CanReceive(c, s, k)
  {
    hide First;
    assert Enabled(c, s, RecvTerminated(k));
  }

  lemma StartedCanMove(c: Config, s: State, k: nat)
    requires LifeInv(c, s) && CtlReady(s, k) && s.life.ctl[k].msg.Started?
    ensures CanReceive(c, s, k)
  {
    hide First;
    assert Life.MsgOk(s.life.gtab, s.life.starts, s.life.ctl[k]);
    assert Enabled(c, s, RecvStarted(k));
  }

  lemma CreateCanMove(c: Config, s: State, k: nat)
    requires Reached(c, s) && Roomy(c) && RpcReady(s, k) && s.calls.rpc[k].dst == 0 && s.calls.rpc[k].msg.Ask?
             && s.calls.rpc[k].msg.call.CallCreate?
    ensures CanReceive(c, s, k)
  {
    hide Reached, First, Roomy, LifeInv, CallsInv, OrderInv, HistInv, QuoteInv, WaitInv, Sequence.ValidSrc,
      Sequence.Drew;
    ReachedInv(c, s);
    var p: nat, x: nat, src: nat, wrap: bool := 0, 0, 0, false;
    if CreateError(c, s.life.nAlloc, s.calls.rpc[k].msg.call.disp) == 0 {
      GtabAllocSucceeds(c, s);
      p :| p < |s.life.gtab| && !s.life.gtab[p].used;
      x, wrap := DrawsStartId(c, s);
      src := Sequence.NextSrc(c.N, 0, x);
    }
    assert Enabled(c, s, RecvCreate(k, p, x, src, wrap));
  }

  lemma AsksGoToPeer(c: Config, s: State, k: nat)
    requires CallsInv(c, s) && k in s.calls.rpc && s.calls.rpc[k].msg.Ask?
    ensures s.calls.rpc[k].dst == s.calls.rpc[k].msg.call.Peer()
  {
    hide Calls.TokensOk, Calls.Blocks;
    assert Calls.WireContentOk(s.calls.app, s.calls.pend, s.calls.rpc);
  }

  lemma AskCanMove(c: Config, s: State, k: nat)
    requires RpcReady(s, k) && s.calls.rpc[k].msg.Ask? && !s.calls.rpc[k].msg.call.CallCreate?
    requires s.calls.rpc[k].dst == s.calls.rpc[k].msg.call.Peer()
    ensures CanReceive(c, s, k)
  {
    hide First;
    match s.calls.rpc[k].msg.call
    case CallDetach(_) => assert Enabled(c, s, RecvDetach(k));
    case CallCancel(_, _) => assert Enabled(c, s, RecvCancel(k));
    case CallJoin(_) => assert Enabled(c, s, RecvJoin(k));
  }

  lemma AnswerCanMove(c: Config, s: State, k: nat)
    requires RpcReady(s, k) && s.calls.rpc[k].msg.Answer?
    ensures CanReceive(c, s, k)
  {
    hide First;
    assert Enabled(c, s, RecvReply(k));
  }

  lemma RpcCanMove(c: Config, s: State, k: nat)
    requires Reached(c, s) && Roomy(c) && RpcReady(s, k)
    ensures CanReceive(c, s, k)
  {
    hide Reached, First, Roomy, CanReceive, LifeInv, CallsInv, OrderInv, HistInv, QuoteInv, WaitInv, SeqInv;
    ReachedInv(c, s);
    if s.calls.rpc[k].msg.Answer? { AnswerCanMove(c, s, k); }
    else {
      AsksGoToPeer(c, s, k);
      if s.calls.rpc[k].msg.call.CallCreate? { CreateCanMove(c, s, k); } else { AskCanMove(c, s, k); }
    }
  }

  /** In every reachable state the oldest message of every channel can be received. */
  lemma ChannelsMove(c: Config, s: State, src: nat, dst: nat, k: nat)
    requires Reached(c, s) && Roomy(c) && OnChannel(s, k, src, dst)
    ensures ChannelMoves(c, s, src, dst, k)
  {
    hide Reached, Roomy, First;
    var j := FirstOn(s, src, dst, k);
    if j in s.life.ctl && s.life.ctl[j].src == src && s.life.ctl[j].dst == dst { CtlCanMove(c, s, j); }
    else if j in s.calls.rpc && s.calls.rpc[j].src == src && s.calls.rpc[j].dst == dst { RpcCanMove(c, s, j); }
    else { assert Enabled(c, s, RecvShutdown(j)); }
  }

  lemma HeadIs(c: Config, s: State, r: nat)
    requires LifeInv(c, s) && CallsInv(c, s) && r < |s.calls.queue| && s.calls.queue[r] != []
    ensures Heads(s, r) && r < c.N
    ensures var a := Loc(r, s.calls.queue[r][0]);
            Calls.OnQueue(s.calls.app[a].req) && a in s.life.lt && s.life.lt[a].gidx < |s.life.gtab|
  {
    hide Life.SlotsOk, Life.StartsOk, Life.MsgsOk, Life.WireOk, Life.CountersOk, Calls.TokensOk, Calls.ContentOk;
  }

  /** In every reachable state the first request of every queue can be taken. */
  lemma QueuesMove(c: Config, s: State, r: nat)
    requires Reached(c, s) && Roomy(c) && r < |s.calls.queue| && s.calls.queue[r] != []
    ensures QueueMoves(c, s, r)
  {
    hide Reached, Roomy, LifeInv, CallsInv, OrderInv, HistInv, QuoteInv, WaitInv, Sequence.ValidSrc, Sequence.Drew,
      NoneLost, StartsMove;
    ReachedInv(c, s);
    ReachedPlaced(c, s);
    HeadIs(c, s, r);
    var q := s.calls.app[Loc(r, s.calls.queue[r][0])].req;
    if q.BusyCall? {
      var x, wrap := DrawsCallId(c, s, r, q.call.Op());
      assert Enabled(c, s, TakeCall(r, x, Sequence.NextSrc(c.N, r, x), wrap));
    } else if q.BusyRetclean? {
      assert Enabled(c, s, TakeRetclean(r));
    } else {
      assert r == 0 && Enabled(c, s, TakeMain);
    }
  }

  /** What the holder of a blocked call waits for can happen: the manager can take
      the next request of its queue; the channel of the message that carries the
      call, or its START, can move; or the call is a JOIN of a thread that is
      alive, hosted or with a control message on a channel that can move. */
  ghost predicate CanMove(c: Config, s: State, a: Loc, p: Place) {
    match p
    case InQueue(_) => QueueMoves(c, s, a.rank)
    case Elsewhere(OnWire(k)) => k in s.calls.rpc && ChannelMoves(c, s, s.calls.rpc[k].src, s.calls.rpc[k].dst, k)
    case Elsewhere(InStart(y)) =>
      exists k :: Carries(s.life.ctl, k, y) && ChannelMoves(c, s, s.life.ctl[k].src, s.life.ctl[k].dst, k)
    case Elsewhere(InWait(x)) => x in s.waits && (WaitIsLive(s, x) ==> ThreadMoves(c, s, s.waits[x].thread))
  }

  /** The thread the JOINWAIT was filed for has started or is being started; if not,
      its start has failed. */
  ghost predicate WaitIsLive(s: State, x: nat)
    requires x in s.waits
  {
    var t := s.waits[x].tid;
    (t < |s.hist| && s.hist[t].started) || Waits.BeingStarted(s.life.starts, t)
  }

  ghost predicate ThreadMoves(c: Config, s: State, h: Handle) {
    && Life.Live(s.life.gtab, h)
    && (|| (exists a :: HostedAt(s.life.lt, a, h.idx))
        || (exists k ::
              && Decides(s.life.starts, s.life.ctl, k, h.idx)
              && ChannelMoves(c, s, s.life.ctl[k].src, s.life.ctl[k].dst, k)))
  }

  lemma WaitMoves(c: Config, s: State, x: nat)
    requires Reached(c, s) && Roomy(c) && s.draining == {} && x in s.waits && WaitIsLive(s, x)
    ensures ThreadMoves(c, s, s.waits[x].thread)
  {
    hide Reached, Roomy, ChannelMoves;
    Waits.JoinWaitsAreLive(c, s, x);
    NothingIsLost(c, s);
    var i := s.waits[x].thread.idx;
    assert Alive(s.life.gtab, i);
    if k :| Decides(s.life.starts, s.life.ctl, k, i) { ChannelsMove(c, s, s.life.ctl[k].src, s.life.ctl[k].dst, k); }
  }

  /** While no rank drains, a thread blocked in a call is never stuck: its one holder
      can move, or waits for a thread that is still alive. */
  lemma BlockedCallsMove(c: Config, s: State, a: Loc)
    requires Reached(c, s) && Roomy(c) && s.draining == {} && a in s.calls.app && s.calls.app[a].req.BusyCall?
    ensures exists p :: Holds(s, a, p) && CanMove(c, s, a, p)
  {
    hide Reached, Roomy, ChannelMoves, QueueMoves, ThreadMoves;
    ExactlyOneReply(c, s, a);
    var p :| Holds(s, a, p);
    HolderMoves(c, s, a, p);
  }

  lemma HolderMoves(c: Config, s: State, a: Loc, p: Place)
    requires Reached(c, s) && Roomy(c) && s.draining == {} && Holds(s, a, p)
    ensures CanMove(c, s, a, p)
  {
    hide Reached, Roomy, ChannelMoves, QueueMoves, ThreadMoves;
    match p
    case InQueue(_) => QueuesMove(c, s, a.rank);
    case Elsewhere(OnWire(k)) => ChannelsMove(c, s, s.calls.rpc[k].src, s.calls.rpc[k].dst, k);
    case Elsewhere(InStart(y)) =>
      NothingIsLost(c, s);
      var k :| Carries(s.life.ctl, k, y);
      ChannelsMove(c, s, s.life.ctl[k].src, s.life.ctl[k].dst, k);
    case Elsewhere(InWait(x)) => if WaitIsLive(s, x) { WaitMoves(c, s, x); }
  }
}
