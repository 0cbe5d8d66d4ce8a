/** Runs of the whole protocol: the invariant holds in every state of every run,
    and what that means for calls, tables, shutdown and joins. */
module Protocol {
  import opened Types
  import opened Machine
  import opened Invariant
  import Sequence
  import Life
  import Calls
  import Order
  import Shutdown
  import AppSteps
  import RequestSteps
  import MessageSteps
  import TerminateSteps
  import CreateSteps

  // ------------------------------------------------------------ every run

  /** The states of a run: each follows from the one before by one step. */
  ghost predicate Run(c: Config, ss: seq<State>, es: seq<Step>) {
    && c.Valid() && |ss| == |es| + 1 && ss[0] == Init(c)
    && forall i :: 0 <= i < |es| ==> Enabled(c, ss[i], es[i]) && ss[i + 1] == Next(c, ss[i], es[i])
  }

  ghost predicate Reached(c: Config, s: State) {
    exists ss, es :: Run(c, ss, es) && s == ss[|es|]
  }

  lemma InitSources(c: Config, r: nat)
    requires c.Valid() && r < c.N
    ensures Sequence.ValidSrc(c.N, r, InitSrc(c, r)) && c.N < InitSrc(c, r)
  {
    Sequence.Itself(c.N, r);
    Sequence.Itself(c.N, 0);
    Sequence.OneTurn(c.N, r);
    Sequence.OneTurn(c.N, 0);
    Sequence.OneTurn(c.N, c.N);
  }

  lemma InitLife(c: Config)
    requires c.Valid()
    ensures LifeInv(c, Init(c))
  {
    var v := Init(c).life;
    assert Life.Used(v.gtab) == {0};
    assert Life.Running(v.gtab, v.starts) == {0};
  }

  lemma InitCalls(c: Config)
    requires c.Valid()
    ensures CallsInv(c, Init(c)) && OrderInv(Init(c))
  {
  }

  lemma InitHist(c: Config)
    requires c.Valid()
    ensures HistInv(Init(c)) && QuoteInv(Init(c)) && WaitInv(Init(c)) && SeqInv(c, Init(c))
  {
    forall r | 0 <= r < c.N ensures Sequence.ValidSrc(c.N, r, Init(c).src[r]) { InitSources(c, r); }
    InitSources(c, 0);
  }

  lemma InitInv(c: Config)
    requires c.Valid()
    ensures Inv(c, Init(c))
  {
    hide LifeInv, CallsInv, OrderInv, HistInv, QuoteInv, WaitInv, SeqInv;
    InitLife(c);
    InitCalls(c);
    InitHist(c);
  }

  /** Every step of every rank and every application thread keeps the invariant. */
  lemma StepKeeps(c: Config, s: State, e: Step)
    requires Inv(c, s) && Enabled(c, s, e)
    ensures Inv(c, Next(c, s, e))
  {
    hide Inv;
    match e
    case AppRun(a) => AppSteps.RunKeeps(c, s, a);
    case AppIssue(a, call) => AppSteps.IssueKeeps(c, s, a, call);
    case AppWake(a) => AppSteps.WakeKeeps(c, s, a);
    case AppExit(a) => AppSteps.ExitKeeps(c, s, a);
    case AppRetclean(a, fin, ret) => AppSteps.RetcleanKeeps(c, s, a, fin, ret);
    case AppMainReturn => AppSteps.MainReturnKeeps(c, s);
    case TakeCall(r, xid, src, wrap) => RequestSteps.TakeCallKeeps(c, s, r, xid, src, wrap);
    case TakeRetclean(r) => RequestSteps.TakeRetcleanKeeps(c, s, r);
    case TakeMain => RequestSteps.TakeMainKeeps(c, s);
    case RecvCreate(k, p, xid, src, wrap) => CreateSteps.RecvCreateKeeps(c, s, k, p, xid, src, wrap);
    case RecvStart(k, l, err) => CreateSteps.RecvStartKeeps(c, s, k, l, err);
    case RecvStarted(k) => CreateSteps.RecvStartedKeeps(c, s, k);
    case RecvTerminated(k) => TerminateSteps.RecvTerminatedKeeps(c, s, k);
    case RecvDetach(k) => TerminateSteps.RecvDetachKeeps(c, s, k);
    case RecvCancel(k) => MessageSteps.RecvCancelKeeps(c, s, k);
    case RecvJoin(k) => MessageSteps.RecvJoinKeeps(c, s, k);
    case RecvReply(k) => MessageSteps.RecvReplyKeeps(c, s, k);
    case RecvShutdown(k) => RequestSteps.RecvShutdownKeeps(c, s, k);
    case Quiesce => RequestSteps.QuiesceKeeps(c, s);
  }

  lemma {:induction false} RunKeeps(c: Config, ss: seq<State>, es: seq<Step>, i: nat)
    requires Run(c, ss, es) && i <= |es|
    ensures Inv(c, ss[i])
  {
    hide Inv, Init, Next, Enabled;
    if i == 0 { InitInv(c); }
    else { RunKeeps(c, ss, es, i - 1); StepKeeps(c, ss[i - 1], es[i - 1]); }
  }

  lemma ReachedInv(c: Config, s: State)
    requires Reached(c, s)
    ensures Inv(c, s)
  {
    hide Inv, Init, Next, Enabled;
    var ss, es :| Run(c, ss, es) && s == ss[|es|];
    RunKeeps(c, ss, es, |es|);
  }

  // ------------------------------------------------------------ exactly one reply

  /** Where the obligation to answer a blocked call can be: still on the rank's
      queue, or in a message, a START record or a JOINWAIT with the call's id. */
  datatype Place = InQueue(i: nat) | Elsewhere(t: Calls.Token)

  ghost predicate Holds(s: State, a: Loc, p: Place) {
    && a in s.calls.app && s.calls.app[a].req.BusyCall? && a.rank < |s.calls.queue|
    && var q := s.calls.app[a].req;
    match p
    case InQueue(i) => i < |s.calls.queue[a.rank]| && s.calls.queue[a.rank][i] == a.lidx
    case Elsewhere(t) =>
      && q.xid.Some? && Calls.IsToken(t, s.calls.rpc, s.life.starts, s.waits)
      && Calls.KeyOf(t, s.calls.rpc, s.life.starts, s.waits) == CallId(a.rank, q.call.Op(), q.xid.value)
  }

  /** In every reachable state a thread blocked in a call has at most one holder
      of its answer, and exactly one as long as no rank drains. */
  lemma ExactlyOneReply(c: Config, s: State, a: Loc)
    requires Reached(c, s) && a in s.calls.app && s.calls.app[a].req.BusyCall?
    ensures forall p, p' :: Holds(s, a, p) && Holds(s, a, p') ==> p == p'
    ensures s.draining == {} ==> exists p :: Holds(s, a, p)
  {
    ReachedInv(c, s);
    AtMostOneHolder(c, s, a);
    if s.draining == {} { SomeHolder(c, s, a); }
  }

  lemma AtMostOneHolder(c: Config, s: State, a: Loc)
    requires CallsInv(c, s) && a in s.calls.app && s.calls.app[a].req.BusyCall?
    ensures forall p, p' :: Holds(s, a, p) && Holds(s, a, p') ==> p == p'
  {
    var v := Calls.Tokens(s.calls.rpc, s.life.starts, s.waits);
    forall p, p' | Holds(s, a, p) && Holds(s, a, p') ensures p == p' {
      if p.Elsewhere? && p'.Elsewhere? { assert p.t in v && p'.t in v; }
    }
  }

  lemma SomeHolder(c: Config, s: State, a: Loc)
    requires CallsInv(c, s) && a in s.calls.app && s.calls.app[a].req.BusyCall? && s.draining == {}
    ensures exists p :: Holds(s, a, p)
  {
    var q := s.calls.app[a].req;
    if q.xid.None? {
      assert Calls.OnQueue(q);
      var i: nat :| i < |s.calls.queue[a.rank]| && s.calls.queue[a.rank][i] == a.lidx;
      assert Holds(s, a, InQueue(i));
    } else {
      var v := Calls.Tokens(s.calls.rpc, s.life.starts, s.waits);
      var id := CallId(a.rank, q.call.Op(), q.xid.value);
      assert id in s.calls.pend;
      var t :| t in v && v[t] == id;
      assert Holds(s, a, Elsewhere(t));
    }
  }

  /** The block of thread a waits for the answer with this id. */
  ghost predicate WaitsFor(s: State, a: Loc, id: CallId) {
    && a in s.calls.app && a.rank == id.rank && s.calls.app[a].req.BusyCall?
    && s.calls.app[a].req.xid == Some(id.xid) && s.calls.app[a].req.call.Op() == id.op
  }

  /** A reply finds exactly one thread waiting for it, hands that thread the
      result and leaves every other block alone: replies are never stray. */
  lemma ReplyWakesItsCaller(c: Config, s: State, k: nat)
    requires Reached(c, s) && CanRecvReply(c, s, k)
    ensures exists a :: WaitsFor(s, a, s.calls.rpc[k].Key())
    ensures forall a, b :: WaitsFor(s, a, s.calls.rpc[k].Key()) && WaitsFor(s, b, s.calls.rpc[k].Key()) ==> a == b
    ensures forall a :: WaitsFor(s, a, s.calls.rpc[k].Key()) ==>
              RecvReplyStep(c, s, k).calls.app
              == s.calls.app[a := s.calls.app[a].(req := Done(s.calls.app[a].req.call, s.calls.rpc[k].msg.result))]
  {
    ReachedInv(c, s);
    DeliversToCaller(c, s, k);
  }

  lemma DeliversToCaller(c: Config, s: State, k: nat)
    requires CallsInv(c, s) && CanRecvReply(c, s, k)
    ensures exists a :: WaitsFor(s, a, s.calls.rpc[k].Key())
    ensures forall a, b :: WaitsFor(s, a, s.calls.rpc[k].Key()) && WaitsFor(s, b, s.calls.rpc[k].Key()) ==> a == b
    ensures forall a :: WaitsFor(s, a, s.calls.rpc[k].Key()) ==>
              RecvReplyStep(c, s, k).calls.app
              == s.calls.app[a := s.calls.app[a].(req := Done(s.calls.app[a].req.call, s.calls.rpc[k].msg.result))]
  {
    hide Calls.TokensOk, Calls.ContentOk, Calls.QueueOk, RpcStamps, RecvReplyStep;
    var q := s.calls;
    var id := q.rpc[k].Key();
    Calls.FindsCaller(c, q.app, q.queue, q.pend, q.rpc, s.life.starts, s.waits, s.draining, k);
    var b := Loc(id.rank, q.pend[id]);
    assert WaitsFor(s, b, id);
    assert forall a :: WaitsFor(s, a, id) ==> a == b;
    ReplyAppIs(c, s, k);
  }

  lemma ReplyAppIs(c: Config, s: State, k: nat)
    requires CanRecvReply(c, s, k) && s.calls.rpc[k].Key() in s.calls.pend
    ensures var id := s.calls.rpc[k].Key();
            var a := Loc(id.rank, s.calls.pend[id]);
            WaitsFor(s, a, id) ==>
              RecvReplyStep(c, s, k).calls.app
              == s.calls.app[a := s.calls.app[a].(req := Done(s.calls.app[a].req.call, s.calls.rpc[k].msg.result))]
  {
  }

  // ------------------------------------------------------------ shutdown

  /** threads_running counts the threads whose STARTED but not TERMINATED rank 0
      has processed; while one is starting, its creator is among them. */
  lemma StartingImpliesRunning(c: Config, s: State)
    requires Reached(c, s)
    ensures s.life.nRunning == |Life.Running(s.life.gtab, s.life.starts)| && s.life.nStarting == |s.life.starts|
    ensures s.life.nAlloc == |Life.Used(s.life.gtab)|
    ensures s.life.nStarting > 0 ==> s.life.nRunning > 0
  {
    ReachedInv(c, s);
    if s.life.starts != map[] {
      var y :| y in s.life.starts;
      CreatorRuns(c, s, y);
    }
  }

  lemma CreatorRuns(c: Config, s: State, y: nat)
    requires LifeInv(c, s) && CallsInv(c, s) && OrderInv(s) && y in s.life.starts
    ensures Life.Running(s.life.gtab, s.life.starts) != {}
  {
    var v := s.life;
    Calls.TokensPend(s.calls.pend, s.calls.rpc, v.starts, s.waits, s.draining);
    var id := v.starts[y].caller;
    assert Calls.PendsAs(s.calls.app, id, s.calls.pend[id]);
    var a := Loc(id.rank, s.calls.pend[id]);
    assert a in v.lt;
    assert Life.Live(v.gtab, Handle(v.lt[a].gidx, v.lt[a].gen));
    assert !Life.Starting(v.starts, v.lt[a].gidx);
    assert v.lt[a].gidx in Life.Running(v.gtab, v.starts);
  }

  /** When rank 0 can take a CREATE off its channel, the thread that sent it is no
      longer starting: its own STARTED has been processed. */
  lemma CreatorStarted(c: Config, s: State, k: nat, a: Loc)
    requires Reached(c, s) && RpcReady(s, k) && s.calls.rpc[k].msg.Ask? && s.calls.rpc[k].msg.call.CallCreate?
    requires WaitsFor(s, a, s.calls.rpc[k].Key())
    ensures a in s.life.lt && s.life.lt[a].gidx in Life.Running(s.life.gtab, s.life.starts)
  {
    hide Reached;
    ReachedInv(c, s);
    CreatorCounts(c, s, k, a);
  }

  lemma CreatorCounts(c: Config, s: State, k: nat, a: Loc)
    requires LifeInv(c, s) && CallsInv(c, s) && OrderInv(s)
    requires RpcReady(s, k) && s.calls.rpc[k].msg.Ask? && s.calls.rpc[k].msg.call.CallCreate?
    requires WaitsFor(s, a, s.calls.rpc[k].Key())
    ensures a in s.life.lt && s.life.lt[a].gidx in Life.Running(s.life.gtab, s.life.starts)
  {
    hide Life.SlotsOk, Life.StartsOk, Life.WireOk, Life.CountersOk, Calls.TokensOk, Calls.QueueOk, Order.CreatorOk,
      Life.StartedBefore;
    var v := s.life;
    var i := v.lt[a].gidx;
    assert Life.Live(v.gtab, Handle(i, v.lt[a].gen));
    forall z | z in v.starts ensures v.starts[z].thread.idx != i {
      if v.starts[z].thread.idx == i {
        assert Life.StartedBefore(v.ctl, z, k);
        NotOvertaken(c, s, k, z);
      }
    }
  }

  /** A STARTED older than a CREATE on its way from the same rank would have been
      received first. */
  lemma NotOvertaken(c: Config, s: State, k: nat, z: nat)
    requires LifeInv(c, s) && RpcReady(s, k) && s.calls.rpc[k].dst == 0 && Life.StartedBefore(s.life.ctl, z, k)
    requires z in s.life.starts && s.life.starts[z].thread.idx < |s.life.gtab|
    ensures s.life.gtab[s.life.starts[z].thread.idx].rank != s.calls.rpc[k].src
  {
    hide Life.SlotsOk, Life.StartsOk, Life.WireOk, Life.CountersOk;
    var j :| j in s.life.ctl && j < k && s.life.ctl[j].msg.Started? && s.life.ctl[j].msg.xid == z;
    assert Life.MsgOk(s.life.gtab, s.life.starts, s.life.ctl[j]);
  }

  /** Nothing runs, starts, is queued, pending or in flight anywhere. */
  ghost predicate Quiet(s: State) {
    && s.life.nStarting == 0 && s.life.lt == map[] && s.life.starts == map[] && s.life.ctl == map[]
    && s.calls.app == map[] && s.calls.pend == map[] && s.calls.rpc == map[] && s.waits == map[]
    && forall r :: 0 <= r < |s.calls.queue| ==> s.calls.queue[r] == []
  }

  /** When rank 0 sees no running thread, the whole system is quiet. */
  lemma ShutdownIsSound(c: Config, s: State)
    requires Reached(c, s) && s.life.nRunning == 0
    ensures Quiet(s)
  {
    ReachedInv(c, s);
    StartingImpliesRunning(c, s);
    assert s.life.starts == map[];
    NobodyHosted(c, s);
    NobodyCalls(c, s);
  }

  lemma NobodyHosted(c: Config, s: State)
    requires LifeInv(c, s) && s.life.nRunning == 0 && s.life.starts == map[]
    ensures s.life.lt == map[] && s.life.ctl == map[]
  {
    var v := s.life;
    assert forall i: nat :: i < |v.gtab| && v.gtab[i].used && v.gtab[i].terminated == 0 ==>
             i in Life.Running(v.gtab, v.starts);
  }

  lemma QueuedIsHosted(c: Config, s: State, r: nat)
    requires CallsInv(c, s) && r < |s.calls.queue| && s.calls.queue[r] != []
    ensures s.calls.app.Keys != {}
  {
    assert Loc(r, s.calls.queue[r][0]) in s.calls.app;
  }

  lemma NobodyCalls(c: Config, s: State)
    requires CallsInv(c, s) && s.life.lt == map[] && s.life.starts == map[]
    ensures s.calls.app == map[] && s.calls.pend == map[] && s.calls.rpc == map[] && s.waits == map[]
    ensures forall r :: 0 <= r < |s.calls.queue| ==> s.calls.queue[r] == []
  {
    Calls.TokensPend(s.calls.pend, s.calls.rpc, s.life.starts, s.waits, s.draining);
    assert s.calls.app.Keys == {};
    forall r | 0 <= r < |s.calls.queue| ensures s.calls.queue[r] == [] {
      if s.calls.queue[r] != [] { QueuedIsHosted(c, s, r); }
    }
  }

  /** Once rank 0 has broadcast and no notice is in flight, every rank drains. */
  lemma BroadcastReachesAll(c: Config, s: State, r: nat)
    requires Reached(c, s) && 0 in s.draining && s.bc == map[] && r < c.N
    ensures r in s.draining
  {
    ReachedInv(c, s);
    Shutdown.AllDrain(c, s.bc, s.draining, s.clock, r);
  }

  // ------------------------------------------------------------ tables

  /** The ltab indices a rank has in use. */
  ghost function Occupied(s: State, r: nat): set<nat> {
    set a | a in s.life.lt && a.rank == r :: a.lidx
  }

  /** ltab_alloc finds an entry for every START: the occupied entries of a rank
      stand for slots other than the one being started. */
  lemma LtabAllocSucceeds(c: Config, s: State, k: nat)
    requires Reached(c, s) && CtlReady(s, k) && s.life.ctl[k].msg.Start?
    ensures exists l: nat :: CanRecvStart(c, s, k, l, 0) && l < c.M && Loc(s.life.ctl[k].dst, l) !in s.life.lt
  {
    ReachedInv(c, s);
    var r := s.life.ctl[k].dst;
    FewerEntriesThanSlots(c, s, k);
    if forall l :: 0 <= l < c.M ==> Loc(r, l) in s.life.lt {
      assert Below(c.M) <= Occupied(s, r) by {
        forall l | l in Below(c.M) ensures l in Occupied(s, r) { assert Loc(r, l) in s.life.lt; }
      }
      Sequence.Fewer(Below(c.M), Occupied(s, r));
      assert false;
    }
    var l: nat :| l < c.M && Loc(r, l) !in s.life.lt;
    assert CanRecvStart(c, s, k, l, 0);
  }

  /** The numbers below n. */
  ghost function Below(n: nat): (b: set<nat>)
    ensures |b| == n && forall l: nat :: l in b <==> l < n
  {
    if n == 0 then {} else Below(n - 1) + {n - 1}
  }

  lemma FewerEntriesThanSlots(c: Config, s: State, k: nat)
    requires LifeInv(c, s) && CtlReady(s, k) && s.life.ctl[k].msg.Start?
    ensures |Occupied(s, s.life.ctl[k].dst)| < c.M
  {
    var v := s.life;
    var r := v.ctl[k].dst;
    Life.StartIsAlone(v.gtab, v.lt, v.starts, v.ctl, k);
    assert Life.MsgOk(v.gtab, v.starts, v.ctl[k]);
    var i := v.ctl[k].msg.thread.idx;
    Inject(s, r, Occupied(s, r), Below(c.M) - {i});
  }

  /** Distinct entries of one rank stand for distinct slots. */
  lemma {:induction false} Inject(s: State, r: nat, ls: set<nat>, slots: set<nat>)
    requires forall l :: l in ls ==> Loc(r, l) in s.life.lt && s.life.lt[Loc(r, l)].gidx in slots
    requires forall l, m :: l in ls && m in ls && s.life.lt[Loc(r, l)].gidx == s.life.lt[Loc(r, m)].gidx ==> l == m
    ensures |ls| <= |slots|
  {
    if ls != {} {
      var l :| l in ls;
      Inject(s, r, ls - {l}, slots - {s.life.lt[Loc(r, l)].gidx});
    }
  }

  /** gtab_alloc finds a slot whenever the count is below the maximum. */
  lemma GtabAllocSucceeds(c: Config, s: State)
    requires Reached(c, s) && s.life.nAlloc < c.M
    ensures exists p: nat :: p < |s.life.gtab| && !s.life.gtab[p].used
  {
    ReachedInv(c, s);
    if Below(c.M) <= Life.Used(s.life.gtab) {
      Sequence.Fewer(Below(c.M), Life.Used(s.life.gtab));
      assert false;
    }
  }

  /** A free slot has no ltab entry on any rank, is not published and no message
      is about it: reclaiming it was safe. */
  lemma FreeSlotIsUnreferenced(c: Config, s: State, i: nat)
    requires Reached(c, s) && i < |s.life.gtab| && !s.life.gtab[i].used
    ensures !s.life.gtab[i].hasLtab
    ensures forall a :: a in s.life.lt ==> s.life.lt[a].gidx != i
    ensures forall y :: y in s.life.starts ==> s.life.starts[y].thread.idx != i
    ensures forall k :: k in s.life.ctl ==> Life.About(s.life.starts, s.life.ctl[k].msg) != i
  {
    ReachedInv(c, s);
    Life.UnusedIsLoose(c, s.life.gtab, s.life.lt, s.life.starts, s.life.ctl, i);
    assert Life.SlotOk(c, s.life.gtab[i], i, s.life.lt);
  }

  /** A published ltab index leads to the entry of that very thread. */
  lemma PublishedEntryIsRight(c: Config, s: State, i: nat)
    requires Reached(c, s) && i < |s.life.gtab| && s.life.gtab[i].hasLtab
    ensures var g := s.life.gtab[i];
            var a := Loc(g.rank, g.ltabIdx);
            g.used && g.terminated == 0 && a in s.life.lt && s.life.lt[a] == Local(i, g.gen)
  {
    ReachedInv(c, s);
    assert Life.SlotOk(c, s.life.gtab[i], i, s.life.lt);
  }

  /** Block a belongs to thread h. */
  ghost predicate Hosts(s: State, a: Loc, h: Handle) {
    a in s.life.lt && s.life.lt[a] == Local(h.idx, h.gen)
  }

  /** The thread in block a has published its ltab entry. */
  ghost predicate Published(s: State, a: Loc) {
    a in s.life.lt && s.life.lt[a].gidx < |s.life.gtab| && s.life.gtab[s.life.lt[a].gidx].hasLtab
  }

  // ------------------------------------------------------------ joins

  /** The id of a JOIN that becomes a JOINWAIT is new at rank 0, although each
      rank numbers its own calls. */
  lemma JoinWaitIdIsNew(c: Config, s: State, k: nat)
    requires Reached(c, s) && CanRecvAsk(c, s, k, JOIN)
    ensures s.calls.rpc[k].msg.xid !in s.waits
  {
    ReachedInv(c, s);
    Calls.WaitIsFresh(c, s.calls.app, s.calls.pend, s.calls.rpc, s.life.starts, s.waits, s.draining, k);
  }

  /** TERMINATED reports a final state, to rank 0, about a live thread, and never
      arrives before that thread's STARTED. */
  lemma TerminatedIsInOrder(c: Config, s: State, k: nat)
    requires Reached(c, s) && CanRecvTerminated(c, s, k)
    ensures var h := s.life.ctl[k].msg.thread;
            && TerminatedValid(s.life.gtab, s.life.ctl[k]) && s.life.ctl[k].msg.fin > LT_RUNNING
            && s.life.gtab[h.idx].used && s.life.gtab[h.idx].terminated == 0
            && (forall y :: y in s.life.starts ==> s.life.starts[y].thread.idx != h.idx)
            && (forall a :: a in s.life.lt ==> s.life.lt[a].gidx != h.idx)
  {
    ReachedInv(c, s);
    assert Life.MsgOk(s.life.gtab, s.life.starts, s.life.ctl[k]);
    Life.TerminatedIsLoose(c, s.life.gtab, s.life.lt, s.life.starts, s.life.ctl, s.clock, s.draining, k);
  }
}
