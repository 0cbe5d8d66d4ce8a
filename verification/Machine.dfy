/** The thread-lifecycle protocol as a transition system over all ranks.

    One step is one manager turn (`process_mqe` or `process_req` on some rank,
    or the shutdown test at the top of rank 0's loop) or one action of an
    application thread.  Messages in flight carry the global order in which
    they were sent; a message can be received when no earlier one with the
    same source and destination is still in flight, which is the
    non-overtaking rule of MPI point-to-point messages and the FIFO loopback
    queue.  A rank that is draining refuses to send.  */
module Machine {
  import opened Types
  import Sequence
  import Router

  // ------------------------------------------------------------ thread tables

  /** `dthread_gtab_t`.  `tid` is a history variable: which entry of
      `State.hist` the slot currently stands for. */
  datatype Slot = Slot(used: bool, rank: nat, gen: nat, disp: nat, ret: Ret,
                       detached: bool, terminated: nat,
                       hasLtab: bool, ltabIdx: nat, tid: nat)

  /** An ltab entry is named by its rank and its index there. */
  datatype Loc = Loc(rank: nat, lidx: nat)

  /** The identity half of an occupied ltab entry (`gtab_idx`, `seq`).  The
      other half, state and request block, is `App`. */
  datatype Local = Local(gidx: nat, gen: nat)

  // ------------------------------------------------------------ requests

  datatype Op = CREATE | DETACH | CANCEL | JOIN

  /** What an application thread asks for; `peer` is the rank dthread_cancel
      read from the table before it sent, possibly out of date by now. */
  datatype Call =
    | CallCreate(disp: nat)
    | CallDetach(thread: Handle)
    | CallCancel(thread: Handle, peer: nat)
    | CallJoin(thread: Handle)
  {
    function Op(): Op {
      match this
      case CallCreate(_) => CREATE
      case CallDetach(_) => DETACH
      case CallCancel(_, _) => CANCEL
      case CallJoin(_) => JOIN
    }

    /** The rank the request message goes to. */
    function Peer(): nat { if CallCancel? then peer else 0 }
  }

  /** The key of a request that waits for a reply: the rank that issued it,
      its operation and its xidseq. */
  datatype CallId = CallId(rank: nat, op: Op, xid: nat)

  /** Outcome handed back to the caller. */
  datatype Result = Result(err: nat, thread: Handle, ret: Ret)

  /** The request block of an ltab entry.  `Busy` with a call has no xid while
      it sits on mgrreqq and gets one when the manager sends it. */
  datatype Request =
    | Idle
    | BusyCall(call: Call, xid: Option<nat>)
    | BusyRetclean
    | BusyMain
    | Done(call: Call, result: Result)

  /** The active half of an occupied ltab entry: `pth_state` and `req`. */
  datatype App = App(st: nat, req: Request)

  /** Rank 0's internal START request: the thread being started and the
      CREATE it will answer (`creinfo`).  `tid` is a history variable: which
      entry of `State.hist` is being started. */
  datatype StartRec = StartRec(thread: Handle, caller: CallId, tid: nat)

  /** Rank 0's internal JOINWAIT request.  `tid` is a history variable: the thread
      the handle stood for when the request was filed. */
  datatype WaitRec = WaitRec(thread: Handle, caller: CallId, tid: nat)

  // ------------------------------------------------------------ messages

  datatype CtlMsg =
    | Start(xid: nat, thread: Handle)
    | Started(xid: nat, err: nat)
    | Terminated(thread: Handle, fin: nat)

  datatype Ctl = Ctl(src: nat, dst: nat, msg: CtlMsg)

  datatype RpcMsg =
    | Ask(xid: nat, call: Call)                  // CREATE, DETACH, CANCEL, JOIN
    | Answer(xid: nat, op: Op, result: Result)   // CREATED, DETACHED, CANCELED, JOINED

  datatype Rpc = Rpc(src: nat, dst: nat, msg: RpcMsg) {
    /** The request this message belongs to. */
    function Key(): CallId {
      match msg
      case Ask(xid, call) => CallId(src, call.Op(), xid)
      case Answer(xid, op, _) => CallId(dst, op, xid)
    }
  }

  /** BCASTSHUTDOWN */
  datatype Bcast = Bcast(src: nat, dst: nat)

  // ------------------------------------------------------------ state

  /** Thread tables, START requests, their messages and rank 0's counters. */
  datatype Life = Life(gtab: seq<Slot>, lt: map<Loc, Local>,
                       starts: map<nat, StartRec>, ctl: map<nat, Ctl>,
                       nAlloc: int, nStarting: int, nRunning: int)

  /** Request blocks, mgrreqq of every rank, the application requests on the
      rpending lists, and request/reply messages. */
  datatype Calls = Calls(app: map<Loc, App>, queue: seq<seq<nat>>,
                         pend: map<CallId, nat>, rpc: map<nat, Rpc>)

  /** History of one thread: its handle, the dispatch index its CREATE asked for,
      whether its pthread was created, the value it left behind, and how many
      successful JOINED named it. */
  datatype Thread = Thread(h: Handle, disp: nat, started: bool, fin: Option<Ret>, joins: nat)

  /** `wrapped`: rank 0's sequence source has wrapped.  It is history. */
  datatype State = State(life: Life, calls: Calls, waits: map<nat, WaitRec>,
                         bc: map<nat, Bcast>, draining: set<nat>, clock: nat,
                         nextRank: nat, src: seq<nat>,
                         hist: seq<Thread>, wrapped: bool)

  /** dthread_init's seqsrc; rank 0 has already drawn app0's number. */
  function InitSrc(c: Config, r: int): nat {
    if r <= 0 then Sequence.NextSrc(c.N, 0, c.N) else r + c.N
  }

  /** mgr_startapp on rank 0; empty tables everywhere else. */
  ghost function Init(c: Config): State
    requires c.Valid()
  {
    var free := Slot(false, 0, 0, 0, NoData, false, 0, false, 0, 0);
    var app0 := Slot(true, 0, c.N, 0, NoData, false, 0, true, 0, 0);
    State(
      Life(seq(c.M, i => if i == 0 then app0 else free),
           map[Loc(0, 0) := Local(0, c.N)], map[], map[], 1, 0, 1),
      Calls(map[Loc(0, 0) := App(LT_RUNNING, Idle)], seq(c.N, r => []), map[], map[]),
      map[], map[], {}, 0, 1 % c.N,
      seq<nat>(c.N, r => InitSrc(c, r)),
      [Thread(Handle(0, c.N), 0, true, None, 0)], false)
  }

  // ------------------------------------------------------------ helpers

  /** dthread_dt2gtab */
  predicate Accepts(gtab: seq<Slot>, h: Handle) {
    h.idx < |gtab| && gtab[h.idx].used && gtab[h.idx].gen == h.gen
  }

  /** gtab_free */
  function FreeSlot(g: Slot): Slot {
    if g.used then g.(used := false, gen := 0, hasLtab := false) else g
  }

  /** joinwait_search */
  ghost function FindWait(waits: map<nat, WaitRec>, h: Handle): (x: Option<nat>)
    ensures x.Some? ==> x.value in waits && waits[x.value].thread == h
    ensures x.None? ==> forall y :: y in waits ==> waits[y].thread != h
  {
    if exists y :: y in waits && waits[y].thread == h
    then var y :| y in waits && waits[y].thread == h; Some(y)
    else None
  }

  /** No message from src to dst is older than stamp k. */
  ghost predicate First(s: State, k: nat, src: nat, dst: nat) {
    && (forall j :: j in s.life.ctl && s.life.ctl[j].src == src && s.life.ctl[j].dst == dst ==> k <= j)
    && (forall j :: j in s.calls.rpc && s.calls.rpc[j].src == src && s.calls.rpc[j].dst == dst ==> k <= j)
    && (forall j :: j in s.bc && s.bc[j].src == src && s.bc[j].dst == dst ==> k <= j)
  }

  ghost predicate CtlReady(s: State, k: nat) {
    k in s.life.ctl && First(s, k, s.life.ctl[k].src, s.life.ctl[k].dst)
  }

  ghost predicate RpcReady(s: State, k: nat) {
    k in s.calls.rpc && First(s, k, s.calls.rpc[k].src, s.calls.rpc[k].dst)
  }

  /** dtq_send_enqueue: the message gets the next stamp, or is refused (`ok` is
      false) because the sender drains. */
  function Put<T>(wire: map<nat, T>, ok: bool, clock: nat, p: T): map<nat, T> {
    if ok then wire[clock := p] else wire
  }

  function Tick(clock: nat, ok: bool): nat {
    if ok then clock + 1 else clock
  }

  function SetSlot(s: State, i: nat, g: Slot): State
    requires i < |s.life.gtab|
  {
    s.(life := s.life.(gtab := s.life.gtab[i := g]))
  }

  function SetApp(s: State, a: Loc, p: App): State {
    s.(calls := s.calls.(app := s.calls.app[a := p]))
  }

  function Refused(err: nat): Result { Result(err, Handle(0, 0), NoData) }

  function MarkJoined(hist: seq<Thread>, tid: nat): seq<Thread> {
    if tid < |hist| then hist[tid := hist[tid].(joins := hist[tid].joins + 1)] else hist
  }

  // ------------------------------------------------------------ steps

  datatype Step =
    // application threads
    | AppRun(a: Loc)
    | AppIssue(a: Loc, call: Call)
    | AppWake(a: Loc)
    | AppExit(a: Loc)
    | AppRetclean(a: Loc, fin: nat, ret: Ret)
    | AppMainReturn
    // process_req
    | TakeCall(r: nat, xid: nat, src: nat, wrap: bool)
    | TakeRetclean(r: nat)
    | TakeMain
    // process_mqe
    | RecvCreate(k: nat, p: nat, xid: nat, src: nat, wrap: bool)
    | RecvStart(k: nat, l: nat, err: nat)
    | RecvStarted(k: nat)
    | RecvTerminated(k: nat)
    | RecvDetach(k: nat)
    | RecvCancel(k: nat)
    | RecvJoin(k: nat)
    | RecvReply(k: nat)
    | RecvShutdown(k: nat)
    // top of rank 0's main loop
    | Quiesce

  /** A handle that a create or dthread_self can have returned. */
  ghost predicate Known(hist: seq<Thread>, h: Handle) {
    exists t: nat :: t < |hist| && hist[t].h == h && hist[t].started
  }

  // --- application threads

  /** dthreadwrap: the new thread publishes its ltab entry and runs. */
  ghost predicate CanRun(c: Config, s: State, a: Loc) {
    && a in s.life.lt && a in s.calls.app
    && s.calls.app[a].st == LT_STARTING && s.calls.app[a].req.Idle?
    && s.life.lt[a].gidx < |s.life.gtab|
  }

  ghost function Run(c: Config, s: State, a: Loc): State
    requires CanRun(c, s, a)
  {
    var i := s.life.lt[a].gidx;
    SetApp(SetSlot(s, i, s.life.gtab[i].(hasLtab := true, ltabIdx := a.lidx)),
           a, s.calls.app[a].(st := LT_RUNNING))
  }

  /** dthread_create_common, _detach, _cancel, _join_common up to the wait.
      A thread whose cancel is pending still runs, so it may call too. */
  ghost predicate CanIssue(c: Config, s: State, a: Loc, call: Call) {
    && a in s.life.lt && a in s.calls.app && a.rank < |s.calls.queue|
    && (s.calls.app[a].st == LT_RUNNING || s.calls.app[a].st == LT_CANCELED)
    && s.calls.app[a].req.Idle?
    && call.Peer() < c.N
    && (call.CallJoin? ==> call.thread.idx != s.life.lt[a].gidx)   // EDEADLK
  }

  ghost function Enqueue(s: State, a: Loc, p: App): State
    requires a.rank < |s.calls.queue|
  {
    s.(calls := s.calls.(app := s.calls.app[a := p],
                         queue := s.calls.queue[a.rank := s.calls.queue[a.rank] + [a.lidx]]))
  }

  ghost function Issue(c: Config, s: State, a: Loc, call: Call): State
    requires CanIssue(c, s, a, call)
  {
    Enqueue(s, a, s.calls.app[a].(req := BusyCall(call, None)))
  }

  /** The caller wakes from the condition wait and returns its block to IDLE. */
  ghost predicate CanWake(c: Config, s: State, a: Loc) {
    a in s.calls.app && s.calls.app[a].req.Done?
  }

  ghost function Wake(c: Config, s: State, a: Loc): State
    requires CanWake(c, s, a)
  {
    SetApp(s, a, s.calls.app[a].(req := Idle))
  }

  /** dthread_exit_common marks the thread before it calls pthread_exit. */
  ghost predicate CanExit(c: Config, s: State, a: Loc) {
    && a in s.calls.app && s.calls.app[a].req.Idle?
    && (s.calls.app[a].st == LT_RUNNING || s.calls.app[a].st == LT_CANCELED)
  }

  ghost function Exit(c: Config, s: State, a: Loc): State
    requires CanExit(c, s, a)
  {
    SetApp(s, a, s.calls.app[a].(st := LT_EXITED))
  }

  /** retclean_request: the last act of an application thread.  It has left its
      return value in the table; a cancelled one leaves DTHREAD_CANCELED. */
  ghost predicate CanRetclean(c: Config, s: State, a: Loc, fin: nat) {
    && a in s.life.lt && a in s.calls.app && a.rank < |s.calls.queue|
    && s.life.lt[a].gidx < |s.life.gtab|
    && s.calls.app[a].req.Idle?
    && (s.calls.app[a].st <= LT_RUNNING || s.calls.app[a].st == LT_EXITED || s.calls.app[a].st == LT_CANCELED)
    && (fin == LT_RETURNED || fin == LT_CANCELED || fin == LT_CLEANUP)
    && (s.calls.app[a].st == LT_STARTING ==> fin == LT_CANCELED)
  }

  function FinalState(st: nat, fin: nat): nat {
    if NeedFinalState(st) then fin else st
  }

  function FinalRet(st: nat, ret: Ret): Ret {
    if st == LT_CANCELED || st == LT_CLEANUP then Canceled else ret
  }

  ghost function Retclean(c: Config, s: State, a: Loc, fin: nat, ret: Ret): State
    requires CanRetclean(c, s, a, fin)
  {
    var i := s.life.lt[a].gidx;
    var g := s.life.gtab[i];
    var st := FinalState(s.calls.app[a].st, fin);
    var v := FinalRet(st, ret);
    Enqueue(SetSlot(s, i, g.(ret := v)), a, App(st, BusyRetclean))
    .(hist := if g.tid < |s.hist| then s.hist[g.tid := s.hist[g.tid].(fin := Some(v))] else s.hist)
  }

  /** app0wrap: the main thread (dispatch index 0) returned. */
  ghost predicate CanMainReturn(c: Config, s: State) {
    var a := Loc(0, 0);
    && a in s.life.lt && a in s.calls.app && 0 < |s.calls.queue|
    && s.life.lt[a].gidx < |s.life.gtab| && s.life.gtab[s.life.lt[a].gidx].disp == 0
    && s.calls.app[a].req.Idle?
    && (s.calls.app[a].st == LT_RUNNING || s.calls.app[a].st == LT_CANCELED)
  }

  ghost function MainReturn(c: Config, s: State): State
    requires CanMainReturn(c, s)
  {
    Enqueue(s, Loc(0, 0), App(LT_RETURNED, BusyMain))
  }

  // --- process_req

  ghost predicate Heads(s: State, r: nat) {
    r < |s.calls.queue| && s.calls.queue[r] != [] && Loc(r, s.calls.queue[r][0]) in s.calls.app
  }

  /** The numbers of rank r's pending calls with this operation. */
  ghost function XidsOf(pend: map<CallId, nat>, r: nat, op: Op): (b: set<nat>)
    ensures forall x: nat :: x in b <==> CallId(r, op, x) in pend
  {
    set id | id in pend && id.rank == r && id.op == op :: id.xid
  }

  /** get_free_seq(op) returned xid and left the source at src. */
  ghost predicate CanTakeCall(c: Config, s: State, r: nat, xid: nat, src: nat, wrap: bool) {
    && Heads(s, r) && r < |s.src|
    && var q := s.calls.app[Loc(r, s.calls.queue[r][0])].req;
    && q.BusyCall?
    && Sequence.Drew(c.N, r, s.src[r], xid, src, wrap, XidsOf(s.calls.pend, r, q.call.Op()))
  }

  /** Forward the request and put the block on rpending, or fail it with EIO. */
  ghost function SendCall(q: Calls, ok: bool, clock: nat, r: nat, xid: nat): Calls
    requires r < |q.queue| && q.queue[r] != [] && Loc(r, q.queue[r][0]) in q.app
             && q.app[Loc(r, q.queue[r][0])].req.BusyCall?
  {
    var l := q.queue[r][0];
    var p := q.app[Loc(r, l)];
    var call := p.req.call;
    Calls(q.app[Loc(r, l) := p.(req := if ok then BusyCall(call, Some(xid)) else Done(call, Refused(EIO)))],
          q.queue[r := q.queue[r][1..]],
          if ok then q.pend[CallId(r, call.Op(), xid) := l] else q.pend,
          Put(q.rpc, ok, clock, Rpc(r, call.Peer(), Ask(xid, call))))
  }

  ghost function TakeCallStep(c: Config, s: State, r: nat, xid: nat, src: nat, wrap: bool): State
    requires CanTakeCall(c, s, r, xid, src, wrap)
  {
    var ok := r !in s.draining;
    s.(calls := SendCall(s.calls, ok, s.clock, r, xid), clock := Tick(s.clock, ok),
       src := s.src[r := src], wrapped := s.wrapped || (r == 0 && wrap))
  }

  ghost predicate CanTakeRetclean(c: Config, s: State, r: nat) {
    && Heads(s, r)
    && var a := Loc(r, s.calls.queue[r][0]);
    && s.calls.app[a].req.BusyRetclean?
    && a in s.life.lt && s.life.lt[a].gidx < |s.life.gtab|
  }

  /** The slot of the thread in ltab entry a, no longer pointing at it. */
  ghost function Disconnected(v: Life, a: Loc): Slot
    requires a in v.lt && v.lt[a].gidx < |v.gtab|
  {
    var g := v.gtab[v.lt[a].gidx];
    if g.hasLtab && g.ltabIdx == a.lidx && g.gen == v.lt[a].gen then g.(hasLtab := false) else g
  }

  /** Disconnect the slot, tell rank 0, free the ltab entry. */
  ghost function EndThread(v: Life, ok: bool, clock: nat, a: Loc, st: nat): Life
    requires a in v.lt && v.lt[a].gidx < |v.gtab|
  {
    v.(gtab := v.gtab[v.lt[a].gidx := Disconnected(v, a)], lt := v.lt - {a},
       ctl := Put(v.ctl, ok, clock, Ctl(a.rank, 0, Terminated(Handle(v.lt[a].gidx, v.lt[a].gen), st))))
  }

  ghost function TakeRetcleanStep(c: Config, s: State, r: nat): State
    requires CanTakeRetclean(c, s, r)
  {
    var q := s.calls;
    var a := Loc(r, q.queue[r][0]);
    var ok := r !in s.draining;
    s.(life := EndThread(s.life, ok, s.clock, a, q.app[a].st), clock := Tick(s.clock, ok),
       calls := q.(app := q.app - {a}, queue := q.queue[r := q.queue[r][1..]]))
  }

  ghost predicate CanTakeMain(c: Config, s: State) {
    Heads(s, 0) && s.calls.app[Loc(0, s.calls.queue[0][0])].req.BusyMain?
  }

  ghost function TakeMainStep(c: Config, s: State): State
    requires CanTakeMain(c, s)
  {
    BroadcastShutdown(c, MainEnded(s), 0)
  }

  /** The request of the main thread is done; nobody waits for it. */
  ghost function MainEnded(s: State): State
    requires Heads(s, 0)
  {
    var q := s.calls;
    var a := Loc(0, q.queue[0][0]);
    s.(calls := q.(app := q.app[a := q.app[a].(req := Idle)], queue := q.queue[0 := q.queue[0][1..]]))
  }

  // --- process_mqe: replying

  /** The reply the receiver of request m sends straight back. */
  function ReplyTo(m: Rpc, res: Result): Rpc
    requires m.msg.Ask?
  {
    Rpc(m.dst, m.src, Answer(m.msg.xid, m.msg.call.Op(), res))
  }

  function Replied(q: Calls, k: nat, ok: bool, clock: nat, res: Result): Calls
    requires k in q.rpc && q.rpc[k].msg.Ask?
  {
    q.(rpc := Put(q.rpc - {k}, ok, clock, ReplyTo(q.rpc[k], res)))
  }

  // --- process_mqe: thread creation

  function CreateError(c: Config, nAlloc: int, disp: nat): nat {
    if disp == 0 || disp >= c.ndsps then EINVAL
    else if nAlloc >= c.M then EAGAIN
    else 0
  }

  ghost predicate CanRecvCreate(c: Config, s: State, k: nat, p: nat, xid: nat, src: nat, wrap: bool) {
    && RpcReady(s, k)
    && s.calls.rpc[k].dst == 0 && s.calls.rpc[k].msg.Ask? && s.calls.rpc[k].msg.call.CallCreate?
    && 0 < |s.src|
    && (CreateError(c, s.life.nAlloc, s.calls.rpc[k].msg.call.disp) == 0 ==>
          // gtab_alloc found slot p; get_free_seq(DTOP_START) drew xid
          && p < |s.life.gtab| && !s.life.gtab[p].used
          && Sequence.Drew(c.N, 0, Sequence.NextSrc(c.N, 0, s.src[0]), xid, src, wrap, s.life.starts.Keys))
  }

  /** gtab_alloc's new entry. */
  ghost function NewSlot(s: State, p: nat, disp: nat): Slot
    requires p < |s.life.gtab| && 0 < |s.src|
  {
    Slot(true, s.nextRank, s.src[0], disp, NoData, false, 0, false, s.life.gtab[p].ltabIdx, |s.hist|)
  }

  ghost function CreateThread(v: Life, clock: nat, p: nat, g: Slot, y: nat, rec: StartRec): Life
    requires p < |v.gtab|
  {
    v.(gtab := v.gtab[p := g], starts := v.starts[y := rec],
       ctl := v.ctl[clock := Ctl(0, g.rank, Start(y, rec.thread))],
       nAlloc := v.nAlloc + 1, nStarting := v.nStarting + 1)
  }

  ghost function RecvCreateStep(c: Config, s: State, k: nat, p: nat, xid: nat, src: nat, wrap: bool): State
    requires CanRecvCreate(c, s, k, p, xid, src, wrap)
  {
    var q := s.calls;
    var m := q.rpc[k];
    var err := CreateError(c, s.life.nAlloc, m.msg.call.disp);
    var ok := 0 !in s.draining;
    if err != 0 then
      s.(calls := Replied(q, k, ok, s.clock, Refused(err)), clock := Tick(s.clock, ok))
    else
      var g := NewSlot(s, p, m.msg.call.disp);
      var h := Handle(p, g.gen);
      s.(life := if ok then CreateThread(s.life, s.clock, p, g, xid, StartRec(h, m.Key(), g.tid))
                 else   // START is refused, and so is CREATED
                   s.life.(gtab := s.life.gtab[p := FreeSlot(g.(tid := s.life.gtab[p].tid))]),
         calls := q.(rpc := q.rpc - {k}),
         clock := Tick(s.clock, ok),
         nextRank := (s.nextRank + 1) % c.N, src := s.src[0 := src],
         wrapped := s.wrapped || wrap || Sequence.Wraps(c.N, s.src[0]),
         hist := if ok then s.hist + [Thread(h, m.msg.call.disp, false, None, 0)] else s.hist)
  }

  /** start_thread's validation of the START message. */
  predicate StartValid(c: Config, gtab: seq<Slot>, h: Handle) {
    && h.idx < |gtab| && h.gen == gtab[h.idx].gen && gtab[h.idx].used
    && gtab[h.idx].disp != 0 && gtab[h.idx].disp < c.ndsps && !gtab[h.idx].hasLtab
  }

  /** ltab_alloc chose index l; err is pthread_create's outcome. */
  ghost predicate CanRecvStart(c: Config, s: State, k: nat, l: nat, err: nat) {
    && CtlReady(s, k) && s.life.ctl[k].msg.Start?
    && (StartValid(c, s.life.gtab, s.life.ctl[k].msg.thread) ==>
          l < c.M && Loc(s.life.ctl[k].dst, l) !in s.life.lt)
  }

  function StartError(c: Config, gtab: seq<Slot>, h: Handle, err: nat): nat {
    if StartValid(c, gtab, h) then err else EINVAL
  }

  function MarkStarted(hist: seq<Thread>, tid: nat): seq<Thread> {
    if tid < |hist| then hist[tid := hist[tid].(started := true)] else hist
  }

  ghost function RecvStartStep(c: Config, s: State, k: nat, l: nat, err: nat): State
    requires CanRecvStart(c, s, k, l, err)
  {
    var m := s.life.ctl[k];
    var h := m.msg.thread;
    var a := Loc(m.dst, l);
    var ok := m.dst !in s.draining;
    var e := StartError(c, s.life.gtab, h, err);
    var ctl := Put(s.life.ctl - {k}, ok, s.clock, Ctl(m.dst, 0, Started(m.msg.xid, e)));
    if e != 0 then
      s.(life := s.life.(ctl := ctl), clock := Tick(s.clock, ok))
    else
      s.(life := s.life.(ctl := ctl, lt := s.life.lt[a := Local(h.idx, h.gen)]),
         calls := s.calls.(app := s.calls.app[a := App(LT_STARTING, Idle)]),
         hist := MarkStarted(s.hist, s.life.gtab[h.idx].tid), clock := Tick(s.clock, ok))
  }

  ghost predicate CanRecvStarted(c: Config, s: State, k: nat) {
    && CtlReady(s, k) && s.life.ctl[k].msg.Started?
    && (s.life.ctl[k].msg.xid in s.life.starts ==>
          s.life.starts[s.life.ctl[k].msg.xid].thread.idx < |s.life.gtab|)
  }

  /** A start that worked counts as running; one that failed frees its slot. */
  ghost function FinishStart(v: Life, k: nat): Life
    requires k in v.ctl && v.ctl[k].msg.Started? && v.ctl[k].msg.xid in v.starts
    requires v.starts[v.ctl[k].msg.xid].thread.idx < |v.gtab|
  {
    var y := v.ctl[k].msg.xid;
    var i := v.starts[y].thread.idx;
    var w := v.(ctl := v.ctl - {k}, starts := v.starts - {y}, nStarting := v.nStarting - 1);
    if v.ctl[k].msg.err == 0 then w.(nRunning := v.nRunning + 1)
    else w.(gtab := v.gtab[i := FreeSlot(v.gtab[i])], nAlloc := if v.gtab[i].used then v.nAlloc - 1 else v.nAlloc)
  }

  /** The CREATED that a STARTED turns into. */
  function CreatedFor(rec: StartRec, err: nat): Rpc {
    Rpc(0, rec.caller.rank,
        Answer(rec.caller.xid, CREATE, if err == 0 then Result(0, rec.thread, NoData) else Refused(err)))
  }

  ghost function RecvStartedStep(c: Config, s: State, k: nat): State
    requires CanRecvStarted(c, s, k)
  {
    var m := s.life.ctl[k].msg;
    var ok := 0 !in s.draining;
    if s.life.ctl[k].dst != 0 || m.xid !in s.life.starts then
      s.(life := s.life.(ctl := s.life.ctl - {k}))
    else
      s.(life := FinishStart(s.life, k), clock := Tick(s.clock, ok),
         calls := s.calls.(rpc := Put(s.calls.rpc, ok, s.clock, CreatedFor(s.life.starts[m.xid], m.err))))
  }

  // --- process_mqe: thread termination

  ghost predicate CanRecvTerminated(c: Config, s: State, k: nat) {
    CtlReady(s, k) && s.life.ctl[k].msg.Terminated?
  }

  predicate TerminatedValid(gtab: seq<Slot>, p: Ctl)
    requires p.msg.Terminated?
  {
    p.dst == 0 && p.msg.thread.idx < |gtab| && gtab[p.msg.thread.idx].gen == p.msg.thread.gen && p.msg.fin != LT_RUNNING
  }

  /** The slot becomes a zombie, or is freed because nobody will join it. */
  ghost function EndSlot(v: Life, k: nat, free: bool): Life
    requires k in v.ctl && v.ctl[k].msg.Terminated? && v.ctl[k].msg.thread.idx < |v.gtab|
  {
    var i := v.ctl[k].msg.thread.idx;
    var g := v.gtab[i].(terminated := v.ctl[k].msg.fin, hasLtab := false);
    v.(gtab := v.gtab[i := if free then FreeSlot(g) else g], ctl := v.ctl - {k},
       nRunning := v.nRunning - 1, nAlloc := if free && g.used then v.nAlloc - 1 else v.nAlloc)
  }

  /** joinwait_end_release's JOINED for wait record w. */
  function JoinedFor(x: nat, w: WaitRec, g: Slot): Rpc {
    Rpc(0, w.caller.rank, Answer(x, JOIN, if g.detached then Refused(EINVAL) else Result(0, w.thread, g.ret)))
  }

  ghost function RecvTerminatedStep(c: Config, s: State, k: nat): State
    requires CanRecvTerminated(c, s, k)
  {
    var h := s.life.ctl[k].msg.thread;
    var ok := 0 !in s.draining;
    if !TerminatedValid(s.life.gtab, s.life.ctl[k]) then
      s.(life := s.life.(ctl := s.life.ctl - {k}))
    else
      var g := s.life.gtab[h.idx];
      match FindWait(s.waits, h)
      case None =>
        s.(life := EndSlot(s.life, k, g.detached))
      case Some(x) =>
        s.(life := EndSlot(s.life, k, true), waits := s.waits - {x}, clock := Tick(s.clock, ok),
           calls := s.calls.(rpc := Put(s.calls.rpc, ok, s.clock, JoinedFor(x, s.waits[x], g))),
           hist := if g.detached then s.hist else MarkJoined(s.hist, g.tid))
  }

  // --- process_mqe: detach, cancel, join

  ghost predicate CanRecvAsk(c: Config, s: State, k: nat, op: Op) {
    RpcReady(s, k) && s.calls.rpc[k].msg.Ask? && s.calls.rpc[k].msg.call.Op() == op
    && (op != CANCEL ==> s.calls.rpc[k].dst == 0)
  }

  ghost function RecvDetachStep(c: Config, s: State, k: nat): State
    requires CanRecvAsk(c, s, k, DETACH)
  {
    var h := s.calls.rpc[k].msg.call.thread;
    var ok := 0 !in s.draining;
    if !Accepts(s.life.gtab, h) then
      s.(calls := Replied(s.calls, k, ok, s.clock, Refused(ESRCH)), clock := Tick(s.clock, ok))
    else
      var life := s.life.(gtab := s.life.gtab[h.idx := s.life.gtab[h.idx].(detached := true)]);
      var q := Replied(s.calls, k, ok, s.clock, Result(0, h, NoData));
      var now := Tick(s.clock, ok);
      match FindWait(s.waits, h)
      case None => s.(life := life, calls := q, clock := now)
      case Some(x) =>
        s.(life := life, clock := Tick(now, ok), waits := s.waits - {x},
           calls := q.(rpc := Put(q.rpc, ok, now, Rpc(0, s.waits[x].caller.rank, Answer(x, JOIN, Refused(EINVAL))))))
  }

  function CancelError(gtab: seq<Slot>, h: Handle, rank: nat): nat {
    if !Accepts(gtab, h) then ESRCH else if gtab[h.idx].rank != rank then EINVAL else 0
  }

  /** The blocks after cancel_thread looked for thread h on this rank. */
  ghost function Cancelled(s: State, h: Handle, rank: nat): map<Loc, App> {
    if CancelError(s.life.gtab, h, rank) != 0 || !s.life.gtab[h.idx].hasLtab then s.calls.app
    else
      var a := Loc(rank, s.life.gtab[h.idx].ltabIdx);
      if a in s.life.lt && a in s.calls.app && s.life.lt[a].gen == h.gen && s.calls.app[a].st == LT_RUNNING
      then s.calls.app[a := s.calls.app[a].(st := LT_CANCELED)]
      else s.calls.app
  }

  ghost function RecvCancelStep(c: Config, s: State, k: nat): State
    requires CanRecvAsk(c, s, k, CANCEL)
  {
    var m := s.calls.rpc[k];
    var h := m.msg.call.thread;
    var ok := m.dst !in s.draining;
    var err := CancelError(s.life.gtab, h, m.dst);
    s.(calls := Replied(s.calls, k, ok, s.clock, if err == 0 then Result(0, h, NoData) else Refused(err))
                .(app := Cancelled(s, h, m.dst)),
       clock := Tick(s.clock, ok))
  }

  /** gtab_free with its counter. */
  ghost function ReleaseSlot(v: Life, i: nat): Life
    requires i < |v.gtab|
  {
    v.(gtab := v.gtab[i := FreeSlot(v.gtab[i])], nAlloc := if v.gtab[i].used then v.nAlloc - 1 else v.nAlloc)
  }

  /** Which of join_thread's cases applies: an error, a zombie, or waiting. */
  datatype JoinCase = JoinError(err: nat) | JoinZombie | JoinWaits

  ghost function WhichJoin(s: State, h: Handle): JoinCase {
    if !Accepts(s.life.gtab, h) then JoinError(ESRCH)                                    // case 1
    else if s.life.gtab[h.idx].detached then JoinError(EINVAL)
    else if !NeedFinalState(s.life.gtab[h.idx].terminated) then JoinZombie               // case 2
    else if FindWait(s.waits, h).Some? then JoinError(EINVAL)                            // case 3, taken
    else JoinWaits                                                                       // case 3
  }

  ghost function RecvJoinStep(c: Config, s: State, k: nat): State
    requires CanRecvAsk(c, s, k, JOIN)
  {
    var m := s.calls.rpc[k];
    var h := m.msg.call.thread;
    var ok := 0 !in s.draining;
    match WhichJoin(s, h)
    case JoinError(err) =>
      s.(calls := Replied(s.calls, k, ok, s.clock, Refused(err)), clock := Tick(s.clock, ok))
    case JoinZombie =>
      s.(calls := Replied(s.calls, k, ok, s.clock, Result(0, h, s.life.gtab[h.idx].ret)), clock := Tick(s.clock, ok),
         life := ReleaseSlot(s.life, h.idx), hist := MarkJoined(s.hist, s.life.gtab[h.idx].tid))
    case JoinWaits =>
      s.(calls := s.calls.(rpc := s.calls.rpc - {k}),
         waits := s.waits[m.msg.xid := WaitRec(h, m.Key(), s.life.gtab[h.idx].tid)])
  }

  // --- process_mqe: replies

  ghost predicate CanRecvReply(c: Config, s: State, k: nat) {
    RpcReady(s, k) && s.calls.rpc[k].msg.Answer?
  }

  /** find_pending_msgreq, then dtq_req_release with notification. */
  ghost function RecvReplyStep(c: Config, s: State, k: nat): State
    requires CanRecvReply(c, s, k)
  {
    var q := s.calls;
    var id := q.rpc[k].Key();
    if id !in q.pend then s.(calls := q.(rpc := q.rpc - {k}))
    else
      var a := Loc(id.rank, q.pend[id]);
      s.(calls := q.(rpc := q.rpc - {k}, pend := q.pend - {id},
                     app := if a in q.app && q.app[a].req.BusyCall?
                            then q.app[a := q.app[a].(req := Done(q.app[a].req.call, q.rpc[k].msg.result))]
                            else q.app))
  }

  // --- shutdown

  function SendAll(bc: map<nat, Bcast>, clock: nat, r: nat, kids: seq<nat>): map<nat, Bcast>
    decreases |kids|
  {
    if kids == [] then bc
    else SendAll(bc[clock := Bcast(r, kids[0])], clock + 1, r, kids[1..])
  }

  /** broadcast_shutdown: pass it to our children in the tree, start draining. */
  ghost function BroadcastShutdown(c: Config, s: State, r: nat): State
  {
    if r in s.draining || r >= c.N then s
    else
      var kids := Router.Children(0, c.N, r);
      s.(bc := SendAll(s.bc, s.clock, r, kids),
         clock := s.clock + |kids|, draining := s.draining + {r})
  }

  ghost predicate CanRecvShutdown(c: Config, s: State, k: nat) {
    k in s.bc && First(s, k, s.bc[k].src, s.bc[k].dst)
  }

  ghost function RecvShutdownStep(c: Config, s: State, k: nat): State
    requires CanRecvShutdown(c, s, k)
  {
    var s1 := BroadcastShutdown(c, s, s.bc[k].dst);
    s1.(bc := s1.bc - {k})
  }

  /** Rank 0 sees no running thread and is not shutting down yet. */
  ghost predicate CanQuiesce(c: Config, s: State) {
    s.life.nRunning == 0 && 0 !in s.draining
  }

  // ------------------------------------------------------------ next state

  ghost predicate Enabled(c: Config, s: State, e: Step) {
    match e
    case AppRun(a) => CanRun(c, s, a)
    case AppIssue(a, call) => CanIssue(c, s, a, call)
    case AppWake(a) => CanWake(c, s, a)
    case AppExit(a) => CanExit(c, s, a)
    case AppRetclean(a, fin, _) => CanRetclean(c, s, a, fin)
    case AppMainReturn => CanMainReturn(c, s)
    case TakeCall(r, xid, src, wrap) => CanTakeCall(c, s, r, xid, src, wrap)
    case TakeRetclean(r) => CanTakeRetclean(c, s, r)
    case TakeMain => CanTakeMain(c, s)
    case RecvCreate(k, p, xid, src, wrap) => CanRecvCreate(c, s, k, p, xid, src, wrap)
    case RecvStart(k, l, err) => CanRecvStart(c, s, k, l, err)
    case RecvStarted(k) => CanRecvStarted(c, s, k)
    case RecvTerminated(k) => CanRecvTerminated(c, s, k)
    case RecvDetach(k) => CanRecvAsk(c, s, k, DETACH)
    case RecvCancel(k) => CanRecvAsk(c, s, k, CANCEL)
    case RecvJoin(k) => CanRecvAsk(c, s, k, JOIN)
    case RecvReply(k) => CanRecvReply(c, s, k)
    case RecvShutdown(k) => CanRecvShutdown(c, s, k)
    case Quiesce => CanQuiesce(c, s)
  }

  ghost function Next(c: Config, s: State, e: Step): State
    requires Enabled(c, s, e)
  {
    match e
    case AppRun(a) => Run(c, s, a)
    case AppIssue(a, call) => Issue(c, s, a, call)
    case AppWake(a) => Wake(c, s, a)
    case AppExit(a) => Exit(c, s, a)
    case AppRetclean(a, fin, ret) => Retclean(c, s, a, fin, ret)
    case AppMainReturn => MainReturn(c, s)
    case TakeCall(r, xid, src, wrap) => TakeCallStep(c, s, r, xid, src, wrap)
    case TakeRetclean(r) => TakeRetcleanStep(c, s, r)
    case TakeMain => TakeMainStep(c, s)
    case RecvCreate(k, p, xid, src, wrap) => RecvCreateStep(c, s, k, p, xid, src, wrap)
    case RecvStart(k, l, err) => RecvStartStep(c, s, k, l, err)
    case RecvStarted(k) => RecvStartedStep(c, s, k)
    case RecvTerminated(k) => RecvTerminatedStep(c, s, k)
    case RecvDetach(k) => RecvDetachStep(c, s, k)
    case RecvCancel(k) => RecvCancelStep(c, s, k)
    case RecvJoin(k) => RecvJoinStep(c, s, k)
    case RecvReply(k) => RecvReplyStep(c, s, k)
    case RecvShutdown(k) => RecvShutdownStep(c, s, k)
    case Quiesce => BroadcastShutdown(c, s, 0)
  }
}
