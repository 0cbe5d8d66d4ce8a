/** Every call of every run is told the truth: whatever result a thread collects was
    decided by one step during that very call, on the grounds that hold at that step;
    and a value that is joined is the one its thread left. */
module Answers {
  import opened Types
  import opened Machine
  import opened Invariant
  import opened Protocol
  import opened Outcomes
  import Sequence
  import Life
  import Calls
  import Joins
  import Histories
  import Progress
  import Delivery

  // ------------------------------------------------------------ what a START record is for

  /** The slot of START record y has the dispatch index its caller asked for. */
  ghost predicate AskedFor(s: State, y: nat)
    requires y in s.life.starts
  {
    && s.life.starts[y].thread.idx < |s.life.gtab|
    && Calls.CallIs(s.calls.app, s.calls.pend, s.life.starts[y].caller,
                    CallCreate(s.life.gtab[s.life.starts[y].thread.idx].disp))
  }

  ghost predicate Asked(s: State) {
    forall y :: y in s.life.starts ==> AskedFor(s, y)
  }

  lemma StepAsked(c: Config, s: State, e: Step)
    requires Inv(c, s) && Enabled(c, s, e) && Asked(s)
    ensures Asked(Next(c, s, e))
  {
    var t := Next(c, s, e);
    hide Inv, Enabled, Next, AskedFor;
    forall y | y in t.life.starts ensures AskedFor(t, y) { RecordAsked(c, s, e, y); }
  }

  lemma RecordAsked(c: Config, s: State, e: Step, y: nat)
    requires Inv(c, s) && Enabled(c, s, e) && Asked(s) && y in Next(c, s, e).life.starts
    ensures AskedFor(Next(c, s, e), y)
  {
    var t := Next(c, s, e);
    hide Inv, Enabled, Next, Histories.Evolves, Calls.CallIs;
    Delivery.RecordsStayPut(c, s, e);
    if y in s.life.starts {
      StepKeeps(c, s, e);
      Histories.StepEvolves(c, s, e);
      OldAsked(c, s, e, y);
      KeepsIndex(c, s, t, y);
    } else {
      NewAsked(c, s, e, y);
    }
  }

  /** The slot of a record that stays keeps its index. */
  lemma KeepsIndex(c: Config, s: State, t: State, y: nat)
    requires Inv(c, s) && Inv(c, t) && Histories.Evolves(s, t)
    requires y in s.life.starts && y in t.life.starts && t.life.starts[y] == s.life.starts[y]
    ensures var i := s.life.starts[y].thread.idx;
            i < |s.life.gtab| == |t.life.gtab| && t.life.gtab[i].disp == s.life.gtab[i].disp
  {
    hide CallsInv, OrderInv, HistInv, QuoteInv, WaitInv, SeqInv, Life.MsgsOk, Life.WireOk, Life.CountersOk,
      Life.SlotsOk, Life.LocalsOk, Joins.Grows;
    var h := s.life.starts[y].thread;
    assert Life.Live(s.life.gtab, h) && Life.Live(t.life.gtab, h);
    assert Histories.SlotEvolves(s.life.gtab[h.idx], t.life.gtab[h.idx], |s.hist|, s.nextRank);
  }

  /** The caller of a START record stays blocked in its call. */
  lemma OldAsked(c: Config, s: State, e: Step, y: nat)
    requires Inv(c, s) && Enabled(c, s, e) && Asked(s) && y in s.life.starts
    ensures var t := Next(c, s, e);
            Calls.CallIs(t.calls.app, t.calls.pend, s.life.starts[y].caller,
                         CallCreate(s.life.gtab[s.life.starts[y].thread.idx].disp))
  {
    hide LifeInv, OrderInv, HistInv, QuoteInv, WaitInv, SeqInv, CallsInv;
    var t, id := Next(c, s, e), s.life.starts[y].caller;
    StepKeeps(c, s, e);
    hide Enabled, Next;
    assert AskedFor(s, y);
    var a := CallerOf(c, s, id);
    var u := Calls.InStart(y);
    assert Holds(s, a, Elsewhere(u));
    Delivery.BlocksStay(c, s, e, a);
    Delivery.SentStays(c, s, t, e, a, u);
    if Delivery.Answered(s, t, e, a) { StillBusy(c, s, t, e, a, u); }
    Delivery.PendOf(c, t);
    assert id == CallId(a.rank, t.calls.app[a].req.call.Op(), t.calls.app[a].req.xid.value);
  }

  /** The block that waits under this id. */
  lemma CallerOf(c: Config, s: State, id: CallId) returns (a: Loc)
    requires CallsInv(c, s) && id in s.calls.pend
    ensures WaitsFor(s, a, id) && a == Loc(id.rank, s.calls.pend[id]) && a.rank < |s.calls.queue|
  {
    hide Calls.TokensOk, Calls.ContentOk;
    assert Calls.PendsAs(s.calls.app, id, s.calls.pend[id]);
    a := Loc(id.rank, s.calls.pend[id]);
  }

  /** Nobody answers a call whose token is a record. */
  lemma StillBusy(c: Config, s: State, t: State, e: Step, a: Loc, u: Calls.Token)
    requires CallsInv(c, s) && Holds(s, a, Elsewhere(u)) && !u.OnWire?
    ensures !Delivery.Answered(s, t, e, a)
  {
    hide CallsInv;
    if Delivery.Answered(s, t, e, a) {
      if e.RecvReply? { Delivery.OldTokenIsTheToken(c, s, u, Calls.OnWire(e.k)); }
      else { assert Holds(s, a, InQueue(0)); Delivery.SentIsNotQueued(c, s, a, 0); }
    }
  }

  lemma NewAsked(c: Config, s: State, e: Step, y: nat)
    requires Inv(c, s) && Enabled(c, s, e) && y in Next(c, s, e).life.starts && y !in s.life.starts
    requires Delivery.RecordsStay(s, Next(c, s, e), e)
    ensures AskedFor(Next(c, s, e), y)
  {
    hide LifeInv, OrderInv, HistInv, QuoteInv, WaitInv, SeqInv, CallsInv, First, Sequence.Drew;
    assert e.RecvCreate?;
    hide RecvCreateStep, Calls.CallIs;
    CreateGives(c, s, e.k, e.p, e.xid, e.src, e.wrap);
    AskIs(c, s, e.k);
  }

  /** A request in flight is the one its caller is blocked in. */
  lemma AskIs(c: Config, s: State, k: nat)
    requires CallsInv(c, s) && k in s.calls.rpc && s.calls.rpc[k].msg.Ask?
    ensures Calls.CallIs(s.calls.app, s.calls.pend, s.calls.rpc[k].Key(), s.calls.rpc[k].msg.call)
    ensures s.calls.rpc[k].dst == s.calls.rpc[k].msg.call.Peer()
  {
  }

  lemma {:induction false} RunAsked(c: Config, ss: seq<State>, es: seq<Step>, i: nat)
    requires Protocol.Run(c, ss, es) && i <= |es|
    ensures Asked(ss[i])
  {
    hide Inv, Next, Enabled, Asked;
    if i == 0 { InitAsked(c); }
    else { hide Init; RunAsked(c, ss, es, i - 1); RunKeeps(c, ss, es, i - 1); StepAsked(c, ss[i - 1], es[i - 1]); }
  }

  lemma InitAsked(c: Config)
    requires c.Valid()
    ensures Asked(Init(c))
  {
  }

  // ------------------------------------------------------------ who decides what

  /** Thread a is in this call: blocked in it, or about to collect its result. */
  ghost predicate InCall(s: State, a: Loc, call: Call) {
    && a in s.calls.app
    && var q := s.calls.app[a].req;
       (q.BusyCall? && q.call == call) || (q.Done? && q.call == call)
  }

  /** Message k is a's own request. */
  ghost predicate IsAsk(s: State, a: Loc, k: nat) {
    k in s.calls.rpc && s.calls.rpc[k].msg.Ask? && WaitsFor(s, a, s.calls.rpc[k].Key())
  }

  /** Step e from s to t decides that a's call ends with res, and why: a draining
      rank does not send it, or one of the grounds of its kind. */
  ghost predicate Decides(c: Config, s: State, e: Step, t: State, a: Loc, call: Call, res: Result) {
    && InCall(s, a, call)
    && (|| (e.TakeCall? && e.r == a.rank && a.rank in s.draining && res.err == EIO)
        || match call
           case CallCreate(d) => DecidesCreate(c, s, e, t, a, d, res)
           case CallDetach(h) => DecidesDetach(s, e, t, a, h, res)
           case CallCancel(h, peer) => DecidesCancel(s, e, a, h, peer, res)
           case CallJoin(h) => DecidesJoin(s, e, t, a, h, res))
  }

  /** The index is not in the table, every slot is in use, or a rank was told to start
      a thread with that index for this call: then the result is what pthread_create
      said, and on success the thread has its entry there. */
  ghost predicate DecidesCreate(c: Config, s: State, e: Step, t: State, a: Loc, d: nat, res: Result) {
    || (e.RecvCreate? && IsAsk(s, a, e.k) && res.err == EINVAL && !(0 < d < c.ndsps))
    || (e.RecvCreate? && IsAsk(s, a, e.k) && res.err == EAGAIN && 0 < d < c.ndsps && AllUsed(s))
    || (&& e.RecvStart? && e.k in s.life.ctl && s.life.ctl[e.k].msg.Start?
        && s.life.ctl[e.k].msg.xid in s.life.starts && WaitsFor(s, a, s.life.starts[s.life.ctl[e.k].msg.xid].caller)
        && res.err == e.err
        && (e.err == 0 ==>
              && res.thread == s.life.ctl[e.k].msg.thread && Accepts(s.life.gtab, res.thread)
              && s.life.gtab[res.thread.idx].disp == d && Hosts(t, Loc(s.life.ctl[e.k].dst, e.l), res.thread)))
  }

  /** It fails exactly if the table does not accept the handle; else the thread is
      detached now. */
  ghost predicate DecidesDetach(s: State, e: Step, t: State, a: Loc, h: Handle, res: Result) {
    && e.RecvDetach? && IsAsk(s, a, e.k)
    && if Accepts(s.life.gtab, h) then res.err == 0 && Accepts(t.life.gtab, h) && t.life.gtab[h.idx].detached
       else res.err == ESRCH
  }

  ghost predicate DecidesCancel(s: State, e: Step, a: Loc, h: Handle, peer: nat, res: Result) {
    && e.RecvCancel? && IsAsk(s, a, e.k)
    && res.err == if !Accepts(s.life.gtab, h) then ESRCH else if s.life.gtab[h.idx].rank != peer then EINVAL else 0
  }

  /** The handle is not accepted; or its thread is detached, or alive and waited for
      by somebody else; or it is detached while a waits for it; or it has ended, and
      then the caller gets the value in its slot and the handle is retired. */
  ghost predicate DecidesJoin(s: State, e: Step, t: State, a: Loc, h: Handle, res: Result) {
    || (e.RecvJoin? && IsAsk(s, a, e.k) && !Accepts(s.life.gtab, h) && res.err == ESRCH)
    || (&& Accepts(s.life.gtab, h) && res.err == EINVAL
        && (|| (e.RecvJoin? && IsAsk(s, a, e.k)
                && (s.life.gtab[h.idx].detached || (s.life.gtab[h.idx].terminated == 0 && Waited(s, h))))
            || (e.RecvDetach? && e.k in s.calls.rpc && s.calls.rpc[e.k].msg.Ask?
                && s.calls.rpc[e.k].msg.call == CallDetach(h) && WaitsIn(s, a, h))))
    || (&& Accepts(s.life.gtab, h) && !s.life.gtab[h.idx].detached && !Accepts(t.life.gtab, h)
        && res == Result(0, h, s.life.gtab[h.idx].ret)
        && (|| (e.RecvJoin? && IsAsk(s, a, e.k) && s.life.gtab[h.idx].terminated != 0)
            || (e.RecvTerminated? && e.k in s.life.ctl && s.life.ctl[e.k].msg.Terminated?
                && s.life.ctl[e.k].msg.thread == h && WaitsIn(s, a, h))))
  }

  /** a's JOIN of h is the one that waits. */
  ghost predicate WaitsIn(s: State, a: Loc, h: Handle) {
    exists x :: x in s.waits && s.waits[x].thread == h && WaitsFor(s, a, s.waits[x].caller)
  }

  // ------------------------------------------------------------ results on their way

  /** An answer with this result is in flight. */
  ghost predicate Comes(s: State, id: CallId, res: Result) {
    exists k :: k in s.calls.rpc && s.calls.rpc[k].msg.Answer? && s.calls.rpc[k].Key() == id
      && s.calls.rpc[k].msg.result == res
  }

  /** Rank 0 will learn of this outcome of a start. */
  ghost predicate Told(s: State, id: CallId, res: Result) {
    exists k :: k in s.life.ctl && s.life.ctl[k].msg.Started? && TellsOf(s, s.life.ctl[k].msg, id, res)
  }

  ghost predicate TellsOf(s: State, m: CtlMsg, id: CallId, res: Result)
    requires m.Started?
  {
    && m.xid in s.life.starts && s.life.starts[m.xid].caller == id
    && res.err == m.err && (m.err == 0 ==> res.thread == s.life.starts[m.xid].thread)
  }

  /** What a's call will be told, or has been, is settled. */
  ghost predicate Settled(s: State, a: Loc, call: Call, res: Result) {
    && InCall(s, a, call)
    && var q := s.calls.app[a].req;
       if q.Done? then q.result == res
       else q.xid.Some? && var id := CallId(a.rank, call.Op(), q.xid.value); Comes(s, id, res) || Told(s, id, res)
  }

  /** Blocks that are done or sent were so before, unless a call is sent or answered. */
  ghost predicate OldBlock(s: State, t: State, a: Loc) {
    && a in t.calls.app && (t.calls.app[a].req.Done? || (t.calls.app[a].req.BusyCall? && t.calls.app[a].req.xid.Some?))
    ==> a in s.calls.app && s.calls.app[a].req == t.calls.app[a].req
  }

  lemma AppOldBlock(c: Config, s: State, e: Step, a: Loc)
    requires Enabled(c, s, e) && (Histories.AppStep(e) || Histories.DrainStep(e) || e.TakeRetclean?)
    ensures OldBlock(s, Next(c, s, e), a) && Next(c, s, e).calls.rpc == s.calls.rpc
    ensures forall k :: k in Next(c, s, e).life.ctl && Next(c, s, e).life.ctl[k].msg.Started? ==>
              k in s.life.ctl && Next(c, s, e).life.ctl[k] == s.life.ctl[k]
  {
    hide First, FinalState, FinalRet, SendAll;
  }

  lemma CancelOldBlock(c: Config, s: State, k: nat, a: Loc)
    requires CanRecvAsk(c, s, k, CANCEL)
    ensures OldBlock(s, RecvCancelStep(c, s, k), a) && RecvCancelStep(c, s, k).life == s.life
  {
    hide First, Put, Tick;
  }

  lemma StartOldBlock(c: Config, s: State, k: nat, l: nat, err: nat, a: Loc)
    requires LifeInv(c, s) && CallsInv(c, s) && HistInv(s) && CanRecvStart(c, s, k, l, err)
    ensures OldBlock(s, RecvStartStep(c, s, k, l, err), a)
  {
    hide Life.Inv, Calls.Inv, Joins.HistInv, First, RecvStartStep;
    StartGives(c, s, k, l, err);
  }

  /** Unless a call is sent or answered, sent and finished calls are old. */
  lemma OthersOldBlock(c: Config, s: State, e: Step, a: Loc)
    requires Inv(c, s) && Enabled(c, s, e) && !e.TakeCall? && !e.RecvReply?
    ensures OldBlock(s, Next(c, s, e), a)
  {
    hide LifeInv, CallsInv, OrderInv, HistInv, QuoteInv, WaitInv, SeqInv, OldBlock, First, Sequence.Drew;
    match e
    case RecvCreate(k, p, xid, src, wrap) => CreateGives(c, s, k, p, xid, src, wrap); SameOldBlock(s, Next(c, s, e), a);
    case RecvStart(k, l, err) => StartOldBlock(c, s, k, l, err, a);
    case RecvStarted(k) => StartedGives(c, s, k); SameOldBlock(s, Next(c, s, e), a);
    case RecvTerminated(k) => TerminatedGives(c, s, k); SameOldBlock(s, Next(c, s, e), a);
    case RecvDetach(k) => DetachGives(c, s, k); SameOldBlock(s, Next(c, s, e), a);
    case RecvJoin(k) => JoinGives(c, s, k); SameOldBlock(s, Next(c, s, e), a);
    case RecvCancel(k) => CancelOldBlock(c, s, k, a);
    case _ => AppOldBlock(c, s, e, a);
  }

  lemma SameOldBlock(s: State, t: State, a: Loc)
    requires t.calls.app == s.calls.app
    ensures OldBlock(s, t, a)
  {
  }

  // ------------------------------------------------------------ results that are in

  /** A result that is in was in before, or was on its way, or a draining rank just
      refused to send the call. */
  lemma DoneComes(c: Config, s: State, e: Step, a: Loc)
    requires Inv(c, s) && Enabled(c, s, e) && a in Next(c, s, e).calls.app && Next(c, s, e).calls.app[a].req.Done?
    ensures var q := Next(c, s, e).calls.app[a].req;
            Settled(s, a, q.call, q.result) || Decides(c, s, e, Next(c, s, e), a, q.call, q.result)
  {
    hide LifeInv, CallsInv, OrderInv, HistInv, QuoteInv, WaitInv, SeqInv, First, Sequence.Drew;
    if e.TakeCall? { TakenDone(c, s, e.r, e.xid, e.src, e.wrap, a); }
    else if e.RecvReply? { ReplyDone(c, s, e.k, a); }
    else { hide Enabled, Next; OthersOldBlock(c, s, e, a); }
  }

  lemma TakenDone(c: Config, s: State, r: nat, xid: nat, src: nat, wrap: bool, a: Loc)
    requires CanTakeCall(c, s, r, xid, src, wrap)
    requires var t := TakeCallStep(c, s, r, xid, src, wrap); a in t.calls.app && t.calls.app[a].req.Done?
    ensures var t := TakeCallStep(c, s, r, xid, src, wrap);
            var q := t.calls.app[a].req;
            Settled(s, a, q.call, q.result) || Decides(c, s, TakeCall(r, xid, src, wrap), t, a, q.call, q.result)
  {
    hide First, Sequence.Drew, DecidesCreate, DecidesDetach, DecidesCancel, DecidesJoin, Comes, Told;
  }

  lemma ReplyDone(c: Config, s: State, k: nat, a: Loc)
    requires CallsInv(c, s) && CanRecvReply(c, s, k)
    requires var t := RecvReplyStep(c, s, k); a in t.calls.app && t.calls.app[a].req.Done?
    ensures var q := RecvReplyStep(c, s, k).calls.app[a].req; Settled(s, a, q.call, q.result)
  {
    hide CallsInv, First, RecvReplyStep;
    DeliversToCaller(c, s, k);
    var b :| WaitsFor(s, b, s.calls.rpc[k].Key());
    if a == b { assert Comes(s, s.calls.rpc[k].Key(), s.calls.rpc[k].msg.result); }
  }

  // ------------------------------------------------------------ results on the wire

  /** Whoever has a token or a settled result for its call was blocked in it before. */
  lemma WasWaiting(c: Config, s: State, e: Step, a: Loc, id: CallId, u: Calls.Token)
    requires Inv(c, s) && Enabled(c, s, e) && WaitsFor(Next(c, s, e), a, id)
    requires e.TakeCall? ==> Calls.IsToken(u, s.calls.rpc, s.life.starts, s.waits)
                             && Calls.KeyOf(u, s.calls.rpc, s.life.starts, s.waits) == id
    ensures WaitsFor(s, a, id) && s.calls.app[a].req == Next(c, s, e).calls.app[a].req
  {
    hide LifeInv, CallsInv, OrderInv, HistInv, QuoteInv, WaitInv, SeqInv, First, Sequence.Drew;
    if e.TakeCall? {
      TokenPends(c, s, u);
      DrawnIsFree(c, s, e.r, e.xid, e.src, e.wrap);
      TakenWaits(c, s, e.r, e.xid, e.src, e.wrap, a, id);
    } else if e.RecvReply? { ReplyWaits(c, s, e.k, a, id); }
    else { hide Enabled, Next; OthersOldBlock(c, s, e, a); }
  }

  lemma TokenPends(c: Config, s: State, u: Calls.Token)
    requires CallsInv(c, s) && Calls.IsToken(u, s.calls.rpc, s.life.starts, s.waits)
    ensures Calls.KeyOf(u, s.calls.rpc, s.life.starts, s.waits) in s.calls.pend
  {
    hide Calls.Blocks, Calls.ContentOk;
    assert u in Calls.Tokens(s.calls.rpc, s.life.starts, s.waits);
  }

  /** The number drawn for a call is not pending with its operation. */
  lemma DrawnIsFree(c: Config, s: State, r: nat, xid: nat, src: nat, wrap: bool)
    requires CanTakeCall(c, s, r, xid, src, wrap)
    ensures CallId(r, s.calls.app[Loc(r, s.calls.queue[r][0])].req.call.Op(), xid) !in s.calls.pend
  {
  }

  lemma TakenWaits(c: Config, s: State, r: nat, xid: nat, src: nat, wrap: bool, a: Loc, id: CallId)
    requires CanTakeCall(c, s, r, xid, src, wrap) && id in s.calls.pend
    requires CallId(r, s.calls.app[Loc(r, s.calls.queue[r][0])].req.call.Op(), xid) !in s.calls.pend
    requires WaitsFor(TakeCallStep(c, s, r, xid, src, wrap), a, id)
    ensures a in s.calls.app && s.calls.app[a].req == TakeCallStep(c, s, r, xid, src, wrap).calls.app[a].req
  {
    hide First, Sequence.Drew, Put, Tick;
  }

  lemma ReplyWaits(c: Config, s: State, k: nat, a: Loc, id: CallId)
    requires CallsInv(c, s) && CanRecvReply(c, s, k) && WaitsFor(RecvReplyStep(c, s, k), a, id)
    ensures a in s.calls.app && s.calls.app[a].req == RecvReplyStep(c, s, k).calls.app[a].req
  {
    hide CallsInv, First, RecvReplyStep;
    DeliversToCaller(c, s, k);
  }

  /** The answer to a's own request decides its call. */
  lemma AskOf(c: Config, s: State, k: nat, a: Loc)
    requires CallsInv(c, s) && k in s.calls.rpc && s.calls.rpc[k].msg.Ask? && WaitsFor(s, a, s.calls.rpc[k].Key())
    ensures s.calls.app[a].req.call == s.calls.rpc[k].msg.call && s.calls.rpc[k].dst == s.calls.rpc[k].msg.call.Peer()
    ensures IsAsk(s, a, k)
  {
    hide CallsInv;
    AskIs(c, s, k);
    SameCaller(c, s, a, s.calls.rpc[k].Key());
  }

  lemma SameCaller(c: Config, s: State, a: Loc, id: CallId)
    requires CallsInv(c, s) && WaitsFor(s, a, id)
    ensures id in s.calls.pend && a == Loc(id.rank, s.calls.pend[id])
  {
    hide Calls.TokensOk, Calls.ContentOk;
  }

  lemma WaitCaller(c: Config, s: State, x: nat, a: Loc)
    requires CallsInv(c, s) && x in s.waits && WaitsFor(s, a, s.waits[x].caller)
    ensures s.calls.app[a].req.call == CallJoin(s.waits[x].thread) && WaitsIn(s, a, s.waits[x].thread)
  {
    hide CallsInv;
    WaitOf(c, s, x);
    SameCaller(c, s, a, s.waits[x].caller);
  }

  /** A new answer decides the call it is for, or passes on what START said. */
  ghost predicate NewIs(c: Config, s: State, e: Step, t: State, k: nat) {
    k in t.calls.rpc && k !in s.calls.rpc && t.calls.rpc[k].msg.Answer? ==>
      forall a :: WaitsFor(s, a, t.calls.rpc[k].Key()) ==>
        || Decides(c, s, e, t, a, s.calls.app[a].req.call, t.calls.rpc[k].msg.result)
        || Told(s, t.calls.rpc[k].Key(), t.calls.rpc[k].msg.result)
  }

  lemma NewCreated(c: Config, s: State, e: Step, k: nat)
    requires Inv(c, s) && e.RecvCreate? && CanRecvCreate(c, s, e.k, e.p, e.xid, e.src, e.wrap)
    ensures NewIs(c, s, e, RecvCreateStep(c, s, e.k, e.p, e.xid, e.src, e.wrap), k)
  {
    hide LifeInv, CallsInv, OrderInv, HistInv, QuoteInv, WaitInv, SeqInv, First, Sequence.Drew, RecvCreateStep, Told;
    var t := RecvCreateStep(c, s, e.k, e.p, e.xid, e.src, e.wrap);
    CreateGives(c, s, e.k, e.p, e.xid, e.src, e.wrap);
    if k in t.calls.rpc && k !in s.calls.rpc {
      assert t.calls.rpc[k].Key() == s.calls.rpc[e.k].Key();
      forall a | WaitsFor(s, a, t.calls.rpc[k].Key())
        ensures Decides(c, s, e, t, a, s.calls.app[a].req.call, t.calls.rpc[k].msg.result)
      {
        AskOf(c, s, e.k, a);
      }
    }
  }

  lemma NewStarted(c: Config, s: State, k0: nat, k: nat)
    requires Inv(c, s) && CanRecvStarted(c, s, k0)
    ensures NewIs(c, s, RecvStarted(k0), RecvStartedStep(c, s, k0), k)
  {
    hide LifeInv, CallsInv, OrderInv, HistInv, QuoteInv, WaitInv, SeqInv, First, RecvStartedStep, Decides;
    var t := RecvStartedStep(c, s, k0);
    StartedGives(c, s, k0);
    if k in t.calls.rpc && k !in s.calls.rpc {
      CreatesOnly(c, s, s.life.ctl[k0].msg.xid);
      assert TellsOf(s, s.life.ctl[k0].msg, t.calls.rpc[k].Key(), t.calls.rpc[k].msg.result);
    }
  }

  lemma CreatesOnly(c: Config, s: State, y: nat)
    requires CallsInv(c, s) && y in s.life.starts
    ensures s.life.starts[y].caller.op == CREATE
  {
  }

  lemma NewDetached(c: Config, s: State, k0: nat, k: nat)
    requires Inv(c, s) && CanRecvAsk(c, s, k0, DETACH)
    ensures NewIs(c, s, RecvDetach(k0), RecvDetachStep(c, s, k0), k)
  {
    hide LifeInv, CallsInv, OrderInv, HistInv, QuoteInv, WaitInv, SeqInv, First, RecvDetachStep, Told;
    var t, e := RecvDetachStep(c, s, k0), RecvDetach(k0);
    DetachGives(c, s, k0);
    var h := s.calls.rpc[k0].msg.call.thread;
    if k in t.calls.rpc && k !in s.calls.rpc {
      forall a | WaitsFor(s, a, t.calls.rpc[k].Key())
        ensures Decides(c, s, e, t, a, s.calls.app[a].req.call, t.calls.rpc[k].msg.result)
      {
        if t.calls.rpc[k].msg.op == DETACH { AskOf(c, s, k0, a); }
        else {
          var x :| x in s.waits && s.waits[x].thread == h && t.waits == s.waits - {x} && TwoReplies(s, t, k0, h, x);
          WaitOf(c, s, x);
          WaitCaller(c, s, x, a);
        }
      }
    }
  }

  lemma NewCanceled(c: Config, s: State, k0: nat, k: nat)
    requires Inv(c, s) && CanRecvAsk(c, s, k0, CANCEL)
    ensures NewIs(c, s, RecvCancel(k0), RecvCancelStep(c, s, k0), k)
  {
    hide LifeInv, CallsInv, OrderInv, HistInv, QuoteInv, WaitInv, SeqInv, First, RecvCancelStep, Told;
    var t, e := RecvCancelStep(c, s, k0), RecvCancel(k0);
    CancelOutcome(c, s, k0);
    if k in t.calls.rpc && k !in s.calls.rpc {
      forall a | WaitsFor(s, a, t.calls.rpc[k].Key())
        ensures Decides(c, s, e, t, a, s.calls.app[a].req.call, t.calls.rpc[k].msg.result)
      {
        AskOf(c, s, k0, a);
      }
    }
  }

  lemma NewJoined(c: Config, s: State, k0: nat, k: nat)
    requires Inv(c, s) && CanRecvAsk(c, s, k0, JOIN)
    ensures NewIs(c, s, RecvJoin(k0), RecvJoinStep(c, s, k0), k)
  {
    hide LifeInv, CallsInv, OrderInv, HistInv, QuoteInv, WaitInv, SeqInv, First, RecvJoinStep, Told, Waited;
    var t, e := RecvJoinStep(c, s, k0), RecvJoin(k0);
    JoinGives(c, s, k0);
    if k in t.calls.rpc && k !in s.calls.rpc {
      forall a | WaitsFor(s, a, t.calls.rpc[k].Key())
        ensures Decides(c, s, e, t, a, s.calls.app[a].req.call, t.calls.rpc[k].msg.result)
      {
        AskOf(c, s, k0, a);
      }
    }
  }

  lemma NewEnded(c: Config, s: State, k0: nat, k: nat)
    requires Inv(c, s) && CanRecvTerminated(c, s, k0)
    ensures NewIs(c, s, RecvTerminated(k0), RecvTerminatedStep(c, s, k0), k)
  {
    hide LifeInv, CallsInv, OrderInv, HistInv, QuoteInv, WaitInv, SeqInv, First, RecvTerminatedStep, Told;
    var t, e := RecvTerminatedStep(c, s, k0), RecvTerminated(k0);
    TerminatedGives(c, s, k0);
    var h := s.life.ctl[k0].msg.thread;
    if k in t.calls.rpc && k !in s.calls.rpc {
      forall a | WaitsFor(s, a, t.calls.rpc[k].Key())
        ensures Decides(c, s, e, t, a, s.calls.app[a].req.call, t.calls.rpc[k].msg.result)
      {
        var x :| x in s.waits && s.waits[x].thread == h
          && t.calls.rpc[k].Key() == CallId(s.waits[x].caller.rank, JOIN, s.waits[x].caller.xid);
        WaitOf(c, s, x);
        WaitCaller(c, s, x, a);
        WaitedAttached(c, s, x);
      }
    }
  }

  lemma NewAnswer(c: Config, s: State, e: Step, k: nat)
    requires Inv(c, s) && Enabled(c, s, e)
    ensures NewIs(c, s, e, Next(c, s, e), k)
  {
    hide LifeInv, CallsInv, OrderInv, HistInv, QuoteInv, WaitInv, SeqInv, First, Sequence.Drew, NewIs;
    match e
    case RecvCreate(_, _, _, _, _) => NewCreated(c, s, e, k);
    case RecvStarted(k0) => NewStarted(c, s, k0, k);
    case RecvTerminated(k0) => NewEnded(c, s, k0, k);
    case RecvDetach(k0) => NewDetached(c, s, k0, k);
    case RecvCancel(k0) => NewCanceled(c, s, k0, k);
    case RecvJoin(k0) => NewJoined(c, s, k0, k);
    case RecvStart(k0, l, err) => StartGives(c, s, k0, l, err); NoneNew(c, s, e, k);
    case TakeCall(r, xid, src, wrap) => NewIsAsk(c, s, r, xid, src, wrap); NoneNew(c, s, e, k);
    case RecvReply(k0) => FewerMessages(c, s, k0); NoneNew(c, s, e, k);
    case _ => AppOldBlock(c, s, e, Loc(0, 0)); NoneNew(c, s, e, k);
  }

  lemma NoneNew(c: Config, s: State, e: Step, k: nat)
    requires Enabled(c, s, e)
    requires var t := Next(c, s, e); k in t.calls.rpc && k !in s.calls.rpc ==> t.calls.rpc[k].msg.Ask?
    ensures NewIs(c, s, e, Next(c, s, e), k)
  {
    hide Enabled, Next, Decides, Told;
  }

  lemma NewIsAsk(c: Config, s: State, r: nat, xid: nat, src: nat, wrap: bool)
    requires CanTakeCall(c, s, r, xid, src, wrap)
    ensures var t := TakeCallStep(c, s, r, xid, src, wrap);
            forall k :: k in t.calls.rpc && k !in s.calls.rpc ==> t.calls.rpc[k].msg.Ask?
  {
    hide First, Sequence.Drew;
  }

  lemma FewerMessages(c: Config, s: State, k0: nat)
    requires CanRecvReply(c, s, k0)
    ensures RecvReplyStep(c, s, k0).calls.rpc == s.calls.rpc - {k0} && RecvReplyStep(c, s, k0).life == s.life
  {
    hide First;
  }

  /** An answer in flight was in flight before, or passes on what START said, or this
      step decided it. */
  lemma CameBefore(c: Config, s: State, e: Step, a: Loc, id: CallId, res: Result)
    requires Inv(c, s) && Enabled(c, s, e) && WaitsFor(Next(c, s, e), a, id) && Comes(Next(c, s, e), id, res)
    ensures WaitsFor(s, a, id) && s.calls.app[a].req == Next(c, s, e).calls.app[a].req
    ensures Comes(s, id, res) || Told(s, id, res) || Decides(c, s, e, Next(c, s, e), a, s.calls.app[a].req.call, res)
  {
    var t := Next(c, s, e);
    hide Inv, Enabled, Next, Told, Decides, Delivery.Stamped, Delivery.CtlStays;
    Delivery.StampsOf(c, s);
    Delivery.MessagesStay(c, s, e);
    var k :| k in t.calls.rpc && t.calls.rpc[k].msg.Answer? && t.calls.rpc[k].Key() == id
      && t.calls.rpc[k].msg.result == res;
    NewAnswer(c, s, e, k);
    if k in s.calls.rpc {
      assert t.calls.rpc[k] == s.calls.rpc[k];
      WasWaiting(c, s, e, a, id, Calls.OnWire(k));
    } else {
      if e.TakeCall? { TakesAsks(c, s, e, k); }
      WasWaiting(c, s, e, a, id, Calls.OnWire(k));
    }
  }

  lemma TakesAsks(c: Config, s: State, e: Step, k: nat)
    requires Enabled(c, s, e) && e.TakeCall? && k in Next(c, s, e).calls.rpc && k !in s.calls.rpc
    ensures Next(c, s, e).calls.rpc[k].msg.Ask?
  {
    hide First, Sequence.Drew, TakeCallStep;
    NewIsAsk(c, s, e.r, e.xid, e.src, e.wrap);
  }

  // ------------------------------------------------------------ outcomes of starts

  /** Only START makes a STARTED. */
  lemma NewOutcome(c: Config, s: State, e: Step, k: nat)
    requires Inv(c, s) && Enabled(c, s, e)
    ensures var t := Next(c, s, e);
            k in t.life.ctl && k !in s.life.ctl && t.life.ctl[k].msg.Started? ==>
              e.RecvStart? && t.life.ctl[k].msg == Started(s.life.ctl[e.k].msg.xid, e.err)
  {
    hide LifeInv, CallsInv, OrderInv, HistInv, QuoteInv, WaitInv, SeqInv, First, Sequence.Drew, RecvCreateStep,
      RecvStartStep, RecvStartedStep, RecvTerminatedStep, RecvDetachStep, RecvCancelStep, RecvJoinStep, RecvReplyStep,
      TakeCallStep;
    match e
    case RecvCreate(k0, p, xid, src, wrap) => CreateGives(c, s, k0, p, xid, src, wrap);
    case RecvStarted(k0) => StartedGives(c, s, k0);
    case RecvTerminated(k0) => TerminatedGives(c, s, k0);
    case RecvStart(k0, l, err) => StartGives(c, s, k0, l, err);
    case TakeCall(r, xid, src, wrap) => TakesNoControl(c, s, r, xid, src, wrap);
    case RecvDetach(_) => AskMakesNone(c, s, e, k);
    case RecvCancel(_) => AskMakesNone(c, s, e, k);
    case RecvJoin(_) => AskMakesNone(c, s, e, k);
    case RecvReply(k0) => FewerMessages(c, s, k0);
    case _ => AppOldBlock(c, s, e, Loc(0, 0));
  }

  lemma TakesNoControl(c: Config, s: State, r: nat, xid: nat, src: nat, wrap: bool)
    requires CanTakeCall(c, s, r, xid, src, wrap)
    ensures TakeCallStep(c, s, r, xid, src, wrap).life == s.life
  {
    hide First, Sequence.Drew, SendCall;
  }

  lemma AskMakesNone(c: Config, s: State, e: Step, k: nat)
    requires Inv(c, s) && Enabled(c, s, e) && (e.RecvDetach? || e.RecvCancel? || e.RecvJoin?)
    ensures Next(c, s, e).life.ctl == s.life.ctl
  {
    hide LifeInv, CallsInv, OrderInv, HistInv, QuoteInv, WaitInv, SeqInv, First, RecvDetachStep, RecvCancelStep,
      RecvJoinStep, Waited;
    match e
    case RecvDetach(k0) => DetachGives(c, s, k0);
    case RecvCancel(k0) => CancelOutcome(c, s, k0);
    case RecvJoin(k0) => JoinGives(c, s, k0);
  }

  lemma ToldBefore(c: Config, s: State, e: Step, a: Loc, id: CallId, res: Result)
    requires Inv(c, s) && Asked(s) && Enabled(c, s, e) && WaitsFor(Next(c, s, e), a, id) && Told(Next(c, s, e), id, res)
    ensures WaitsFor(s, a, id) && s.calls.app[a].req == Next(c, s, e).calls.app[a].req
    ensures Told(s, id, res) || Decides(c, s, e, Next(c, s, e), a, s.calls.app[a].req.call, res)
  {
    var t := Next(c, s, e);
    hide Inv, Enabled, Next, Decides, Delivery.Stamped, Delivery.RpcStays, Delivery.CtlStays, Delivery.RecordsStay,
      Asked, TellsOf, WaitsFor;
    Delivery.StampsOf(c, s);
    Delivery.MessagesStay(c, s, e);
    Delivery.RecordsStayPut(c, s, e);
    var k :| k in t.life.ctl && t.life.ctl[k].msg.Started? && TellsOf(t, t.life.ctl[k].msg, id, res);
    if k in s.life.ctl { OldOutcome(c, s, e, k, a, id, res); }
    else { StartTold(c, s, e, k, a, id, res); }
  }

  lemma OldOutcome(c: Config, s: State, e: Step, k: nat, a: Loc, id: CallId, res: Result)
    requires Inv(c, s) && Enabled(c, s, e) && WaitsFor(Next(c, s, e), a, id)
    requires var t := Next(c, s, e);
             && k in t.life.ctl && k in s.life.ctl && t.life.ctl[k].msg.Started?
             && TellsOf(t, t.life.ctl[k].msg, id, res) && Delivery.CtlStays(s, t, e) && Delivery.RecordsStay(s, t, e)
    ensures WaitsFor(s, a, id) && s.calls.app[a].req == Next(c, s, e).calls.app[a].req && Told(s, id, res)
  {
    hide Inv, Enabled, Next, WaitsFor, Delivery.CtlStays, Delivery.RecordsStay, TellsOf, Told;
    StartedKnown(c, s, k);
    SameTold(s, Next(c, s, e), e, k, id, res);
    WasWaiting(c, s, e, a, id, Calls.InStart(s.life.ctl[k].msg.xid));
  }

  lemma SameTold(s: State, t: State, e: Step, k: nat, id: CallId, res: Result)
    requires k in t.life.ctl && k in s.life.ctl && t.life.ctl[k].msg.Started? && TellsOf(t, t.life.ctl[k].msg, id, res)
    requires Delivery.CtlStays(s, t, e) && Delivery.RecordsStay(s, t, e)
    requires s.life.ctl[k].msg.Started? ==> s.life.ctl[k].msg.xid in s.life.starts
    ensures s.life.ctl[k] == t.life.ctl[k] && s.life.starts[s.life.ctl[k].msg.xid].caller == id && Told(s, id, res)
  {
    hide Progress.Carries;
    assert t.life.ctl[k] == s.life.ctl[k];
    var y := s.life.ctl[k].msg.xid;
    assert t.life.starts[y] == s.life.starts[y];
    assert TellsOf(s, s.life.ctl[k].msg, id, res);
  }

  lemma StartTold(c: Config, s: State, e: Step, k: nat, a: Loc, id: CallId, res: Result)
    requires Inv(c, s) && Asked(s) && Enabled(c, s, e) && WaitsFor(Next(c, s, e), a, id)
    requires var t := Next(c, s, e);
             && k in t.life.ctl && k !in s.life.ctl && t.life.ctl[k].msg.Started?
             && TellsOf(t, t.life.ctl[k].msg, id, res)
    ensures WaitsFor(s, a, id) && s.calls.app[a].req == Next(c, s, e).calls.app[a].req
    ensures Decides(c, s, e, Next(c, s, e), a, s.calls.app[a].req.call, res)
  {
    var t := Next(c, s, e);
    NewOutcome(c, s, e, k);
    hide LifeInv, CallsInv, OrderInv, HistInv, QuoteInv, WaitInv, SeqInv, First, Decides, Asked, RecvStartStep,
      WaitsFor;
    StartGives(c, s, e.k, e.l, e.err);
    WasWaiting(c, s, e, a, id, Calls.InStart(t.life.ctl[k].msg.xid));
    StartDecides(c, s, e.k, e.l, e.err, a, res);
  }

  lemma StartedKnown(c: Config, s: State, k: nat)
    requires Inv(c, s) && k in s.life.ctl
    ensures s.life.ctl[k].msg.Started? ==> s.life.ctl[k].msg.xid in s.life.starts
  {
    hide CallsInv, OrderInv, HistInv, QuoteInv, WaitInv, SeqInv, Life.WireOk, Life.CountersOk, Life.SlotsOk,
      Life.LocalsOk, Life.StartsOk;
    assert Life.MsgOk(s.life.gtab, s.life.starts, s.life.ctl[k]);
  }

  lemma StartDecides(c: Config, s: State, k: nat, l: nat, err: nat, a: Loc, res: Result)
    requires Inv(c, s) && Asked(s) && CanRecvStart(c, s, k, l, err)
    requires var y := s.life.ctl[k].msg.xid;
             && y in s.life.starts && WaitsFor(s, a, s.life.starts[y].caller)
             && res.err == err && (err == 0 ==> res.thread == s.life.starts[y].thread)
    ensures Decides(c, s, RecvStart(k, l, err), RecvStartStep(c, s, k, l, err), a, s.calls.app[a].req.call, res)
  {
    hide LifeInv, CallsInv, OrderInv, HistInv, QuoteInv, WaitInv, SeqInv, First, RecvStartStep;
    StartGives(c, s, k, l, err);
    StartFor(c, s, k);
    var y := s.life.ctl[k].msg.xid;
    assert AskedFor(s, y);
    SameCaller(c, s, a, s.life.starts[y].caller);
  }

  lemma StartFor(c: Config, s: State, k: nat)
    requires LifeInv(c, s) && k in s.life.ctl && s.life.ctl[k].msg.Start?
    ensures s.life.ctl[k].msg.xid in s.life.starts
            && s.life.starts[s.life.ctl[k].msg.xid].thread == s.life.ctl[k].msg.thread
            && Accepts(s.life.gtab, s.life.ctl[k].msg.thread)
  {
    hide Life.WireOk, Life.CountersOk, Life.SlotsOk, Life.LocalsOk;
    assert Life.MsgOk(s.life.gtab, s.life.starts, s.life.ctl[k]);
    assert Life.Live(s.life.gtab, s.life.starts[s.life.ctl[k].msg.xid].thread);
  }

  // ------------------------------------------------------------ over runs

  /** What is settled after a step was settled before it, or the step decided it,
      and the thread was in that call already. */
  lemma SettledComes(c: Config, s: State, e: Step, a: Loc, call: Call, res: Result)
    requires Inv(c, s) && Asked(s) && Enabled(c, s, e) && Settled(Next(c, s, e), a, call, res)
    ensures InCall(s, a, call)
    ensures Settled(s, a, call, res) || Decides(c, s, e, Next(c, s, e), a, call, res)
  {
    var t := Next(c, s, e);
    hide Inv, Enabled, Next, Comes, Told, DecidesCreate, DecidesDetach, DecidesCancel, DecidesJoin, Asked;
    var q := t.calls.app[a].req;
    if q.Done? { DoneComes(c, s, e, a); }
    else {
      var id := CallId(a.rank, call.Op(), q.xid.value);
      if Comes(t, id, res) { CameBefore(c, s, e, a, id, res); } else { ToldBefore(c, s, e, a, id, res); }
    }
  }

  /** Step i of the run decided the call, and a has been in it ever since. */
  ghost predicate Decided(c: Config, ss: seq<State>, es: seq<Step>, i: nat, j: nat, a: Loc, call: Call, res: Result)
    requires i < j < |ss| && |ss| == |es| + 1
  {
    Decides(c, ss[i], es[i], ss[i + 1], a, call, res) && forall m :: i <= m <= j ==> InCall(ss[m], a, call)
  }

  lemma {:induction false} SettledDecided(c: Config, ss: seq<State>, es: seq<Step>, j: nat, a: Loc, call: Call,
                                          res: Result) returns (i: nat)
    requires Protocol.Run(c, ss, es) && j <= |es| && Settled(ss[j], a, call, res)
    ensures i < j && Decided(c, ss, es, i, j, a, call, res)
    decreases j
  {
    hide Inv, Enabled, Next, Decides, Comes, Told, Asked;
    if j == 0 {
      InitUnsettled(c, a, call, res);
      assert false;
    } else {
      hide Init;
      RunKeeps(c, ss, es, j - 1);
      RunAsked(c, ss, es, j - 1);
      SettledComes(c, ss[j - 1], es[j - 1], a, call, res);
      if Settled(ss[j - 1], a, call, res) { i := SettledDecided(c, ss, es, j - 1, a, call, res); } else { i := j - 1; }
    }
  }

  lemma InitUnsettled(c: Config, a: Loc, call: Call, res: Result)
    requires c.Valid()
    ensures !Settled(Init(c), a, call, res)
  {
  }

  /** Whatever result a thread collects, in any run: one step decided it during that
      very call, for a reason that held when it did. */
  lemma EveryAnswerIsRight(c: Config, ss: seq<State>, es: seq<Step>, j: nat, a: Loc)
    requires Protocol.Run(c, ss, es) && j <= |es| && a in ss[j].calls.app && ss[j].calls.app[a].req.Done?
    ensures var q := ss[j].calls.app[a].req; exists i :: 0 <= i < j && Decided(c, ss, es, i, j, a, q.call, q.result)
  {
    hide Inv, Init, Next, Enabled, Decided, Comes, Told;
    var q := ss[j].calls.app[a].req;
    var i := SettledDecided(c, ss, es, j, a, q.call, q.result);
  }
}
