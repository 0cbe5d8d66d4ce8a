/** How far a blocked call is from its answer.  While no rank drains, no step of
    anybody takes a call further away, and every step that delivers what holds it
    brings it closer; the messages ahead of it on its channel only get fewer.  So
    under fair scheduling a call is answered, unless it waits for a thread. */
module Delivery {
  import opened Types
  import opened Machine
  import opened Invariant
  import opened Protocol
  import Sequence
  import Life
  import Calls
  import CreateSteps
  import Histories
  import Progress

  // ------------------------------------------------------------ what steps leave alone

  predicate TakesRpc(e: Step, k: nat) {
    (e.RecvCreate? || e.RecvDetach? || e.RecvCancel? || e.RecvJoin? || e.RecvReply?) && e.k == k
  }

  predicate TakesCtl(e: Step, k: nat) {
    (e.RecvStart? || e.RecvStarted? || e.RecvTerminated?) && e.k == k
  }

  /** Calls in flight stay as they are unless taken; what is new is later and,
      unless a manager forwards a request, an answer. */
  ghost predicate RpcStays(s: State, t: State, e: Step) {
    && (forall k :: k in s.calls.rpc && !TakesRpc(e, k) ==> k in t.calls.rpc && t.calls.rpc[k] == s.calls.rpc[k])
    && (forall k :: k in t.calls.rpc && k !in s.calls.rpc ==>
          k >= s.clock && (t.calls.rpc[k].msg.Answer? || e.TakeCall?))
    && (forall k :: k in s.calls.rpc && TakesRpc(e, k) ==> k !in t.calls.rpc)
  }

  ghost predicate CtlStays(s: State, t: State, e: Step) {
    && (forall k :: k in s.life.ctl && !TakesCtl(e, k) ==> k in t.life.ctl && t.life.ctl[k] == s.life.ctl[k])
    && (forall k :: k in t.life.ctl && k !in s.life.ctl ==>
          k >= s.clock && (t.life.ctl[k].msg.Start? ==> t.life.ctl[k].msg.xid !in s.life.starts))
    && (forall k :: k in s.life.ctl && TakesCtl(e, k) ==> k !in t.life.ctl)
  }

  ghost predicate Stamped(s: State) {
    (forall k :: k in s.calls.rpc ==> k < s.clock) && (forall k :: k in s.life.ctl ==> k < s.clock)
  }

  lemma AppRpcStays(c: Config, s: State, e: Step)
    requires Enabled(c, s, e) && Histories.AppStep(e)
    ensures RpcStays(s, Next(c, s, e), e) && CtlStays(s, Next(c, s, e), e)
  {
    hide First, FinalState, FinalRet;
  }

  lemma DrainRpcStays(c: Config, s: State, e: Step)
    requires Enabled(c, s, e) && Histories.DrainStep(e)
    ensures RpcStays(s, Next(c, s, e), e) && CtlStays(s, Next(c, s, e), e)
  {
    hide First, SendAll;
  }

  lemma TakeCallStays(c: Config, s: State, r: nat, xid: nat, src: nat, wrap: bool)
    requires Stamped(s) && CanTakeCall(c, s, r, xid, src, wrap)
    ensures var e, t := TakeCall(r, xid, src, wrap), TakeCallStep(c, s, r, xid, src, wrap);
            RpcStays(s, t, e) && CtlStays(s, t, e)
  {
    hide First, Sequence.Drew;
  }

  lemma TakeRetcleanStays(c: Config, s: State, r: nat)
    requires Stamped(s) && CanTakeRetclean(c, s, r)
    ensures var e, t := TakeRetclean(r), TakeRetcleanStep(c, s, r); RpcStays(s, t, e) && CtlStays(s, t, e)
  {
    hide First;
  }

  lemma CreateStays(c: Config, s: State, k: nat, p: nat, xid: nat, src: nat, wrap: bool)
    requires Stamped(s) && CanRecvCreate(c, s, k, p, xid, src, wrap)
    ensures var e, t := RecvCreate(k, p, xid, src, wrap), RecvCreateStep(c, s, k, p, xid, src, wrap);
            RpcStays(s, t, e) && CtlStays(s, t, e)
  {
    hide First, Sequence.Passed;
  }

  lemma StartStays(c: Config, s: State, k: nat, l: nat, err: nat)
    requires Stamped(s) && CanRecvStart(c, s, k, l, err)
    ensures var e, t := RecvStart(k, l, err), RecvStartStep(c, s, k, l, err); RpcStays(s, t, e) && CtlStays(s, t, e)
  {
    hide First, MarkStarted;
  }

  lemma StartedStays(c: Config, s: State, k: nat)
    requires Stamped(s) && CanRecvStarted(c, s, k)
    ensures var e, t := RecvStarted(k), RecvStartedStep(c, s, k); RpcStays(s, t, e) && CtlStays(s, t, e)
  {
    hide First;
  }

  lemma TerminatedRpcStays(c: Config, s: State, k: nat)
    requires Stamped(s) && CanRecvTerminated(c, s, k)
    ensures RpcStays(s, RecvTerminatedStep(c, s, k), RecvTerminated(k))
  {
    hide First, FindWait, MarkJoined, EndSlot;
  }

  lemma TerminatedStays(c: Config, s: State, k: nat)
    requires Stamped(s) && CanRecvTerminated(c, s, k)
    ensures var e, t := RecvTerminated(k), RecvTerminatedStep(c, s, k); RpcStays(s, t, e) && CtlStays(s, t, e)
  {
    hide First, FindWait, MarkJoined, RpcStays, Put, Tick;
    TerminatedRpcStays(c, s, k);
  }

  lemma DetachRpcStays(c: Config, s: State, k: nat)
    requires Stamped(s) && CanRecvAsk(c, s, k, DETACH)
    ensures RpcStays(s, RecvDetachStep(c, s, k), RecvDetach(k))
  {
    hide First, FindWait;
  }

  lemma DetachStays(c: Config, s: State, k: nat)
    requires Stamped(s) && CanRecvAsk(c, s, k, DETACH)
    ensures var e, t := RecvDetach(k), RecvDetachStep(c, s, k); RpcStays(s, t, e) && CtlStays(s, t, e)
  {
    hide First, RpcStays, RecvDetachStep;
    DetachRpcStays(c, s, k);
    Progress.DetachMovesNothing(c, s, k);
  }

  lemma JoinRpcStays(c: Config, s: State, k: nat)
    requires Stamped(s) && CanRecvAsk(c, s, k, JOIN)
    ensures RpcStays(s, RecvJoinStep(c, s, k), RecvJoin(k))
  {
    hide First, FindWait, MarkJoined, ReleaseSlot;
  }

  lemma JoinStays(c: Config, s: State, k: nat)
    requires Stamped(s) && CanRecvAsk(c, s, k, JOIN)
    ensures var e, t := RecvJoin(k), RecvJoinStep(c, s, k); RpcStays(s, t, e) && CtlStays(s, t, e)
  {
    hide First, RpcStays, RecvJoinStep;
    JoinRpcStays(c, s, k);
    Progress.JoinMovesNothing(c, s, k);
  }

  lemma ReplyStays(c: Config, s: State, e: Step)
    requires Stamped(s) && Enabled(c, s, e) && (e.RecvCancel? || e.RecvReply?)
    ensures RpcStays(s, Next(c, s, e), e) && CtlStays(s, Next(c, s, e), e)
  {
    hide First, Cancelled;
  }

  lemma MessagesStay(c: Config, s: State, e: Step)
    requires Stamped(s) && Enabled(c, s, e)
    ensures RpcStays(s, Next(c, s, e), e) && CtlStays(s, Next(c, s, e), e)
  {
    hide RpcStays, CtlStays, Stamped, First;
    if Histories.AppStep(e) { AppRpcStays(c, s, e); }
    else if Histories.DrainStep(e) { DrainRpcStays(c, s, e); }
    else if e.RecvCancel? || e.RecvReply? { ReplyStays(c, s, e); }
    else {
      match e
      case TakeCall(r, xid, src, wrap) => TakeCallStays(c, s, r, xid, src, wrap);
      case TakeRetclean(r) => TakeRetcleanStays(c, s, r);
      case RecvCreate(k, p, xid, src, wrap) => CreateStays(c, s, k, p, xid, src, wrap);
      case RecvStart(k, l, err) => StartStays(c, s, k, l, err);
      case RecvStarted(k) => StartedStays(c, s, k);
      case RecvTerminated(k) => TerminatedStays(c, s, k);
      case RecvDetach(k) => DetachStays(c, s, k);
      case RecvJoin(k) => JoinStays(c, s, k);
      case _ =>
    }
  }

  /** START records and JOINWAITs stay unless the step is one that ends them. */
  ghost predicate RecordsStay(s: State, t: State, e: Step) {
    && (forall y ::
          && y in s.life.starts
          && !(e.RecvStarted? && e.k in s.life.ctl && Progress.Carries(s.life.ctl, e.k, y)) ==>
          y in t.life.starts && t.life.starts[y] == s.life.starts[y])
    && (forall y :: y in s.life.starts && y in t.life.starts ==> t.life.starts[y] == s.life.starts[y])
    && (forall y :: y in t.life.starts && y !in s.life.starts ==> e.RecvCreate?)
    && (forall x :: x in s.waits && !e.RecvTerminated? && !e.RecvDetach? ==> x in t.waits && t.waits[x] == s.waits[x])
    && (forall x :: x in s.waits && x in t.waits ==> t.waits[x] == s.waits[x])
    && (forall x :: x in t.waits && x !in s.waits ==> e.RecvJoin?)
  }

  lemma QuietRecordsStay(c: Config, s: State, e: Step)
    requires Enabled(c, s, e) && (Histories.AppStep(e) || Histories.DrainStep(e) || e.TakeCall? || e.TakeRetclean?)
    ensures RecordsStay(s, Next(c, s, e), e)
  {
    hide First, FinalState, FinalRet, SendAll, SendCall, Put, Tick, Sequence.Drew, Progress.Carries;
  }

  lemma CreateRecordsStay(c: Config, s: State, k: nat, p: nat, xid: nat, src: nat, wrap: bool)
    requires CanRecvCreate(c, s, k, p, xid, src, wrap)
    ensures RecordsStay(s, RecvCreateStep(c, s, k, p, xid, src, wrap), RecvCreate(k, p, xid, src, wrap))
  {
    hide First, Sequence.Passed, Put, Tick, Replied, Progress.Carries;
  }

  lemma StartRecordsStay(c: Config, s: State, e: Step)
    requires Enabled(c, s, e) && (e.RecvStart? || e.RecvStarted?)
    ensures RecordsStay(s, Next(c, s, e), e)
  {
    hide First, Put, Tick;
  }

  lemma TerminatedRecordsStay(c: Config, s: State, k: nat)
    requires CanRecvTerminated(c, s, k)
    ensures RecordsStay(s, RecvTerminatedStep(c, s, k), RecvTerminated(k))
  {
    hide First, Put, Tick, FindWait, Progress.Carries;
  }

  lemma DetachRecordsStay(c: Config, s: State, k: nat)
    requires CanRecvAsk(c, s, k, DETACH)
    ensures RecordsStay(s, RecvDetachStep(c, s, k), RecvDetach(k))
  {
    hide First, Put, Tick, FindWait, Replied, Progress.Carries;
  }

  lemma ReplyRecordsStay(c: Config, s: State, e: Step)
    requires Enabled(c, s, e) && (e.RecvCancel? || e.RecvReply?)
    ensures RecordsStay(s, Next(c, s, e), e)
  {
    hide First, Put, Tick, Replied, Cancelled, Progress.Carries;
  }

  lemma JoinRecordsStay(c: Config, s: State, k: nat)
    requires CanRecvAsk(c, s, k, JOIN) && s.calls.rpc[k].msg.xid !in s.waits
    ensures RecordsStay(s, RecvJoinStep(c, s, k), RecvJoin(k))
  {
    hide First, Put, Tick, FindWait, Replied, Progress.Carries;
  }

  lemma RecordsStayPut(c: Config, s: State, e: Step)
    requires Inv(c, s) && Enabled(c, s, e)
    ensures RecordsStay(s, Next(c, s, e), e)
  {
    hide RecordsStay, First, LifeInv, OrderInv, HistInv, QuoteInv, WaitInv, SeqInv, CallsInv;
    if Histories.AppStep(e) || Histories.DrainStep(e) || e.TakeCall? || e.TakeRetclean? { QuietRecordsStay(c, s, e); }
    else if e.RecvStart? || e.RecvStarted? { StartRecordsStay(c, s, e); }
    else if e.RecvTerminated? { TerminatedRecordsStay(c, s, e.k); }
    else if e.RecvDetach? { DetachRecordsStay(c, s, e.k); }
    else if e.RecvCancel? || e.RecvReply? { ReplyRecordsStay(c, s, e); }
    else if e.RecvCreate? { CreateRecordsStay(c, s, e.k, e.p, e.xid, e.src, e.wrap); }
    else { NewWait(c, s, e.k); JoinRecordsStay(c, s, e.k); }
  }

  lemma NewWait(c: Config, s: State, k: nat)
    requires CallsInv(c, s) && CanRecvAsk(c, s, k, JOIN)
    ensures s.calls.rpc[k].msg.xid !in s.waits
  {
    Calls.WaitIsFresh(c, s.calls.app, s.calls.pend, s.calls.rpc, s.life.starts, s.waits, s.draining, k);
  }

  // ------------------------------------------------------------ blocks and queues

  /** The block of a is busy with a call. */
  predicate Blocked(s: State, a: Loc) {
    a in s.calls.app && s.calls.app[a].req.BusyCall?
  }

  /** The manager of rank r takes the first request off its queue. */
  predicate TakesQueue(e: Step, r: nat) {
    (e.TakeCall? && e.r == r) || (e.TakeRetclean? && e.r == r) || (e.TakeMain? && r == 0)
  }

  predicate AtHead(s: State, a: Loc) {
    a.rank < |s.calls.queue| && s.calls.queue[a.rank] != [] && s.calls.queue[a.rank][0] == a.lidx
  }

  /** The queues only grow at the end, or lose their first entry. */
  ghost predicate QueueStays(s: State, t: State, e: Step) {
    && |t.calls.queue| == |s.calls.queue|
    && forall r: nat :: r < |s.calls.queue| ==>
         if TakesQueue(e, r) then s.calls.queue[r] != [] && t.calls.queue[r] == s.calls.queue[r][1..]
         else s.calls.queue[r] <= t.calls.queue[r]
  }

  /** A blocked thread's request stays as it is, unless its manager forwards it or
      its answer arrives. */
  ghost predicate BlockStays(s: State, t: State, e: Step, a: Loc) {
    Blocked(s, a) ==>
      || (a in t.calls.app && t.calls.app[a].req == s.calls.app[a].req)
      || (e.TakeCall? && e.r == a.rank && AtHead(s, a) && a in t.calls.app && t.calls.app[a].req.BusyCall?
          && t.calls.app[a].req.call == s.calls.app[a].req.call && t.calls.app[a].req.xid == Some(e.xid))
      || Answered(s, t, e, a)
  }

  /** The step hands a the answer to its call, or a draining rank refuses to send
      it. */
  ghost predicate Answered(s: State, t: State, e: Step, a: Loc) {
    && Blocked(s, a) && a in t.calls.app && t.calls.app[a].req.Done?
       && t.calls.app[a].req.call == s.calls.app[a].req.call
    && (|| (e.RecvReply? && e.k in s.calls.rpc && WaitsFor(s, a, s.calls.rpc[e.k].Key()))
        || (e.TakeCall? && AtHead(s, a) && a.rank in s.draining))
  }

  lemma AppBlocksStay(c: Config, s: State, e: Step, a: Loc)
    requires Enabled(c, s, e) && Histories.AppStep(e)
    ensures QueueStays(s, Next(c, s, e), e) && BlockStays(s, Next(c, s, e), e, a)
  {
    hide First, FinalState, FinalRet;
  }

  lemma TakeCallBlocksStay(c: Config, s: State, r: nat, xid: nat, src: nat, wrap: bool, a: Loc)
    requires CanTakeCall(c, s, r, xid, src, wrap)
    ensures var e, t := TakeCall(r, xid, src, wrap), TakeCallStep(c, s, r, xid, src, wrap);
            QueueStays(s, t, e) && BlockStays(s, t, e, a)
  {
    hide First, Sequence.Drew, Put, Tick;
  }

  lemma TakeRetcleanBlocksStay(c: Config, s: State, r: nat, a: Loc)
    requires CanTakeRetclean(c, s, r)
    ensures var e, t := TakeRetclean(r), TakeRetcleanStep(c, s, r); QueueStays(s, t, e) && BlockStays(s, t, e, a)
  {
    hide First, Put, Tick, EndThread;
  }

  lemma DrainBlocksStay(c: Config, s: State, e: Step, a: Loc)
    requires Enabled(c, s, e) && Histories.DrainStep(e)
    ensures QueueStays(s, Next(c, s, e), e) && BlockStays(s, Next(c, s, e), e, a)
  {
    hide First, SendAll;
  }

  lemma CreateBlocksStay(c: Config, s: State, e: Step, a: Loc)
    requires s.calls.app.Keys == s.life.lt.Keys && Enabled(c, s, e) && (e.RecvCreate? || e.RecvStart? || e.RecvStarted?)
    requires e.RecvStart? ==> StartValid(c, s.life.gtab, s.life.ctl[e.k].msg.thread)
    ensures QueueStays(s, Next(c, s, e), e) && BlockStays(s, Next(c, s, e), e, a)
  {
    hide First, Put, Tick, Sequence.Drew, MarkStarted, CreateThread, FinishStart;
  }

  lemma EndBlocksStay(c: Config, s: State, k: nat, a: Loc)
    ensures CanRecvTerminated(c, s, k) ==>
              var (t, e) := (RecvTerminatedStep(c, s, k), RecvTerminated(k));
              QueueStays(s, t, e) && BlockStays(s, t, e, a)
  {
    hide First, Put, Tick, FindWait, EndSlot, MarkJoined;
  }

  lemma AskBlocksStay(c: Config, s: State, e: Step, a: Loc)
    requires Enabled(c, s, e) && (e.RecvDetach? || e.RecvJoin?)
    ensures QueueStays(s, Next(c, s, e), e) && BlockStays(s, Next(c, s, e), e, a)
  {
    Progress.AskKeepsBlocks(c, s, e.k);
    hide RecvDetachStep, RecvJoinStep;
    AskKeepsQueue(c, s, e.k);
  }

  lemma AskKeepsQueue(c: Config, s: State, k: nat)
    ensures CanRecvAsk(c, s, k, DETACH) ==> RecvDetachStep(c, s, k).calls.queue == s.calls.queue
    ensures CanRecvAsk(c, s, k, JOIN) ==> RecvJoinStep(c, s, k).calls.queue == s.calls.queue
  {
    hide First, Put, Tick, FindWait, MarkJoined, ReleaseSlot;
  }

  lemma ReplyBlocksStay(c: Config, s: State, e: Step, a: Loc)
    requires Calls.PendOk(c, s.calls.app, s.calls.pend) && Enabled(c, s, e) && (e.RecvCancel? || e.RecvReply?)
    ensures QueueStays(s, Next(c, s, e), e) && BlockStays(s, Next(c, s, e), e, a)
  {
    hide First, Put, Tick;
    if e.RecvReply? && s.calls.rpc[e.k].Key() in s.calls.pend {
      var id := s.calls.rpc[e.k].Key();
      assert Calls.PendsAs(s.calls.app, id, s.calls.pend[id]);
    }
  }

  lemma BlocksStay(c: Config, s: State, e: Step, a: Loc)
    requires Inv(c, s) && Enabled(c, s, e)
    ensures QueueStays(s, Next(c, s, e), e) && BlockStays(s, Next(c, s, e), e, a)
  {
    hide QueueStays, BlockStays, First, LifeInv, OrderInv, HistInv, QuoteInv, WaitInv, SeqInv, Calls.Inv;
    PendOf(c, s);
    if Histories.AppStep(e) { AppBlocksStay(c, s, e, a); }
    else if Histories.DrainStep(e) { DrainBlocksStay(c, s, e, a); }
    else if e.TakeCall? { TakeCallBlocksStay(c, s, e.r, e.xid, e.src, e.wrap, a); }
    else if e.TakeRetclean? { TakeRetcleanBlocksStay(c, s, e.r, a); }
    else if e.RecvCancel? || e.RecvReply? { ReplyBlocksStay(c, s, e, a); }
    else if e.RecvCreate? || e.RecvStart? || e.RecvStarted? {
      if e.RecvStart? { CreateSteps.StartIsValid(c, s, e.k); }
      CreateBlocksStay(c, s, e, a);
    } else if e.RecvTerminated? { EndBlocksStay(c, s, e.k, a); }
    else { AskBlocksStay(c, s, e, a); }
  }

  lemma PendOf(c: Config, s: State)
    requires CallsInv(c, s)
    ensures Calls.PendOk(c, s.calls.app, s.calls.pend) && Calls.QueueOk(c, s.calls.app, s.calls.queue)
  {
    hide Calls.TokensOk, Calls.ContentOk;
  }

  // ------------------------------------------------------------ the distance

  /** A START for request y is still in flight. */
  ghost predicate StartInFlight(ctl: Life.Wire, y: nat) {
    exists k :: Progress.Carries(ctl, k, y) && ctl[k].msg.Start?
  }

  /** How many deliveries a holder is from its answer: in a queue, those of the
      requests before it, too; in a JOINWAIT, that of the thread's end. */
  ghost function Distance(s: State, p: Place): nat {
    match p
    case InQueue(i) => 5 + i
    case Elsewhere(OnWire(k)) => if k in s.calls.rpc && s.calls.rpc[k].msg.Ask? then 4 else 0
    case Elsewhere(InStart(y)) => if StartInFlight(s.life.ctl, y) then 3 else 2
    case Elsewhere(InWait(_)) => 1
  }

  /** The step delivers what holds a's call: it takes a request off a's queue, the
      message with the call or its START or STARTED, or ends the JOINWAIT. */
  ghost predicate Delivers(s: State, t: State, e: Step, a: Loc, p: Place) {
    match p
    case InQueue(_) => TakesQueue(e, a.rank)
    case Elsewhere(OnWire(k)) => TakesRpc(e, k)
    case Elsewhere(InStart(y)) => (e.RecvStart? || e.RecvStarted?) && Progress.Carries(s.life.ctl, e.k, y)
    case Elsewhere(InWait(x)) => x !in t.waits
  }

  ghost predicate Closer(s: State, p: Place, t: State, p': Place, strict: bool) {
    Distance(t, p') <= Distance(s, p) && (strict ==> Distance(t, p') < Distance(s, p))
  }

  /** The call of a is answered, or held no further away than before. */
  ghost predicate Advances(s: State, t: State, e: Step, a: Loc, p: Place) {
    Answered(s, t, e, a) || exists p' :: Holds(t, a, p') && Closer(s, p, t, p', Delivers(s, t, e, a, p))
  }

  lemma OldTokenIsTheToken(c: Config, s: State, u: Calls.Token, v: Calls.Token)
    requires CallsInv(c, s) && Calls.IsToken(u, s.calls.rpc, s.life.starts, s.waits)
             && Calls.IsToken(v, s.calls.rpc, s.life.starts, s.waits)
    requires Calls.KeyOf(u, s.calls.rpc, s.life.starts, s.waits) == Calls.KeyOf(v, s.calls.rpc, s.life.starts, s.waits)
    ensures u == v
  {
    hide Calls.Blocks, Calls.ContentOk;
    var w := Calls.Tokens(s.calls.rpc, s.life.starts, s.waits);
    assert u in w && v in w;
  }

  /** What one step leaves in place, all of it. */
  ghost predicate Stays(s: State, t: State, e: Step, a: Loc) {
    RpcStays(s, t, e) && CtlStays(s, t, e) && RecordsStay(s, t, e) && QueueStays(s, t, e) && BlockStays(s, t, e, a)
  }

  /** A block whose request was sent is not on its queue. */
  lemma SentIsNotQueued(c: Config, s: State, a: Loc, i: nat)
    requires CallsInv(c, s) && Blocked(s, a) && s.calls.app[a].req.xid.Some?
    ensures !Holds(s, a, InQueue(i))
  {
    hide Calls.TokensOk, Calls.ContentOk, Calls.PendOk;
  }

  /** The holder of a's call after the step, if the one before is gone: an answer,
      or a record that this step files. */
  lemma NewHolder(c: Config, s: State, t: State, e: Step, a: Loc, u: Calls.Token) returns (p: Place)
    requires CallsInv(c, s) && CallsInv(c, t) && t.draining == {} && Stays(s, t, e, a) && !e.TakeCall?
    requires Holds(s, a, Elsewhere(u)) && a in t.calls.app && t.calls.app[a].req == s.calls.app[a].req
    requires !Calls.IsToken(u, t.calls.rpc, t.life.starts, t.waits)
    ensures Holds(t, a, p) && p.Elsewhere?
    ensures Distance(t, p) <= if e.RecvCreate? then 3 else if e.RecvJoin? then 1 else 0
  {
    hide CallsInv, CtlStays, QueueStays, BlockStays;
    SomeHolder(c, t, a);
    p :| Holds(t, a, p);
    if p.InQueue? { SentIsNotQueued(c, t, a, p.i); }
    else if Calls.IsToken(p.t, s.calls.rpc, s.life.starts, s.waits) {
      SameToken(s, t, e, a, p.t);
      OldTokenIsTheToken(c, s, u, p.t);
    }
  }

  lemma SameToken(s: State, t: State, e: Step, a: Loc, u: Calls.Token)
    requires RpcStays(s, t, e) && RecordsStay(s, t, e)
    requires Calls.IsToken(u, s.calls.rpc, s.life.starts, s.waits)
             && Calls.IsToken(u, t.calls.rpc, t.life.starts, t.waits)
    ensures Calls.KeyOf(u, s.calls.rpc, s.life.starts, s.waits) == Calls.KeyOf(u, t.calls.rpc, t.life.starts, t.waits)
  {
    hide Progress.Carries;
  }

  lemma KeepHolder(s: State, t: State, e: Step, a: Loc, u: Calls.Token)
    requires RpcStays(s, t, e) && RecordsStay(s, t, e) && QueueStays(s, t, e) && Holds(s, a, Elsewhere(u))
    requires a in t.calls.app && t.calls.app[a].req == s.calls.app[a].req
    requires Calls.IsToken(u, t.calls.rpc, t.life.starts, t.waits)
    ensures Holds(t, a, Elsewhere(u))
  {
    hide RpcStays, RecordsStay;
    SameToken(s, t, e, a, u);
  }

  /** A sent call's block stays unless answered. */
  lemma SentStays(c: Config, s: State, t: State, e: Step, a: Loc, u: Calls.Token)
    requires CallsInv(c, s) && BlockStays(s, t, e, a) && Holds(s, a, Elsewhere(u))
    ensures Answered(s, t, e, a) || (a in t.calls.app && t.calls.app[a].req == s.calls.app[a].req)
  {
    hide CallsInv, Answered;
    if AtHead(s, a) { assert Holds(s, a, InQueue(0)); SentIsNotQueued(c, s, a, 0); }
  }

  lemma WireAdvances(c: Config, s: State, t: State, e: Step, a: Loc, k: nat)
    requires CallsInv(c, s) && CallsInv(c, t) && t.draining == {} && Stays(s, t, e, a)
             && Holds(s, a, Elsewhere(Calls.OnWire(k)))
    requires TakesRpc(e, k) ==> (e.RecvReply? <==> s.calls.rpc[k].msg.Answer?)
    requires TakesRpc(e, k) && e.RecvReply? ==> Answered(s, t, e, a)
    ensures Advances(s, t, e, a, Elsewhere(Calls.OnWire(k)))
  {
    hide CallsInv, Answered, BlockStays, CtlStays, QueueStays, RecordsStay;
    var u := Calls.OnWire(k);
    SentStays(c, s, t, e, a, u);
    if !Answered(s, t, e, a) {
      if TakesRpc(e, k) { var p := NewHolder(c, s, t, e, a, u); }
      else { KeepHolder(s, t, e, a, u); }
    }
  }

  lemma WaitAdvances(c: Config, s: State, t: State, e: Step, a: Loc, x: nat)
    requires CallsInv(c, s) && CallsInv(c, t) && t.draining == {} && Stays(s, t, e, a)
             && Holds(s, a, Elsewhere(Calls.InWait(x)))
    ensures Advances(s, t, e, a, Elsewhere(Calls.InWait(x)))
  {
    hide CallsInv, Answered, BlockStays, CtlStays, QueueStays, RpcStays;
    var u := Calls.InWait(x);
    SentStays(c, s, t, e, a, u);
    if !Answered(s, t, e, a) {
      if x in t.waits { KeepHolder(s, t, e, a, u); } else { var p := NewHolder(c, s, t, e, a, u); }
    }
  }

  lemma StartAdvances(c: Config, s: State, t: State, e: Step, a: Loc, y: nat)
    requires CallsInv(c, s) && CallsInv(c, t) && t.draining == {} && Stays(s, t, e, a)
             && Holds(s, a, Elsewhere(Calls.InStart(y)))
    requires e.RecvStart? && Progress.Carries(s.life.ctl, e.k, y) ==>
               StartInFlight(s.life.ctl, y) && !StartInFlight(t.life.ctl, y)
    requires e.RecvStarted? && Progress.Carries(s.life.ctl, e.k, y) ==> y !in t.life.starts
    ensures Advances(s, t, e, a, Elsewhere(Calls.InStart(y)))
  {
    hide CallsInv, Answered, BlockStays, QueueStays, RpcStays;
    var u := Calls.InStart(y);
    SentStays(c, s, t, e, a, u);
    if !Answered(s, t, e, a) {
      if y in t.life.starts {
        KeepHolder(s, t, e, a, u);
        if StartInFlight(t.life.ctl, y) { NoNewStart(s, t, e, y); }
      } else { var p := NewHolder(c, s, t, e, a, u); }
    }
  }

  /** No START appears for a request that is pending already. */
  lemma NoNewStart(s: State, t: State, e: Step, y: nat)
    requires CtlStays(s, t, e) && y in s.life.starts && StartInFlight(t.life.ctl, y)
    ensures StartInFlight(s.life.ctl, y)
  {
    var k :| Progress.Carries(t.life.ctl, k, y) && t.life.ctl[k].msg.Start?;
    assert Progress.Carries(s.life.ctl, k, y);
  }

  /** Behind the head, or with the queue left alone, a stays on its queue. */
  lemma BehindAdvances(c: Config, s: State, t: State, e: Step, a: Loc, i: nat)
    requires CallsInv(c, s) && QueueStays(s, t, e) && BlockStays(s, t, e, a) && Holds(s, a, InQueue(i))
    requires !Answered(s, t, e, a) && (TakesQueue(e, a.rank) ==> i > 0)
    ensures Holds(t, a, InQueue(if TakesQueue(e, a.rank) then i - 1 else i))
  {
    hide Calls.TokensOk, Calls.ContentOk, Calls.PendOk, RpcStamps, Answered;
  }

  /** The head of the queue is sent. */
  lemma HeadIsSent(c: Config, s: State, t: State, e: Step, a: Loc)
    requires CallsInv(c, s) && CallsInv(c, t) && QueueStays(s, t, e) && BlockStays(s, t, e, a)
    requires Holds(s, a, InQueue(0))
    requires !Answered(s, t, e, a) && TakesQueue(e, a.rank)
    ensures Blocked(t, a) && t.calls.app[a].req.xid.Some?
  {
    hide Calls.TokensOk, Calls.ContentOk, Calls.PendOk, RpcStamps, Answered;
  }

  lemma QueueAdvances(c: Config, s: State, t: State, e: Step, a: Loc, i: nat)
    requires CallsInv(c, s) && CallsInv(c, t) && t.draining == {} && Stays(s, t, e, a) && Holds(s, a, InQueue(i))
    ensures Advances(s, t, e, a, InQueue(i))
  {
    hide CallsInv, RpcStays, CtlStays, RecordsStay, QueueStays, BlockStays, Answered, Holds;
    if !Answered(s, t, e, a) {
      if !TakesQueue(e, a.rank) || i > 0 { BehindAdvances(c, s, t, e, a, i); }
      else {
        HeadIsSent(c, s, t, e, a);
        SomeHolder(c, t, a);
        var p :| Holds(t, a, p);
        if p.InQueue? { SentIsNotQueued(c, t, a, p.i); }
      }
    }
  }

  /** The reply that is received is the one its caller waits for. */
  lemma ReplyAnswers(c: Config, s: State, k: nat, a: Loc)
    requires CallsInv(c, s) && CanRecvReply(c, s, k) && Holds(s, a, Elsewhere(Calls.OnWire(k)))
    ensures Answered(s, RecvReplyStep(c, s, k), RecvReply(k), a)
  {
    hide CallsInv, First, RecvReplyStep;
    assert WaitsFor(s, a, s.calls.rpc[k].Key());
    DeliversToCaller(c, s, k);
  }

  /** When START is taken, none is left for its request; when STARTED is, the request
      ends. */
  lemma StartTaken(c: Config, s: State, k: nat, l: nat, err: nat, y: nat)
    requires LifeInv(c, s) && CanRecvStart(c, s, k, l, err) && Progress.Carries(s.life.ctl, k, y)
    requires CtlStays(s, RecvStartStep(c, s, k, l, err), RecvStart(k, l, err))
    ensures StartInFlight(s.life.ctl, y) && !StartInFlight(RecvStartStep(c, s, k, l, err).life.ctl, y)
  {
    hide First, RecvStartStep, Life.SlotsOk, Life.LocalsOk, Life.CountersOk;
    var v, t := s.life, RecvStartStep(c, s, k, l, err);
    CreateSteps.StartIsValid(c, s, k);
    Life.StartIsAlone(v.gtab, v.lt, v.starts, v.ctl, k);
    assert Life.MsgOk(v.gtab, v.starts, v.ctl[k]);
    forall j | j in v.ctl && v.ctl[j].msg.Start?
        && v.ctl[j].msg.xid == y ensures j == k { assert Life.MsgOk(v.gtab, v.starts, v.ctl[j]); }
  }

  lemma StartedTaken(c: Config, s: State, k: nat, y: nat)
    requires LifeInv(c, s) && CanRecvStarted(c, s, k) && Progress.Carries(s.life.ctl, k, y)
    ensures y !in RecvStartedStep(c, s, k).life.starts
  {
    hide First, Put, Tick, Life.SlotsOk, Life.LocalsOk, Life.CountersOk, Life.WireOk;
    CreateSteps.StartedIsPending(c, s, k);
  }

  lemma StampsOf(c: Config, s: State)
    requires Inv(c, s)
    ensures Stamped(s)
  {
  }

  lemma StepStays(c: Config, s: State, e: Step, a: Loc)
    requires Inv(c, s) && Enabled(c, s, e)
    ensures Stays(s, Next(c, s, e), e, a)
  {
    hide Inv, Enabled, Next, RpcStays, CtlStays, RecordsStay, QueueStays, BlockStays, Stamped;
    StampsOf(c, s);
    MessagesStay(c, s, e);
    RecordsStayPut(c, s, e);
    BlocksStay(c, s, e, a);
  }

  lemma WireTaken(c: Config, s: State, e: Step, a: Loc, k: nat)
    requires CallsInv(c, s) && Enabled(c, s, e) && Holds(s, a, Elsewhere(Calls.OnWire(k))) && TakesRpc(e, k)
    ensures e.RecvReply? <==> s.calls.rpc[k].msg.Answer?
    ensures e.RecvReply? ==> Answered(s, Next(c, s, e), e, a)
  {
    hide CallsInv, First, Answered, RecvReplyStep, RecvCreateStep, RecvDetachStep, RecvCancelStep, RecvJoinStep,
      Sequence.Drew;
    if e.RecvReply? { ReplyAnswers(c, s, k, a); }
  }

  lemma RecordTaken(c: Config, s: State, e: Step, y: nat)
    requires LifeInv(c, s) && Enabled(c, s, e) && CtlStays(s, Next(c, s, e), e)
    requires (e.RecvStart? || e.RecvStarted?) && Progress.Carries(s.life.ctl, e.k, y)
    ensures e.RecvStart? ==> StartInFlight(s.life.ctl, y) && !StartInFlight(Next(c, s, e).life.ctl, y)
    ensures e.RecvStarted? ==> y !in Next(c, s, e).life.starts
  {
    hide LifeInv, First, CtlStays, StartInFlight, RecvStartStep, RecvStartedStep, Progress.Carries;
    match e
    case RecvStart(k, l, err) => StartTaken(c, s, k, l, err, y);
    case RecvStarted(k) => StartedTaken(c, s, k, y);
  }

  /** No step takes a blocked call further from its answer, and every step that
      delivers what holds it brings it closer. */
  lemma StepAdvances(c: Config, s: State, e: Step, a: Loc, p: Place)
    requires Inv(c, s) && Enabled(c, s, e) && Next(c, s, e).draining == {} && Holds(s, a, p)
    ensures Advances(s, Next(c, s, e), e, a, p)
  {
    var t := Next(c, s, e);
    hide Next, Enabled, LifeInv, CallsInv, OrderInv, HistInv, QuoteInv, WaitInv, SeqInv, Advances, Answered,
      StartInFlight, Progress.Carries;
    hide RpcStays, CtlStays, RecordsStay, QueueStays, BlockStays;
    StepStays(c, s, e, a);
    StepKeeps(c, s, e);
    match p
    case InQueue(i) => QueueAdvances(c, s, t, e, a, i);
    case Elsewhere(OnWire(k)) =>
      if TakesRpc(e, k) { WireTaken(c, s, e, a, k); }
      WireAdvances(c, s, t, e, a, k);
    case Elsewhere(InStart(y)) =>
      if (e.RecvStart? || e.RecvStarted?) && Progress.Carries(s.life.ctl, e.k, y) { RecordTaken(c, s, e, y); }
      StartAdvances(c, s, t, e, a, y);
    case Elsewhere(InWait(x)) => WaitAdvances(c, s, t, e, a, x);
  }

  // ------------------------------------------------------------ whole runs

  /** A message in flight, by its stamp. */
  datatype Msg = CtlAt(k: nat) | RpcAt(k: nat)

  ghost predicate InFlight(s: State, m: Msg, src: nat, dst: nat) {
    match m
    case CtlAt(k) => k in s.life.ctl && s.life.ctl[k].src == src && s.life.ctl[k].dst == dst
    case RpcAt(k) => k in s.calls.rpc && s.calls.rpc[k].src == src && s.calls.rpc[k].dst == dst
  }

  predicate TakesMsg(e: Step, m: Msg) {
    match m
    case CtlAt(k) => TakesCtl(e, k)
    case RpcAt(k) => TakesRpc(e, k)
  }

  /** The messages from src to dst that are older than k. */
  ghost function Ahead(s: State, src: nat, dst: nat, k: nat): (b: set<Msg>)
    ensures forall m :: m in b <==> InFlight(s, m, src, dst) && m.k < k
  {
    (set j | j in s.life.ctl && j < k && InFlight(s, CtlAt(j), src, dst) :: CtlAt(j))
    + (set j | j in s.calls.rpc && j < k && InFlight(s, RpcAt(j), src, dst) :: RpcAt(j))
  }

  /** The messages ahead of one that was sent only get fewer: nothing overtakes it,
      and what is received is gone. */
  lemma AheadShrinks(c: Config, s: State, e: Step, src: nat, dst: nat, k: nat)
    requires Inv(c, s) && Enabled(c, s, e) && k < s.clock
    ensures Ahead(Next(c, s, e), src, dst, k) <= Ahead(s, src, dst, k)
    ensures forall m :: m in Ahead(s, src, dst, k) && TakesMsg(e, m) ==> m !in Ahead(Next(c, s, e), src, dst, k)
  {
    hide Inv, Enabled, Next, Ahead, Stamped;
    StampsOf(c, s);
    MessagesStay(c, s, e);
  }

  /** The holder of a's call, while there is one. */
  ghost function HolderOf(s: State, a: Loc): (p: Place)
    ensures (exists q :: Holds(s, a, q)) ==> Holds(s, a, p)
  {
    if q :| Holds(s, a, q) then q else InQueue(0)
  }

  /** How many of the steps from i on up to j deliver what holds a's call. */
  ghost function Deliveries(ss: seq<State>, es: seq<Step>, a: Loc, i: nat, j: nat): nat
    requires i <= j <= |es| && |ss| == |es| + 1
    decreases j
  {
    if i == j then 0
    else Deliveries(ss, es, a, i, j - 1) + (if Delivers(ss[j - 1], ss[j], es[j - 1], a, HolderOf(ss[j - 1], a)) then 1
                                            else 0)
  }

  lemma HolderIs(c: Config, s: State, a: Loc)
    requires Inv(c, s) && Blocked(s, a) && s.draining == {}
    ensures Holds(s, a, HolderOf(s, a)) && forall p :: Holds(s, a, p) ==> p == HolderOf(s, a)
  {
    hide LifeInv, CallsInv, OrderInv, HistInv, QuoteInv, WaitInv, SeqInv, Holds;
    SomeHolder(c, s, a);
    AtMostOneHolder(c, s, a);
  }

  lemma OneStep(c: Config, s: State, e: Step, a: Loc)
    requires Inv(c, s) && Enabled(c, s, e) && Next(c, s, e).draining == {} && s.draining == {} && Blocked(s, a)
             && Blocked(Next(c, s, e), a)
    ensures var (p, q) := (HolderOf(s, a), HolderOf(Next(c, s, e), a));
            Closer(s, p, Next(c, s, e), q, Delivers(s, Next(c, s, e), e, a, p))
  {
    hide Inv, Enabled, Next, Holds, Closer, Delivers;
    StepKeeps(c, s, e);
    HolderIs(c, s, a);
    HolderIs(c, Next(c, s, e), a);
    StepAdvances(c, s, e, a, HolderOf(s, a));
  }

  /** While nobody drains and a stays blocked in a call, at most as many deliveries
      happen as its holder was away from the answer at first: five and one for each
      request before it on its queue. */
  lemma {:induction false} DeliveriesAreBounded(c: Config, ss: seq<State>, es: seq<Step>, a: Loc, i: nat, j: nat)
    requires Protocol.Run(c, ss, es) && i <= j <= |es|
    requires forall k :: i <= k <= j ==> Blocked(ss[k], a) && ss[k].draining == {}
    ensures Deliveries(ss, es, a, i, j) + Distance(ss[j], HolderOf(ss[j], a)) <= Distance(ss[i], HolderOf(ss[i], a))
    decreases j
  {
    hide Inv, Enabled, Next, Init, Delivers, Distance, Blocked;
    if i < j {
      DeliveriesAreBounded(c, ss, es, a, i, j - 1);
      RunKeeps(c, ss, es, j - 1);
      assert Blocked(ss[j - 1], a) && ss[j - 1].draining == {} && Blocked(ss[j], a) && ss[j].draining == {};
      OneStep(c, ss[j - 1], es[j - 1], a);
    }
  }
}
