/** What rank 0 and the other managers do with each message, in terms of the tables
    alone: who is answered what, and what becomes of the thread. */
module Outcomes {
  import opened Types
  import opened Machine
  import opened Invariant
  import opened Protocol
  import Sequence
  import Life
  import Calls
  import Shutdown
  import Router
  import CreateSteps

  // ------------------------------------------------------------ answers

  function Error(err: nat): Result { Result(err, Handle(0, 0), NoData) }

  /** Nothing is sent but, unless the receiver of request k drains, its answer. */
  ghost predicate Replies(s: State, t: State, k: nat, res: Result)
    requires k in s.calls.rpc && s.calls.rpc[k].msg.Ask?
  {
    var m := s.calls.rpc[k];
    && t.life.ctl == s.life.ctl && t.bc == s.bc
    && t.calls.rpc ==
       if m.dst in s.draining then s.calls.rpc - {k}
       else (s.calls.rpc - {k})[s.clock := Rpc(m.dst, m.src, Answer(m.msg.xid, m.msg.call.Op(), res))]
  }

  /** Slot i is free and all others are as they were. */
  ghost predicate FreesOnly(s: State, t: State, i: nat) {
    && |t.life.gtab| == |s.life.gtab| && i < |t.life.gtab| && !t.life.gtab[i].used
    && forall j :: 0 <= j < |s.life.gtab| && j != i ==> t.life.gtab[j] == s.life.gtab[j]
  }

  /** Some thread waits for h. */
  ghost predicate Waited(s: State, h: Handle) {
    exists x :: x in s.waits && s.waits[x].thread == h
  }

  // ------------------------------------------------------------ JOIN

  ghost predicate Joinable(s: State, h: Handle) {
    Accepts(s.life.gtab, h) && !s.life.gtab[h.idx].detached
  }

  /** JOIN of a handle the table does not accept is answered with ESRCH.  JOIN of a
      detached thread, or of a live one that is waited for, is answered with EINVAL.
      JOIN of a zombie is answered with its value and frees its slot.  JOIN of any
      other thread is not answered now: the caller becomes the one that waits. */
  lemma JoinOutcome(c: Config, s: State, k: nat)
    requires Reached(c, s) && CanRecvAsk(c, s, k, JOIN)
    ensures JoinIs(s, Next(c, s, RecvJoin(k)), k) && Next(c, s, RecvJoin(k)).calls.app == s.calls.app
  {
    hide Reached, JoinIs, RecvJoinStep, First, LifeInv, CallsInv, OrderInv, HistInv, QuoteInv, WaitInv, SeqInv;
    ReachedInv(c, s);
    JoinGives(c, s, k);
  }

  ghost predicate JoinIs(s: State, t: State, k: nat)
    requires k in s.calls.rpc && s.calls.rpc[k].msg.Ask? && s.calls.rpc[k].msg.call.CallJoin?
  {
    var m, h := s.calls.rpc[k], s.calls.rpc[k].msg.call.thread;
    if !Accepts(s.life.gtab, h) then
      Replies(s, t, k, Error(ESRCH)) && t.life == s.life && t.waits == s.waits
    else if !Joinable(s, h) || (s.life.gtab[h.idx].terminated == 0 && Waited(s, h)) then
      Replies(s, t, k, Error(EINVAL)) && t.life == s.life && t.waits == s.waits
    else if s.life.gtab[h.idx].terminated != 0 then
      Replies(s, t, k, Result(0, h, s.life.gtab[h.idx].ret)) && FreesOnly(s, t, h.idx) && t.waits == s.waits
    else
      && t.calls.rpc == s.calls.rpc - {k} && t.life == s.life && t.bc == s.bc
      && m.msg.xid !in s.waits
      && t.waits == s.waits[m.msg.xid := WaitRec(h, CallId(m.src, JOIN, m.msg.xid), s.life.gtab[h.idx].tid)]
  }

  lemma JoinGives(c: Config, s: State, k: nat)
    requires LifeInv(c, s) && CallsInv(c, s) && CanRecvAsk(c, s, k, JOIN)
    ensures JoinIs(s, RecvJoinStep(c, s, k), k) && RecvJoinStep(c, s, k).calls.app == s.calls.app
  {
    hide LifeInv, CallsInv, First, RecvJoinStep, JoinIs;
    var h := s.calls.rpc[k].msg.call.thread;
    NewWaitId(c, s, k);
    if Accepts(s.life.gtab, h) { EndedOrNot(c, s, h.idx); }
    match WhichJoin(s, h)
    case JoinError(err) => JoinRefused(c, s, k, err);
    case JoinZombie => JoinReaped(c, s, k);
    case JoinWaits => JoinFiled(c, s, k);
  }

  lemma JoinRefused(c: Config, s: State, k: nat, err: nat)
    requires CanRecvAsk(c, s, k, JOIN)
    requires var h := s.calls.rpc[k].msg.call.thread;
             if !Accepts(s.life.gtab, h) then err == ESRCH
             else (!Joinable(s, h) || (s.life.gtab[h.idx].terminated == 0 && Waited(s, h))) && err == EINVAL
    requires WhichJoin(s, s.calls.rpc[k].msg.call.thread) == JoinError(err)
    ensures JoinIs(s, RecvJoinStep(c, s, k), k) && RecvJoinStep(c, s, k).calls.app == s.calls.app
  {
    hide WhichJoin, First, Waited, Accepts;
  }

  lemma JoinReaped(c: Config, s: State, k: nat)
    requires CanRecvAsk(c, s, k, JOIN) && Joinable(s, s.calls.rpc[k].msg.call.thread)
    requires s.life.gtab[s.calls.rpc[k].msg.call.thread.idx].terminated != 0
    requires WhichJoin(s, s.calls.rpc[k].msg.call.thread) == JoinZombie
    ensures JoinIs(s, RecvJoinStep(c, s, k), k) && RecvJoinStep(c, s, k).calls.app == s.calls.app
  {
    hide WhichJoin, First, Waited, MarkJoined;
  }

  lemma JoinFiled(c: Config, s: State, k: nat)
    requires CanRecvAsk(c, s, k, JOIN) && Joinable(s, s.calls.rpc[k].msg.call.thread)
    requires s.life.gtab[s.calls.rpc[k].msg.call.thread.idx].terminated == 0
             && !Waited(s, s.calls.rpc[k].msg.call.thread)
    requires WhichJoin(s, s.calls.rpc[k].msg.call.thread) == JoinWaits && s.calls.rpc[k].msg.xid !in s.waits
    ensures JoinIs(s, RecvJoinStep(c, s, k), k) && RecvJoinStep(c, s, k).calls.app == s.calls.app
  {
    hide WhichJoin, First, Waited;
  }

  lemma EndedOrNot(c: Config, s: State, i: nat)
    requires LifeInv(c, s) && i < |s.life.gtab|
    ensures NeedFinalState(s.life.gtab[i].terminated) <==> s.life.gtab[i].terminated == 0
  {
    assert Life.SlotOk(c, s.life.gtab[i], i, s.life.lt);
  }

  lemma NewWaitId(c: Config, s: State, k: nat)
    requires CallsInv(c, s) && CanRecvAsk(c, s, k, JOIN)
    ensures s.calls.rpc[k].msg.xid !in s.waits
  {
    Calls.WaitIsFresh(c, s.calls.app, s.calls.pend, s.calls.rpc, s.life.starts, s.waits, s.draining, k);
  }

  // ------------------------------------------------------------ TERMINATED

  /** TERMINATED of a thread somebody waits for sends that caller, unless rank 0
      drains, the value in its slot, and frees the slot; so does, without an answer,
      TERMINATED of a detached thread.  Any other thread becomes a zombie. */
  lemma TerminatedOutcome(c: Config, s: State, k: nat)
    requires Reached(c, s) && CanRecvTerminated(c, s, k)
    ensures TerminatedIs(s, Next(c, s, RecvTerminated(k)), k)
  {
    hide Reached, TerminatedIs, RecvTerminatedStep, First, LifeInv, CallsInv, OrderInv, HistInv, QuoteInv, WaitInv,
      SeqInv;
    ReachedInv(c, s);
    TerminatedGives(c, s, k);
  }

  /** The JOINED that hands a waiting caller the value of thread h. */
  function JoinedWith(caller: CallId, h: Handle, ret: Ret): Rpc {
    Rpc(0, caller.rank, Answer(caller.xid, JOIN, Result(0, h, ret)))
  }

  ghost predicate TerminatedIs(s: State, t: State, k: nat)
    requires k in s.life.ctl && s.life.ctl[k].msg.Terminated?
  {
    var h := s.life.ctl[k].msg.thread;
    && Accepts(s.life.gtab, h) && t.life.ctl == s.life.ctl - {k} && t.bc == s.bc && t.calls.app == s.calls.app
    && if Waited(s, h) then
         exists x :: x in s.waits && s.waits[x].thread == h
           && t.waits == s.waits - {x} && FreesOnly(s, t, h.idx)
           && t.calls.rpc ==
              if 0 in s.draining then s.calls.rpc
              else s.calls.rpc[s.clock := JoinedWith(s.waits[x].caller, h, s.life.gtab[h.idx].ret)]
       else
         && t.calls.rpc == s.calls.rpc && t.waits == s.waits
         && if s.life.gtab[h.idx].detached then FreesOnly(s, t, h.idx)
            else t.life.gtab == s.life.gtab[h.idx := s.life.gtab[h.idx].(terminated := s.life.ctl[k].msg.fin,
                                                                         hasLtab := false)]
  }

  lemma TerminatedGives(c: Config, s: State, k: nat)
    requires Inv(c, s) && CanRecvTerminated(c, s, k)
    ensures TerminatedIs(s, RecvTerminatedStep(c, s, k), k)
  {
    hide LifeInv, CallsInv, OrderInv, HistInv, QuoteInv, WaitInv, SeqInv, First, MarkJoined;
    EndedIsLive(c, s, k);
    var h := s.life.ctl[k].msg.thread;
    if Waited(s, h) {
      var x := FindWait(s.waits, h).value;
      WaitOf(c, s, x);
      WaitedAttached(c, s, x);
    }
  }

  lemma EndedIsLive(c: Config, s: State, k: nat)
    requires LifeInv(c, s) && CanRecvTerminated(c, s, k)
    ensures TerminatedValid(s.life.gtab, s.life.ctl[k]) && Accepts(s.life.gtab, s.life.ctl[k].msg.thread)
  {
    assert Life.MsgOk(s.life.gtab, s.life.starts, s.life.ctl[k]);
  }

  lemma WaitOf(c: Config, s: State, x: nat)
    requires CallsInv(c, s) && x in s.waits
    ensures s.waits[x].caller.op == JOIN && s.waits[x].caller.xid == x
    ensures Calls.CallIs(s.calls.app, s.calls.pend, s.waits[x].caller, CallJoin(s.waits[x].thread))
  {
  }

  lemma WaitedAttached(c: Config, s: State, x: nat)
    requires WaitInv(s) && x in s.waits && Accepts(s.life.gtab, s.waits[x].thread)
    ensures !s.life.gtab[s.waits[x].thread.idx].detached && s.life.gtab[s.waits[x].thread.idx].terminated == 0
  {
  }

  // ------------------------------------------------------------ DETACH

  /** DETACH of a handle the table does not accept is answered with ESRCH.  Any
      other DETACH succeeds, marks the thread and ends a JOIN that waits for it with
      EINVAL. */
  lemma DetachOutcome(c: Config, s: State, k: nat)
    requires Reached(c, s) && CanRecvAsk(c, s, k, DETACH)
    ensures DetachIs(s, Next(c, s, RecvDetach(k)), k) && Next(c, s, RecvDetach(k)).calls.app == s.calls.app
  {
    hide Reached, DetachIs, RecvDetachStep, First, LifeInv, CallsInv, OrderInv, HistInv, QuoteInv, WaitInv, SeqInv;
    ReachedInv(c, s);
    DetachGives(c, s, k);
  }

  ghost predicate DetachIs(s: State, t: State, k: nat)
    requires k in s.calls.rpc && s.calls.rpc[k].msg.Ask? && s.calls.rpc[k].msg.call.CallDetach?
  {
    var h := s.calls.rpc[k].msg.call.thread;
    if !Accepts(s.life.gtab, h) then
      Replies(s, t, k, Error(ESRCH)) && t.life == s.life && t.waits == s.waits
    else
      && t.life == s.life.(gtab := s.life.gtab[h.idx := s.life.gtab[h.idx].(detached := true)])
      && if !Waited(s, h) then Replies(s, t, k, Result(0, h, NoData)) && t.waits == s.waits
         else exists x ::
           x in s.waits && s.waits[x].thread == h && t.waits == s.waits - {x} && TwoReplies(s, t, k, h, x)
  }

  /** The detacher is told of its success and joiner x of its failure. */
  ghost predicate TwoReplies(s: State, t: State, k: nat, h: Handle, x: nat)
    requires k in s.calls.rpc && s.calls.rpc[k].msg.Ask? && x in s.waits
  {
    var m := s.calls.rpc[k];
    t.calls.rpc ==
      if 0 in s.draining then s.calls.rpc - {k}
      else (s.calls.rpc - {k})[s.clock := Rpc(0, m.src, Answer(m.msg.xid, DETACH, Result(0, h, NoData)))]
           [s.clock + 1 := Rpc(0, s.waits[x].caller.rank, Answer(s.waits[x].caller.xid, JOIN, Error(EINVAL)))]
  }

  lemma DetachGives(c: Config, s: State, k: nat)
    requires CallsInv(c, s) && CanRecvAsk(c, s, k, DETACH)
    ensures DetachIs(s, RecvDetachStep(c, s, k), k) && RecvDetachStep(c, s, k).calls.app == s.calls.app
  {
    hide CallsInv, First;
    var h := s.calls.rpc[k].msg.call.thread;
    if Accepts(s.life.gtab, h) && Waited(s, h) {
      var x := FindWait(s.waits, h).value;
      WaitOf(c, s, x);
      assert TwoReplies(s, RecvDetachStep(c, s, k), k, h, x);
    }
  }

  // ------------------------------------------------------------ CANCEL

  /** CANCEL of a handle the table does not accept is answered with ESRCH, CANCEL on
      the wrong rank with EINVAL.  Any other CANCEL succeeds. */
  lemma CancelOutcome(c: Config, s: State, k: nat)
    requires CanRecvAsk(c, s, k, CANCEL)
    ensures CancelIs(s, Next(c, s, RecvCancel(k)), k)
  {
    hide First, Cancelled;
  }

  ghost predicate CancelIs(s: State, t: State, k: nat)
    requires k in s.calls.rpc && s.calls.rpc[k].msg.Ask? && s.calls.rpc[k].msg.call.CallCancel?
  {
    var h := s.calls.rpc[k].msg.call.thread;
    && t.life == s.life && t.waits == s.waits
    && Replies(s, t, k, if !Accepts(s.life.gtab, h) then Error(ESRCH)
                        else if s.life.gtab[h.idx].rank != s.calls.rpc[k].dst then Error(EINVAL)
                        else Result(0, h, NoData))
  }

  // ------------------------------------------------------------ CREATE

  ghost predicate AllUsed(s: State) {
    forall i :: 0 <= i < |s.life.gtab| ==> s.life.gtab[i].used
  }

  /** CREATE with an index that is not in the dispatch table is answered with EINVAL,
      any other with EAGAIN if every slot is in use.  Otherwise a thread with that
      index, a new number and the next rank gets a free slot, and that rank is told
      to start it. */
  lemma CreateOutcome(c: Config, s: State, k: nat, p: nat, xid: nat, src: nat, wrap: bool)
    requires Reached(c, s) && CanRecvCreate(c, s, k, p, xid, src, wrap)
    ensures CreateIs(c, s, Next(c, s, RecvCreate(k, p, xid, src, wrap)), k, p, xid)
  {
    hide Reached, CreateIs, RecvCreateStep, First, LifeInv, CallsInv, OrderInv, HistInv, QuoteInv, WaitInv, SeqInv;
    ReachedInv(c, s);
    CreateGives(c, s, k, p, xid, src, wrap);
  }

  ghost predicate CreateIs(c: Config, s: State, t: State, k: nat, p: nat, xid: nat)
    requires k in s.calls.rpc && s.calls.rpc[k].msg.Ask? && s.calls.rpc[k].msg.call.CallCreate?
  {
    var m, d := s.calls.rpc[k], s.calls.rpc[k].msg.call.disp;
    && t.waits == s.waits && t.bc == s.bc && t.calls.app == s.calls.app && t.calls.pend == s.calls.pend
    && if !(0 < d < c.ndsps) then Replies(s, t, k, Error(EINVAL)) && t.life == s.life && t.hist == s.hist
       else if AllUsed(s) then Replies(s, t, k, Error(EAGAIN)) && t.life == s.life && t.hist == s.hist
       else
         && t.calls.rpc == s.calls.rpc - {k}
         && (0 in s.draining ==> FreesOnly(s, t, p) && t.life.ctl == s.life.ctl && t.life.starts == s.life.starts)
         && (0 !in s.draining ==> Begins(s, t, d, p, xid, m.Key()))
  }

  /** A thread for this caller is on its way to start. */
  ghost predicate Begins(s: State, t: State, d: nat, p: nat, xid: nat, caller: CallId) {
    && 0 < |s.src| && p < |s.life.gtab| == |t.life.gtab| && !s.life.gtab[p].used && xid !in s.life.starts
    && var h, g := Handle(p, s.src[0]), t.life.gtab[p];
    && g.used && g.rank == s.nextRank && g.gen == s.src[0] && g.disp == d && g.tid == |s.hist|
    && g.ret == NoData && !g.detached && g.terminated == 0 && !g.hasLtab
    && t.life.gtab == s.life.gtab[p := g] && t.life.lt == s.life.lt
    && t.life.starts == s.life.starts[xid := StartRec(h, caller, |s.hist|)]
    && t.life.ctl == s.life.ctl[s.clock := Ctl(0, s.nextRank, Start(xid, h))]
    && t.hist == s.hist + [Thread(h, d, false, None, 0)]
  }

  lemma CreateGives(c: Config, s: State, k: nat, p: nat, xid: nat, src: nat, wrap: bool)
    requires LifeInv(c, s) && CallsInv(c, s) && CanRecvCreate(c, s, k, p, xid, src, wrap)
    ensures CreateIs(c, s, RecvCreateStep(c, s, k, p, xid, src, wrap), k, p, xid)
  {
    hide LifeInv, CallsInv, First, Sequence.Drew, Begins;
    FullTable(c, s);
    var d := s.calls.rpc[k].msg.call.disp;
    if CreateError(c, s.life.nAlloc, d) == 0 && 0 !in s.draining { CreateBegins(c, s, k, p, xid, src, wrap); }
  }

  lemma CreateBegins(c: Config, s: State, k: nat, p: nat, xid: nat, src: nat, wrap: bool)
    requires CanRecvCreate(c, s, k, p, xid, src, wrap) && 0 !in s.draining
    requires CreateError(c, s.life.nAlloc, s.calls.rpc[k].msg.call.disp) == 0
    ensures Begins(s, RecvCreateStep(c, s, k, p, xid, src, wrap), s.calls.rpc[k].msg.call.disp, p, xid,
                   s.calls.rpc[k].Key())
  {
    hide First, Sequence.Passed;
  }

  /** The count reaches the maximum exactly if every slot is in use. */
  lemma FullTable(c: Config, s: State)
    requires LifeInv(c, s)
    ensures s.life.nAlloc >= c.M <==> AllUsed(s)
  {
    hide Life.LocalsOk, Life.StartsOk, Life.MsgsOk, Life.WireOk;
    var used, all := Life.Used(s.life.gtab), Below(c.M);
    if AllUsed(s) {
      assert used == all;
    } else {
      var i: nat :| i < |s.life.gtab| && !s.life.gtab[i].used;
      assert used <= all - {i};
      Sequence.Fewer(used, all - {i});
    }
  }

  // ------------------------------------------------------------ START and STARTED

  /** START gives the thread an entry on its rank if its pthread is created; either
      way STARTED tells rank 0, unless the rank drains. */
  lemma StartOutcome(c: Config, s: State, k: nat, l: nat, err: nat)
    requires Reached(c, s) && CanRecvStart(c, s, k, l, err)
    ensures StartIs(s, Next(c, s, RecvStart(k, l, err)), k, l, err)
  {
    hide Reached, StartIs, RecvStartStep, First, LifeInv, CallsInv, OrderInv, HistInv, QuoteInv, WaitInv, SeqInv;
    ReachedInv(c, s);
    StartGives(c, s, k, l, err);
  }

  ghost predicate StartIs(s: State, t: State, k: nat, l: nat, err: nat)
    requires k in s.life.ctl && s.life.ctl[k].msg.Start?
  {
    var m := s.life.ctl[k];
    var a := Loc(m.dst, l);
    && t.calls.rpc == s.calls.rpc && t.life.gtab == s.life.gtab && t.life.starts == s.life.starts
    && t.life.ctl ==
       (if m.dst in s.draining then s.life.ctl - {k}
        else (s.life.ctl - {k})[s.clock := Ctl(m.dst, 0, Started(m.msg.xid, err))])
    && if err != 0 then t.life.lt == s.life.lt && t.calls.app == s.calls.app && t.hist == s.hist
       else
         && a !in s.life.lt && t.life.lt == s.life.lt[a := Local(m.msg.thread.idx, m.msg.thread.gen)]
         && t.calls.app == s.calls.app[a := App(LT_STARTING, Idle)]
         && m.msg.thread.idx < |s.life.gtab|
         && var i := s.life.gtab[m.msg.thread.idx].tid; i < |s.hist| == |t.hist| && t.hist[i].started
  }

  lemma StartGives(c: Config, s: State, k: nat, l: nat, err: nat)
    requires LifeInv(c, s) && HistInv(s) && CanRecvStart(c, s, k, l, err)
    ensures StartIs(s, RecvStartStep(c, s, k, l, err), k, l, err)
  {
    hide LifeInv, HistInv, First;
    CreateSteps.StartIsValid(c, s, k);
    SlotThread(s, s.life.ctl[k].msg.thread);
  }

  lemma SlotThread(s: State, h: Handle)
    requires HistInv(s) && Accepts(s.life.gtab, h)
    ensures s.life.gtab[h.idx].tid < |s.hist| && s.hist[s.life.gtab[h.idx].tid].h == h
    ensures s.hist[s.life.gtab[h.idx].tid].disp == s.life.gtab[h.idx].disp
  {
  }

  /** STARTED ends the START request and tells the creator, unless rank 0 drains, the
      new thread's handle or the error; after an error the slot is free again. */
  lemma StartedOutcome(c: Config, s: State, k: nat)
    requires Reached(c, s) && CanRecvStarted(c, s, k)
    ensures StartedIs(s, Next(c, s, RecvStarted(k)), k)
  {
    hide Reached, StartedIs, RecvStartedStep, First, LifeInv, CallsInv, OrderInv, HistInv, QuoteInv, WaitInv, SeqInv;
    ReachedInv(c, s);
    StartedGives(c, s, k);
  }

  ghost predicate StartedIs(s: State, t: State, k: nat)
    requires k in s.life.ctl && s.life.ctl[k].msg.Started?
  {
    var y, err := s.life.ctl[k].msg.xid, s.life.ctl[k].msg.err;
    && y in s.life.starts
    && var rec := s.life.starts[y];
    && t.life.starts == s.life.starts - {y} && t.life.ctl == s.life.ctl - {k} && t.life.lt == s.life.lt
    && t.waits == s.waits && t.hist == s.hist && t.calls.app == s.calls.app
    && t.calls.rpc ==
       (if 0 in s.draining then s.calls.rpc
        else s.calls.rpc[s.clock := Rpc(0, rec.caller.rank,
                                        Answer(rec.caller.xid, CREATE,
                                               if err == 0 then Result(0, rec.thread, NoData) else Error(err)))])
    && if err == 0 then t.life.gtab == s.life.gtab else FreesOnly(s, t, rec.thread.idx)
  }

  lemma StartedGives(c: Config, s: State, k: nat)
    requires LifeInv(c, s) && CanRecvStarted(c, s, k)
    ensures StartedIs(s, RecvStartedStep(c, s, k), k)
  {
    hide LifeInv, First;
    CreateSteps.StartedIsPending(c, s, k);
  }

  // ------------------------------------------------------------ shutdown

  /** The rank that begins its shutdown with step e. */
  ghost function Stops(s: State, e: Step): nat
    requires e.RecvShutdown? ==> e.k in s.bc
  {
    if e.RecvShutdown? then s.bc[e.k].dst else 0
  }

  /** Rank r drains, and its children in the tree are told if they were not before. */
  ghost predicate Stopped(c: Config, s: State, t: State, r: nat)
    requires 0 < c.N && r < c.N
  {
    && t.draining == s.draining + {r}
    && forall q :: NewNotice(s.bc, t.bc, q) <==> r !in s.draining && q in Router.Children(0, c.N, r)
  }

  /** Rank q is told. */
  ghost predicate NewNotice(bc: map<nat, Bcast>, bc': map<nat, Bcast>, q: nat) {
    exists k :: k in bc' && k !in bc && bc'[k].dst == q
  }

  /** The return of the main thread, the end of the last thread and a notice each make
      their rank drain and tell exactly its children. */
  lemma ShutdownOutcome(c: Config, s: State, e: Step)
    requires Reached(c, s) && Enabled(c, s, e) && (e.TakeMain? || e.Quiesce? || e.RecvShutdown?)
    ensures Stops(s, e) < c.N && Stopped(c, s, Next(c, s, e), Stops(s, e))
  {
    hide Reached, Stopped, First, BroadcastShutdown, LifeInv, CallsInv, OrderInv, HistInv, QuoteInv, WaitInv, SeqInv;
    ReachedInv(c, s);
    NoticesOf(c, s);
    var notice := if e.RecvShutdown? then {e.k} else {};
    var from := if e.TakeMain? then MainEnded(s) else s;
    if e.TakeMain? { EndedSame(c, s); }
    BroadcastStops(c, from, Stops(s, e), notice);
    var b := BroadcastShutdown(c, from, Stops(s, e));
    assert b.bc - {} == b.bc;
    StoppedSame(c, from, s, b.(bc := b.bc - notice), Next(c, s, e), Stops(s, e));
  }

  lemma StoppedSame(c: Config, s: State, s': State, t: State, t': State, r: nat)
    requires 0 < c.N && r < c.N && Stopped(c, s, t, r)
    requires s'.bc == s.bc && s'.draining == s.draining && t'.bc == t.bc && t'.draining == t.draining
    ensures Stopped(c, s', t', r)
  {
  }

  lemma NoticesOf(c: Config, s: State)
    requires Shutdown.Inv(c, s.bc, s.draining, s.clock)
    ensures forall k :: k in s.bc ==> k < s.clock && s.bc[k].dst < c.N
  {
  }

  lemma EndedSame(c: Config, s: State)
    requires Heads(s, 0)
    ensures MainEnded(s).bc == s.bc && MainEnded(s).draining == s.draining && MainEnded(s).clock == s.clock
  {
  }

  lemma BroadcastStops(c: Config, s: State, r: nat, notice: set<nat>)
    requires 0 < c.N && r < c.N && (forall k :: k in s.bc ==> k < s.clock) && forall k :: k in notice ==> k in s.bc
    ensures var t := BroadcastShutdown(c, s, r); Stopped(c, s, t.(bc := t.bc - notice), r)
  {
    var kids := Router.Children(0, c.N, r);
    var t := BroadcastShutdown(c, s, r);
    var w := t.bc - notice;
    Shutdown.SendAllIs(s.bc, s.clock, r, kids);
    if r !in s.draining {
      forall q | q in kids ensures NewNotice(s.bc, w, q) {
        var i: nat :| i < |kids| && kids[i] == q;
        assert s.clock + i in w && w[s.clock + i] == Bcast(r, kids[i]);
      }
      forall k | k in w && k !in s.bc ensures w[k].dst in kids {
        assert w[k] == Bcast(r, kids[k - s.clock]);
      }
    }
  }
}
