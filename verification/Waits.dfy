/** Which thread a pending JOINWAIT waits for, and whether it is still there. */
module Waits {
  import opened Types
  import opened Machine
  import opened Invariant
  import opened Protocol
  import Sequence
  import Life
  import Joins
  import CreateSteps
  import Histories

  // ------------------------------------------------------------ threads that have not started

  /** A START record is for the thread its slot stands for. */
  ghost predicate RecordsOk(gtab: Life.Gtab, starts: Life.Starts) {
    forall y :: y in starts ==> Joins.SlotOf(gtab, starts[y].thread, starts[y].tid)
  }

  /** A thread in a slot that has not started has a START record. */
  ghost predicate BegunOk(gtab: Life.Gtab, hist: Joins.Hist, starts: Life.Starts) {
    forall i :: 0 <= i < |gtab| && gtab[i].used && gtab[i].tid < |hist| && !hist[gtab[i].tid].started ==>
          Life.Starting(starts, i)
  }

  ghost predicate Tracked(s: State) {
    RecordsOk(s.life.gtab, s.life.starts) && BegunOk(s.life.gtab, s.hist, s.life.starts)
  }

  /** No thread is created, and no START record begins or ends. */
  ghost predicate SameStarts(s: State, t: State) {
    t.life.starts == s.life.starts && |t.hist| == |s.hist|
  }

  lemma AppSameStarts(c: Config, s: State, e: Step)
    requires Enabled(c, s, e) && Histories.AppStep(e)
    ensures SameStarts(s, Next(c, s, e))
  {
    hide First, FinalState, FinalRet;
  }

  lemma TakeSameStarts(c: Config, s: State, e: Step)
    requires Enabled(c, s, e) && (e.TakeCall? || e.TakeRetclean? || Histories.DrainStep(e))
    ensures SameStarts(s, Next(c, s, e))
  {
    hide First, SendAll, SendCall, Put, Tick, Sequence.Drew;
  }

  lemma StartSameStarts(c: Config, s: State, k: nat, l: nat, err: nat)
    requires CanRecvStart(c, s, k, l, err)
    ensures SameStarts(s, RecvStartStep(c, s, k, l, err))
  {
    hide First, Put, Tick;
  }

  lemma TerminatedSameStarts(c: Config, s: State, k: nat)
    requires CanRecvTerminated(c, s, k)
    ensures SameStarts(s, RecvTerminatedStep(c, s, k))
  {
    hide First, Put, Tick, FindWait;
  }

  lemma DetachSameStarts(c: Config, s: State, k: nat)
    requires CanRecvAsk(c, s, k, DETACH)
    ensures SameStarts(s, RecvDetachStep(c, s, k))
  {
    hide First, Put, Tick, FindWait, Replied;
  }

  lemma AskSameStarts(c: Config, s: State, e: Step)
    requires Enabled(c, s, e) && (e.RecvCancel? || e.RecvReply? || e.RecvJoin?)
    ensures SameStarts(s, Next(c, s, e))
  {
    hide First, Put, Tick, FindWait, Replied, Cancelled;
  }

  /** Slots in use whose thread was not created by this step were in use before. */
  lemma TrackedSame(s: State, t: State, c: Config)
    requires Tracked(s) && SameStarts(s, t) && Histories.Evolves(s, t)
    requires Joins.HistOk(s.life.gtab, s.hist) && Joins.HistOk(t.life.gtab, t.hist)
             && Life.StartsOk(c, t.life.gtab, t.life.starts)
    ensures Tracked(t)
  {
    hide Life.Starting;
    forall i | 0 <= i < |t.life.gtab| && t.life.gtab[i].used
      ensures s.life.gtab[i].used && t.life.gtab[i].tid == s.life.gtab[i].tid
              && t.life.gtab[i].gen == s.life.gtab[i].gen 
    {
      assert Histories.SlotEvolves(s.life.gtab[i], t.life.gtab[i], |s.hist|, s.nextRank);
    }
  }

  /** A new thread in slot p comes with its START record. */
  lemma NewTracked(gtab: Life.Gtab, hist: Joins.Hist, starts: Life.Starts, p: nat, g: Slot, y: nat, rec: StartRec)
    requires RecordsOk(gtab, starts) && BegunOk(gtab, hist, starts) && Joins.HistOk(gtab, hist)
    requires p < |gtab| && !gtab[p].used && y !in starts && g.used && rec.thread == Handle(p, g.gen) && rec.tid == g.tid
    ensures var hist' := hist + [Thread(rec.thread, g.disp, false, None, 0)];
            RecordsOk(gtab[p := g], starts[y := rec]) && BegunOk(gtab[p := g], hist', starts[y := rec])
  {
    var hist' := hist + [Thread(rec.thread, g.disp, false, None, 0)];
    var w, st := gtab[p := g], starts[y := rec];
    assert st[y].thread.idx == p;
    forall i | 0 <= i < |w| && w[i].used && w[i].tid < |hist'| && !hist'[w[i].tid].started
      ensures Life.Starting(st, i)
    {
      if i != p { StartingMore(starts, y, rec, i); }
    }
  }

  lemma CreateTracked(c: Config, s: State, k: nat, p: nat, xid: nat, src: nat, wrap: bool)
    requires Tracked(s) && Joins.HistOk(s.life.gtab, s.hist) && CanRecvCreate(c, s, k, p, xid, src, wrap)
    ensures Tracked(RecvCreateStep(c, s, k, p, xid, src, wrap))
  {
    hide First, Replied, Tick, Sequence.Drew, BegunOk, RecordsOk;
    if CreateError(c, s.life.nAlloc, s.calls.rpc[k].msg.call.disp) == 0 {
      DrawnIsNew(c, s, xid, src, wrap);
      var g := NewSlot(s, p, s.calls.rpc[k].msg.call.disp);
      NewTracked(s.life.gtab, s.hist, s.life.starts, p, g, xid,
                 StartRec(Handle(p, g.gen), s.calls.rpc[k].Key(), g.tid));
      DroppedTracked(s.life.gtab, s.hist, s.life.starts, p, FreeSlot(g.(tid := s.life.gtab[p].tid)));
    }
  }

  lemma DroppedTracked(gtab: Life.Gtab, hist: Joins.Hist, starts: Life.Starts, p: nat, g: Slot)
    requires RecordsOk(gtab, starts) && BegunOk(gtab, hist, starts) && p < |gtab| && !gtab[p].used && !g.used
    ensures RecordsOk(gtab[p := g], starts) && BegunOk(gtab[p := g], hist, starts)
  {
  }

  lemma DrawnIsNew(c: Config, s: State, xid: nat, src: nat, wrap: bool)
    requires 0 < |s.src|
             && Sequence.Drew(c.N, 0, Sequence.NextSrc(c.N, 0, s.src[0]), xid, src, wrap, s.life.starts.Keys)
    ensures xid !in s.life.starts
  {
  }

  lemma StartingMore(starts: Life.Starts, y: nat, rec: StartRec, i: nat)
    requires Life.Starting(starts, i) && y !in starts
    ensures Life.Starting(starts[y := rec], i)
  {
    var z :| z in starts && starts[z].thread.idx == i;
    assert z in starts[y := rec];
  }

  /** STARTED ends the record of a thread that has started, or frees its slot. */
  lemma StartedTracked(c: Config, s: State, k: nat)
    requires LifeInv(c, s) && HistInv(s) && Tracked(s) && CanRecvStarted(c, s, k)
    ensures Tracked(RecvStartedStep(c, s, k))
  {
    hide Life.CountersOk, Life.SlotsOk, Life.LocalsOk, Life.MsgsOk, Life.WireOk, Joins.RetOk, Joins.HostOk,
      Joins.CtlOk, First, Put, Tick;
    CreateSteps.StartedIsPending(c, s, k);
    CreateSteps.StartedHistory(c, s, k);
    var v, t := s.life, RecvStartedStep(c, s, k);
    var y := v.ctl[k].msg.xid;
    forall i | 0 <= i < |v.gtab| && i != v.starts[y].thread.idx && Life.Starting(v.starts, i)
      ensures Life.Starting(t.life.starts, i)
    {
      var z :| z in v.starts && v.starts[z].thread.idx == i;
      assert z in t.life.starts;
    }
  }

  lemma StepTracked(c: Config, s: State, e: Step)
    requires Inv(c, s) && Enabled(c, s, e) && Tracked(s)
    ensures Tracked(Next(c, s, e))
  {
    var t := Next(c, s, e);
    hide LifeInv, CallsInv, OrderInv, HistInv, QuoteInv, WaitInv, SeqInv, Tracked, SameStarts, Histories.Evolves;
    Histories.HistoryOf(c, s);
    if e.RecvCreate? { CreateTracked(c, s, e.k, e.p, e.xid, e.src, e.wrap); }
    else if e.RecvStarted? { StartedTracked(c, s, e.k); }
    else {
      if Histories.AppStep(e) { AppSameStarts(c, s, e); }
      else if e.TakeCall? || e.TakeRetclean? || Histories.DrainStep(e) { TakeSameStarts(c, s, e); }
      else if e.RecvStart? { StartSameStarts(c, s, e.k, e.l, e.err); }
      else if e.RecvTerminated? { TerminatedSameStarts(c, s, e.k); }
      else if e.RecvDetach? { DetachSameStarts(c, s, e.k); }
      else { AskSameStarts(c, s, e); }
      hide Next, Enabled;
      StepKeeps(c, s, e);
      Histories.StepEvolves(c, s, e);
      Histories.HistoryOf(c, t);
      StartsOf(c, t);
      TrackedSame(s, t, c);
    }
  }

  lemma StartsOf(c: Config, s: State)
    requires Inv(c, s)
    ensures Life.StartsOk(c, s.life.gtab, s.life.starts)
  {
  }

  lemma {:induction false} RunTracked(c: Config, ss: seq<State>, es: seq<Step>, i: nat)
    requires Protocol.Run(c, ss, es) && i <= |es|
    ensures Tracked(ss[i])
  {
    hide Inv, Init, Next, Enabled, Tracked;
    if i == 0 { InitTracked(c); }
    else { RunTracked(c, ss, es, i - 1); RunKeeps(c, ss, es, i - 1); StepTracked(c, ss[i - 1], es[i - 1]); }
  }

  lemma InitTracked(c: Config)
    requires c.Valid()
    ensures Tracked(Init(c))
  {
  }

  lemma ReachedTracked(c: Config, s: State)
    requires Reached(c, s)
    ensures Tracked(s)
  {
    hide Init, Next, Enabled, Tracked;
    var ss, es :| Protocol.Run(c, ss, es) && s == ss[|es|];
    RunTracked(c, ss, es, |es|);
  }

  // ------------------------------------------------------------ JOINWAITs

  /** Thread t is being started. */
  ghost predicate BeingStarted(starts: Life.Starts, t: nat) {
    exists y :: y in starts && starts[y].tid == t
  }

  /** A JOINWAIT was filed for one thread of the history.  That thread still has the
      slot the JOINWAIT names if and only if it has started or is being started;
      then it is neither detached nor terminated.  No two JOINWAITs name the same
      handle. */
  lemma JoinWaitsAreLive(c: Config, s: State, x: nat)
    requires Reached(c, s) && x in s.waits
    ensures var w := s.waits[x];
            && w.tid < |s.hist| && s.hist[w.tid].h == w.thread
            && (Joins.SlotOf(s.life.gtab, w.thread, w.tid) <==>
                s.hist[w.tid].started || BeingStarted(s.life.starts, w.tid))
            && (Accepts(s.life.gtab, w.thread) ==>
                  !s.life.gtab[w.thread.idx].detached && s.life.gtab[w.thread.idx].terminated == 0)
    ensures forall y :: y in s.waits && s.waits[y].thread == s.waits[x].thread ==> y == x
  {
    hide Reached;
    ReachedInv(c, s);
    ReachedTracked(c, s);
    var w := s.waits[x];
    hide LifeInv, CallsInv, OrderInv, QuoteInv, SeqInv, Joins.RetOk, Joins.HostOk, Joins.CtlOk;
    Histories.HistoryOf(c, s);
    if BeingStarted(s.life.starts, w.tid) { RecordedHasSlot(s, w.tid); }
    if Joins.SlotOf(s.life.gtab, w.thread, w.tid) && !s.hist[w.tid].started { UnstartedIsRecorded(s, w.thread.idx); }
  }

  lemma RecordedHasSlot(s: State, t: nat)
    requires Tracked(s) && Joins.HistOk(s.life.gtab, s.hist) && BeingStarted(s.life.starts, t)
    ensures t < |s.hist| && Joins.SlotOf(s.life.gtab, s.hist[t].h, t)
  {
    var y :| y in s.life.starts && s.life.starts[y].tid == t;
    assert Joins.SlotOf(s.life.gtab, s.life.starts[y].thread, t);
  }

  lemma UnstartedIsRecorded(s: State, i: nat)
    requires Tracked(s) && i < |s.life.gtab| && s.life.gtab[i].used
    requires s.life.gtab[i].tid < |s.hist| && !s.hist[s.life.gtab[i].tid].started
    ensures BeingStarted(s.life.starts, s.life.gtab[i].tid)
  {
    assert Life.Starting(s.life.starts, i);
    var y :| y in s.life.starts && s.life.starts[y].thread.idx == i;
    assert Joins.SlotOf(s.life.gtab, s.life.starts[y].thread, s.life.starts[y].tid);
  }

  /** What a caller can rely on: while a handle belongs to one thread only, a
      JOINWAIT for it names an allocated slot exactly if a create has returned the
      handle or that create is still under way. */
  lemma UniqueJoinWaitsAreLive(c: Config, s: State, x: nat)
    requires Reached(c, s) && x in s.waits && Joins.Unique(s.hist, s.waits[x].thread)
    ensures var h := s.waits[x].thread;
            Accepts(s.life.gtab, h) <==>
            Known(s.hist, h) || exists y :: y in s.life.starts && s.life.starts[y].thread == h
  {
    hide Reached, Tracked, Joins.SlotOf, BeingStarted, Joins.Unique;
    JoinWaitsAreLive(c, s, x);
    ReachedTracked(c, s);
    ReachedInv(c, s);
    Histories.HistoryOf(c, s);
    UniqueLive(s, s.waits[x].thread, s.waits[x].tid);
  }

  lemma UniqueLive(s: State, h: Handle, t: nat)
    requires Tracked(s) && Joins.HistOk(s.life.gtab, s.hist) && Joins.Unique(s.hist, h) && t < |s.hist|
             && s.hist[t].h == h
    requires Joins.SlotOf(s.life.gtab, h, t) <==> s.hist[t].started || BeingStarted(s.life.starts, t)
    ensures Accepts(s.life.gtab, h) <==>
            Known(s.hist, h) || exists y :: y in s.life.starts && s.life.starts[y].thread == h
  {
    hide BegunOk, Life.Starting;
    if y :| y in s.life.starts && s.life.starts[y].thread == h {
      assert Joins.SlotOf(s.life.gtab, h, s.life.starts[y].tid);
    }
    if BeingStarted(s.life.starts, t) { RecordIsOf(s, t); }
  }

  lemma RecordIsOf(s: State, t: nat)
    requires Tracked(s) && Joins.HistOk(s.life.gtab, s.hist) && BeingStarted(s.life.starts, t)
    ensures t < |s.hist| && exists y :: y in s.life.starts && s.life.starts[y].thread == s.hist[t].h
  {
    var y :| y in s.life.starts && s.life.starts[y].tid == t;
    assert Joins.SlotOf(s.life.gtab, s.life.starts[y].thread, t);
  }
}
