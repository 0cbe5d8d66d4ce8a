/** A complete run in which a JOINWAIT outlives its thread.  A thread joins a handle
    that no create has returned yet; the START of that handle's thread then fails,
    and rank 0 frees the slot without looking for a JOINWAIT. */
module ForgedRun {
  import opened Types
  import opened Machine
  import opened Protocol
  import opened ZombieRun

  const H2: Handle := Handle(2, 6)
  const CREATE2: CallId := CallId(0, CREATE, 5)
  const JOIN_ID: CallId := CallId(0, JOIN, 8)
  const STARTING_SLOT: Slot := Slot(true, 0, 6, 1, NoData, false, 0, false, 0, 2)
  const SECOND: Thread := Thread(H2, 1, false, None, 0)

  /** States after S8: main and one child run. */
  function Later(slot: Slot, starts: map<nat, StartRec>, ctl: map<nat, Ctl>, starting: nat, main: Request,
                 child: Request, queue: seq<nat>,
                 pend: map<CallId, nat>, rpc: map<nat, Rpc>, waits: map<nat, WaitRec>, clock: nat, src: nat,
                   more: seq<Thread>): State
  {
    State(Life([MAIN_SLOT, ChildSlot(true, 0, false), slot], HOSTS_BOTH, starts, ctl, 2 + starting, starting, 2),
          Calls(map[MAIN := Running(main), CHILD := Running(child)], [queue], pend, rpc),
          waits, map[], {}, clock, 0, [src], [MAIN_THREAD] + Child(true, None) + more, false)
  }

  const CREATING: Request := BusyCall(CallCreate(1), Some(5))
  const JOINING: Request := BusyCall(CallJoin(H2), Some(8))
  const STARTS: map<nat, StartRec> := map[7 := StartRec(H2, CREATE2, 2)]
  const WAITS: map<nat, WaitRec> := map[8 := WaitRec(H2, JOIN_ID, 2)]
  const BOTH: map<CallId, nat> := map[CREATE2 := 0, JOIN_ID := 1]

  function F0(): State {
    Later(FREE_SLOT, map[], map[], 0, Idle, Idle, [], map[], map[], map[], 4, 5, [])
  }
  function F1(): State {   // main queues another dthread_create
    Later(FREE_SLOT, map[], map[], 0, BusyCall(CallCreate(1), None), Idle, [0], map[], map[], map[], 4, 5, [])
  }
  function F2(): State {   // CREATE is sent
    Later(FREE_SLOT, map[], map[], 0,
          CREATING, Idle, [], map[CREATE2 := 0], map[4 := Rpc(0, 0, Ask(5, CallCreate(1)))], map[], 5, 6, [])
  }
  function F3(): State {   // START is sent
    Later(STARTING_SLOT, STARTS, map[5 := Ctl(0, 0, Start(7, H2))], 1,
          CREATING, Idle, [], map[CREATE2 := 0], map[], map[], 6, 8, [SECOND])
  }
  function F4(): State {   // the child queues a join of a handle it was never given
    Later(STARTING_SLOT, STARTS, map[5 := Ctl(0, 0, Start(7, H2))], 1,
          CREATING, BusyCall(CallJoin(H2), None), [1], map[CREATE2 := 0], map[], map[], 6, 8, [SECOND])
  }
  function F5(): State {   // JOIN is sent
    Later(STARTING_SLOT, STARTS, map[5 := Ctl(0, 0, Start(7, H2))], 1,
          CREATING, JOINING, [], BOTH, map[6 := Rpc(0, 0, Ask(8, CallJoin(H2)))], map[], 7, 9, [SECOND])
  }
  function F6(): State {   // pthread_create fails, STARTED is sent
    Later(STARTING_SLOT, STARTS, map[7 := Ctl(0, 0, Started(7, EAGAIN))], 1,
          CREATING, JOINING, [], BOTH, map[6 := Rpc(0, 0, Ask(8, CallJoin(H2)))], map[], 8, 9, [SECOND])
  }
  function F7(): State {   // the JOIN becomes a JOINWAIT
    Later(STARTING_SLOT, STARTS, map[7 := Ctl(0, 0, Started(7, EAGAIN))], 1,
          CREATING, JOINING, [], BOTH, map[], WAITS, 8, 9, [SECOND])
  }

  lemma Begun()
    requires Reached(C(), S8())
    ensures Reached(C(), F0())
  {
    hide Reached;
    assert F0().hist == S8().hist;
    assert F0() == S8();
  }

  lemma CreateIssued()
    requires Reached(C(), F0())
    ensures Reached(C(), F1())
  {
    hide Reached;
    var t, u := Next(C(), F0(), AppIssue(MAIN, CallCreate(1))), F1();
    assert t.calls.app == u.calls.app;
    assert t.calls.queue[0] == u.calls.queue[0];
    assert t.calls.queue == u.calls.queue;
    assert t.calls == u.calls;
    ReachedNext(C(), F0(), AppIssue(MAIN, CallCreate(1)));
  }

  lemma CreateSentAgain()
    requires Reached(C(), F1())
    ensures Reached(C(), F2())
  {
    hide Reached;
    var t, u := Next(C(), F1(), TakeCall(0, 5, 6, false)), F2();
    assert t.calls.app == u.calls.app;
    assert t.calls.queue[0] == u.calls.queue[0];
    assert t.calls.queue == u.calls.queue;
    assert t.calls.pend == u.calls.pend;
    assert t.calls.rpc == u.calls.rpc;
    assert t.calls == u.calls;
    assert t.src == u.src;
    ReachedNext(C(), F1(), TakeCall(0, 5, 6, false));
  }

  lemma StartSentAgain()
    requires Reached(C(), F2())
    ensures Reached(C(), F3())
  {
    hide Reached;
    var t, u := Next(C(), F2(), RecvCreate(4, 2, 7, 8, false)), F3();
    assert t.life.gtab == u.life.gtab;
    assert t.life.starts == u.life.starts;
    assert t.life.ctl == u.life.ctl;
    assert t.life == u.life;
    assert t.calls.rpc == u.calls.rpc;
    assert t.calls == u.calls;
    assert t.src == u.src;
    assert t.hist == u.hist;
    ReachedNext(C(), F2(), RecvCreate(4, 2, 7, 8, false));
  }

  lemma JoinForged()
    requires Reached(C(), F3())
    ensures Reached(C(), F4())
  {
    hide Reached;
    var t, u := Next(C(), F3(), AppIssue(CHILD, CallJoin(H2))), F4();
    assert t.calls.app == u.calls.app;
    assert t.calls.queue[0] == u.calls.queue[0];
    assert t.calls.queue == u.calls.queue;
    assert t.calls == u.calls;
    ReachedNext(C(), F3(), AppIssue(CHILD, CallJoin(H2)));
  }

  lemma JoinSent()
    requires Reached(C(), F4())
    ensures Reached(C(), F5())
  {
    hide Reached;
    var t, u := Next(C(), F4(), TakeCall(0, 8, 9, false)), F5();
    assert t.calls.app == u.calls.app;
    assert t.calls.queue[0] == u.calls.queue[0];
    assert t.calls.queue == u.calls.queue;
    assert t.calls.pend == u.calls.pend;
    assert t.calls.rpc == u.calls.rpc;
    assert t.calls == u.calls;
    assert t.src == u.src;
    ReachedNext(C(), F4(), TakeCall(0, 8, 9, false));
  }

  lemma StartFails()
    requires Reached(C(), F5())
    ensures Reached(C(), F6())
  {
    hide Reached;
    var t, u := Next(C(), F5(), RecvStart(5, 2, EAGAIN)), F6();
    assert t.life.ctl == u.life.ctl;
    assert t.life == u.life;
    ReachedNext(C(), F5(), RecvStart(5, 2, EAGAIN));
  }

  lemma JoinWaits()
    requires Reached(C(), F6())
    ensures Reached(C(), F7())
  {
    hide Reached;
    var t, u := Next(C(), F6(), RecvJoin(6)), F7();
    assert t.waits == u.waits;
    assert t.calls.rpc == u.calls.rpc;
    assert t.calls == u.calls;
    ReachedNext(C(), F6(), RecvJoin(6));
  }

  lemma ForgedRunReaches()
    ensures Reached(C(), F7())
  {
    hide Reached;
    FirstThreadRuns();
    Begun();
    CreateIssued();
    CreateSentAgain();
    StartSentAgain();
    JoinForged();
    JoinSent();
    StartFails();
    JoinWaits();
  }

  /** Without the assumption about handles a JOINWAIT need not name a live thread:
      a reachable state has one whose slot is free, with nothing wrapped. */
  lemma JoinWaitOutlivesItsThread()
    ensures CanRecvStarted(C(), F7(), 7)
    ensures var t := RecvStartedStep(C(), F7(), 7);
            Reached(C(), t) && !t.wrapped && 8 in t.waits && !Accepts(t.life.gtab, t.waits[8].thread)
  {
    ForgedRunReaches();
    hide Reached;
    ReachedNext(C(), F7(), RecvStarted(7));
  }
}
