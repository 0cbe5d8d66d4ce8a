/** A complete run on one rank: the main thread creates a thread, the thread ends,
    and only then does the main thread detach it.  Its slot is never freed. */
module ZombieRun {
  import opened Types
  import opened Machine
  import opened Protocol
  import Histories

  /** One rank, three table slots, one dispatch function beside main. */
  function C(): Config { Config(1, 3, 2) }

  const MAIN: Loc := Loc(0, 0)
  const CHILD: Loc := Loc(0, 1)
  const H: Handle := Handle(1, 3)
  const MAIN_SLOT: Slot := Slot(true, 0, 1, 0, NoData, false, 0, true, 0, 0)
  const FREE_SLOT: Slot := Slot(false, 0, 0, 0, NoData, false, 0, false, 0, 0)
  const MAIN_THREAD: Thread := Thread(Handle(0, 1), 0, true, None, 0)

  /** A state in which only what the run touches varies. */
  function World(slot: Slot, lt: map<Loc, Local>, starts: map<nat, StartRec>, ctl: map<nat, Ctl>,
                 alloc: int, starting: int, running: int, app: map<Loc, App>, queue: seq<nat>,
                 pend: map<CallId, nat>, rpc: map<nat, Rpc>, clock: nat, src: nat, child: seq<Thread>): State
  {
    State(Life([MAIN_SLOT, slot, FREE_SLOT], lt, starts, ctl, alloc, starting, running), Calls(app, [queue], pend, rpc),
          map[], map[], {}, clock, 0, [src], [MAIN_THREAD] + child, false)
  }

  const HOSTS_MAIN: map<Loc, Local> := map[MAIN := Local(0, 1)]
  const HOSTS_BOTH: map<Loc, Local> := map[MAIN := Local(0, 1), CHILD := Local(1, 3)]
  const CREATE_ID: CallId := CallId(0, CREATE, 2)
  const DETACH_ID: CallId := CallId(0, DETACH, 5)
  const CREATED: Result := Result(0, H, NoData)

  function Running(q: Request): App { App(LT_RUNNING, q) }
  function ChildSlot(hasLtab: bool, terminated: nat, detached: bool): Slot {
    Slot(true, 0, 3, 1, NoData, detached, terminated, hasLtab, if hasLtab || terminated != 0 then 1 else 0, 1)
  }
  function Child(started: bool, fin: Option<Ret>): seq<Thread> { [Thread(H, 1, started, fin, 0)] }

  function S0(): State {
    World(FREE_SLOT, HOSTS_MAIN, map[], map[], 1, 0, 1, map[MAIN := Running(Idle)], [], map[], map[], 0, 2, [])
  }
  function S1(): State {   // dthread_create is queued
    World(FREE_SLOT, HOSTS_MAIN, map[], map[], 1, 0, 1, map[MAIN := Running(BusyCall(CallCreate(1), None))], [0],
          map[], map[], 0, 2, [])
  }
  function S2(): State {   // CREATE is sent
    World(FREE_SLOT, HOSTS_MAIN, map[], map[], 1, 0, 1, map[MAIN := Running(BusyCall(CallCreate(1), Some(2)))], [],
          map[CREATE_ID := 0], map[0 := Rpc(0, 0, Ask(2, CallCreate(1)))], 1, 3, [])
  }
  function S3(): State {   // START is sent
    World(ChildSlot(false, 0, false), HOSTS_MAIN, map[4 := StartRec(H, CREATE_ID, 1)],
          map[1 := Ctl(0, 0, Start(4, H))], 2, 1, 1,
          map[MAIN := Running(BusyCall(CallCreate(1), Some(2)))], [], map[CREATE_ID := 0], map[], 2, 5,
            Child(false, None))
  }
  function S4(): State {   // the pthread exists, STARTED is sent
    World(ChildSlot(false, 0, false), HOSTS_BOTH, map[4 := StartRec(H, CREATE_ID, 1)],
          map[2 := Ctl(0, 0, Started(4, 0))], 2, 1, 1,
          map[MAIN := Running(BusyCall(CallCreate(1), Some(2))), CHILD := App(LT_STARTING, Idle)], [],
            map[CREATE_ID := 0], map[], 3, 5, Child(true, None))
  }
  function S5(): State {   // CREATED is sent
    World(ChildSlot(false, 0, false), HOSTS_BOTH, map[], map[], 2, 0, 2,
          map[MAIN := Running(BusyCall(CallCreate(1), Some(2))), CHILD := App(LT_STARTING, Idle)], [],
            map[CREATE_ID := 0],
          map[3 := Rpc(0, 0, Answer(2, CREATE, CREATED))], 4, 5, Child(true, None))
  }
  function S6(): State {   // the caller is notified
    World(ChildSlot(false, 0, false), HOSTS_BOTH, map[], map[], 2, 0, 2,
          map[MAIN := Running(Done(CallCreate(1), CREATED)), CHILD := App(LT_STARTING, Idle)], [], map[], map[], 4, 5,
            Child(true, None))
  }
  function S7(): State {   // dthread_create returns
    World(ChildSlot(false, 0, false), HOSTS_BOTH, map[], map[], 2, 0, 2,
          map[MAIN := Running(Idle), CHILD := App(LT_STARTING, Idle)], [], map[], map[], 4, 5, Child(true, None))
  }
  function S8(): State {   // the thread runs
    World(ChildSlot(true, 0, false), HOSTS_BOTH, map[], map[], 2, 0, 2,
          map[MAIN := Running(Idle), CHILD := Running(Idle)], [], map[], map[], 4, 5, Child(true, None))
  }
  function S9(): State {   // the thread returned, RETCLEAN is queued
    World(ChildSlot(true, 0, false), HOSTS_BOTH, map[], map[], 2, 0, 2,
          map[MAIN := Running(Idle), CHILD := App(LT_RETURNED, BusyRetclean)], [1], map[], map[], 4, 5,
            Child(true, Some(NoData)))
  }
  function S10(): State {  // TERMINATED is sent
    World(ChildSlot(false, 0, false).(ltabIdx := 1), HOSTS_MAIN, map[],
          map[4 := Ctl(0, 0, Terminated(H, LT_RETURNED))], 2, 0, 2,
          map[MAIN := Running(Idle)], [], map[], map[], 5, 5, Child(true, Some(NoData)))
  }
  function S11(): State {  // the slot is a zombie
    World(ChildSlot(false, LT_RETURNED, false), HOSTS_MAIN, map[], map[], 2, 0, 1,
          map[MAIN := Running(Idle)], [], map[], map[], 5, 5, Child(true, Some(NoData)))
  }
  function S12(): State {  // dthread_detach is queued
    World(ChildSlot(false, LT_RETURNED, false), HOSTS_MAIN, map[], map[], 2, 0, 1,
          map[MAIN := Running(BusyCall(CallDetach(H), None))], [0], map[], map[], 5, 5, Child(true, Some(NoData)))
  }
  function S13(): State {  // DETACH is sent
    World(ChildSlot(false, LT_RETURNED, false), HOSTS_MAIN, map[], map[], 2, 0, 1,
          map[MAIN := Running(BusyCall(CallDetach(H), Some(5)))], [], map[DETACH_ID := 0],
          map[5 := Rpc(0, 0, Ask(5, CallDetach(H)))], 6, 6, Child(true, Some(NoData)))
  }

  lemma ReachedInit()
    ensures Reached(C(), S0())
  {
    assert Init(C()) == S0() by { Begins(); }
    assert Protocol.Run(C(), [S0()], []);
  }

  lemma Begins()
    ensures Init(C()) == S0()
  {
  }

  lemma ReachedNext(c: Config, s: State, e: Step)
    requires Reached(c, s) && Enabled(c, s, e)
    ensures Reached(c, Next(c, s, e))
  {
    hide Enabled, Next, Init;
    var ss, es :| Protocol.Run(c, ss, es) && s == ss[|es|];
    var t := Next(c, s, e);
    assert Protocol.Run(c, ss + [t], es + [e]);
  }

  lemma Issued()
    requires Reached(C(), S0())
    ensures Reached(C(), S1())
  {
    hide Reached;
    var t, u := Next(C(), S0(), AppIssue(MAIN, CallCreate(1))), S1();
    assert t.calls.app == u.calls.app;
    assert t.calls.queue[0] == u.calls.queue[0];
    assert t.calls.queue == u.calls.queue;
    assert t.calls == u.calls;
    ReachedNext(C(), S0(), AppIssue(MAIN, CallCreate(1)));
  }

  lemma CreateSent()
    requires Reached(C(), S1())
    ensures Reached(C(), S2())
  {
    hide Reached;
    var t, u := Next(C(), S1(), TakeCall(0, 2, 3, false)), S2();
    assert t.calls.app == u.calls.app;
    assert t.calls.queue[0] == u.calls.queue[0];
    assert t.calls.queue == u.calls.queue;
    assert t.calls.pend == u.calls.pend;
    assert t.calls.rpc == u.calls.rpc;
    assert t.calls == u.calls;
    assert t.src == u.src;
    ReachedNext(C(), S1(), TakeCall(0, 2, 3, false));
  }

  lemma StartSent()
    requires Reached(C(), S2())
    ensures Reached(C(), S3())
  {
    hide Reached;
    var t, u := Next(C(), S2(), RecvCreate(0, 1, 4, 5, false)), S3();
    assert t.life.gtab == u.life.gtab;
    assert t.life.starts == u.life.starts;
    assert t.life.ctl == u.life.ctl;
    assert t.life == u.life;
    assert t.calls.rpc == u.calls.rpc;
    assert t.calls == u.calls;
    assert t.src == u.src;
    assert t.hist == u.hist;
    ReachedNext(C(), S2(), RecvCreate(0, 1, 4, 5, false));
  }

  lemma StartedSent()
    requires Reached(C(), S3())
    ensures Reached(C(), S4())
  {
    hide Reached;
    var t, u := Next(C(), S3(), RecvStart(1, 1, 0)), S4();
    assert t.life.lt == u.life.lt;
    assert t.life.ctl == u.life.ctl;
    assert t.life == u.life;
    assert t.calls.app == u.calls.app;
    assert t.calls == u.calls;
    assert t.hist == u.hist;
    ReachedNext(C(), S3(), RecvStart(1, 1, 0));
  }

  lemma CreatedSent()
    requires Reached(C(), S4())
    ensures Reached(C(), S5())
  {
    hide Reached;
    var t, u := Next(C(), S4(), RecvStarted(2)), S5();
    assert t.life.starts == u.life.starts;
    assert t.life.ctl == u.life.ctl;
    assert t.life == u.life;
    assert t.calls.rpc == u.calls.rpc;
    assert t.calls == u.calls;
    ReachedNext(C(), S4(), RecvStarted(2));
  }

  lemma Notified()
    requires Reached(C(), S5())
    ensures Reached(C(), S6())
  {
    hide Reached;
    var t, u := Next(C(), S5(), RecvReply(3)), S6();
    assert t.calls.app == u.calls.app;
    assert t.calls.pend == u.calls.pend;
    assert t.calls.rpc == u.calls.rpc;
    assert t.calls == u.calls;
    ReachedNext(C(), S5(), RecvReply(3));
  }

  lemma Returned()
    requires Reached(C(), S6())
    ensures Reached(C(), S7())
  {
    hide Reached;
    var t, u := Next(C(), S6(), AppWake(MAIN)), S7();
    assert t.calls.app == u.calls.app;
    assert t.calls == u.calls;
    ReachedNext(C(), S6(), AppWake(MAIN));
  }

  lemma ChildRuns()
    requires Reached(C(), S7())
    ensures Reached(C(), S8())
  {
    hide Reached;
    var t, u := Next(C(), S7(), AppRun(CHILD)), S8();
    assert t.life.gtab == u.life.gtab;
    assert t.life == u.life;
    assert t.calls.app == u.calls.app;
    assert t.calls == u.calls;
    ReachedNext(C(), S7(), AppRun(CHILD));
  }

  lemma ChildEnds()
    requires Reached(C(), S8())
    ensures Reached(C(), S9())
  {
    hide Reached;
    var t, u := Next(C(), S8(), AppRetclean(CHILD, LT_RETURNED, NoData)), S9();
    assert t.life.gtab == u.life.gtab;
    assert t.life == u.life;
    assert t.calls.app == u.calls.app;
    assert t.calls.queue[0] == u.calls.queue[0];
    assert t.calls.queue == u.calls.queue;
    assert t.calls == u.calls;
    assert t.hist == u.hist;
    ReachedNext(C(), S8(), AppRetclean(CHILD, LT_RETURNED, NoData));
  }

  lemma TerminatedSent()
    requires Reached(C(), S9())
    ensures Reached(C(), S10())
  {
    hide Reached;
    var t, u := Next(C(), S9(), TakeRetclean(0)), S10();
    assert t.life.gtab == u.life.gtab;
    assert t.life.lt == u.life.lt;
    assert t.life.ctl == u.life.ctl;
    assert t.life == u.life;
    assert t.calls.app == u.calls.app;
    assert t.calls.queue[0] == u.calls.queue[0];
    assert t.calls.queue == u.calls.queue;
    assert t.calls == u.calls;
    ReachedNext(C(), S9(), TakeRetclean(0));
  }

  lemma BecomesZombie()
    requires Reached(C(), S10())
    ensures Reached(C(), S11())
  {
    hide Reached;
    var t, u := Next(C(), S10(), RecvTerminated(4)), S11();
    assert t.life.gtab == u.life.gtab;
    assert t.life.ctl == u.life.ctl;
    assert t.life == u.life;
    ReachedNext(C(), S10(), RecvTerminated(4));
  }

  lemma DetachIssued()
    requires Reached(C(), S11())
    ensures Reached(C(), S12())
  {
    hide Reached;
    assert S11().hist[1].h == H && S11().hist[1].started;
    var t, u := Next(C(), S11(), AppIssue(MAIN, CallDetach(H))), S12();
    assert t.calls.app == u.calls.app;
    assert t.calls.queue[0] == u.calls.queue[0];
    assert t.calls.queue == u.calls.queue;
    assert t.calls == u.calls;
    ReachedNext(C(), S11(), AppIssue(MAIN, CallDetach(H)));
  }

  lemma DetachSent()
    requires Reached(C(), S12())
    ensures Reached(C(), S13())
  {
    hide Reached;
    var t, u := Next(C(), S12(), TakeCall(0, 5, 6, false)), S13();
    assert t.calls.app == u.calls.app;
    assert t.calls.queue[0] == u.calls.queue[0];
    assert t.calls.queue == u.calls.queue;
    assert t.calls.pend == u.calls.pend;
    assert t.calls.rpc == u.calls.rpc;
    assert t.calls == u.calls;
    assert t.src == u.src;
    ReachedNext(C(), S12(), TakeCall(0, 5, 6, false));
  }

  lemma FirstThreadRuns()
    ensures Reached(C(), S8())
  {
    hide Reached;
    ReachedInit();
    Issued();
    CreateSent();
    StartSent();
    StartedSent();
    CreatedSent();
    Notified();
    Returned();
    ChildRuns();
  }

  /** The last state before the DETACH is taken is reached. */
  lemma RunReaches()
    ensures Reached(C(), S13())
  {
    hide Reached;
    FirstThreadRuns();
    ChildEnds();
    TerminatedSent();
    BecomesZombie();
    DetachIssued();
    DetachSent();
  }

  /** The slot of a thread that ended before it was detached is not freed: the
      run above reaches a state in which the DETACH succeeds and leaks it. */
  lemma DetachedZombieKeepsItsSlot()
    ensures Reached(C(), S13()) && CanRecvAsk(C(), S13(), 5, DETACH)
    ensures var t := RecvDetachStep(C(), S13(), 5);
            Reached(C(), t) && Histories.Leaked(t.life.gtab[1]) && t.life.nAlloc == 2
  {
    RunReaches();
    hide Reached;
    ReachedNext(C(), S13(), RecvDetach(5));
  }
}
