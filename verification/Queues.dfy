/** The queues between a rank's threads.  Every operation is one critical section
    under the queue lock, so what all of them keep holds in every interleaving. */
module Queues {
  import opened Types
  import opened Tailq

  /** Draindown of the send queue. */
  datatype Drain = NotDraining | Draining | Drained

  /** The manager: running, blocked in its wait (timed or not), or woken up and
      about to take the lock again. */
  datatype Waiter = Awake | Blocked(timed: bool) | Signalled

  /** Who has a message entry in hand to fill or to process. */
  datatype Holder = AppThread | Manager | MpiThread

  // ------------------------------------------------------------ where entries are

  /** The places of message entries: the free list, the send and receive queues,
      the MPI thread's Testsome slots, the send it has dequeued and not yet put in
      a slot, the hands of threads, and the requests that carry one. */
  datatype Places = Places(free: seq<nat>, sendq: seq<nat>, recvq: seq<nat>, slots: set<nat>, sending: Option<nat>,
                           hands: map<nat, Holder>, carried: map<nat, nat>)

  function One(b: bool): nat { if b then 1 else 0 }

  /** How many places entry x is in. */
  ghost function Times(p: Places, x: nat): nat {
    multiset(p.free)[x] + multiset(p.sendq)[x] + multiset(p.recvq)[x]
    + One(x in p.slots) + One(p.sending == Some(x)) + One(x in p.hands) + One(x in p.carried)
  }

  /** Each message entry below n is in exactly one place, and there are no others. */
  ghost predicate InOnePlace(p: Places, n: nat) {
    forall x: nat :: Times(p, x) == One(x < n)
  }

  lemma Pop(l: seq<nat>, x: nat)
    requires l != []
    ensures multiset(l)[x] == multiset(l[1..])[x] + One(x == l[0])
  {
    assert l == [l[0]] + l[1..];
  }

  lemma Push(l: seq<nat>, m: nat, x: nat)
    ensures multiset([m] + l)[x] == multiset(l)[x] + One(x == m)
    ensures multiset(l + [m])[x] == multiset(l)[x] + One(x == m)
  {
  }

  /** If every entry is in one place in p, so it is in q. */
  ghost predicate Moves(p: Places, q: Places, n: nat) {
    InOnePlace(p, n) ==> InOnePlace(q, n)
  }

  lemma FreeToHands(p: Places, w: Holder, n: nat)
    requires p.free != []
    ensures Moves(p, p.(free := p.free[1..], hands := p.hands[p.free[0] := w]), n)
  {
    if InOnePlace(p, n) {
      var q := p.(free := p.free[1..], hands := p.hands[p.free[0] := w]);
      Pop(p.free, p.free[0]);
      assert Times(p, p.free[0]) == 1;
      forall x: nat ensures Times(q, x) == Times(p, x) { Pop(p.free, x); }
      assert forall x: nat :: Times(q, x) == Times(p, x);
    }
  }

  lemma HandsToFree(p: Places, m: nat, n: nat)
    requires m in p.hands
    ensures Moves(p, p.(free := [m] + p.free, hands := p.hands - {m}), n)
  {
    var q := p.(free := [m] + p.free, hands := p.hands - {m});
    forall x: nat ensures Times(q, x) == Times(p, x) { Push(p.free, m, x); }
    assert forall x: nat :: Times(q, x) == Times(p, x);
  }

  lemma HandsToSend(p: Places, m: nat, n: nat)
    requires m in p.hands
    ensures Moves(p, p.(sendq := p.sendq + [m], hands := p.hands - {m}), n)
  {
    var q := p.(sendq := p.sendq + [m], hands := p.hands - {m});
    forall x: nat ensures Times(q, x) == Times(p, x) { Push(p.sendq, m, x); }
    assert forall x: nat :: Times(q, x) == Times(p, x);
  }

  lemma HandsToRecv(p: Places, m: nat, n: nat)
    requires m in p.hands
    ensures Moves(p, p.(recvq := p.recvq + [m], hands := p.hands - {m}), n)
  {
    var q := p.(recvq := p.recvq + [m], hands := p.hands - {m});
    forall x: nat ensures Times(q, x) == Times(p, x) { Push(p.recvq, m, x); }
    assert forall x: nat :: Times(q, x) == Times(p, x);
  }

  lemma SendToSending(p: Places, n: nat)
    requires p.sendq != [] && p.sending == None
    ensures Moves(p, p.(sendq := p.sendq[1..], sending := Some(p.sendq[0])), n)
  {
    var q := p.(sendq := p.sendq[1..], sending := Some(p.sendq[0]));
    forall x: nat ensures Times(q, x) == Times(p, x) { Pop(p.sendq, x); }
    assert forall x: nat :: Times(q, x) == Times(p, x);
  }

  lemma SendingToSlot(p: Places, n: nat)
    requires p.sending.Some?
    ensures Moves(p, p.(slots := p.slots + {p.sending.value}, sending := None), n)
    ensures InOnePlace(p, n) ==> p.sending.value !in p.slots
  {
    var q := p.(slots := p.slots + {p.sending.value}, sending := None);
    if InOnePlace(p, n) {
      assert Times(p, p.sending.value) <= 1;
      forall x: nat ensures Times(q, x) == Times(p, x) { }
      assert forall x: nat :: Times(q, x) == Times(p, x);
    }
  }

  lemma SendingToFree(p: Places, n: nat)
    requires p.sending.Some?
    ensures Moves(p, p.(free := [p.sending.value] + p.free, sending := None), n)
  {
    var q := p.(free := [p.sending.value] + p.free, sending := None);
    forall x: nat ensures Times(q, x) == Times(p, x) { Push(p.free, p.sending.value, x); }
    assert forall x: nat :: Times(q, x) == Times(p, x);
  }

  lemma SlotToFree(p: Places, m: nat, n: nat)
    requires m in p.slots
    ensures Moves(p, p.(free := [m] + p.free, slots := p.slots - {m}), n)
  {
    var q := p.(free := [m] + p.free, slots := p.slots - {m});
    forall x: nat ensures Times(q, x) == Times(p, x) { Push(p.free, m, x); }
    assert forall x: nat :: Times(q, x) == Times(p, x);
  }

  lemma RecvToHands(p: Places, n: nat)
    requires p.recvq != []
    ensures Moves(p, p.(recvq := p.recvq[1..], hands := p.hands[p.recvq[0] := Manager]), n)
  {
    if InOnePlace(p, n) {
      var q := p.(recvq := p.recvq[1..], hands := p.hands[p.recvq[0] := Manager]);
      Pop(p.recvq, p.recvq[0]);
      assert Times(p, p.recvq[0]) == 1;
      forall x: nat ensures Times(q, x) == Times(p, x) { Pop(p.recvq, x); }
      assert forall x: nat :: Times(q, x) == Times(p, x);
    }
  }

  lemma HandsToRequest(p: Places, m: nat, r: nat, n: nat)
    requires m in p.hands
    ensures Moves(p, p.(hands := p.hands - {m}, carried := p.carried[m := r]), n)
  {
    if InOnePlace(p, n) {
      var q := p.(hands := p.hands - {m}, carried := p.carried[m := r]);
      assert Times(p, m) <= 1;
      forall x: nat ensures Times(q, x) == Times(p, x) { }
      assert forall x: nat :: Times(q, x) == Times(p, x);
    }
  }

  lemma RequestToHands(p: Places, m: nat, n: nat)
    requires m in p.carried
    ensures Moves(p, p.(hands := p.hands[m := Manager], carried := p.carried - {m}), n)
  {
    if InOnePlace(p, n) {
      var q := p.(hands := p.hands[m := Manager], carried := p.carried - {m});
      assert Times(p, m) <= 1;
      forall x: nat ensures Times(q, x) == Times(p, x) { }
      assert forall x: nat :: Times(q, x) == Times(p, x);
    }
  }

  lemma OneMore(p: Places, w: Holder, n: nat)
    requires InOnePlace(p, n)
    ensures InOnePlace(p.(hands := p.hands[n := w]), n + 1)
  {
    var q := p.(hands := p.hands[n := w]);
    assert Times(p, n) == 0;
    forall x: nat ensures Times(q, x) == One(x < n + 1) { assert Times(p, x) == One(x < n); }
  }

  // ------------------------------------------------------------ state

  /** The queues, free list and counters.  A request waits on reqq or has been taken
      by the manager. */
  datatype State = State(at: Places, reqq: seq<nat>, nmqe: nat, sqlen: nat, rqlen: nat, reqlen: nat, dequeued: nat,
                         drain: Drain, limit: nat, waiter: Waiter)

  ghost predicate CountersOk(q: State) {
    && q.sqlen == |q.at.sendq| && q.rqlen == |q.at.recvq| && q.reqlen == |q.reqq|
    && q.dequeued == |q.at.slots| + One(q.at.sending.Some?)
  }

  /** DRAINED means that no send is queued, in the MPI thread's hand or in a slot. */
  predicate Idle(p: Places) { p.sendq == [] && p.slots == {} && p.sending == None }

  ghost predicate DrainRight(d: Drain, p: Places) {
    d != NotDraining ==> (d == Drained <==> Idle(p))
  }

  /** A blocked manager that nobody has signalled has nothing to do; and while
      draining it never blocks without a time limit. */
  ghost predicate NoLostWakeup(q: State) {
    && (q.waiter.Blocked? ==> q.at.recvq == [] && q.reqq == [])
    && (q.drain != NotDraining ==> q.limit > 0 && (q.waiter.Blocked? ==> q.waiter.timed))
  }

  /** A request is queued once and carries at most one entry. */
  ghost predicate RequestsOk(reqq: seq<nat>, carried: map<nat, nat>) {
    Distinct(reqq) && forall x, y :: x in carried && y in carried && carried[x] == carried[y] ==> x == y
  }

  ghost predicate Valid(q: State) {
    && InOnePlace(q.at, q.nmqe) && RequestsOk(q.reqq, q.at.carried)
    && CountersOk(q) && DrainRight(q.drain, q.at) && NoLostWakeup(q)
  }

  function Woken(w: Waiter): Waiter { if w.Blocked? then Signalled else w }

  function WasEmpty(q: State): bool { q.at.recvq == [] && q.reqq == [] }

  // ------------------------------------------------------------ operations

  /** dtq_init. */
  function Init(): State {
    State(Places([], [], [], {}, None, map[], map[]), [], 0, 0, 0, 0, 0, NotDraining, 0, Awake)
  }

  /** dtq_mqe_alloc from the free list. */
  function Allocated(q: State, w: Holder): State
    requires q.at.free != []
  {
    q.(at := q.at.(free := q.at.free[1..], hands := q.at.hands[q.at.free[0] := w]))
  }

  /** dtq_mqe_alloc by malloc. */
  function Malloced(q: State, w: Holder): State {
    q.(nmqe := q.nmqe + 1, at := q.at.(hands := q.at.hands[q.nmqe := w]))
  }

  /** dtq_mqe_unalloc, dtq_recv_release. */
  function GivenBack(q: State, m: nat): State {
    q.(at := q.at.(free := [m] + q.at.free, hands := q.at.hands - {m}))
  }

  /** dtq_recv_enqueue: signals only if both input queues were empty. */
  function Received(q: State, m: nat): State {
    q.(at := q.at.(recvq := q.at.recvq + [m], hands := q.at.hands - {m}), rqlen := q.rqlen + 1,
       waiter := if WasEmpty(q) then Woken(q.waiter) else q.waiter)
  }

  /** dtq_send_enqueue: refused while draining, looped back if sent to oneself. */
  function Sent(q: State, m: nat, toSelf: bool): State {
    if q.drain != NotDraining then q
    else if toSelf then Received(q, m)
    else q.(at := q.at.(sendq := q.at.sendq + [m], hands := q.at.hands - {m}), sqlen := q.sqlen + 1)
  }

  /** dtq_send_dequeue. */
  function Dequeued(q: State): State
    requires q.at.sendq != [] && q.sqlen > 0
  {
    q.(at := q.at.(sendq := q.at.sendq[1..], sending := Some(q.at.sendq[0])), sqlen := q.sqlen - 1,
       dequeued := q.dequeued + 1)
  }

  /** mpimts_add: the send has a slot now. */
  function Slotted(q: State): State
    requires q.at.sending.Some?
  {
    q.(at := q.at.(slots := q.at.slots + {q.at.sending.value}, sending := None))
  }

  /** Where the MPI thread had the send it is done with. */
  function Done(p: Places, m: nat): Places {
    if p.sending == Some(m) then p.(free := [m] + p.free, sending := None)
    else p.(free := [m] + p.free, slots := p.slots - {m})
  }

  /** dtq_send_release: the last send of a draindown wakes the manager. */
  function Released(q: State, m: nat): State
    requires q.dequeued > 0
  {
    var done := q.drain != NotDraining && q.sqlen == 0 && q.dequeued == 1;
    q.(at := Done(q.at, m), dequeued := q.dequeued - 1,
       drain := if done then Drained else q.drain, waiter := if done then Woken(q.waiter) else q.waiter)
  }

  /** dtq_req_enqueue; the request may carry an entry its thread has prepared. */
  function Requested(q: State, r: nat, m: Option<nat>): State {
    q.(at := if m.None? then q.at else q.at.(hands := q.at.hands - {m.value}, carried := q.at.carried[m.value := r]),
       reqq := q.reqq + [r], reqlen := q.reqlen + 1, waiter := if WasEmpty(q) then Woken(q.waiter) else q.waiter)
  }

  /** process_req takes the entry out of a request. */
  function Unloaded(q: State, m: nat): State {
    q.(at := q.at.(hands := q.at.hands[m := Manager], carried := q.at.carried - {m}))
  }

  /** dtq_notifywait up to the wait. */
  function Waiting(q: State): State {
    if WasEmpty(q) then q.(waiter := Blocked(q.limit > 0)) else q
  }

  /** dtq_notifywait from where it has the lock again. */
  function Taken(q: State): State
    requires (q.at.recvq != [] ==> q.rqlen > 0) && (q.reqq != [] ==> q.reqlen > 0)
  {
    var p := if q.at.recvq == [] then q
             else q.(at := q.at.(recvq := q.at.recvq[1..], hands := q.at.hands[q.at.recvq[0] := Manager]),
                     rqlen := q.rqlen - 1);
    (if p.reqq == [] then p else p.(reqq := p.reqq[1..], reqlen := p.reqlen - 1)).(waiter := Awake)
  }

  /** The end of broadcast_shutdown: dtq_send_draindown, then a limit on waits. */
  function DrainStarted(q: State): State {
    q.(drain := if q.sqlen + q.dequeued != 0 then Draining else Drained, limit := 10)
  }

  // ------------------------------------------------------------ every interleaving

  /** One critical section of some thread, or a hand-over in between. */
  datatype Op = Alloc(w: Holder) | Malloc(w: Holder) | GiveBack(m: nat) | Send(m: nat, toSelf: bool)
              | Dequeue | AddSlot | Release(m: nat) | Receive(m: nat) | Request(r: nat, load: Option<nat>)
              | Unload(m: nat) | Wait | Take | StartDrain

  /** Threads hand over only entries they have.  Only the manager sends, unloads
      requests it has taken, waits, takes and starts the draindown, the last three
      while it is running.  The MPI thread has one send in hand at a time. */
  predicate Enabled(q: State, op: Op) {
    match op
    case Alloc(_) => q.at.free != []
    case Malloc(_) => q.at.free == []
    case GiveBack(m) => m in q.at.hands
    case Send(m, _) => m in q.at.hands && q.at.hands[m] == Manager
    case Dequeue => q.at.sendq != [] && q.sqlen > 0 && q.at.sending == None
    case AddSlot => q.at.sending.Some?
    case Release(m) => (q.at.sending == Some(m) || m in q.at.slots) && q.dequeued > 0
    case Receive(m) => m in q.at.hands && q.at.hands[m] == MpiThread
    case Request(r, load) =>
      && r !in q.reqq
      && (load.Some? ==>
            && load.value in q.at.hands && q.at.hands[load.value] == AppThread
            && forall x :: x in q.at.carried ==> q.at.carried[x] != r)
    case Unload(m) => m in q.at.carried && q.at.carried[m] !in q.reqq
    case Wait => q.waiter == Awake
    case Take => (q.at.recvq != [] ==> q.rqlen > 0) && (q.reqq != [] ==> q.reqlen > 0)
    case StartDrain => q.waiter == Awake
  }

  function Next(q: State, op: Op): State
    requires Enabled(q, op)
  {
    match op
    case Alloc(w) => Allocated(q, w)
    case Malloc(w) => Malloced(q, w)
    case GiveBack(m) => GivenBack(q, m)
    case Send(m, toSelf) => Sent(q, m, toSelf)
    case Dequeue => Dequeued(q)
    case AddSlot => Slotted(q)
    case Release(m) => Released(q, m)
    case Receive(m) => Received(q, m)
    case Request(r, load) => Requested(q, r, load)
    case Unload(m) => Unloaded(q, m)
    case Wait => Waiting(q)
    case Take => Taken(q)
    case StartDrain => DrainStarted(q)
  }

  ghost predicate Run(qs: seq<State>, ops: seq<Op>) {
    && |qs| == |ops| + 1 && qs[0] == Init()
    && forall i :: 0 <= i < |ops| ==> Enabled(qs[i], ops[i]) && qs[i + 1] == Next(qs[i], ops[i])
  }

  // ------------------------------------------------------------ order

  /** The entries that went on the send queue up to state i, oldest first. */
  ghost function SentLog(qs: seq<State>, ops: seq<Op>, i: nat): seq<nat>
    requires i <= |ops| < |qs|
  {
    if i == 0 then []
    else SentLog(qs, ops, i - 1) + match ops[i - 1]
                                   case Send(m, false) => if qs[i - 1].drain == NotDraining then [m] else []
                                   case _ => []
  }

  /** The entries that came in up to state i: received, or sent to this rank itself. */
  ghost function ArrivedLog(qs: seq<State>, ops: seq<Op>, i: nat): seq<nat>
    requires i <= |ops| < |qs|
  {
    if i == 0 then []
    else ArrivedLog(qs, ops, i - 1) + match ops[i - 1]
                                      case Receive(m) => [m]
                                      case Send(m, true) => if qs[i - 1].drain == NotDraining then [m] else []
                                      case _ => []
  }

  ghost function RequestLog(ops: seq<Op>, i: nat): seq<nat>
    requires i <= |ops|
  {
    if i == 0 then [] else RequestLog(ops, i - 1) + if ops[i - 1].Request? then [ops[i - 1].r] else []
  }

  /** How often something was taken from the send queue, from the received entries and
      from the requests. */
  ghost function Taken3(qs: seq<State>, ops: seq<Op>, i: nat): (nat, nat, nat)
    requires i <= |ops| < |qs|
  {
    if i == 0 then (0, 0, 0)
    else
      var (a, b, c) := Taken3(qs, ops, i - 1);
      if ops[i - 1].Dequeue? then (a + 1, b, c)
      else if ops[i - 1].Take? then (a, b + One(qs[i - 1].at.recvq != []), c + One(qs[i - 1].reqq != []))
      else (a, b, c)
  }

  /** Every queue holds what was put on it and not yet taken, in the order in which it
      was put there: what is taken is always the oldest, and nothing is lost. */
  ghost predicate InOrder(qs: seq<State>, ops: seq<Op>, i: nat)
    requires i <= |ops| < |qs|
  {
    SendsInOrder(qs, ops, i) && ArrivalsInOrder(qs, ops, i) && RequestsInOrder(qs, ops, i)
  }

  ghost predicate SendsInOrder(qs: seq<State>, ops: seq<Op>, i: nat)
    requires i <= |ops| < |qs|
  {
    var a := Taken3(qs, ops, i).0;
    a <= |SentLog(qs, ops, i)| && qs[i].at.sendq == SentLog(qs, ops, i)[a..]
  }

  ghost predicate ArrivalsInOrder(qs: seq<State>, ops: seq<Op>, i: nat)
    requires i <= |ops| < |qs|
  {
    var b := Taken3(qs, ops, i).1;
    b <= |ArrivedLog(qs, ops, i)| && qs[i].at.recvq == ArrivedLog(qs, ops, i)[b..]
  }

  ghost predicate RequestsInOrder(qs: seq<State>, ops: seq<Op>, i: nat)
    requires i <= |ops| < |qs|
  {
    var c := Taken3(qs, ops, i).2;
    c <= |RequestLog(ops, i)| && qs[i].reqq == RequestLog(ops, i)[c..]
  }

  lemma Dropped(log: seq<nat>, a: nat, l: seq<nat>, x: seq<nat>)
    requires a <= |log| && l == log[a..]
    ensures a <= |log + x| && l + x == (log + x)[a..]
    ensures l != [] ==> a + 1 <= |log| && l[1..] == log[a + 1..] && l[0] == log[a]
    ensures l + [] == l && log + [] == log
  {
  }

  lemma {:induction false} QueuesInOrder(qs: seq<State>, ops: seq<Op>, i: nat)
    requires Run(qs, ops) && i <= |ops|
    ensures InOrder(qs, ops, i)
  {
    hide Init;
    if i == 0 {
      assert qs[0].at.sendq == [] && qs[0].at.recvq == [] && qs[0].reqq == [] by { InitEmpty(); }
    } else {
      QueuesInOrder(qs, ops, i - 1);
      StepInOrder(qs, ops, i - 1);
    }
  }

  lemma InitEmpty()
    ensures Init().at.sendq == [] && Init().at.recvq == [] && Init().reqq == []
  {
  }

  lemma StepInOrder(qs: seq<State>, ops: seq<Op>, i: nat)
    requires i < |ops| && |qs| == |ops| + 1 && InOrder(qs, ops, i)
    requires Enabled(qs[i], ops[i]) && qs[i + 1] == Next(qs[i], ops[i])
    ensures InOrder(qs, ops, i + 1)
  {
    hide SendsInOrder, ArrivalsInOrder, RequestsInOrder, Enabled, Next;
    StepSends(qs, ops, i);
    StepArrivals(qs, ops, i);
    StepRequests(qs, ops, i);
  }

  lemma StepSends(qs: seq<State>, ops: seq<Op>, i: nat)
    requires i < |ops| && |qs| == |ops| + 1 && SendsInOrder(qs, ops, i)
    requires Enabled(qs[i], ops[i]) && qs[i + 1] == Next(qs[i], ops[i])
    ensures SendsInOrder(qs, ops, i + 1)
  {
    var op := ops[i];
    Dropped(SentLog(qs, ops, i), Taken3(qs, ops, i).0, qs[i].at.sendq, if op.Send? then [op.m] else []);
  }

  lemma StepArrivals(qs: seq<State>, ops: seq<Op>, i: nat)
    requires i < |ops| && |qs| == |ops| + 1 && ArrivalsInOrder(qs, ops, i)
    requires Enabled(qs[i], ops[i]) && qs[i + 1] == Next(qs[i], ops[i])
    ensures ArrivalsInOrder(qs, ops, i + 1)
  {
    var op := ops[i];
    Dropped(ArrivedLog(qs, ops, i), Taken3(qs, ops, i).1, qs[i].at.recvq,
            if op.Send? || op.Receive? then [op.m] else []);
  }

  lemma StepRequests(qs: seq<State>, ops: seq<Op>, i: nat)
    requires i < |ops| && |qs| == |ops| + 1 && RequestsInOrder(qs, ops, i)
    requires Enabled(qs[i], ops[i]) && qs[i + 1] == Next(qs[i], ops[i])
    ensures RequestsInOrder(qs, ops, i + 1)
  {
    var op := ops[i];
    Dropped(RequestLog(ops, i), Taken3(qs, ops, i).2, qs[i].reqq, if op.Request? then [op.r] else []);
  }

  /** The send that the MPI thread takes in hand is the oldest not yet taken. */
  lemma DequeuesOldest(qs: seq<State>, ops: seq<Op>, i: nat)
    requires Run(qs, ops) && i < |ops| && ops[i].Dequeue?
    ensures var a := Taken3(qs, ops, i).0;
            a < |SentLog(qs, ops, i)| && qs[i + 1].at.sending == Some(SentLog(qs, ops, i)[a])
  {
    hide Init;
    QueuesInOrder(qs, ops, i);
    assert Enabled(qs[i], ops[i]);
  }

  /** The entry freed last is the next one allocated. */
  lemma FreedLastUsedFirst(q: State, m: nat, w: Holder)
    requires m in q.at.hands
    ensures var p := Next(q, GiveBack(m));
            Enabled(p, Alloc(w)) && Next(p, Alloc(w)) == q.(at := q.at.(hands := q.at.hands[m := w]))
  {
    assert (q.at.hands - {m})[m := w] == q.at.hands[m := w];
    assert ([m] + q.at.free)[1..] == q.at.free;
  }

  /** Draindown is never undone, and DRAINED is final. */
  predicate DrainKept(d: Drain, d': Drain) {
    (d != NotDraining ==> d' != NotDraining) && (d == Drained ==> d' == Drained)
  }

  lemma ReceivedKeeps(q: State, m: nat)
    requires Valid(q) && m in q.at.hands
    ensures Valid(Received(q, m))
  {
    hide InOnePlace;
    HandsToRecv(q.at, m, q.nmqe);
  }

  lemma SentKeeps(q: State, m: nat, toSelf: bool)
    requires Valid(q) && m in q.at.hands
    ensures Valid(Sent(q, m, toSelf))
  {
    hide InOnePlace;
    HandsToSend(q.at, m, q.nmqe);
    ReceivedKeeps(q, m);
  }

  lemma DequeuedKeeps(q: State)
    requires Valid(q) && q.at.sendq != [] && q.at.sending == None
    ensures q.sqlen > 0 && Valid(Dequeued(q))
  {
    hide InOnePlace;
    SendToSending(q.at, q.nmqe);
  }

  lemma SlottedKeeps(q: State)
    requires Valid(q) && q.at.sending.Some?
    ensures Valid(Slotted(q))
  {
    hide InOnePlace;
    SendingToSlot(q.at, q.nmqe);
  }

  lemma ReleasedKeeps(q: State, m: nat)
    requires Valid(q) && (q.at.sending == Some(m) || m in q.at.slots)
    ensures q.dequeued > 0 && Valid(Released(q, m)) && DrainKept(q.drain, Released(q, m).drain)
  {
    hide InOnePlace;
    if q.at.sending == Some(m) { SendingToFree(q.at, q.nmqe); } else { SlotToFree(q.at, m, q.nmqe); }
    assert q.at.slots == {} <==> |q.at.slots| == 0;
  }

  lemma TakenKeeps(q: State)
    requires Valid(q)
    ensures Enabled(q, Take) && Valid(Taken(q))
  {
    hide InOnePlace;
    if q.at.recvq != [] { RecvToHands(q.at, q.nmqe); }
  }

  lemma AllocKeeps(q: State, op: Op)
    requires Valid(q) && Enabled(q, op) && (op.Alloc? || op.Malloc? || op.GiveBack?)
    ensures Valid(Next(q, op))
  {
    hide InOnePlace;
    match op
    case Alloc(w) => FreeToHands(q.at, w, q.nmqe);
    case Malloc(w) => OneMore(q.at, w, q.nmqe);
    case GiveBack(m) => HandsToFree(q.at, m, q.nmqe);
  }

  lemma RequestKeeps(q: State, r: nat, load: Option<nat>)
    requires Valid(q) && Enabled(q, Request(r, load))
    ensures Valid(Requested(q, r, load))
  {
    hide InOnePlace;
    if load.Some? { HandsToRequest(q.at, load.value, r, q.nmqe); }
  }

  lemma ManagerKeeps(q: State, op: Op)
    requires Valid(q) && Enabled(q, op) && (op.Unload? || op.Wait? || op.StartDrain?)
    ensures Valid(Next(q, op)) && DrainKept(q.drain, Next(q, op).drain)
  {
    hide InOnePlace;
    if op.Unload? { RequestToHands(q.at, op.m, q.nmqe); }
    assert q.at.slots == {} <==> |q.at.slots| == 0;
  }

  lemma StepKeeps(q: State, op: Op)
    requires Valid(q) && Enabled(q, op)
    ensures Valid(Next(q, op)) && DrainKept(q.drain, Next(q, op).drain)
  {
    hide Valid;
    match op
    case Send(m, toSelf) => SentKeeps(q, m, toSelf);
    case Dequeue => DequeuedKeeps(q);
    case AddSlot => SlottedKeeps(q);
    case Release(m) => ReleasedKeeps(q, m);
    case Receive(m) => ReceivedKeeps(q, m);
    case Request(r, load) => RequestKeeps(q, r, load);
    case Take => TakenKeeps(q);
    case Unload(_) => ManagerKeeps(q, op);
    case Wait => ManagerKeeps(q, op);
    case StartDrain => ManagerKeeps(q, op);
    case _ => AllocKeeps(q, op);
  }

  lemma InitValid()
    ensures Valid(Init())
  {
  }

  /** In every interleaving every message entry is in exactly one place, DRAINED
      means that no send is queued or held, and no wakeup is lost. */
  lemma {:induction false} RunKeeps(qs: seq<State>, ops: seq<Op>, i: nat)
    requires Run(qs, ops) && i <= |ops|
    ensures Valid(qs[i])
  {
    hide Next, Enabled, Valid;
    if i == 0 { InitValid(); }
    if i > 0 {
      RunKeeps(qs, ops, i - 1);
      StepKeeps(qs[i - 1], ops[i - 1]);
    }
  }

  lemma DrainFacts(q: State)
    requires Valid(q)
    ensures q.drain == Drained ==> Idle(q.at)
  {
  }

  /** Once DRAINED, a rank stays drained: no send is ever queued or held again. */
  lemma {:induction false} DrainedForever(qs: seq<State>, ops: seq<Op>, i: nat, j: nat)
    requires Run(qs, ops) && i <= j <= |ops| && qs[i].drain == Drained
    ensures qs[j].drain == Drained && Idle(qs[j].at)
    decreases j
  {
    hide Next, Enabled, Valid;
    RunKeeps(qs, ops, j);
    DrainFacts(qs[j]);
    if i < j {
      DrainedForever(qs, ops, i, j - 1);
      RunKeeps(qs, ops, j - 1);
      StepKeeps(qs[j - 1], ops[j - 1]);
    }
  }

  // ------------------------------------------------------------ the linked queues

  /** The heads of the three lists of message entries. */
  datatype Heads = Heads(free: Head, send: Head, recv: Head)

  /** The lists, which share the entries' links, hold what is on them. */
  ghost predicate ListsOk(p: Places, next: Links, h: Heads) {
    Threads(next, h.free, p.free) && Threads(next, h.send, p.sendq) && Threads(next, h.recv, p.recvq)
  }

  /** No list has an entry of another list or one that is somewhere else. */
  lemma Apart(p: Places, n: nat, x: nat)
    requires InOnePlace(p, n)
    ensures x in p.free ==> x !in p.sendq && x !in p.recvq
    ensures x in p.sendq ==> x !in p.recvq
    ensures x in p.hands || x in p.slots || p.sending == Some(x) ==> x !in p.free && x !in p.sendq && x !in p.recvq
  {
    assert Times(p, x) <= 1;
  }

  lemma ListsApart(p: Places, n: nat)
    requires InOnePlace(p, n)
    ensures forall x :: x in p.free ==> x !in p.sendq && x !in p.recvq
    ensures forall x :: x in p.sendq ==> x !in p.recvq && x !in p.free
    ensures forall x :: x in p.recvq ==> x !in p.sendq && x !in p.free
  {
    forall x: nat ensures (x in p.free ==> x !in p.sendq && x !in p.recvq)
        && (x in p.sendq ==> x !in p.recvq) { Apart(p, n, x); }
  }

  lemma SendLinked(p: Places, n: nat, next: Links, h: Heads, x: nat)
    requires InOnePlace(p, n) && ListsOk(p, next, h) && x in p.hands
    ensures var (nx, g) := AtTail(next, h.send, x);
            ListsOk(p.(sendq := p.sendq + [x], hands := p.hands - {x}), nx, h.(send := g))
  {
    hide InOnePlace, Threads, AtTail;
    Apart(p, n, x);
    ListsApart(p, n);
    TailThreads(next, h.send, p.sendq, x);
    TailElsewhere(next, h.send, p.sendq, x, h.free, p.free);
    TailElsewhere(next, h.send, p.sendq, x, h.recv, p.recvq);
  }

  lemma RecvLinked(p: Places, n: nat, next: Links, h: Heads, x: nat)
    requires InOnePlace(p, n) && ListsOk(p, next, h) && x in p.hands
    ensures var (nx, g) := AtTail(next, h.recv, x);
            ListsOk(p.(recvq := p.recvq + [x], hands := p.hands - {x}), nx, h.(recv := g))
  {
    hide InOnePlace, Threads, AtTail;
    Apart(p, n, x);
    ListsApart(p, n);
    TailThreads(next, h.recv, p.recvq, x);
    TailElsewhere(next, h.recv, p.recvq, x, h.free, p.free);
    TailElsewhere(next, h.recv, p.recvq, x, h.send, p.sendq);
  }

  /** An entry that is on no list goes to the front of the free list. */
  lemma FreeLinked(p: Places, n: nat, next: Links, h: Heads, x: nat)
    requires InOnePlace(p, n) && ListsOk(p, next, h) && (x in p.hands || x in p.slots || p.sending == Some(x))
    ensures var (nx, g) := AtHead(next, h.free, x); ListsOk(p.(free := [x] + p.free), nx, h.(free := g))
  {
    hide InOnePlace, Threads, AtHead;
    Apart(p, n, x);
    HeadThreads(next, h.free, p.free, x);
    HeadElsewhere(next, h.free, x, h.send, p.sendq);
    HeadElsewhere(next, h.free, x, h.recv, p.recvq);
  }

  lemma DoneLinked(p: Places, n: nat, next: Links, h: Heads, x: nat)
    requires InOnePlace(p, n) && ListsOk(p, next, h) && (p.sending == Some(x) || x in p.slots)
    ensures var (nx, g) := AtHead(next, h.free, x); ListsOk(Done(p, x), nx, h.(free := g))
  {
    hide InOnePlace, Threads, AtHead;
    FreeLinked(p, n, next, h, x);
  }

  ghost predicate QueuesOk(q: State, next: Links, h: Heads, rnext: Links, reqs: Head) {
    Valid(q) && ListsOk(q.at, next, h) && Threads(rnext, reqs, q.reqq)
  }

  /** A list with a first entry, and the list without it. */
  lemma FirstOf(next: Links, h: Head, q: seq<nat>)
    requires Threads(next, h, q)
    ensures h.first.Some? <==> q != []
    ensures q != [] ==> h.first == Some(q[0]) && q[0] in next && Threads(next, WithoutFirst(next, h), q[1..])
  {
    hide WithoutFirst;
    if q != [] { RestThreads(next, h, q); }
  }

  /** Queueing a request moves no entry from one list to another. */
  lemma ReqLinked(q: State, next: Links, h: Heads, rnext: Links, reqs: Head, r: nat, load: Option<nat>)
    requires ListsOk(q.at, next, h) && Threads(rnext, reqs, q.reqq) && Enabled(q, Request(r, load))
    ensures (h.recv.first == None && reqs.first == None) == WasEmpty(q)
    ensures ListsOk(Requested(q, r, load).at, next, h)
    ensures var (n, g) := AtTail(rnext, reqs, r); Threads(n, g, q.reqq + [r])
  {
    hide Threads, AtTail;
    FirstOf(next, h.recv, q.at.recvq);
    FirstOf(rnext, reqs, q.reqq);
    TailThreads(rnext, reqs, q.reqq, r);
  }

  // ------------------------------------------------------------ in place

  /** The queues as they are updated in place, with the link fields of message
      entries and of requests.  Where entries are that are on no list is not stored
      anywhere; at says where they have gone. */
  class Queue {
    var next: Links
    var reqNext: Links
    var mqefree: Head
    var mpisendq: Head
    var mpirecvq: Head
    var mgrreqq: Head
    var nmqe: nat
    var mpisqlen: nat
    var mpirqlen: nat
    var mgrrqlen: nat
    var mpindequeuedsends: nat
    var draindown: Drain
    var notifytimelimit: nat
    var waiter: Waiter
    ghost var at: Places
    ghost var reqs: seq<nat>

    ghost function View(): State
      reads this
    {
      State(at, reqs, nmqe, mpisqlen, mpirqlen, mgrrqlen, mpindequeuedsends, draindown, notifytimelimit, waiter)
    }

    ghost predicate Rep()
      reads this
    {
      QueuesOk(View(), next, Heads(mqefree, mpisendq, mpirecvq), reqNext, mgrreqq)
    }

    constructor ()
      ensures Rep() && View() == Init()
    {
      next, reqNext := map[], map[];
      mqefree, mpisendq, mpirecvq, mgrreqq := EMPTY, EMPTY, EMPTY, EMPTY;
      nmqe, mpisqlen, mpirqlen, mgrrqlen, mpindequeuedsends, notifytimelimit := 0, 0, 0, 0, 0, 0;
      draindown, waiter := NotDraining, Awake;
      at, reqs := Places([], [], [], {}, None, map[], map[]), [];
      new;
      InitValid();
    }

    /** pthread_cond_signal on the manager's condition. */
    method Signal()
      modifies this`waiter
      ensures waiter == Woken(old(waiter))
    {
      if waiter.Blocked? {
        waiter := Signalled;
      }
    }

    /** dtq_mqe_alloc; mallocOk is malloc's outcome when the free list is empty. */
    method MqeAlloc(ghost w: Holder, mallocOk: bool) returns (mqe: Option<nat>)
      requires Rep()
      modifies this
      ensures Rep()
      ensures View() == if old(at.free) != [] then Allocated(old(View()), w)
              else if mallocOk then Malloced(old(View()), w) else old(View())
      ensures mqe == if old(at.free) != [] then Some(old(at.free[0])) else if mallocOk then Some(old(nmqe)) else None
    {
      hide Valid, Threads, WithoutFirst;
      FirstOf(next, mqefree, at.free);
      mqe := mqefree.first;
      if mqe.Some? {
        AllocKeeps(View(), Alloc(w));
        mqefree := WithoutFirst(next, mqefree);
        at := Allocated(View(), w).at;
      } else if mallocOk {
        AllocKeeps(View(), Malloc(w));
        mqe := Some(nmqe);
        at := at.(hands := at.hands[nmqe := w]);
        nmqe := nmqe + 1;
      }
    }

    /** dtq_mqe_unalloc and dtq_recv_release. */
    method MqeUnalloc(mqe: nat)
      requires Rep() && mqe in at.hands
      modifies this
      ensures Rep() && View() == GivenBack(old(View()), mqe)
    {
      hide Valid, Threads, AtHead;
      AllocKeeps(View(), GiveBack(mqe));
      InPlace(View());
      FreeLinked(at, nmqe, next, Heads(mqefree, mpisendq, mpirecvq), mqe);
      var (n, h) := AtHead(next, mqefree, mqe);
      next, mqefree := n, h;
      at := GivenBack(View(), mqe).at;
    }

    /** dtq_send_enqueue: returns the entry to the caller exactly while draining. */
    method SendEnqueue(mqe: nat, toSelf: bool) returns (rv: Option<nat>)
      requires Rep() && mqe in at.hands
      modifies this
      ensures Rep() && View() == Sent(old(View()), mqe, toSelf)
      ensures rv == if old(draindown) != NotDraining then Some(mqe) else None
    {
      hide Valid, Threads, AtTail, Received;
      SentKeeps(View(), mqe, toSelf);
      rv := None;
      if draindown != NotDraining {
        rv := Some(mqe);
      } else if toSelf {
        RecvEnqueue(mqe);
      } else {
        InPlace(View());
        SendLinked(at, nmqe, next, Heads(mqefree, mpisendq, mpirecvq), mqe);
        var (n, h) := AtTail(next, mpisendq, mqe);
        next, mpisendq := n, h;
        at := at.(sendq := at.sendq + [mqe], hands := at.hands - {mqe});
        mpisqlen := mpisqlen + 1;
      }
    }

    /** dtq_send_dequeue, by the MPI thread with no send in hand. */
    method SendDequeue() returns (mqe: Option<nat>)
      requires Rep() && at.sending == None
      modifies this
      ensures Rep()
      ensures old(at.sendq) == [] ==> mqe == None && View() == old(View())
      ensures old(at.sendq) != [] ==>
                && mqe == Some(old(at.sendq[0])) && mpisqlen + 1 == old(mpisqlen)
                && View() == Dequeued(old(View()))
    {
      hide Valid, Threads, WithoutFirst;
      FirstOf(next, mpisendq, at.sendq);
      mqe := mpisendq.first;
      if mqe.Some? {
        DequeuedKeeps(View());
        mpisendq := WithoutFirst(next, mpisendq);
        at := at.(sendq := at.sendq[1..], sending := Some(at.sendq[0]));
        mpisqlen := mpisqlen - 1;
        mpindequeuedsends := mpindequeuedsends + 1;
      }
    }

    /** mpimts_add: the send the MPI thread has in hand goes into a slot. */
    ghost method AddSlot()
      requires Rep() && at.sending.Some?
      modifies this`at
      ensures Rep() && View() == Slotted(old(View()))
    {
      hide Valid, Threads;
      SlottedKeeps(View());
      at := Slotted(View()).at;
    }

    /** process_req: the manager takes the entry out of a request it has taken. */
    ghost method Unload(mqe: nat)
      requires Rep() && Enabled(View(), Op.Unload(mqe))
      modifies this`at
      ensures Rep() && View() == Unloaded(old(View()), mqe)
    {
      hide Valid, Threads;
      ManagerKeeps(View(), Op.Unload(mqe));
      at := Unloaded(View(), mqe).at;
    }

    /** dtq_send_release, from a slot or straight from the MPI thread's hand. */
    method SendRelease(mqe: nat)
      requires Rep() && (at.sending == Some(mqe) || mqe in at.slots)
      modifies this
      ensures Rep() && old(mpindequeuedsends) > 0 && View() == Released(old(View()), mqe)
    {
      hide Valid, Threads, AtHead, InOnePlace, ListsOk, Done, Woken;
      ReleasedKeeps(View(), mqe);
      InPlace(View());
      DoneLinked(at, nmqe, next, Heads(mqefree, mpisendq, mpirecvq), mqe);
      var (n, h) := AtHead(next, mqefree, mqe);
      next, mqefree, mpindequeuedsends, at := n, h, mpindequeuedsends - 1, Done(at, mqe);
      if draindown != NotDraining && mpisqlen == 0 && mpindequeuedsends == 0 {
        draindown := Drained;
        Signal();
      }
    }

    /** dtq_recv_enqueue. */
    method RecvEnqueue(mqe: nat)
      requires Rep() && mqe in at.hands
      modifies this
      ensures Rep() && View() == Received(old(View()), mqe)
    {
      hide Valid, Threads, AtTail, InOnePlace, Woken;
      ReceivedKeeps(View(), mqe);
      InPlace(View());
      RecvLinked(at, nmqe, next, Heads(mqefree, mpisendq, mpirecvq), mqe);
      FirstOf(next, mpirecvq, at.recvq);
      FirstOf(reqNext, mgrreqq, reqs);
      var wasEmpty := mpirecvq.first == None && mgrreqq.first == None;
      var (n, h) := AtTail(next, mpirecvq, mqe);
      next, mpirecvq, mpirqlen, at := n, h, mpirqlen + 1, at.(recvq := at.recvq + [mqe], hands := at.hands - {mqe});
      if wasEmpty {
        Signal();
      }
    }

    /** dtq_req_enqueue. */
    method ReqEnqueue(req: nat, ghost load: Option<nat>)
      requires Rep() && Enabled(View(), Request(req, load))
      modifies this
      ensures Rep() && View() == Requested(old(View()), req, load)
    {
      hide Valid, Threads, AtTail, Enabled, ListsOk, Woken;
      RequestKeeps(View(), req, load);
      ReqLinked(View(), next, Heads(mqefree, mpisendq, mpirecvq), reqNext, mgrreqq, req, load);
      var wasEmpty := mpirecvq.first == None && mgrreqq.first == None;
      var (n, h) := AtTail(reqNext, mgrreqq, req);
      ghost var p := Requested(View(), req, load).at;
      reqNext, mgrreqq, mgrrqlen, at, reqs := n, h, mgrrqlen + 1, p, reqs + [req];
      if wasEmpty {
        Signal();
      }
    }

    /** dtq_notifywait up to the wait. */
    method NotifyWait()
      requires Rep() && waiter == Awake
      modifies this
      ensures Rep() && View() == Waiting(old(View()))
    {
      hide Valid, Threads;
      ManagerKeeps(View(), Wait);
      FirstOf(next, mpirecvq, at.recvq);
      FirstOf(reqNext, mgrreqq, reqs);
      if mpirecvq.first == None && mgrreqq.first == None {
        waiter := Blocked(notifytimelimit > 0);
      }
    }

    /** dtq_notifywait from where it has the lock again: without having waited,
        after a signal, a timeout or a spurious wakeup. */
    method NotifyTake() returns (mqe: Option<nat>, req: Option<nat>)
      requires Rep()
      modifies this
      ensures Rep() && Enabled(old(View()), Take) && View() == Taken(old(View()))
      ensures mqe == Nth(old(at.recvq), 0) && req == Nth(old(reqs), 0)
    {
      hide Valid, Threads, WithoutFirst, InOnePlace;
      TakenKeeps(View());
      FirstOf(next, mpirecvq, at.recvq);
      FirstOf(reqNext, mgrreqq, reqs);
      waiter := Awake;
      mqe, req := mpirecvq.first, mgrreqq.first;
      if mqe.Some? {
        mpirecvq := WithoutFirst(next, mpirecvq);
        at := at.(recvq := at.recvq[1..], hands := at.hands[at.recvq[0] := Manager]);
        mpirqlen := mpirqlen - 1;
      }
      if req.Some? {
        mgrreqq := WithoutFirst(reqNext, mgrreqq);
        reqs := reqs[1..];
        mgrrqlen := mgrrqlen - 1;
      }
    }

    /** dtq_send_draindown and dtq_notifytimelimit at the end of broadcast_shutdown. */
    method StartDraindown() returns (outstanding: nat)
      requires Rep() && waiter == Awake
      modifies this
      ensures Rep() && View() == DrainStarted(old(View()))
      ensures outstanding == |at.sendq| + |at.slots| + One(at.sending.Some?)
              && (outstanding == 0 <==> draindown == Drained)
    {
      hide Threads, InOnePlace;
      ManagerKeeps(View(), StartDrain);
      outstanding := mpisqlen + mpindequeuedsends;
      draindown := if outstanding != 0 then Draining else Drained;
      notifytimelimit := 10;
    }
  }

  lemma InPlace(q: State)
    requires Valid(q)
    ensures InOnePlace(q.at, q.nmqe)
  {
  }
}
