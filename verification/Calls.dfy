/** Requests and replies.  A request that waits for a reply is, at any moment, in
    exactly one place: on its rank's mgrreqq, in a request message, in a START
    or JOINWAIT record on rank 0, or in a reply message. */
module Calls {
  import opened Types
  import opened Machine
  import Life

  type Apps = map<Loc, App>
  type Pend = map<CallId, nat>
  type Wire = map<nat, Rpc>
  type Waits = map<nat, WaitRec>

  // ------------------------------------------------------------ queued and pending blocks

  predicate OnQueue(q: Request) {
    (q.BusyCall? && q.xid.None?) || q.BusyRetclean? || q.BusyMain?
  }

  /** mgrreqq of every rank holds each block that is queued, once. */
  ghost predicate QueueOk(c: Config, app: Apps, queue: seq<seq<nat>>) {
    && |queue| == c.N
    && (forall r, i :: 0 <= r < |queue| && 0 <= i < |queue[r]| ==>
          Loc(r, queue[r][i]) in app && OnQueue(app[Loc(r, queue[r][i])].req))
    && (forall r, i, j :: 0 <= r < |queue| && 0 <= i < j < |queue[r]| ==> queue[r][i] != queue[r][j])
    && (forall a :: a in app ==> a.rank < c.N)
    && (forall a :: a in app && OnQueue(app[a].req) ==> a.lidx in queue[a.rank])
  }

  ghost predicate PendsAs(app: Apps, id: CallId, l: nat) {
    && Loc(id.rank, l) in app
    && var q := app[Loc(id.rank, l)].req;
    && q.BusyCall? && q.xid == Some(id.xid) && q.call.Op() == id.op
  }

  /** rpending holds each block that was sent and not yet answered, under its key. */
  ghost predicate PendOk(c: Config, app: Apps, pend: Pend) {
    && (forall id :: id in pend ==> PendsAs(app, id, pend[id]) && id.rank < c.N && id.xid % c.N == id.rank)
    && (forall a :: a in app && app[a].req.BusyCall? && app[a].req.xid.Some? ==>
          var id := CallId(a.rank, app[a].req.call.Op(), app[a].req.xid.value);
          id in pend && pend[id] == a.lidx)
  }

  /** A thread that asked to be cleaned up has its final state. */
  ghost predicate FinalOk(app: Apps) {
    forall a :: a in app && app[a].req.BusyRetclean? ==> !NeedFinalState(app[a].st)
  }

  // ------------------------------------------------------------ tokens

  /** Where the obligation to answer a request can sit. */
  datatype Token = OnWire(k: nat) | InStart(y: nat) | InWait(x: nat)

  ghost predicate IsToken(t: Token, rpc: Wire, starts: Life.Starts, waits: Waits) {
    match t
    case OnWire(k) => k in rpc
    case InStart(y) => y in starts
    case InWait(x) => x in waits
  }

  ghost function KeyOf(t: Token, rpc: Wire, starts: Life.Starts, waits: Waits): CallId
    requires IsToken(t, rpc, starts, waits)
  {
    match t
    case OnWire(k) => rpc[k].Key()
    case InStart(y) => starts[y].caller
    case InWait(x) => waits[x].caller
  }

  /** Every token and the request it belongs to. */
  ghost function Tokens(rpc: Wire, starts: Life.Starts, waits: Waits): imap<Token, CallId> {
    imap t | IsToken(t, rpc, starts, waits) :: KeyOf(t, rpc, starts, waits)
  }

  /** At most one token for a request, none for a request that is not pending,
      and exactly one for each pending request while nobody drains. */
  ghost predicate TokensOk(v: imap<Token, CallId>, pend: Pend, draining: set<nat>) {
    && (forall t, u :: t in v && u in v && v[t] == v[u] ==> t == u)
    && (forall t :: t in v ==> v[t] in pend)
    && (draining == {} ==> forall id :: id in pend ==> exists t :: t in v && v[t] == id)
  }

  lemma AddWire(rpc: Wire, starts: Life.Starts, waits: Waits, k: nat, p: Rpc)
    ensures Tokens(rpc[k := p], starts, waits) == Tokens(rpc, starts, waits)[OnWire(k) := p.Key()]
  {
  }

  lemma CutWire(rpc: Wire, starts: Life.Starts, waits: Waits, k: nat)
    ensures Tokens(rpc - {k}, starts, waits) == Tokens(rpc, starts, waits) - {OnWire(k)}
  {
  }

  lemma AddStart(rpc: Wire, starts: Life.Starts, waits: Waits, y: nat, rec: StartRec)
    ensures Tokens(rpc, starts[y := rec], waits) == Tokens(rpc, starts, waits)[InStart(y) := rec.caller]
  {
  }

  lemma CutStart(rpc: Wire, starts: Life.Starts, waits: Waits, y: nat)
    ensures Tokens(rpc, starts - {y}, waits) == Tokens(rpc, starts, waits) - {InStart(y)}
  {
  }

  lemma AddWait(rpc: Wire, starts: Life.Starts, waits: Waits, x: nat, rec: WaitRec)
    ensures Tokens(rpc, starts, waits[x := rec]) == Tokens(rpc, starts, waits)[InWait(x) := rec.caller]
  {
  }

  lemma CutWait(rpc: Wire, starts: Life.Starts, waits: Waits, x: nat)
    ensures Tokens(rpc, starts, waits - {x}) == Tokens(rpc, starts, waits) - {InWait(x)}
  {
  }

  /** The token of a request moves from t to u. */
  lemma Move(v: imap<Token, CallId>, pend: Pend, draining: set<nat>, t: Token, u: Token)
    requires TokensOk(v, pend, draining) && t in v && u !in v
    ensures TokensOk((v - {t})[u := v[t]], pend, draining)
  {
    var w := (v - {t})[u := v[t]];
    if draining == {} {
      forall id | id in pend ensures exists s :: s in w && w[s] == id {
        var s :| s in v && v[s] == id;
        assert if s == t then u in w && w[u] == id else s in w && w[s] == id;
      }
    }
  }

  /** A draining rank drops the token. */
  lemma Lose(v: imap<Token, CallId>, pend: Pend, draining: set<nat>, t: Token)
    requires TokensOk(v, pend, draining) && draining != {}
    ensures TokensOk(v - {t}, pend, draining)
  {
  }

  /** A new request enters with its token. */
  lemma Enter(v: imap<Token, CallId>, pend: Pend, draining: set<nat>, t: Token, id: CallId, l: nat)
    requires TokensOk(v, pend, draining) && id !in pend && t !in v
    ensures TokensOk(v[t := id], pend[id := l], draining)
  {
    var w := v[t := id];
    var p := pend[id := l];
    if draining == {} {
      forall i | i in p ensures exists s :: s in w && w[s] == i {
        if i == id { assert t in w && w[t] == i; }
        else { var s :| s in v && v[s] == i; assert s in w && w[s] == i; }
      }
    }
  }

  /** An answered request leaves with its token. */
  lemma Leave(v: imap<Token, CallId>, pend: Pend, draining: set<nat>, t: Token)
    requires TokensOk(v, pend, draining) && t in v
    ensures TokensOk(v - {t}, pend - {v[t]}, draining)
  {
    var w := v - {t};
    if draining == {} {
      forall i | i in pend - {v[t]} ensures exists s :: s in w && w[s] == i {
        var s :| s in v && v[s] == i;
        assert s in w && w[s] == i;
      }
    }
  }

  // ------------------------------------------------------------ changes to one block

  ghost predicate Blocks(c: Config, app: Apps, queue: seq<seq<nat>>, pend: Pend) {
    QueueOk(c, app, queue) && PendOk(c, app, pend) && FinalOk(app)
  }

  predicate Resting(q: Request) { q.Idle? || q.Done? }

  lemma KeepReq(c: Config, app: Apps, queue: seq<seq<nat>>, pend: Pend, a: Loc, p: App)
    requires Blocks(c, app, queue, pend) && a in app && p.req == app[a].req
    requires p.req.BusyRetclean? ==> !NeedFinalState(p.st)
    ensures Blocks(c, app[a := p], queue, pend)
  {
  }

  lemma Rest(c: Config, app: Apps, queue: seq<seq<nat>>, pend: Pend, a: Loc, p: App)
    requires Blocks(c, app, queue, pend) && a.rank < c.N && (a in app ==> Resting(app[a].req)) && Resting(p.req)
    ensures Blocks(c, app[a := p], queue, pend)
  {
  }

  lemma EnqueueBlock(c: Config, app: Apps, queue: seq<seq<nat>>, pend: Pend, a: Loc, p: App)
    requires Blocks(c, app, queue, pend) && a in app && Resting(app[a].req) && OnQueue(p.req)
    requires p.req.BusyRetclean? ==> !NeedFinalState(p.st)
    ensures Blocks(c, app[a := p], queue[a.rank := queue[a.rank] + [a.lidx]], pend)
  {
    var q := queue[a.rank := queue[a.rank] + [a.lidx]];
    forall b | b in app && b != a && OnQueue(app[b].req) ensures b.lidx in q[b.rank] {
      assert b.lidx in queue[b.rank];
    }
    assert q[a.rank][|queue[a.rank]|] == a.lidx;
  }

  /** The head of a queue appears nowhere else. */
  lemma TailOk(c: Config, app: Apps, queue: seq<seq<nat>>, r: nat, p: App)
    requires QueueOk(c, app, queue) && r < |queue| && queue[r] != [] && !OnQueue(p.req)
    ensures QueueOk(c, app[Loc(r, queue[r][0]) := p], queue[r := queue[r][1..]])
  {
  }

  lemma DequeueRest(c: Config, app: Apps, queue: seq<seq<nat>>, pend: Pend, r: nat, p: App)
    requires Blocks(c, app, queue, pend) && r < |queue| && queue[r] != [] && Resting(p.req)
    ensures Blocks(c, app[Loc(r, queue[r][0]) := p], queue[r := queue[r][1..]], pend)
  {
    TailOk(c, app, queue, r, p);
  }

  lemma DequeueGone(c: Config, app: Apps, queue: seq<seq<nat>>, pend: Pend, r: nat)
    requires Blocks(c, app, queue, pend) && r < |queue| && queue[r] != []
    ensures Blocks(c, app - {Loc(r, queue[r][0])}, queue[r := queue[r][1..]], pend)
  {
    var a := Loc(r, queue[r][0]);
    DequeueRest(c, app, queue, pend, r, App(0, Idle));
    var w := app[a := App(0, Idle)];
    assert w - {a} == app - {a};
    GoneOk(c, w, queue[r := queue[r][1..]], pend, a);
  }

  lemma GoneOk(c: Config, app: Apps, queue: seq<seq<nat>>, pend: Pend, a: Loc)
    requires Blocks(c, app, queue, pend) && a in app && Resting(app[a].req)
    ensures Blocks(c, app - {a}, queue, pend)
  {
  }

  lemma DequeueSend(c: Config, app: Apps, queue: seq<seq<nat>>, pend: Pend, r: nat, p: App, x: nat)
    requires Blocks(c, app, queue, pend) && r < |queue| && queue[r] != []
    requires p.req.BusyCall? && p.req.xid == Some(x) && x % c.N == r
    requires CallId(r, p.req.call.Op(), x) !in pend
    ensures Blocks(c, app[Loc(r, queue[r][0]) := p], queue[r := queue[r][1..]],
                   pend[CallId(r, p.req.call.Op(), x) := queue[r][0]])
  {
    TailOk(c, app, queue, r, p);
  }

  lemma AnswerBlock(c: Config, app: Apps, queue: seq<seq<nat>>, pend: Pend, id: CallId, p: App)
    requires Blocks(c, app, queue, pend) && id in pend && Resting(p.req)
    ensures Blocks(c, app[Loc(id.rank, pend[id]) := p], queue, pend - {id})
  {
  }

  // ------------------------------------------------------------ contents of tokens

  ghost predicate CallIs(app: Apps, pend: Pend, id: CallId, call: Call) {
    && id in pend && Loc(id.rank, pend[id]) in app
    && app[Loc(id.rank, pend[id])].req.BusyCall? && app[Loc(id.rank, pend[id])].req.call == call
  }

  /** A token carries what its request asked for. */
  ghost predicate WireContentOk(app: Apps, pend: Pend, rpc: Wire) {
    forall k :: k in rpc && rpc[k].msg.Ask? ==>
      rpc[k].dst == rpc[k].msg.call.Peer() && CallIs(app, pend, rpc[k].Key(), rpc[k].msg.call)
  }

  ghost predicate WaitContentOk(app: Apps, pend: Pend, waits: Waits) {
    forall x :: x in waits ==>
      waits[x].caller.op == JOIN && waits[x].caller.xid == x
      && CallIs(app, pend, waits[x].caller, CallJoin(waits[x].thread))
  }

  ghost predicate StartContentOk(starts: Life.Starts) {
    forall y :: y in starts ==> starts[y].caller.op == CREATE
  }

  ghost predicate ContentOk(app: Apps, pend: Pend, rpc: Wire, starts: Life.Starts, waits: Waits) {
    WireContentOk(app, pend, rpc) && WaitContentOk(app, pend, waits) && StartContentOk(starts)
  }

  /** Pending requests other than `but` keep their caller and their question. */
  ghost predicate SameCalls(app: Apps, pend: Pend, app': Apps, pend': Pend, but: Option<CallId>) {
    forall id :: id in pend && Some(id) != but ==>
      && id in pend' && pend'[id] == pend[id]
      && (Loc(id.rank, pend[id]) in app ==>
            && Loc(id.rank, pend[id]) in app'
            && app'[Loc(id.rank, pend[id])].req == app[Loc(id.rank, pend[id])].req)
  }

  lemma ContentFrame(app: Apps, pend: Pend, app': Apps, pend': Pend, but: Option<CallId>, rpc: Wire,
                     starts: Life.Starts, waits: Waits)
    requires ContentOk(app, pend, rpc, starts, waits) && SameCalls(app, pend, app', pend', but)
    requires forall k :: k in rpc ==> Some(rpc[k].Key()) != but
    requires forall x :: x in waits ==> Some(waits[x].caller) != but
    ensures ContentOk(app', pend', rpc, starts, waits)
  {
  }

  /** Changing a block that is not pending keeps all pending questions. */
  lemma SameCallsOff(c: Config, app: Apps, pend: Pend, a: Loc, p: App)
    requires PendOk(c, app, pend)
    requires a in app ==> !(app[a].req.BusyCall? && app[a].req.xid.Some?)
    ensures SameCalls(app, pend, app[a := p], pend, None)
    ensures SameCalls(app, pend, app - {a}, pend, None)
  {
  }

  lemma AddAnswer(app: Apps, pend: Pend, rpc: Wire, starts: Life.Starts, waits: Waits, m: Rpc, clock: nat)
    requires ContentOk(app, pend, rpc, starts, waits) && m.msg.Answer?
    ensures ContentOk(app, pend, rpc[clock := m], starts, waits)
  {
  }

  lemma CutContent(app: Apps, pend: Pend, rpc: Wire, starts: Life.Starts, waits: Waits, k: set<nat>, x: set<nat>)
    requires ContentOk(app, pend, rpc, starts, waits)
    ensures ContentOk(app, pend, rpc - k, starts, waits - x)
  {
  }

  lemma AddWaitContent(app: Apps, pend: Pend, rpc: Wire, starts: Life.Starts, waits: Waits, x: nat, rec: WaitRec)
    requires ContentOk(app, pend, rpc, starts, waits)
    requires rec.caller.op == JOIN && rec.caller.xid == x && CallIs(app, pend, rec.caller, CallJoin(rec.thread))
    ensures ContentOk(app, pend, rpc, starts, waits[x := rec])
  {
  }

  // ------------------------------------------------------------ what steps do to requests

  ghost predicate Inv(c: Config, app: Apps, queue: seq<seq<nat>>, pend: Pend, rpc: Wire,
                      starts: Life.Starts, waits: Waits, draining: set<nat>) {
    && Blocks(c, app, queue, pend)
    && TokensOk(Tokens(rpc, starts, waits), pend, draining)
    && ContentOk(app, pend, rpc, starts, waits)
  }

  /** A thread changes state but not its request. */
  lemma KeepReqInv(c: Config, app: Apps, queue: seq<seq<nat>>, pend: Pend, rpc: Wire,
                   starts: Life.Starts, waits: Waits, draining: set<nat>, a: Loc, p: App)
    requires Inv(c, app, queue, pend, rpc, starts, waits, draining)
    requires a in app && p.req == app[a].req && (p.req.BusyRetclean? ==> !NeedFinalState(p.st))
    ensures Inv(c, app[a := p], queue, pend, rpc, starts, waits, draining)
  {
    KeepReq(c, app, queue, pend, a, p);
    ContentFrame(app, pend, app[a := p], pend, None, rpc, starts, waits);
  }

  /** A block is idle or done before and after, or new. */
  lemma RestInv(c: Config, app: Apps, queue: seq<seq<nat>>, pend: Pend, rpc: Wire,
                starts: Life.Starts, waits: Waits, draining: set<nat>, a: Loc, p: App)
    requires Inv(c, app, queue, pend, rpc, starts, waits, draining)
    requires a.rank < c.N && (a in app ==> Resting(app[a].req)) && Resting(p.req)
    ensures Inv(c, app[a := p], queue, pend, rpc, starts, waits, draining)
  {
    Rest(c, app, queue, pend, a, p);
    SameCallsOff(c, app, pend, a, p);
    ContentFrame(app, pend, app[a := p], pend, None, rpc, starts, waits);
  }

  lemma EnqueueInv(c: Config, app: Apps, queue: seq<seq<nat>>, pend: Pend, rpc: Wire,
                   starts: Life.Starts, waits: Waits, draining: set<nat>, a: Loc, p: App)
    requires Inv(c, app, queue, pend, rpc, starts, waits, draining)
    requires a in app && Resting(app[a].req) && OnQueue(p.req) && (p.req.BusyRetclean? ==> !NeedFinalState(p.st))
    ensures a.rank < |queue|
    ensures Inv(c, app[a := p], queue[a.rank := queue[a.rank] + [a.lidx]], pend, rpc, starts, waits, draining)
  {
    EnqueueBlock(c, app, queue, pend, a, p);
    SameCallsOff(c, app, pend, a, p);
    ContentFrame(app, pend, app[a := p], pend, None, rpc, starts, waits);
  }

  lemma DequeueRestInv(c: Config, app: Apps, queue: seq<seq<nat>>, pend: Pend, rpc: Wire,
                       starts: Life.Starts, waits: Waits, draining: set<nat>, r: nat, p: App)
    requires Inv(c, app, queue, pend, rpc, starts, waits, draining)
    requires r < |queue| && queue[r] != [] && Resting(p.req)
    ensures Inv(c, app[Loc(r, queue[r][0]) := p], queue[r := queue[r][1..]], pend, rpc, starts, waits, draining)
  {
    var a := Loc(r, queue[r][0]);
    DequeueRest(c, app, queue, pend, r, p);
    SameCallsOff(c, app, pend, a, p);
    ContentFrame(app, pend, app[a := p], pend, None, rpc, starts, waits);
  }

  lemma DequeueGoneInv(c: Config, app: Apps, queue: seq<seq<nat>>, pend: Pend, rpc: Wire,
                       starts: Life.Starts, waits: Waits, draining: set<nat>, r: nat)
    requires Inv(c, app, queue, pend, rpc, starts, waits, draining)
    requires r < |queue| && queue[r] != []
    ensures Inv(c, app - {Loc(r, queue[r][0])}, queue[r := queue[r][1..]], pend, rpc, starts, waits, draining)
  {
    var a := Loc(r, queue[r][0]);
    DequeueGone(c, app, queue, pend, r);
    SameCallsOff(c, app, pend, a, App(0, Idle));
    ContentFrame(app, pend, app - {a}, pend, None, rpc, starts, waits);
  }

  /** process_req sends the request of the block at the head of the queue. */
  lemma SendInv(c: Config, app: Apps, queue: seq<seq<nat>>, pend: Pend, rpc: Wire,
                starts: Life.Starts, waits: Waits, draining: set<nat>, r: nat, p: App, m: Rpc, clock: nat)
    requires Inv(c, app, queue, pend, rpc, starts, waits, draining)
    requires r < |queue| && queue[r] != [] && clock !in rpc
    requires m.src == r && m.msg.Ask? && m.dst == m.msg.call.Peer() && m.msg.xid % c.N == r && m.Key() !in pend
    requires p.req == BusyCall(m.msg.call, Some(m.msg.xid))
    ensures Inv(c, app[Loc(r, queue[r][0]) := p], queue[r := queue[r][1..]], pend[m.Key() := queue[r][0]],
                rpc[clock := m], starts, waits, draining)
  {
    var a := Loc(r, queue[r][0]);
    DequeueSend(c, app, queue, pend, r, p, m.msg.xid);
    AddWire(rpc, starts, waits, clock, m);
    Enter(Tokens(rpc, starts, waits), pend, draining, OnWire(clock), m.Key(), a.lidx);
    SendContent(c, app, pend, rpc, starts, waits, a, p, m, clock);
  }

  lemma SendContent(c: Config, app: Apps, pend: Pend, rpc: Wire, starts: Life.Starts, waits: Waits, a: Loc, p: App,
                    m: Rpc, clock: nat)
    requires PendOk(c, app, pend) && ContentOk(app, pend, rpc, starts, waits)
    requires a in app && OnQueue(app[a].req) && m.src == a.rank
    requires m.msg.Ask? && m.dst == m.msg.call.Peer() && m.Key() !in pend
             && p.req == BusyCall(m.msg.call, Some(m.msg.xid))
    ensures ContentOk(app[a := p], pend[m.Key() := a.lidx], rpc[clock := m], starts, waits)
  {
  }

  /** A reply reaches its pending request. */
  lemma AnswerInv(c: Config, app: Apps, queue: seq<seq<nat>>, pend: Pend, rpc: Wire,
                  starts: Life.Starts, waits: Waits, draining: set<nat>, k: nat, p: App)
    requires Inv(c, app, queue, pend, rpc, starts, waits, draining)
    requires k in rpc && rpc[k].Key() in pend && Resting(p.req)
    ensures var id := rpc[k].Key();
            Inv(c, app[Loc(id.rank, pend[id]) := p], queue, pend - {id}, rpc - {k}, starts, waits, draining)
  {
    var id := rpc[k].Key();
    var v := Tokens(rpc, starts, waits);
    assert OnWire(k) in v && v[OnWire(k)] == id;
    AnswerBlock(c, app, queue, pend, id, p);
    CutWire(rpc, starts, waits, k);
    Leave(v, pend, draining, OnWire(k));
    AnswerContent(c, app, pend, rpc, starts, waits, draining, k, p);
  }

  lemma AnswerContent(c: Config, app: Apps, pend: Pend, rpc: Wire, starts: Life.Starts, waits: Waits,
                      draining: set<nat>, k: nat, p: App)
    requires PendOk(c, app, pend) && ContentOk(app, pend, rpc, starts, waits)
    requires TokensOk(Tokens(rpc, starts, waits), pend, draining)
    requires k in rpc && rpc[k].Key() in pend
    ensures var id := rpc[k].Key();
            ContentOk(app[Loc(id.rank, pend[id]) := p], pend - {id}, rpc - {k}, starts, waits)
  {
    var id := rpc[k].Key();
    var v := Tokens(rpc, starts, waits);
    assert OnWire(k) in v;
    forall j | j in rpc - {k} ensures rpc[j].Key() != id { assert OnWire(j) in v; }
    forall x | x in waits ensures waits[x].caller != id { assert InWait(x) in v; }
    assert ContentOk(app, pend, rpc - {k}, starts, waits);
    assert SameCalls(app, pend, app[Loc(id.rank, pend[id]) := p], pend - {id}, Some(id));
    ContentFrame(app, pend, app[Loc(id.rank, pend[id]) := p], pend - {id}, Some(id), rpc - {k}, starts, waits);
  }

  /** The manager answers request message k at once. */
  lemma WireToWire(c: Config, app: Apps, queue: seq<seq<nat>>, pend: Pend, rpc: Wire,
                   starts: Life.Starts, waits: Waits, draining: set<nat>, k: nat, m: Rpc, clock: nat)
    requires Inv(c, app, queue, pend, rpc, starts, waits, draining)
    requires k in rpc && clock !in rpc && m.msg.Answer? && m.Key() == rpc[k].Key()
    ensures Inv(c, app, queue, pend, (rpc - {k})[clock := m], starts, waits, draining)
  {
    var v := Tokens(rpc, starts, waits);
    CutWire(rpc, starts, waits, k);
    AddWire(rpc - {k}, starts, waits, clock, m);
    Move(v, pend, draining, OnWire(k), OnWire(clock));
  }

  lemma LoseWire(c: Config, app: Apps, queue: seq<seq<nat>>, pend: Pend, rpc: Wire,
                 starts: Life.Starts, waits: Waits, draining: set<nat>, k: nat)
    requires Inv(c, app, queue, pend, rpc, starts, waits, draining) && draining != {}
    ensures Inv(c, app, queue, pend, rpc - {k}, starts, waits, draining)
  {
    CutWire(rpc, starts, waits, k);
    Lose(Tokens(rpc, starts, waits), pend, draining, OnWire(k));
  }

  /** A CREATE becomes a START request. */
  lemma WireToStart(c: Config, app: Apps, queue: seq<seq<nat>>, pend: Pend, rpc: Wire,
                    starts: Life.Starts, waits: Waits, draining: set<nat>, k: nat, y: nat, rec: StartRec)
    requires Inv(c, app, queue, pend, rpc, starts, waits, draining)
    requires k in rpc && y !in starts && rec.caller == rpc[k].Key() && rec.caller.op == CREATE
    ensures Inv(c, app, queue, pend, rpc - {k}, starts[y := rec], waits, draining)
  {
    CutWire(rpc, starts, waits, k);
    AddStart(rpc - {k}, starts, waits, y, rec);
    Move(Tokens(rpc, starts, waits), pend, draining, OnWire(k), InStart(y));
  }

  /** A START request becomes a CREATED. */
  lemma StartToWire(c: Config, app: Apps, queue: seq<seq<nat>>, pend: Pend, rpc: Wire,
                    starts: Life.Starts, waits: Waits, draining: set<nat>, y: nat, m: Rpc, clock: nat)
    requires Inv(c, app, queue, pend, rpc, starts, waits, draining)
    requires y in starts && clock !in rpc && m.msg.Answer? && m.Key() == starts[y].caller
    ensures Inv(c, app, queue, pend, rpc[clock := m], starts - {y}, waits, draining)
  {
    StartToWireTokens(pend, rpc, starts, waits, draining, y, m, clock);
  }

  lemma StartToWireTokens(pend: Pend, rpc: Wire, starts: Life.Starts, waits: Waits, draining: set<nat>, y: nat, m: Rpc,
                          clock: nat)
    requires TokensOk(Tokens(rpc, starts, waits), pend, draining)
    requires y in starts && clock !in rpc && m.Key() == starts[y].caller
    ensures TokensOk(Tokens(rpc[clock := m], starts - {y}, waits), pend, draining)
  {
    CutStart(rpc, starts, waits, y);
    AddWire(rpc, starts - {y}, waits, clock, m);
    Move(Tokens(rpc, starts, waits), pend, draining, InStart(y), OnWire(clock));
  }

  lemma LoseStart(c: Config, app: Apps, queue: seq<seq<nat>>, pend: Pend, rpc: Wire,
                  starts: Life.Starts, waits: Waits, draining: set<nat>, y: nat)
    requires Inv(c, app, queue, pend, rpc, starts, waits, draining) && draining != {}
    ensures Inv(c, app, queue, pend, rpc, starts - {y}, waits, draining)
  {
    CutStart(rpc, starts, waits, y);
    Lose(Tokens(rpc, starts, waits), pend, draining, InStart(y));
  }

  /** No JOINWAIT has the xidseq of a JOIN that is still in flight, although the
      numbers come from different ranks. */
  lemma WaitIsFresh(c: Config, app: Apps, pend: Pend, rpc: Wire, starts: Life.Starts, waits: Waits, draining: set<nat>,
                    k: nat)
    requires PendOk(c, app, pend) && TokensOk(Tokens(rpc, starts, waits), pend, draining)
    requires ContentOk(app, pend, rpc, starts, waits)
    requires k in rpc && rpc[k].Key().op == JOIN
    ensures rpc[k].Key().xid !in waits
  {
    var id := rpc[k].Key();
    var v := Tokens(rpc, starts, waits);
    assert OnWire(k) in v && v[OnWire(k)] in pend;
    assert forall x :: x in waits ==> InWait(x) in v && v[InWait(x)] in pend && v[InWait(x)] != id;
  }

  /** A JOIN becomes a JOINWAIT. */
  lemma WireToWait(c: Config, app: Apps, queue: seq<seq<nat>>, pend: Pend, rpc: Wire,
                   starts: Life.Starts, waits: Waits, draining: set<nat>, k: nat, tid: nat)
    requires Inv(c, app, queue, pend, rpc, starts, waits, draining)
    requires k in rpc && rpc[k].msg.Ask? && rpc[k].msg.call.CallJoin?
    ensures Inv(c, app, queue, pend, rpc - {k}, starts,
                waits[rpc[k].msg.xid := WaitRec(rpc[k].msg.call.thread, rpc[k].Key(), tid)], draining)
  {
    var x := rpc[k].msg.xid;
    var rec := WaitRec(rpc[k].msg.call.thread, rpc[k].Key(), tid);
    WaitIsFresh(c, app, pend, rpc, starts, waits, draining, k);
    WireToWaitTokens(pend, rpc, starts, waits, draining, k, x, rec);
    AddWaitContent(app, pend, rpc, starts, waits, x, rec);
    CutContent(app, pend, rpc, starts, waits[x := rec], {k}, {});
    assert waits[x := rec] - {} == waits[x := rec];
  }

  lemma WireToWaitTokens(pend: Pend, rpc: Wire, starts: Life.Starts, waits: Waits, draining: set<nat>, k: nat, x: nat,
                         rec: WaitRec)
    requires TokensOk(Tokens(rpc, starts, waits), pend, draining)
    requires k in rpc && x !in waits && rec.caller == rpc[k].Key()
    ensures TokensOk(Tokens(rpc - {k}, starts, waits[x := rec]), pend, draining)
  {
    CutWire(rpc, starts, waits, k);
    AddWait(rpc - {k}, starts, waits, x, rec);
    Move(Tokens(rpc, starts, waits), pend, draining, OnWire(k), InWait(x));
  }

  /** A JOINWAIT becomes a JOINED. */
  lemma WaitToWire(c: Config, app: Apps, queue: seq<seq<nat>>, pend: Pend, rpc: Wire,
                   starts: Life.Starts, waits: Waits, draining: set<nat>, x: nat, m: Rpc, clock: nat)
    requires Inv(c, app, queue, pend, rpc, starts, waits, draining)
    requires x in waits && clock !in rpc && m.msg.Answer? && m.Key() == waits[x].caller
    ensures Inv(c, app, queue, pend, rpc[clock := m], starts, waits - {x}, draining)
  {
    WaitToWireTokens(pend, rpc, starts, waits, draining, x, m, clock);
    CutContent(app, pend, rpc, starts, waits, {}, {x});
    assert rpc - {} == rpc;
    AddAnswer(app, pend, rpc, starts, waits - {x}, m, clock);
  }

  lemma WaitToWireTokens(pend: Pend, rpc: Wire, starts: Life.Starts, waits: Waits, draining: set<nat>, x: nat, m: Rpc,
                         clock: nat)
    requires TokensOk(Tokens(rpc, starts, waits), pend, draining)
    requires x in waits && clock !in rpc && m.Key() == waits[x].caller
    ensures TokensOk(Tokens(rpc[clock := m], starts, waits - {x}), pend, draining)
  {
    CutWait(rpc, starts, waits, x);
    AddWire(rpc, starts, waits - {x}, clock, m);
    Move(Tokens(rpc, starts, waits), pend, draining, InWait(x), OnWire(clock));
  }

  lemma LoseWait(c: Config, app: Apps, queue: seq<seq<nat>>, pend: Pend, rpc: Wire,
                 starts: Life.Starts, waits: Waits, draining: set<nat>, x: nat)
    requires Inv(c, app, queue, pend, rpc, starts, waits, draining) && draining != {}
    ensures Inv(c, app, queue, pend, rpc, starts, waits - {x}, draining)
  {
    CutWait(rpc, starts, waits, x);
    Lose(Tokens(rpc, starts, waits), pend, draining, InWait(x));
  }

  /** Whatever answers a call finds the thread that made it still blocked on it. */
  lemma FindsCaller(c: Config, app: Apps, queue: seq<seq<nat>>, pend: Pend, rpc: Wire,
                    starts: Life.Starts, waits: Waits, draining: set<nat>, k: nat)
    requires Inv(c, app, queue, pend, rpc, starts, waits, draining) && k in rpc
    ensures rpc[k].Key() in pend && PendsAs(app, rpc[k].Key(), pend[rpc[k].Key()])
  {
    TokensPend(pend, rpc, starts, waits, draining);
  }

  /** Whatever carries a token belongs to a pending request. */
  lemma TokensPend(pend: Pend, rpc: Wire, starts: Life.Starts, waits: Waits, draining: set<nat>)
    requires TokensOk(Tokens(rpc, starts, waits), pend, draining)
    ensures forall k :: k in rpc ==> rpc[k].Key() in pend
    ensures forall y :: y in starts ==> starts[y].caller in pend
    ensures forall x :: x in waits ==> waits[x].caller in pend
  {
    var v := Tokens(rpc, starts, waits);
    assert forall k :: k in rpc ==> OnWire(k) in v && v[OnWire(k)] == rpc[k].Key();
    assert forall y :: y in starts ==> InStart(y) in v && v[InStart(y)] == starts[y].caller;
    assert forall x :: x in waits ==> InWait(x) in v && v[InWait(x)] == waits[x].caller;
  }
}
