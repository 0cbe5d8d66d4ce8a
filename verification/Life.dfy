/** What every step keeps about the thread tables: which slots are in use, which
    ltab entries stand for them, and which START, STARTED and TERMINATED messages
    are on the way.  Everything here holds for arbitrary application behaviour,
    including forged handles, and while ranks drain. */
module Life {
  import opened Types
  import opened Machine

  type Gtab = seq<Slot>
  type Ltab = map<Loc, Local>
  type Starts = map<nat, StartRec>
  type Wire = map<nat, Ctl>

  // ------------------------------------------------------------ the invariant

  ghost predicate SlotOk(c: Config, g: Slot, i: nat, lt: Ltab) {
    && (!g.used ==> g.gen == 0 && !g.hasLtab)
    && (g.used ==> g.gen > 0 && g.rank < c.N)
    && (NeedFinalState(g.terminated) ==> g.terminated == 0)
    && (g.hasLtab ==> Loc(g.rank, g.ltabIdx) in lt && lt[Loc(g.rank, g.ltabIdx)].gidx == i)
  }

  ghost predicate SlotsOk(c: Config, gtab: Gtab, lt: Ltab) {
    |gtab| == c.M && forall i :: 0 <= i < |gtab| ==> SlotOk(c, gtab[i], i, lt)
  }

  /** The slot h names is allocated under h's number and not terminated. */
  ghost predicate Live(gtab: Gtab, h: Handle) {
    Accepts(gtab, h) && gtab[h.idx].terminated == 0
  }

  /** An occupied ltab entry stands for a live slot of its own rank, and is the
      only one that does. */
  ghost predicate LocalsOk(c: Config, gtab: Gtab, lt: Ltab) {
    && (forall a :: a in lt ==>
          && a.rank < c.N && a.lidx < c.M
          && Live(gtab, Handle(lt[a].gidx, lt[a].gen)) && gtab[lt[a].gidx].rank == a.rank)
    && (forall a, b :: a in lt && b in lt && lt[a].gidx == lt[b].gidx ==> a == b)
  }

  /** A pending START names a live slot, and is the only one that does. */
  ghost predicate StartsOk(c: Config, gtab: Gtab, starts: Starts) {
    && (forall y :: y in starts ==>
          Live(gtab, starts[y].thread) && 0 < gtab[starts[y].thread.idx].disp < c.ndsps)
    && (forall y, z :: y in starts && z in starts && starts[y].thread.idx == starts[z].thread.idx ==> y == z)
  }

  /** The slot a control message is about, -1 if none. */
  ghost function About(starts: Starts, m: CtlMsg): int {
    match m
    case Start(_, h) => h.idx
    case Started(y, _) => if y in starts then starts[y].thread.idx else -1
    case Terminated(h, _) => h.idx
  }

  /** Every control message is about a live slot and runs between rank 0 and
      the rank of that slot. */
  ghost predicate MsgOk(gtab: Gtab, starts: Starts, p: Ctl) {
    var i := About(starts, p.msg);
    && 0 <= i < |gtab| && gtab[i].used && gtab[i].terminated == 0
    && (if p.msg.Start? then p.src == 0 && p.dst == gtab[i].rank
        else p.dst == 0 && p.src == gtab[i].rank)
    && (p.msg.Start? ==> p.msg.xid in starts && starts[p.msg.xid].thread == p.msg.thread)
    && (p.msg.Terminated? ==> p.msg.thread.gen == gtab[i].gen && !NeedFinalState(p.msg.fin))
  }

  ghost predicate MsgsOk(gtab: Gtab, starts: Starts, ctl: Wire) {
    forall k :: k in ctl ==> MsgOk(gtab, starts, ctl[k])
  }

  /** Two control messages about one slot are a success STARTED followed by a
      TERMINATED. */
  ghost predicate PairsOk(starts: Starts, ctl: Wire) {
    forall j, k | j in ctl && k in ctl && About(starts, ctl[j].msg) == About(starts, ctl[k].msg) && j < k ::
      ctl[j].msg.Started? && ctl[j].msg.err == 0 && ctl[k].msg.Terminated?
  }

  /** While a slot has an ltab entry, the only message about it is STARTED. */
  ghost predicate HostedOk(lt: Ltab, starts: Starts, ctl: Wire) {
    forall a, k | a in lt && k in ctl && About(starts, ctl[k].msg) == lt[a].gidx ::
      ctl[k].msg.Started? && ctl[k].msg.err == 0
  }

  /** STARTED for START request y is in flight and older than stamp k. */
  ghost predicate StartedBefore(ctl: Wire, y: nat, k: nat) {
    exists j :: j in ctl && j < k && ctl[j].msg.Started? && ctl[j].msg.xid == y
  }

  /** A TERMINATED has not overtaken the thread's own STARTED. */
  ghost predicate OrderOk(starts: Starts, ctl: Wire) {
    forall k, y | k in ctl && ctl[k].msg.Terminated? && y in starts && starts[y].thread.idx == ctl[k].msg.thread.idx ::
      StartedBefore(ctl, y, k)
  }

  /** A hosted thread whose START is still pending has its STARTED in flight,
      unless its rank was already refusing to send. */
  ghost predicate ComingOk(lt: Ltab, starts: Starts, ctl: Wire, clock: nat, draining: set<nat>) {
    forall a, y | a in lt && y in starts && starts[y].thread.idx == lt[a].gidx ::
      a.rank in draining || StartedBefore(ctl, y, clock)
  }

  ghost predicate StampsOk(ctl: Wire, clock: nat) {
    forall k :: k in ctl ==> k < clock
  }

  ghost predicate Tables(c: Config, gtab: Gtab, lt: Ltab, starts: Starts, ctl: Wire, clock: nat, draining: set<nat>) {
    && SlotsOk(c, gtab, lt) && LocalsOk(c, gtab, lt) && StartsOk(c, gtab, starts)
    && MsgsOk(gtab, starts, ctl) && WireOk(lt, starts, ctl, clock, draining)
  }

  // rank 0's counters

  ghost predicate Starting(starts: Starts, i: nat) {
    exists y :: y in starts && starts[y].thread.idx == i
  }

  ghost function Used(gtab: Gtab): set<nat> {
    set i: nat | i < |gtab| && gtab[i].used
  }

  /** Threads whose STARTED but not TERMINATED rank 0 has processed. */
  ghost function Running(gtab: Gtab, starts: Starts): set<nat> {
    set i: nat | i < |gtab| && gtab[i].used && gtab[i].terminated == 0 && !Starting(starts, i)
  }

  ghost predicate CountersOk(v: Machine.Life) {
    v.nAlloc == |Used(v.gtab)| && v.nStarting == |v.starts| && v.nRunning == |Running(v.gtab, v.starts)|
  }

  ghost predicate Inv(c: Config, v: Machine.Life, clock: nat, draining: set<nat>) {
    Tables(c, v.gtab, v.lt, v.starts, v.ctl, clock, draining) && CountersOk(v)
  }

  // ------------------------------------------------------------ changes to one slot

  /** Nothing refers to slot i. */
  ghost predicate Loose(lt: Ltab, starts: Starts, ctl: Wire, i: nat) {
    && (forall a :: a in lt ==> lt[a].gidx != i)
    && (forall y :: y in starts ==> starts[y].thread.idx != i)
    && (forall k :: k in ctl ==> About(starts, ctl[k].msg) != i)
  }

  lemma UnusedIsLoose(c: Config, gtab: Gtab, lt: Ltab, starts: Starts, ctl: Wire, i: nat)
    requires LocalsOk(c, gtab, lt) && StartsOk(c, gtab, starts) && MsgsOk(gtab, starts, ctl)
    requires i < |gtab| && (!gtab[i].used || gtab[i].terminated != 0)
    ensures Loose(lt, starts, ctl, i)
  {
  }

  lemma SlotChange(c: Config, gtab: Gtab, lt: Ltab, starts: Starts, ctl: Wire, i: nat, g: Slot)
    requires SlotsOk(c, gtab, lt) && LocalsOk(c, gtab, lt) && StartsOk(c, gtab, starts) && MsgsOk(gtab, starts, ctl)
    requires i < |gtab| && SlotOk(c, g, i, lt)
    requires Loose(lt, starts, ctl, i)
    ensures SlotsOk(c, gtab[i := g], lt) && LocalsOk(c, gtab[i := g], lt)
    ensures StartsOk(c, gtab[i := g], starts) && MsgsOk(gtab[i := g], starts, ctl)
  {
  }

  ghost predicate SameKeys(g: Slot, h: Slot) {
    g.used == h.used && g.gen == h.gen && g.rank == h.rank && g.terminated == h.terminated && g.disp == h.disp
  }

  lemma SlotData(c: Config, gtab: Gtab, lt: Ltab, starts: Starts, ctl: Wire, i: nat, g: Slot)
    requires SlotsOk(c, gtab, lt) && LocalsOk(c, gtab, lt) && StartsOk(c, gtab, starts) && MsgsOk(gtab, starts, ctl)
    requires i < |gtab| && SlotOk(c, g, i, lt) && SameKeys(gtab[i], g)
    ensures SlotsOk(c, gtab[i := g], lt) && LocalsOk(c, gtab[i := g], lt)
    ensures StartsOk(c, gtab[i := g], starts) && MsgsOk(gtab[i := g], starts, ctl)
  {
  }

  lemma UsedChange(gtab: Gtab, i: nat, g: Slot)
    requires i < |gtab|
    ensures |Used(gtab[i := g])| == |Used(gtab)| + (if g.used then 1 else 0) - (if gtab[i].used then 1 else 0)
  {
    if g.used { assert Used(gtab[i := g]) == Used(gtab) + {i}; }
    else { assert Used(gtab[i := g]) == Used(gtab) - {i}; }
  }

  lemma RunningChange(gtab: Gtab, starts: Starts, i: nat, g: Slot)
    requires i < |gtab|
    ensures var w := gtab[i := g];
            |Running(w, starts)| == |Running(gtab, starts)|
              + (if i in Running(w, starts) then 1 else 0) - (if i in Running(gtab, starts) then 1 else 0)
  {
    hide Running;
    OthersRun(gtab, starts, i, g);
    OneDiffers(Running(gtab[i := g], starts), Running(gtab, starts), i);
  }

  lemma OthersRun(gtab: Gtab, starts: Starts, i: nat, g: Slot)
    requires i < |gtab|
    ensures forall j :: j != i ==> (j in Running(gtab[i := g], starts) <==> j in Running(gtab, starts))
  {
    hide Starting;
  }

  /** Two sets that differ at most in i. */
  lemma OneDiffers(a: set<nat>, b: set<nat>, i: nat)
    requires forall j :: j != i ==> (j in a <==> j in b)
    ensures |a| == |b| + (if i in a then 1 else 0) - (if i in b then 1 else 0)
  {
    if i in a { assert a == b + {i}; } else { assert a == b - {i}; }
  }

  // ------------------------------------------------------------ changes to the wire

  ghost predicate WireOk(lt: Ltab, starts: Starts, ctl: Wire, clock: nat, draining: set<nat>) {
    && PairsOk(starts, ctl) && HostedOk(lt, starts, ctl) && OrderOk(starts, ctl)
    && ComingOk(lt, starts, ctl, clock, draining) && StampsOk(ctl, clock)
  }

  lemma KeepStarted(old_: Wire, new_: Wire, y: nat, k: nat)
    requires StartedBefore(old_, y, k)
    requires forall j :: j in old_ && old_[j].msg.Started? && old_[j].msg.xid == y ==> j in new_ && new_[j] == old_[j]
    ensures StartedBefore(new_, y, k)
  {
  }

  /** Sending p is in order: what else is about its slot allows it. */
  ghost predicate CanSend(lt: Ltab, starts: Starts, ctl: Wire, clock: nat, p: Ctl) {
    var i := About(starts, p.msg);
    && (forall j :: j in ctl && About(starts, ctl[j].msg) == i ==>
          ctl[j].msg.Started? && ctl[j].msg.err == 0 && p.msg.Terminated?)
    && (forall a :: a in lt && lt[a].gidx == i ==> p.msg.Started? && p.msg.err == 0)
    && (p.msg.Terminated? ==>
          forall y :: y in starts && starts[y].thread.idx == p.msg.thread.idx ==> StartedBefore(ctl, y, clock))
  }

  lemma Send(lt: Ltab, starts: Starts, ctl: Wire, clock: nat, draining: set<nat>, p: Ctl)
    requires WireOk(lt, starts, ctl, clock, draining) && CanSend(lt, starts, ctl, clock, p)
    ensures WireOk(lt, starts, ctl[clock := p], clock + 1, draining)
  {
    SendPairs(lt, starts, ctl, clock, p);
    SendOrder(lt, starts, ctl, clock, draining, p);
  }

  lemma SendPairs(lt: Ltab, starts: Starts, ctl: Wire, clock: nat, p: Ctl)
    requires PairsOk(starts, ctl) && HostedOk(lt, starts, ctl) && StampsOk(ctl, clock)
             && CanSend(lt, starts, ctl, clock, p)
    ensures PairsOk(starts, ctl[clock := p]) && HostedOk(lt, starts, ctl[clock := p])
            && StampsOk(ctl[clock := p], clock + 1)
  {
  }

  lemma SendOrder(lt: Ltab, starts: Starts, ctl: Wire, clock: nat, draining: set<nat>, p: Ctl)
    requires OrderOk(starts, ctl) && ComingOk(lt, starts, ctl, clock, draining) && StampsOk(ctl, clock)
    requires CanSend(lt, starts, ctl, clock, p)
    ensures OrderOk(starts, ctl[clock := p]) && ComingOk(lt, starts, ctl[clock := p], clock + 1, draining)
  {
    var w := ctl[clock := p];
    forall k, y | k in w && w[k].msg.Terminated? && y in starts && starts[y].thread.idx == w[k].msg.thread.idx
      ensures StartedBefore(w, y, k)
    {
      assert StartedBefore(ctl, y, k);
      KeepStarted(ctl, w, y, k);
    }
    forall a, y | a in lt && y in starts && starts[y].thread.idx == lt[a].gidx && a.rank !in draining
      ensures StartedBefore(w, y, clock + 1)
    {
      KeepStarted(ctl, w, y, clock);
    }
  }

  /** A message may leave the wire if it is no STARTED of a pending START. */
  lemma Drop(lt: Ltab, starts: Starts, ctl: Wire, clock: nat, draining: set<nat>, k: nat)
    requires WireOk(lt, starts, ctl, clock, draining)
    requires k in ctl && (ctl[k].msg.Started? ==> ctl[k].msg.xid !in starts)
    ensures WireOk(lt, starts, ctl - {k}, clock, draining)
  {
    var w := ctl - {k};
    forall j, y | j in w && w[j].msg.Terminated? && y in starts && starts[y].thread.idx == w[j].msg.thread.idx
      ensures StartedBefore(w, y, j)
    {
      KeepStarted(ctl, w, y, j);
    }
    forall a, y | a in lt && y in starts && starts[y].thread.idx == lt[a].gidx && a.rank !in draining
      ensures StartedBefore(w, y, clock)
    {
      KeepStarted(ctl, w, y, clock);
    }
  }

  // ------------------------------------------------------------ CREATE at rank 0

  ghost predicate CanCreate(c: Config, gtab: Gtab, starts: Starts, p: nat, g: Slot, y: nat, rec: StartRec) {
    && p < |gtab| && !gtab[p].used && y !in starts
    && g.used && g.rank < c.N && g.gen > 0 && g.terminated == 0 && !g.hasLtab && 0 < g.disp < c.ndsps
    && rec.thread == Handle(p, g.gen)
  }

  /** A new START request on a loose slot does not change what messages are about. */
  lemma NewStart(lt: Ltab, starts: Starts, ctl: Wire, clock: nat, draining: set<nat>, y: nat, rec: StartRec)
    requires WireOk(lt, starts, ctl, clock, draining) && y !in starts && Loose(lt, starts, ctl, rec.thread.idx)
    requires forall k :: k in ctl && ctl[k].msg.Started? ==> ctl[k].msg.xid in starts
    ensures forall k :: k in ctl ==> About(starts[y := rec], ctl[k].msg) == About(starts, ctl[k].msg)
    ensures WireOk(lt, starts[y := rec], ctl, clock, draining)
  {
  }

  lemma NewStartTables(c: Config, gtab: Gtab, starts: Starts, ctl: Wire, y: nat, rec: StartRec)
    requires StartsOk(c, gtab, starts) && MsgsOk(gtab, starts, ctl) && y !in starts
    requires Live(gtab, rec.thread) && 0 < gtab[rec.thread.idx].disp < c.ndsps
    requires forall z :: z in starts ==> starts[z].thread.idx != rec.thread.idx
    ensures StartsOk(c, gtab, starts[y := rec]) && MsgsOk(gtab, starts[y := rec], ctl)
  {
  }

  lemma CreateKeeps(c: Config, gtab: Gtab, lt: Ltab, starts: Starts, ctl: Wire, clock: nat, draining: set<nat>,
                    p: nat, g: Slot, y: nat, rec: StartRec)
    requires Tables(c, gtab, lt, starts, ctl, clock, draining) && CanCreate(c, gtab, starts, p, g, y, rec)
    ensures Tables(c, gtab[p := g], lt, starts[y := rec],
                   ctl[clock := Ctl(0, g.rank, Start(y, rec.thread))], clock + 1, draining)
  {
    UnusedIsLoose(c, gtab, lt, starts, ctl, p);
    SlotChange(c, gtab, lt, starts, ctl, p, g);
    NewStart(lt, starts, ctl, clock, draining, y, rec);
    NewStartTables(c, gtab[p := g], starts, ctl, y, rec);
    Send(lt, starts[y := rec], ctl, clock, draining, Ctl(0, g.rank, Start(y, rec.thread)));
  }

  // ------------------------------------------------------------ START at the target rank

  /** While a START is in flight nothing else is about its slot. */
  lemma StartIsAlone(gtab: Gtab, lt: Ltab, starts: Starts, ctl: Wire, k: nat)
    requires MsgsOk(gtab, starts, ctl) && PairsOk(starts, ctl) && HostedOk(lt, starts, ctl)
    requires k in ctl && ctl[k].msg.Start?
    ensures forall j :: j in ctl && About(starts, ctl[j].msg) == About(starts, ctl[k].msg) ==> j == k
    ensures forall a :: a in lt ==> lt[a].gidx != About(starts, ctl[k].msg)
  {
  }

  /** STARTED replaces START; nothing if the rank drains. */
  ghost function Reply(ctl: Wire, k: nat, clock: nat, sent: bool, p: Ctl): Wire {
    if sent then (ctl - {k})[clock := p] else ctl - {k}
  }

  lemma StartReply(c: Config, gtab: Gtab, lt: Ltab, starts: Starts, ctl: Wire, clock: nat, draining: set<nat>,
                   k: nat, sent: bool, err: nat)
    requires Tables(c, gtab, lt, starts, ctl, clock, draining)
    requires k in ctl && ctl[k].msg.Start?
    ensures var w := Reply(ctl, k, clock, sent, Ctl(ctl[k].dst, 0, Started(ctl[k].msg.xid, err)));
            Tables(c, gtab, lt, starts, w, if sent then clock + 1 else clock, draining)
  {
    StartIsAlone(gtab, lt, starts, ctl, k);
    Drop(lt, starts, ctl, clock, draining, k);
    if sent { Send(lt, starts, ctl - {k}, clock, draining, Ctl(ctl[k].dst, 0, Started(ctl[k].msg.xid, err))); }
  }

  lemma AddLocal(c: Config, gtab: Gtab, lt: Ltab, starts: Starts, ctl: Wire, clock: nat, draining: set<nat>, a: Loc,
                 e: Local)
    requires Tables(c, gtab, lt, starts, ctl, clock, draining)
    requires a !in lt && a.lidx < c.M && a.rank < c.N
    requires Live(gtab, Handle(e.gidx, e.gen)) && gtab[e.gidx].rank == a.rank
    requires forall b :: b in lt ==> lt[b].gidx != e.gidx
    requires forall k :: k in ctl && About(starts, ctl[k].msg) == e.gidx ==> ctl[k].msg.Started? && ctl[k].msg.err == 0
    requires forall y :: y in starts && starts[y].thread.idx == e.gidx ==>
               a.rank in draining || StartedBefore(ctl, y, clock)
    ensures Tables(c, gtab, lt[a := e], starts, ctl, clock, draining)
  {
    AddLocalTables(c, gtab, lt, a, e);
  }

  lemma AddLocalTables(c: Config, gtab: Gtab, lt: Ltab, a: Loc, e: Local)
    requires SlotsOk(c, gtab, lt) && LocalsOk(c, gtab, lt)
    requires a !in lt && a.lidx < c.M && a.rank < c.N
    requires Live(gtab, Handle(e.gidx, e.gen)) && gtab[e.gidx].rank == a.rank
    requires forall b :: b in lt ==> lt[b].gidx != e.gidx
    ensures SlotsOk(c, gtab, lt[a := e]) && LocalsOk(c, gtab, lt[a := e])
  {
  }

  lemma StartOkKeeps(c: Config, gtab: Gtab, lt: Ltab, starts: Starts, ctl: Wire, clock: nat, draining: set<nat>,
                     k: nat, l: nat)
    requires Tables(c, gtab, lt, starts, ctl, clock, draining)
    requires k in ctl && ctl[k].msg.Start? && l < c.M && Loc(ctl[k].dst, l) !in lt
    ensures var h := ctl[k].msg.thread;
            var sent := ctl[k].dst !in draining;
            var w := Reply(ctl, k, clock, sent, Ctl(ctl[k].dst, 0, Started(ctl[k].msg.xid, 0)));
            Tables(c, gtab, lt[Loc(ctl[k].dst, l) := Local(h.idx, h.gen)], starts, w,
                   if sent then clock + 1 else clock, draining)
  {
    var h := ctl[k].msg.thread;
    var y := ctl[k].msg.xid;
    var sent := ctl[k].dst !in draining;
    var w := Reply(ctl, k, clock, sent, Ctl(ctl[k].dst, 0, Started(y, 0)));
    StartReply(c, gtab, lt, starts, ctl, clock, draining, k, sent, 0);
    StartIsAlone(gtab, lt, starts, ctl, k);
    if sent { assert StartedBefore(w, y, clock + 1) by { assert clock in w && w[clock].msg.xid == y; } }
    assert MsgOk(gtab, starts, ctl[k]);
    AddLocal(c, gtab, lt, starts, w, if sent then clock + 1 else clock, draining, Loc(ctl[k].dst, l),
             Local(h.idx, h.gen));
  }

  // ------------------------------------------------------------ STARTED at rank 0

  lemma StartedIsFirst(starts: Starts, ctl: Wire, k: nat)
    requires PairsOk(starts, ctl) && k in ctl && ctl[k].msg.Started?
    ensures forall j :: j in ctl && j != k && About(starts, ctl[j].msg) == About(starts, ctl[k].msg) ==>
              ctl[j].msg.Terminated? && ctl[k].msg.err == 0
  {
  }

  lemma StartedKeeps(c: Config, gtab: Gtab, lt: Ltab, starts: Starts, ctl: Wire, clock: nat, draining: set<nat>, k: nat)
    requires Tables(c, gtab, lt, starts, ctl, clock, draining)
    requires k in ctl && ctl[k].msg.Started?
    ensures Tables(c, gtab, lt, starts - {ctl[k].msg.xid}, ctl - {k}, clock, draining)
  {
    var y := ctl[k].msg.xid;
    StartedIsFirst(starts, ctl, k);
    assert MsgOk(gtab, starts, ctl[k]);
    forall j | j in ctl && j != k ensures About(starts - {y}, ctl[j].msg) == About(starts, ctl[j].msg) {
    }
    StartedWire(lt, starts, ctl, clock, draining, k);
    StartedTables(c, gtab, starts, ctl, k);
  }

  lemma StartedTables(c: Config, gtab: Gtab, starts: Starts, ctl: Wire, k: nat)
    requires StartsOk(c, gtab, starts) && MsgsOk(gtab, starts, ctl) && PairsOk(starts, ctl)
    requires k in ctl && ctl[k].msg.Started? && ctl[k].msg.xid in starts
    requires forall j :: j in ctl && j != k ==>
               About(starts - {ctl[k].msg.xid}, ctl[j].msg) == About(starts, ctl[j].msg)
    ensures StartsOk(c, gtab, starts - {ctl[k].msg.xid}) && MsgsOk(gtab, starts - {ctl[k].msg.xid}, ctl - {k})
  {
  }

  lemma StartedWire(lt: Ltab, starts: Starts, ctl: Wire, clock: nat, draining: set<nat>, k: nat)
    requires WireOk(lt, starts, ctl, clock, draining)
    requires k in ctl && ctl[k].msg.Started?
    requires forall j :: j in ctl && j != k ==>
               About(starts - {ctl[k].msg.xid}, ctl[j].msg) == About(starts, ctl[j].msg)
    ensures WireOk(lt, starts - {ctl[k].msg.xid}, ctl - {k}, clock, draining)
  {
    var y := ctl[k].msg.xid;
    var w := ctl - {k};
    var z := starts - {y};
    forall j, x | j in w && w[j].msg.Terminated? && x in z && z[x].thread.idx == w[j].msg.thread.idx
      ensures StartedBefore(w, x, j)
    {
      KeepStarted(ctl, w, x, j);
    }
    forall a, x | a in lt && x in z && z[x].thread.idx == lt[a].gidx && a.rank !in draining
      ensures StartedBefore(w, x, clock)
    {
      KeepStarted(ctl, w, x, clock);
    }
  }

  /** A failed start leaves its slot loose. */
  lemma FailedIsLoose(c: Config, gtab: Gtab, lt: Ltab, starts: Starts, ctl: Wire, k: nat)
    requires StartsOk(c, gtab, starts) && MsgsOk(gtab, starts, ctl) && PairsOk(starts, ctl) && HostedOk(lt, starts, ctl)
    requires k in ctl && ctl[k].msg.Started? && ctl[k].msg.err != 0
    ensures ctl[k].msg.xid in starts
    ensures Loose(lt, starts - {ctl[k].msg.xid}, ctl - {k}, starts[ctl[k].msg.xid].thread.idx)
  {
  }

  // ------------------------------------------------------------ RETCLEAN at the hosting rank

  lemma RemoveLocal(c: Config, gtab: Gtab, lt: Ltab, a: Loc, g: Slot)
    requires SlotsOk(c, gtab, lt) && LocalsOk(c, gtab, lt) && a in lt
    requires SameKeys(gtab[lt[a].gidx], g) && !g.hasLtab
    ensures SlotsOk(c, gtab[lt[a].gidx := g], lt - {a}) && LocalsOk(c, gtab[lt[a].gidx := g], lt - {a})
  {
  }

  lemma RetcleanSends(c: Config, gtab: Gtab, lt: Ltab, starts: Starts, ctl: Wire, clock: nat, draining: set<nat>,
                      a: Loc, p: Ctl)
    requires LocalsOk(c, gtab, lt) && WireOk(lt, starts, ctl, clock, draining)
    requires a in lt && p.msg.Terminated? && p.msg.thread == Handle(lt[a].gidx, lt[a].gen) && a.rank !in draining
    ensures CanSend(lt - {a}, starts, ctl, clock, p)
  {
  }

  lemma RetcleanKeeps(c: Config, gtab: Gtab, lt: Ltab, starts: Starts, ctl: Wire, clock: nat, draining: set<nat>,
                      a: Loc, g: Slot, fin: nat)
    requires Tables(c, gtab, lt, starts, ctl, clock, draining)
    requires a in lt && SameKeys(gtab[lt[a].gidx], g) && !g.hasLtab && !NeedFinalState(fin)
    ensures var sent := a.rank !in draining;
            var p := Ctl(a.rank, 0, Terminated(Handle(lt[a].gidx, lt[a].gen), fin));
            Tables(c, gtab[lt[a].gidx := g], lt - {a}, starts, if sent then ctl[clock := p] else ctl,
                   if sent then clock + 1 else clock, draining)
  {
    var i := lt[a].gidx;
    var p := Ctl(a.rank, 0, Terminated(Handle(i, lt[a].gen), fin));
    RemoveLocal(c, gtab, lt, a, g);
    SlotData(c, gtab, lt, starts, ctl, i, g);
    assert WireOk(lt - {a}, starts, ctl, clock, draining);
    if a.rank !in draining {
      RetcleanSends(c, gtab, lt, starts, ctl, clock, draining, a, p);
      Send(lt - {a}, starts, ctl, clock, draining, p);
      assert MsgOk(gtab[i := g], starts, p);
    }
  }

  // ------------------------------------------------------------ TERMINATED at rank 0

  /** When a TERMINATED is received no START of its slot is pending: its STARTED
      was sent before it on the same channel. */
  lemma TerminatedIsLoose(c: Config, gtab: Gtab, lt: Ltab, starts: Starts, ctl: Wire, clock: nat, draining: set<nat>,
                          k: nat)
    requires Tables(c, gtab, lt, starts, ctl, clock, draining)
    requires k in ctl && ctl[k].msg.Terminated?
    requires forall j :: j in ctl && ctl[j].src == ctl[k].src && ctl[j].dst == ctl[k].dst ==> k <= j
    ensures Loose(lt, starts, ctl - {k}, ctl[k].msg.thread.idx)
  {
    var i := ctl[k].msg.thread.idx;
    assert MsgOk(gtab, starts, ctl[k]);
    forall y | y in starts ensures starts[y].thread.idx != i {
    }
    forall j | j in ctl - {k} ensures About(starts, ctl[j].msg) != i {
      assert MsgOk(gtab, starts, ctl[j]);
    }
  }

  lemma DropTerminated(c: Config, gtab: Gtab, lt: Ltab, starts: Starts, ctl: Wire, clock: nat, draining: set<nat>,
                       k: nat)
    requires Tables(c, gtab, lt, starts, ctl, clock, draining)
    requires k in ctl && ctl[k].msg.Terminated?
    ensures Tables(c, gtab, lt, starts, ctl - {k}, clock, draining)
  {
    Drop(lt, starts, ctl, clock, draining, k);
  }

  // ------------------------------------------------------------ time and draining

  lemma Later(lt: Ltab, starts: Starts, ctl: Wire, clock: nat, draining: set<nat>, clock': nat, draining': set<nat>)
    requires WireOk(lt, starts, ctl, clock, draining) && clock <= clock' && draining <= draining'
    ensures WireOk(lt, starts, ctl, clock', draining')
  {
  }

  // ------------------------------------------------------------ counters

  lemma CreateCounters(gtab: Gtab, starts: Starts, p: nat, g: Slot, y: nat, rec: StartRec)
    requires p < |gtab| && !gtab[p].used && g.used && y !in starts && rec.thread.idx == p
    ensures |Used(gtab[p := g])| == |Used(gtab)| + 1 && |starts[y := rec]| == |starts| + 1
    ensures Running(gtab[p := g], starts[y := rec]) == Running(gtab, starts)
  {
    UsedChange(gtab, p, g);
    var w := starts[y := rec];
    assert w.Keys == starts.Keys + {y};
    assert w[y].thread.idx == p;
    forall i: nat | i != p ensures Starting(w, i) <==> Starting(starts, i) {
      if Starting(starts, i) { var z :| z in starts && starts[z].thread.idx == i; assert w[z].thread.idx == i; }
    }
  }

  lemma FinishStart(c: Config, gtab: Gtab, starts: Starts, y: nat)
    requires StartsOk(c, gtab, starts) && y in starts
    ensures |starts - {y}| == |starts| - 1
    ensures var i := starts[y].thread.idx;
            i !in Running(gtab, starts) && Running(gtab, starts - {y}) == Running(gtab, starts) + {i}
  {
    var w := starts - {y};
    assert w.Keys == starts.Keys - {y};
    var i := starts[y].thread.idx;
    assert Live(gtab, starts[y].thread);
    forall j: nat | j != i ensures Starting(w, j) <==> Starting(starts, j) {
      if Starting(starts, j) { var z :| z in starts && starts[z].thread.idx == j; assert w[z].thread.idx == j; }
    }
    assert !Starting(w, i);
  }
}
