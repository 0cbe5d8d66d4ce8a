/** A thread's CREATE never overtakes the STARTED that announces the thread
    itself, so the creator of a thread being started is already counted as
    running.  This is why a zero count means that nothing is starting. */
module Order {
  import opened Types
  import opened Machine
  import Life
  import Calls

  /** A CREATE in flight has not overtaken the STARTED of the thread that sent it. */
  ghost predicate CreateOrderOk(pend: Calls.Pend, rpc: Calls.Wire, lt: Life.Ltab, starts: Life.Starts, ctl: Life.Wire) {
    forall k, y :: k in rpc && rpc[k].msg.Ask? && rpc[k].msg.call.CallCreate? && y in starts ==>
      var id := rpc[k].Key();
      id in pend && Loc(id.rank, pend[id]) in lt && starts[y].thread.idx == lt[Loc(id.rank, pend[id])].gidx ==>
      Life.StartedBefore(ctl, y, k)
  }

  /** The creator of a thread being started is not itself being started. */
  ghost predicate CreatorOk(pend: Calls.Pend, lt: Life.Ltab, starts: Life.Starts) {
    forall y, z :: y in starts && z in starts ==>
      var id := starts[y].caller;
      id in pend && Loc(id.rank, pend[id]) in lt ==> starts[z].thread.idx != lt[Loc(id.rank, pend[id])].gidx
  }

  ghost predicate Inv(pend: Calls.Pend, rpc: Calls.Wire, lt: Life.Ltab, starts: Life.Starts, ctl: Life.Wire) {
    CreateOrderOk(pend, rpc, lt, starts, ctl) && CreatorOk(pend, lt, starts)
  }

  /** Fewer requests, messages and threads keep the order. */
  lemma Less(pend: Calls.Pend, rpc: Calls.Wire, lt: Life.Ltab, starts: Life.Starts, ctl: Life.Wire,
             ids: set<CallId>, ks: set<nat>, locs: set<Loc>)
    requires Inv(pend, rpc, lt, starts, ctl)
    ensures Inv(pend - ids, rpc - ks, lt - locs, starts, ctl)
  {
  }

  lemma AddReply(pend: Calls.Pend, rpc: Calls.Wire, lt: Life.Ltab, starts: Life.Starts, ctl: Life.Wire, m: Rpc,
                 clock: nat)
    requires Inv(pend, rpc, lt, starts, ctl) && m.msg.Answer?
    ensures Inv(pend, rpc[clock := m], lt, starts, ctl)
  {
  }

  /** process_req sends a request: a hosted thread's STARTED was sent before. */
  lemma AddAsk(pend: Calls.Pend, rpc: Calls.Wire, lt: Life.Ltab, starts: Life.Starts, ctl: Life.Wire,
               clock: nat, draining: set<nat>, m: Rpc, l: nat)
    requires Inv(pend, rpc, lt, starts, ctl) && Life.ComingOk(lt, starts, ctl, clock, draining)
    requires forall y :: y in starts ==> starts[y].caller in pend
    requires forall k :: k in rpc ==> rpc[k].Key() in pend
    requires m.msg.Ask? && m.src !in draining && m.Key() !in pend
    ensures Inv(pend[m.Key() := l], rpc[clock := m], lt, starts, ctl)
  {
  }

  /** The wire changes but keeps every STARTED. */
  lemma CtlChange(pend: Calls.Pend, rpc: Calls.Wire, lt: Life.Ltab, starts: Life.Starts, ctl: Life.Wire,
                  ctl': Life.Wire)
    requires Inv(pend, rpc, lt, starts, ctl)
    requires forall j :: j in ctl && ctl[j].msg.Started? ==> j in ctl' && ctl'[j] == ctl[j]
    ensures Inv(pend, rpc, lt, starts, ctl')
  {
  }

  /** A START request ends together with its STARTED. */
  lemma EndStart(pend: Calls.Pend, rpc: Calls.Wire, lt: Life.Ltab, starts: Life.Starts, ctl: Life.Wire, k: nat)
    requires Inv(pend, rpc, lt, starts, ctl) && k in ctl && ctl[k].msg.Started?
    ensures Inv(pend, rpc, lt, starts - {ctl[k].msg.xid}, ctl - {k})
  {
    forall j, y | j in rpc && y in starts - {ctl[k].msg.xid} && Life.StartedBefore(ctl, y, j)
      ensures Life.StartedBefore(ctl - {k}, y, j)
    {
      Life.KeepStarted(ctl, ctl - {k}, y, j);
    }
  }

  lemma AddThread(pend: Calls.Pend, rpc: Calls.Wire, lt: Life.Ltab, starts: Life.Starts, ctl: Life.Wire, a: Loc,
                  e: Local)
    requires Inv(pend, rpc, lt, starts, ctl)
    requires forall id :: id in pend ==> Loc(id.rank, pend[id]) != a
    ensures Inv(pend, rpc, lt[a := e], starts, ctl)
  {
  }

  lemma AddStart(c: Config, gtab: Life.Gtab, pend: Calls.Pend, rpc: Calls.Wire, lt: Life.Ltab, starts: Life.Starts,
                 ctl: Life.Wire, k: nat, y: nat, rec: StartRec)
    requires Inv(pend, rpc, lt, starts, ctl)
    requires Life.LocalsOk(c, gtab, lt) && Life.MsgsOk(gtab, starts, ctl)
    requires k in rpc && rpc[k].msg.Ask? && rpc[k].msg.call.CallCreate? && rpc[k].dst == 0 && rpc[k].Key() in pend
    requires forall j :: j in ctl && ctl[j].src == rpc[k].src && ctl[j].dst == 0 ==> k <= j
    requires rec.caller == rpc[k].Key() && y !in starts
    requires forall a :: a in lt ==> lt[a].gidx != rec.thread.idx
    ensures Inv(pend, rpc, lt, starts[y := rec], ctl)
  {
  }
}
