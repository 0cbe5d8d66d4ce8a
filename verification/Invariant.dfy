/** The invariant of the whole protocol. */
module Invariant {
  import opened Types
  import opened Machine
  import Sequence
  import Life
  import Calls
  import Order
  import Joins
  import Shutdown

  ghost predicate LifeInv(c: Config, s: State) {
    Life.Inv(c, s.life, s.clock, s.draining)
  }

  ghost predicate RpcStamps(rpc: Calls.Wire, clock: nat) {
    forall k :: k in rpc ==> k < clock
  }

  ghost predicate CallsInv(c: Config, s: State) {
    && s.calls.app.Keys == s.life.lt.Keys
    && Calls.Inv(c, s.calls.app, s.calls.queue, s.calls.pend, s.calls.rpc, s.life.starts, s.waits, s.draining)
    && RpcStamps(s.calls.rpc, s.clock)
  }

  ghost predicate OrderInv(s: State) {
    Order.Inv(s.calls.pend, s.calls.rpc, s.life.lt, s.life.starts, s.life.ctl)
  }

  ghost predicate HistInv(s: State) {
    Joins.HistInv(s.life.gtab, s.hist, s.life.lt, s.calls.app, s.life.starts, s.life.ctl)
  }

  ghost predicate QuoteInv(s: State) {
    Joins.QuoteInv(s.calls.app, s.calls.pend, s.calls.rpc, s.hist)
  }

  ghost predicate WaitInv(s: State) {
    Joins.WaitInv(s.life.gtab, s.waits, s.hist)
  }

  ghost predicate SeqInv(c: Config, s: State) {
    && |s.src| == c.N && (forall r :: 0 <= r < |s.src| ==> Sequence.ValidSrc(c.N, r, s.src[r]))
    && s.nextRank < c.N
    && 0 < |s.src| && Joins.GensOk(s.hist, s.src[0], s.wrapped)
  }

  ghost predicate Inv(c: Config, s: State) {
    && c.Valid()
    && LifeInv(c, s) && CallsInv(c, s) && OrderInv(s)
    && HistInv(s) && QuoteInv(s) && WaitInv(s) && SeqInv(c, s)
    && Shutdown.Inv(c, s.bc, s.draining, s.clock)
  }

  /** A message was sent that neither the tables nor the broadcast look at. */
  lemma Later(c: Config, s: State, clock: nat)
    requires LifeInv(c, s) && Shutdown.Inv(c, s.bc, s.draining, s.clock) && s.clock <= clock
    ensures Life.Inv(c, s.life, clock, s.draining) && Shutdown.Inv(c, s.bc, s.draining, clock)
  {
    Life.Later(s.life.lt, s.life.starts, s.life.ctl, s.clock, s.draining, clock, s.draining);
  }

  lemma TreeLater(c: Config, s: State, clock: nat)
    requires Shutdown.Inv(c, s.bc, s.draining, s.clock) && s.clock <= clock
    ensures Shutdown.Inv(c, s.bc, s.draining, clock)
  {
  }
}
