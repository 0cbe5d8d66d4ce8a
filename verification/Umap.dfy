/** The agreement loop that gives every rank its mapping of a segment, at the same
    address if the segment asks for a uniform mapping (UMAP). */
module Umap {
  import opened Types

  /** What establish or mmap did on one rank: an address, or an error. */
  datatype Outcome = Mapped(addr: nat) | Failed(err: nat)

  const MAP_FAILED: nat := 0xffff_ffff_ffff_ffff
  const RETRIES: nat := 9

  predicate OutcomeOk(o: Outcome) {
    match o
    case Mapped(a) => 0 < a < MAP_FAILED
    case Failed(e) => 0 < e
  }

  /** The variables of one rank's copy of the loop. */
  datatype Rank = Rank(mapping: Option<nat>, rv: nat, hint: nat, retries: nat)

  /** What a rank decides after the reductions. */
  datatype Verdict = Success | Again | Fail(code: nat)

  // ------------------------------------------------------------ one rank

  /** A rank without a mapping tries to get one; o is what happens. */
  function Attempt(r: Rank, o: Outcome): Rank {
    if r.mapping.Some? then r
    else match o
      case Mapped(a) => r.(mapping := Some(a), rv := 0)
      case Failed(e) => r.(rv := e)
  }

  /** What the rank contributes to the reductions. */
  function Address(r: Rank): nat {
    match r.mapping case Some(a) => a case None => MAP_FAILED
  }

  function Decide(r: Rank, umap: bool, min: nat, max: nat, rv: nat): Verdict {
    if min == MAP_FAILED || max == MAP_FAILED || rv != 0 then Fail(if rv == 0 then EIO else rv)
    else if umap && min != max then (if r.retries > 0 then Again else Fail(EAGAIN))
    else Success
  }

  /** The rank's variables after its decision: before a retry it drops a mapping
      that is not at the hint, after a failure any mapping. */
  function Settle(r: Rank, v: Verdict, max: nat): Rank {
    match v
    case Success => r
    case Again => r.(retries := if r.retries > 0 then r.retries - 1 else 0, hint := max, rv := 0,
                     mapping := if r.mapping == Some(max) then r.mapping else None)
    case Fail(code) => r.(mapping := None, rv := code)
  }

  // ------------------------------------------------------------ all ranks

  function Min(s: seq<nat>): (m: nat)
    requires s != []
    ensures m in s && forall i :: 0 <= i < |s| ==> m <= s[i]
  {
    if |s| == 1 then s[0] else
      var m := Min(s[..|s| - 1]);
      if s[|s| - 1] < m then s[|s| - 1] else m
  }

  function Max(s: seq<nat>): (m: nat)
    requires s != []
    ensures m in s && forall i :: 0 <= i < |s| ==> s[i] <= m
  {
    if |s| == 1 then s[0] else
      var m := Max(s[..|s| - 1]);
      if s[|s| - 1] > m then s[|s| - 1] else m
  }

  type World = seq<Rank>

  function Addresses(w: World): (s: seq<nat>)
    ensures |s| == |w| && forall i :: 0 <= i < |w| ==> s[i] == Address(w[i])
  {
    seq(|w|, i requires 0 <= i < |w| => Address(w[i]))
  }

  function Errors(w: World): (s: seq<nat>)
    ensures |s| == |w| && forall i :: 0 <= i < |w| ==> s[i] == w[i].rv
  {
    seq(|w|, i requires 0 <= i < |w| => w[i].rv)
  }

  function Tried(w: World, outs: seq<Outcome>): (t: World)
    requires |outs| == |w|
    ensures |t| == |w| && forall i :: 0 <= i < |w| ==> t[i] == Attempt(w[i], outs[i])
  {
    seq(|w|, i requires 0 <= i < |w| => Attempt(w[i], outs[i]))
  }

  /** Each rank decides by itself, from its own variables and the reductions. */
  function Verdicts(w: World, umap: bool): (s: seq<Verdict>)
    requires w != []
    ensures |s| == |w|
    ensures forall i :: 0 <= i < |w| ==>
              s[i] == Decide(w[i], umap, Min(Addresses(w)), Max(Addresses(w)), Max(Errors(w)))
  {
    seq(|w|, i requires 0 <= i < |w| => Decide(w[i], umap, Min(Addresses(w)), Max(Addresses(w)), Max(Errors(w))))
  }

  function Settled(w: World, umap: bool): (t: World)
    requires w != []
    ensures |t| == |w|
    ensures forall i :: 0 <= i < |w| ==> t[i] == Settle(w[i], Verdicts(w, umap)[i], Max(Addresses(w)))
  {
    seq(|w|, i requires 0 <= i < |w| => Settle(w[i], Verdicts(w, umap)[i], Max(Addresses(w))))
  }

  /** All ranks agree on where they are in the loop, and no rank carries an error
      into a round. */
  ghost predicate InStep(w: World, retries: nat) {
    w != [] && forall i :: 0 <= i < |w| ==>
      w[i].retries == retries && w[i].rv == 0 && (w[i].mapping.Some? ==> 0 < w[i].mapping.value < MAP_FAILED)
  }

  ghost predicate AllOk(outs: seq<Outcome>) {
    forall i :: 0 <= i < |outs| ==> OutcomeOk(outs[i])
  }

  /** Whatever mmap does on each rank, all ranks take the same branch, so their
      collective calls always match. */
  lemma SameBranch(w: World, outs: seq<Outcome>, umap: bool, retries: nat)
    requires InStep(w, retries) && |outs| == |w|
    ensures var v := Verdicts(Tried(w, outs), umap); forall i, j :: 0 <= i < |v| && 0 <= j < |v| ==> v[i] == v[j]
  {
  }

  /** A retry leaves the ranks in step, with one retry less and a mapping only
      where it is at the maximum. */
  lemma RetryInStep(w: World, outs: seq<Outcome>, umap: bool, retries: nat)
    requires InStep(w, retries) && |outs| == |w| && AllOk(outs)
    requires Verdicts(Tried(w, outs), umap)[0] == Again
    ensures retries > 0 && InStep(Settled(Tried(w, outs), umap), retries - 1)
  {
    var t := Tried(w, outs);
    SameBranch(w, outs, umap, retries);
    var max := Max(Addresses(t));
    forall i | 0 <= i < |w|
      ensures Verdicts(t, umap)[i] == Again && (t[i].mapping.Some? ==> 0 < t[i].mapping.value < MAP_FAILED)
    {
      assert Verdicts(t, umap)[i] == Verdicts(t, umap)[0];
    }
  }

  /** The maximum address never decreases from round to round: the rank that has
      it keeps its mapping. */
  lemma MaxNeverDecreases(w: World, outs: seq<Outcome>, outs': seq<Outcome>, umap: bool, retries: nat)
    requires InStep(w, retries) && |outs| == |outs'| == |w| && AllOk(outs) && AllOk(outs')
    requires Verdicts(Tried(w, outs), umap)[0] == Again
    ensures var t := Tried(w, outs); Max(Addresses(t)) <= Max(Addresses(Tried(Settled(t, umap), outs')))
  {
  }

  /** If every rank that tries again gets the address it hinted at, that round is
      the last. */
  lemma HonouredHintSucceeds(w: World, outs: seq<Outcome>, outs': seq<Outcome>, retries: nat)
    requires InStep(w, retries) && |outs| == |outs'| == |w| && AllOk(outs)
    requires Verdicts(Tried(w, outs), true)[0] == Again
    requires forall i :: 0 <= i < |w| ==> outs'[i] == Mapped(Max(Addresses(Tried(w, outs))))
    ensures var v := Verdicts(Tried(Settled(Tried(w, outs), true), outs'), true);
            forall i :: 0 <= i < |w| ==> v[i] == Success
  {
    var t := Tried(w, outs);
    var max := Max(Addresses(t));
    SameBranch(w, outs, true, retries);
    RetryInStep(w, outs, true, retries);
    var u := Settled(t, true);
    var x := Tried(u, outs');
    forall i | 0 <= i < |w| ensures Addresses(x)[i] == max && Errors(x)[i] == 0 {
      assert Verdicts(t, true)[i] == Verdicts(t, true)[0];
    }
  }

  // ------------------------------------------------------------ what the ranks end up with

  /** Rank i is mapped and no rank is mapped higher. */
  ghost predicate IsTop(o: seq<Outcome>, i: nat)
    requires i < |o|
  {
    o[i].Mapped? && forall j :: 0 <= j < |o| && o[j].Mapped? ==> o[j].addr <= o[i].addr
  }

  /** What each rank holds in round k, as far as the loop gets there: at first rank 0
      has its mapping, later a rank keeps the highest one; all others try. */
  ghost function Held(n: nat, first: Outcome, outs: seq<seq<Outcome>>, k: nat): (o: seq<Outcome>)
    requires k < |outs| && forall j :: 0 <= j < |outs| ==> |outs[j]| == n
    ensures |o| == n
  {
    if k == 0 then seq(n, i requires 0 <= i < n => if i == 0 then first else outs[0][i])
    else
      var p := Held(n, first, outs, k - 1);
      seq(n, i requires 0 <= i < n => if IsTop(p, i) then p[i] else outs[k][i])
  }

  ghost predicate AllMapped(o: seq<Outcome>) {
    forall i :: 0 <= i < |o| ==> o[i].Mapped?
  }

  ghost predicate OneAddress(o: seq<Outcome>) {
    forall i, j :: 0 <= i < |o| && 0 <= j < |o| ==> o[i] == o[j]
  }

  /** rv is the largest error of any rank. */
  ghost predicate WorstError(o: seq<Outcome>, rv: nat) {
    Failed(rv) in o && forall i :: 0 <= i < |o| && o[i].Failed? ==> o[i].err <= rv
  }

  /** The ranks' variables say what they hold. */
  ghost predicate Shows(t: World, o: seq<Outcome>) {
    && |t| == |o|
    && forall i :: 0 <= i < |t| ==>
         match o[i]
         case Mapped(a) => t[i].mapping == Some(a) && t[i].rv == 0
         case Failed(e) => t[i].mapping == None && t[i].rv == e
  }

  /** What one round comes to. */
  ghost predicate Ends(o: seq<Outcome>, umap: bool, last: bool, w: World)
    requires |w| == |o|
  {
    if !AllMapped(o) then forall i :: 0 <= i < |w| ==> WorstError(o, w[i].rv) && w[i].mapping == None
    else if umap && !OneAddress(o) then last && forall i :: 0 <= i < |w| ==> w[i].rv == EAGAIN && w[i].mapping == None
    else forall i :: 0 <= i < |w| ==> w[i].rv == 0 && w[i].mapping == Some(o[i].addr)
  }

  lemma ShownReductions(t: World, o: seq<Outcome>)
    requires t != [] && Shows(t, o) && AllOk(o)
    ensures Max(Errors(t)) == 0 <==> AllMapped(o)
    ensures !AllMapped(o) ==> WorstError(o, Max(Errors(t)))
    ensures AllMapped(o) ==> Min(Addresses(t)) <= Max(Addresses(t)) < MAP_FAILED
    ensures AllMapped(o) ==> (Min(Addresses(t)) == Max(Addresses(t)) <==> OneAddress(o))
    ensures AllMapped(o) ==> forall i :: 0 <= i < |o| ==> (o[i].addr == Max(Addresses(t)) <==> IsTop(o, i))
  {
    var e := Max(Errors(t));
    var x: nat :| x < |t| && Errors(t)[x] == e;
    if !AllMapped(o) {
      var y :| 0 <= y < |o| && o[y].Failed?;
      assert Errors(t)[y] == o[y].err;
      assert o[x] == Failed(e);
      forall i | 0 <= i < |o| && o[i].Failed? ensures o[i].err <= e { assert Errors(t)[i] == o[i].err; }
    } else {
      ShownAddresses(t, o);
    }
  }

  lemma ShownAddresses(t: World, o: seq<Outcome>)
    requires t != [] && Shows(t, o) && AllOk(o) && AllMapped(o)
    ensures Min(Addresses(t)) <= Max(Addresses(t)) < MAP_FAILED
    ensures Min(Addresses(t)) == Max(Addresses(t)) <==> OneAddress(o)
    ensures forall i :: 0 <= i < |o| ==> (o[i].addr == Max(Addresses(t)) <==> IsTop(o, i))
  {
    var a := Addresses(t);
    assert forall i :: 0 <= i < |t| ==> a[i] == o[i].addr;
    var lo: nat :| lo < |t| && a[lo] == Min(a);
    var hi: nat :| hi < |t| && a[hi] == Max(a);
    assert OneAddress(o) ==> o[lo] == o[hi];
    if Min(a) == Max(a) {
      forall i, j | 0 <= i < |o| && 0 <= j < |o| ensures o[i] == o[j] { assert a[i] == a[j]; }
    }
    forall i | 0 <= i < |o| ensures o[i].addr == Max(a) <==> IsTop(o, i) {
      assert a[i] <= a[hi];
      if o[i].addr == Max(a) {
        forall j | 0 <= j < |o| && o[j].Mapped? ensures o[j].addr <= o[i].addr { assert a[j] <= Max(a); }
      }
    }
  }

  /** A round that is not the last goes on exactly if all ranks are mapped, at
      different addresses; every rank then keeps only the highest mapping. */
  lemma RoundComesTo(t: World, o: seq<Outcome>, umap: bool, retries: nat)
    requires t != [] && Shows(t, o) && AllOk(o) && forall i :: 0 <= i < |t| ==> t[i].retries == retries
    requires !umap ==> retries == 0
    ensures Verdicts(t, umap)[0] == Again <==> umap && retries > 0 && AllMapped(o) && !OneAddress(o)
    ensures Verdicts(t, umap)[0] != Again ==> Ends(o, umap, retries == 0, Settled(t, umap))
    ensures Verdicts(t, umap)[0] == Again ==>
              forall i :: 0 <= i < |t| ==>
                && Settled(t, umap)[i].mapping == (if IsTop(o, i) then Some(o[i].addr) else None)
                && Settled(t, umap)[i].rv == 0 && Settled(t, umap)[i].hint == Max(Addresses(t))
                && Settled(t, umap)[i].retries == retries - 1
  {
    hide Min, Max, IsTop;
    ShownReductions(t, o);
    AllDecide(t, o, umap, retries);
    var w := Settled(t, umap);
    if Verdicts(t, umap)[0] == Again {
      forall i | 0 <= i < |t|
        ensures w[i].mapping == (if IsTop(o, i) then Some(o[i].addr) else None)
      {
        assert o[i].Mapped? && t[i].mapping == Some(o[i].addr);
      }
    }
  }

  /** Every rank decides what its round comes to. */
  lemma AllDecide(t: World, o: seq<Outcome>, umap: bool, retries: nat)
    requires t != [] && Shows(t, o) && AllOk(o) && forall i :: 0 <= i < |t| ==> t[i].retries == retries
    ensures forall i :: 0 <= i < |t| ==>
              Verdicts(t, umap)[i] ==
              if !AllMapped(o) then Fail(Max(Errors(t)))
              else if umap && !OneAddress(o) then (if retries > 0 then Again else Fail(EAGAIN)) else Success
  {
    hide IsTop;
    ShownReductions(t, o);
  }

  // ------------------------------------------------------------ the loop

  /** The loop got past round k: all ranks were mapped, not at one address, and
      every rank's next hint was the highest address. */
  ghost predicate Passed(n: nat, first: Outcome, outs: seq<seq<Outcome>>, k: nat, hint: nat)
    requires k < |outs| && forall j :: 0 <= j < |outs| ==> |outs[j]| == n
  {
    var o := Held(n, first, outs, k);
    AllMapped(o) && !OneAddress(o) && exists i: nat :: i < n && IsTop(o, i) && o[i].addr == hint
  }

  /** What the ranks' variables are at the start of a round. */
  ghost predicate Starts(n: nat, first: Outcome, outs: seq<seq<Outcome>>, k: nat, w: World)
    requires k < |outs| && forall j :: 0 <= j < |outs| ==> |outs[j]| == n
  {
    && |w| == n
    && forall i :: 0 <= i < n ==>
         w[i].rv == 0 && w[i].mapping ==
         if k == 0 then (if i == 0 && first.Mapped? then Some(first.addr) else None)
         else var o := Held(n, first, outs, k - 1); if IsTop(o, i) then Some(o[i].addr) else None
  }

  /** After the attempts of a round the variables show what the ranks hold. */
  lemma TriedShows(n: nat, first: Outcome, outs: seq<seq<Outcome>>, k: nat, w: World)
    requires k < |outs| && first.Mapped? && OutcomeOk(first)
    requires forall j :: 0 <= j < |outs| ==> |outs[j]| == n && AllOk(outs[j])
    requires Starts(n, first, outs, k, w)
    ensures Shows(Tried(w, outs[k]), Held(n, first, outs, k))
  {
  }

  lemma {:induction false} HeldOk(n: nat, first: Outcome, outs: seq<seq<Outcome>>, k: nat)
    requires k < |outs| && OutcomeOk(first)
    requires forall j :: 0 <= j < |outs| ==> |outs[j]| == n && AllOk(outs[j])
    ensures AllOk(Held(n, first, outs, k))
  {
    if k > 0 { HeldOk(n, first, outs, k - 1); }
  }

  /** Up to round k all ranks went on, with these hints. */
  ghost predicate Went(n: nat, umap: bool, first: Outcome, outs: seq<seq<Outcome>>, hints: seq<nat>)
    requires |hints| <= |outs| && forall j :: 0 <= j < |outs| ==> |outs[j]| == n
    requires first.Mapped?
  {
    && (hints != [] ==> hints[0] == if umap then first.addr else 0)
    && forall k :: 1 <= k < |hints| ==> umap && Passed(n, first, outs, k - 1, hints[k])
  }

  /** All ranks are about to start the same round, with the same hint. */
  ghost predicate About(n: nat, umap: bool, first: Outcome, outs: seq<seq<Outcome>>, k: nat, retries: nat, w: World)
    requires k < |outs| && forall j :: 0 <= j < |outs| ==> |outs[j]| == n
    requires first.Mapped?
  {
    && InStep(w, retries) && Starts(n, first, outs, k, w)
    && (forall i :: 0 <= i < n ==> w[i].hint == w[0].hint)
    && if k == 0 then w[0].hint == if umap then first.addr else 0
       else umap && Passed(n, first, outs, k - 1, w[0].hint)
  }

  /** A round ends the loop with what it comes to, or leads to the next. */
  lemma RoundIs(n: nat, umap: bool, first: Outcome, outs: seq<seq<Outcome>>, k: nat, retries: nat, w: World)
    requires k < |outs| && first.Mapped? && OutcomeOk(first)
    requires forall j :: 0 <= j < |outs| ==> |outs[j]| == n && AllOk(outs[j])
    requires About(n, umap, first, outs, k, retries, w) && (!umap ==> retries == 0)
    ensures var t := Tried(w, outs[k]);
            if Verdicts(t, umap)[0] == Again
            then retries > 0 && (k + 1 < |outs| ==> About(n, umap, first, outs, k + 1, retries - 1, Settled(t, umap)))
            else Ends(Held(n, first, outs, k), umap, retries == 0, Settled(t, umap))
  {
    hide Passed, Ends, Shows, IsTop, Verdicts, Settled, Tried, InStep, AllMapped, OneAddress, AllOk, Max, Addresses;
    var t := Tried(w, outs[k]);
    TriedShows(n, first, outs, k, w);
    HeldOk(n, first, outs, k);
    TriedRetries(w, outs[k], retries);
    RoundComesTo(t, Held(n, first, outs, k), umap, retries);
    if Verdicts(t, umap)[0] == Again {
      RetryInStep(w, outs[k], umap, retries);
      HintIsTop(n, first, outs, k, t);
    }
  }

  lemma TriedRetries(w: World, outs: seq<Outcome>, retries: nat)
    requires InStep(w, retries) && |outs| == |w|
    ensures Tried(w, outs) != [] && forall i :: 0 <= i < |w| ==> Tried(w, outs)[i].retries == retries
  {
  }

  /** The rounds after rank 0's establish, with the hints the ranks pass to mmap. */
  method Agree(n: nat, umap: bool, first: Outcome, outs: seq<seq<Outcome>>, w0: World)
    returns (w: World, hints: seq<nat>)
    requires first.Mapped? && OutcomeOk(first) && |outs| == RETRIES + 1
    requires forall k :: 0 <= k < |outs| ==> |outs[k]| == n && AllOk(outs[k])
    requires 0 < n == |w0| && About(n, umap, first, outs, 0, if umap then RETRIES else 0, w0)
    ensures |w| == n && 0 < |hints| <= |outs| && Went(n, umap, first, outs, hints)
    ensures Ends(Held(n, first, outs, |hints| - 1), umap, umap ==> |hints| == RETRIES + 1, w)
  {
    hide *;
    ghost var retries: nat := if umap then RETRIES else 0;
    w, hints := w0, [];
    NoneWent(n, umap, first, outs);
    var again := true;
    while again
      invariant |w| == n && |hints| <= |outs| && Went(n, umap, first, outs, hints)
      invariant again ==> |hints| < |outs| && retries + |hints| == if umap then RETRIES else 0
      invariant again ==> About(n, umap, first, outs, |hints|, retries, w)
      invariant !again ==> 0 < |hints|
      invariant !again ==> Ends(Held(n, first, outs, |hints| - 1), umap, umap ==> |hints| == RETRIES + 1, w)
      decreases again, retries
    {
      var t := Tried(w, outs[|hints|]);
      RoundIs(n, umap, first, outs, |hints|, retries, w);
      HintWent(n, umap, first, outs, retries, w, hints);
      hints := hints + [w[0].hint];
      again := Verdicts(t, umap)[0] == Again;
      w := Settled(t, umap);
      if again {
        retries := retries - 1;
      }
    }
  }

  /** dthread_shmseg_establish for one segment, all ranks in step: first is what
      rank 0's establish did, outs what each rank's attempt does in each round. */
  method Establish(n: nat, umap: bool, first: Outcome, outs: seq<seq<Outcome>>)
    returns (w: World, rounds: nat, hints: seq<nat>)
    requires 0 < n && OutcomeOk(first) && |outs| == RETRIES + 1
    requires forall k :: 0 <= k < |outs| ==> |outs[k]| == n && AllOk(outs[k])
    ensures |w| == n && |hints| == rounds <= RETRIES + 1
    ensures forall i :: 0 <= i < n ==> w[i].rv == w[0].rv
    ensures w[0].rv == 0 ==> forall i :: 0 <= i < n ==> w[i].mapping.Some? && (umap ==> w[i].mapping == w[0].mapping)
    ensures w[0].rv != 0 ==> forall i :: 0 <= i < n ==> w[i].mapping.None?
    ensures first.Failed? ==> w[0].rv == first.err && rounds == 0
    ensures first.Mapped? ==> rounds > 0 && Went(n, umap, first, outs, hints)
    ensures first.Mapped? ==> Ends(Held(n, first, outs, rounds - 1), umap, umap ==> rounds == RETRIES + 1, w)
    ensures first.Mapped? ==> FirstRound(n, umap, first, outs[0], rounds, w)
  {
    hide *;
    rounds, hints := 0, [];
    if first.Failed? {
      FailureIs(first);
      w := seq(n, i => Rank(None, first.err, 0, 0));
    } else {
      w := seq(n, i => Rank(if i == 0 then Some(first.addr) else None, 0, if umap then first.addr else 0,
                            if umap then RETRIES else 0));
      Begins(n, umap, first, outs, w);
      w, hints := Agree(n, umap, first, outs, w);
      rounds := |hints|;
      HeldOk(n, first, outs, rounds - 1);
      EndsAgree(Held(n, first, outs, rounds - 1), umap, umap ==> rounds == RETRIES + 1, w);
      InFirstRound(n, umap, first, outs, hints, w);
    }
  }

  lemma FailureIs(o: Outcome)
    requires o.Failed? && OutcomeOk(o)
    ensures o.err != 0
  {
  }

  lemma NoneWent(n: nat, umap: bool, first: Outcome, outs: seq<seq<Outcome>>)
    requires first.Mapped? && forall j :: 0 <= j < |outs| ==> |outs[j]| == n
    ensures Went(n, umap, first, outs, [])
  {
  }

  lemma Begins(n: nat, umap: bool, first: Outcome, outs: seq<seq<Outcome>>, w: World)
    requires 0 < n == |w| && first.Mapped? && OutcomeOk(first) && 0 < |outs|
    requires forall j :: 0 <= j < |outs| ==> |outs[j]| == n
    requires forall i :: 0 <= i < n ==>
               w[i] == Rank(if i == 0 then Some(first.addr) else None, 0, if umap then first.addr else 0,
                            if umap then RETRIES else 0)
    ensures About(n, umap, first, outs, 0, if umap then RETRIES else 0, w)
  {
  }

  lemma HintWent(n: nat, umap: bool, first: Outcome, outs: seq<seq<Outcome>>, retries: nat, w: World, hints: seq<nat>)
    requires |hints| < |outs| && forall j :: 0 <= j < |outs| ==> |outs[j]| == n
    requires first.Mapped? && About(n, umap, first, outs, |hints|, retries, w) && Went(n, umap, first, outs, hints)
    ensures Went(n, umap, first, outs, hints + [w[0].hint])
  {
    hide Passed;
  }

  /** All ranks end alike. */
  lemma EndsAgree(o: seq<Outcome>, umap: bool, last: bool, w: World)
    requires 0 < |w| == |o| && Ends(o, umap, last, w) && AllOk(o)
    ensures forall i :: 0 <= i < |w| ==> w[i].rv == w[0].rv
    ensures w[0].rv == 0 ==> forall i :: 0 <= i < |w| ==> w[i].mapping.Some? && (umap ==> w[i].mapping == w[0].mapping)
    ensures w[0].rv != 0 ==> forall i :: 0 <= i < |w| ==> w[i].mapping.None?
  {
    if !AllMapped(o) {
      forall i | 0 <= i < |w| ensures w[i].rv == w[0].rv && w[i].rv != 0 {
        var a: nat :| a < |o| && o[a] == Failed(w[i].rv);
        var b: nat :| b < |o| && o[b] == Failed(w[0].rv);
        assert OutcomeOk(o[a]) && o[b].err <= w[i].rv && o[a].err <= w[0].rv;
      }
    }
  }

  lemma HintIsTop(n: nat, first: Outcome, outs: seq<seq<Outcome>>, k: nat, t: World)
    requires k < |outs| && forall j :: 0 <= j < |outs| ==> |outs[j]| == n && AllOk(outs[j])
    requires t != [] && Shows(t, Held(n, first, outs, k)) && AllOk(Held(n, first, outs, k))
    requires AllMapped(Held(n, first, outs, k)) && !OneAddress(Held(n, first, outs, k))
    ensures Passed(n, first, outs, k, Max(Addresses(t)))
  {
    hide Held;
    var o := Held(n, first, outs, k);
    ShownAddresses(t, o);
    var hi: nat :| hi < |t| && Addresses(t)[hi] == Max(Addresses(t));
    assert o[hi].addr == Max(Addresses(t));
  }

  /** What the first attempts decide: without UMAP everything, with UMAP a success
      if all ranks get rank 0's address. */
  ghost predicate FirstRound(n: nat, umap: bool, first: Outcome, outs: seq<Outcome>, rounds: nat, w: World)
    requires 0 < n == |w| == |outs| && first.Mapped?
  {
    && (!umap ==>
          && rounds == 1
          && (w[0].rv == 0 <==> forall i :: 0 < i < n ==> outs[i].Mapped?)
          && (w[0].rv == 0 ==> forall i :: 0 < i < n ==> outs[i].Mapped? && w[i].mapping == Some(outs[i].addr))
          && (w[0].rv == 0 ==> w[0].mapping == Some(first.addr)))
    && (umap && (forall i :: 0 < i < n ==> outs[i] == first) ==>
          rounds == 1 && forall i :: 0 <= i < n ==> w[i].rv == 0 && w[i].mapping == Some(first.addr))
  }

  lemma WentOn(n: nat, umap: bool, first: Outcome, outs: seq<seq<Outcome>>, hints: seq<nat>)
    requires first.Mapped? && 1 < |hints| <= |outs| && forall j :: 0 <= j < |outs| ==> |outs[j]| == n
    requires Went(n, umap, first, outs, hints)
    ensures umap && AllMapped(Held(n, first, outs, 0)) && !OneAddress(Held(n, first, outs, 0))
  {
    hide Held;
    var k := 1;
    assert Passed(n, first, outs, k - 1, hints[k]);
  }

  lemma InFirstRound(n: nat, umap: bool, first: Outcome, outs: seq<seq<Outcome>>, hints: seq<nat>, w: World)
    requires 0 < n == |w| && first.Mapped? && 0 < |hints| <= |outs|
    requires forall j :: 0 <= j < |outs| ==> |outs[j]| == n && AllOk(outs[j])
    requires Went(n, umap, first, outs, hints)
    requires Ends(Held(n, first, outs, |hints| - 1), umap, umap ==> |hints| == RETRIES + 1, w)
    ensures FirstRound(n, umap, first, outs[0], |hints|, w)
  {
    var o := Held(n, first, outs, 0);
    assert forall i :: 0 <= i < n ==> o[i] == if i == 0 then first else outs[0][i];
    if |hints| > 1 {
      WentOn(n, umap, first, outs, hints);
    } else if !AllMapped(o) {
      var x: nat :| x < n && o[x] == Failed(w[0].rv);
      assert OutcomeOk(outs[0][x]);
    }
  }
}
