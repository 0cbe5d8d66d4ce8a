/** Sequence numbers: rank r of N draws r + N, r + 2N, ... in 32 bits, starting over
    at r + N when the source wraps, and skips numbers that are still pending. */
module Sequence {
  import opened Types

  /** Advancing the 32-bit source by N overflows. */
  predicate Wraps(N: nat, src: nat) { src + N >= TWO32 }

  function NextSrc(N: nat, r: nat, src: nat): nat {
    if Wraps(N, src) then r + N else src + N
  }

  /** What rank r may issue: nonzero, and congruent to r modulo the world size. */
  ghost predicate ValidSrc(N: nat, r: nat, x: nat) {
    r < N && N <= x < TWO32 && x % N == r
  }

  /** The search that began at s0 has come to x, round the end or not, and every
      number of the class it passed is busy. */
  ghost predicate Passed(N: nat, r: nat, s0: nat, x: nat, round: bool, busy: set<nat>) {
    && (if round then x <= s0 else s0 <= x)
    && forall y: nat :: ValidSrc(N, r, y) && (if round then s0 <= y || y < x else s0 <= y < x) ==> y in busy
  }

  /** get_free_seq draws x with the source at src, which is at src' afterwards and
      has wrapped or not: x is the first number from src on that is not busy. */
  ghost predicate Drew(N: nat, r: nat, src: nat, x: nat, src': nat, wrap: bool, busy: set<nat>) {
    && ValidSrc(N, r, x) && x !in busy && src' == NextSrc(N, r, x)
    && (if wrap then Passed(N, r, src, x, true, busy) || (Wraps(N, x) && Passed(N, r, src, x, false, busy))
        else !Wraps(N, x) && Passed(N, r, src, x, false, busy))
  }

  /** The source stays valid, and unless it wraps it passes the number drawn. */
  lemma DrewValid(N: nat, r: nat, src: nat, x: nat, src': nat, wrap: bool, busy: set<nat>)
    requires Drew(N, r, src, x, src', wrap, busy)
    ensures ValidSrc(N, r, src') && (!wrap ==> src <= x < src')
  {
    NextIsValid(N, r, x);
  }

  // ------------------------------------------------------------ the residue class

  lemma AtLeast(a: int, n: nat)
    requires a >= 1
    ensures a * n >= n
  {
  }

  /** Quotient and remainder are unique. */
  lemma DivUnique(n: nat, d: nat, q: int, m: int)
    requires 0 < n && d == q * n + m && 0 <= m < n
    ensures d / n == q && d % n == m
  {
    var k := d / n;
    assert d == k * n + d % n;
    if q > k {
      AtLeast(q - k, n);
    } else if q < k {
      AtLeast(k - q, n);
    }
  }

  lemma OneTurn(N: nat, x: nat)
    requires 0 < N
    ensures (x + N) % N == x % N
  {
    assert (x / N + 1) * N == x / N * N + N;
    DivUnique(N, x + N, x / N + 1, x % N);
  }

  lemma Itself(N: nat, r: nat)
    requires r < N
    ensures r % N == r
  {
  }

  lemma StartIsValid(N: nat, r: nat)
    requires r < N && r + N < TWO32
    ensures ValidSrc(N, r, r + N)
  {
  }

  lemma NextIsValid(N: nat, r: nat, src: nat)
    requires ValidSrc(N, r, src)
    ensures ValidSrc(N, r, NextSrc(N, r, src)) && r + N < TWO32
  {
    OneTurn(N, src);
    OneTurn(N, r);
    Itself(N, r);
    Step(N, r, src);
  }

  /** Two different members of a class are at least N apart. */
  lemma Step(N: nat, x: nat, y: nat)
    requires 0 < N && x < y && x % N == y % N
    ensures x + N <= y
  {
    var k := y / N - x / N;
    assert k * N == y / N * N - x / N * N;
    assert y - x == k * N;
    if k >= 1 { AtLeast(k, N); } else { AtLeast(1 - k, N); }
  }

  /** The members of rank r's class from x upward. */
  ghost function From(N: nat, x: nat): set<nat>
    requires 0 < N
    decreases TWO32 - x
  {
    if x >= TWO32 then {} else {x} + From(N, x + N)
  }

  /** All numbers rank r may issue. */
  ghost function Class(N: nat, r: nat): set<nat>
    requires 0 < N
  {
    From(N, r + N)
  }

  lemma {:induction false} FromIs(N: nat, x: nat, y: nat)
    requires 0 < N
    ensures y in From(N, x) <==> x <= y < TWO32 && y % N == x % N
    decreases TWO32 - x
  {
    if x < TWO32 {
      FromIs(N, x + N, y);
      OneTurn(N, x);
      if x < y && y % N == x % N { Step(N, x, y); }
    }
  }

  lemma ClassIs(N: nat, r: nat, x: nat)
    requires r < N
    ensures x in Class(N, r) <==> ValidSrc(N, r, x)
  {
    FromIs(N, r + N, x);
    OneTurn(N, r);
    Itself(N, r);
    if r < x && x % N == r { Step(N, r, x); }
  }

  /** Numbers of different ranks never coincide. */
  lemma RanksDiffer(N: nat, r: nat, q: nat, x: nat, y: nat)
    requires ValidSrc(N, r, x) && ValidSrc(N, q, y) && r != q
    ensures x != y && x > 0 && y > 0
  {
  }

  // ------------------------------------------------------------ drawing

  /** A request on rpending: its operation and its number. */
  datatype Pending = Pending(op: nat, xid: nat)

  const DTOP_NONE: nat := 0

  /** The numbers pending with this operation. */
  ghost function Busy(pending: seq<Pending>, op: nat): (b: set<nat>)
    ensures forall x: nat :: x in b <==> op != DTOP_NONE && Pending(op, x) in pending
    ensures |b| <= |pending|
  {
    if pending == [] then {}
    else
      var n := |pending| - 1;
      var rest := Busy(pending[..n], op);
      assert pending == pending[..n] + [pending[n]];
      if op != DTOP_NONE && pending[n].op == op then rest + {pending[n].xid} else rest
  }

  /** find_pending_req. */
  method FindPending(pending: seq<Pending>, op: nat, x: nat) returns (at: Option<nat>)
    ensures at.None? ==> Pending(op, x) !in pending
    ensures at.Some? ==>
              at.value < |pending| && pending[at.value] == Pending(op, x) && Pending(op, x) !in pending[..at.value]
  {
    var i := 0;
    while i < |pending|
      invariant i <= |pending| && Pending(op, x) !in pending[..i]
    {
      if pending[i].xid == x && pending[i].op == op {
        return Some(i);
      }
      i := i + 1;
    }
    return None;
  }

  /** Fewer busy numbers than the class holds leave a number free. */
  lemma SomeIsFree(N: nat, r: nat, busy: set<nat>)
    requires r < N && |busy| < |Class(N, r)|
    ensures exists x: nat :: ValidSrc(N, r, x) && x !in busy
  {
    if Class(N, r) <= busy { Fewer(Class(N, r), busy); assert false; }
    var x :| x in Class(N, r) && x !in busy;
    ClassIs(N, r, x);
  }

  lemma {:induction false} Fewer(a: set<nat>, b: set<nat>)
    requires a <= b
    ensures |a| <= |b|
  {
    if a != {} {
      var x :| x in a;
      Fewer(a - {x}, b - {x});
    }
  }

  /** From a busy number the search goes on, and comes to the end of the class
      at most once. */
  lemma GoOn(N: nat, r: nat, s0: nat, x: nat, round: bool, busy: set<nat>)
    requires ValidSrc(N, r, s0) && ValidSrc(N, r, x) && Passed(N, r, s0, x, round, busy) && x in busy
    requires exists y: nat :: ValidSrc(N, r, y) && y !in busy
    ensures !(round && Wraps(N, x)) && Passed(N, r, s0, NextSrc(N, r, x), round || Wraps(N, x), busy)
  {
    Itself(N, r);
    Step(N, r, s0);
    if round {
      var free: nat :| ValidSrc(N, r, free) && free !in busy;
      assert x < s0;
      Step(N, x, s0);
    }
    forall y: nat | ValidSrc(N, r, y) ensures r + N <= y && (x < y ==> x + N <= y) {
      Step(N, r, y);
      if x < y { Step(N, x, y); }
    }
  }

  lemma AtStart(N: nat, r: nat, s0: nat, busy: set<nat>)
    ensures Passed(N, r, s0, s0, false, busy)
  {
  }

  lemma Bounds(N: nat, r: nat, x: nat)
    requires ValidSrc(N, r, x)
    ensures r < N <= x < TWO32
  {
  }

  /** As long as a number is free, the search finds one. */
  lemma {:induction false} DrawFrom(N: nat, r: nat, s0: nat, x: nat, round: bool, busy: set<nat>) returns (y: nat,
    wrap: bool)
    requires ValidSrc(N, r, s0) && ValidSrc(N, r, x) && Passed(N, r, s0, x, round, busy)
    requires exists y: nat :: ValidSrc(N, r, y) && y !in busy
    ensures Drew(N, r, s0, y, NextSrc(N, r, y), wrap, busy)
    decreases !round, TWO32 - x
  {
    hide Passed;
    if x !in busy {
      y, wrap := x, round || Wraps(N, x);
    } else {
      GoOn(N, r, s0, x, round, busy);
      NextIsValid(N, r, x);
      y, wrap := DrawFrom(N, r, s0, NextSrc(N, r, x), round || Wraps(N, x), busy);
    }
  }

  lemma Draw(N: nat, r: nat, src: nat, busy: set<nat>) returns (y: nat, wrap: bool)
    requires ValidSrc(N, r, src) && |busy| < |Class(N, r)|
    ensures Drew(N, r, src, y, NextSrc(N, r, y), wrap, busy)
  {
    SomeIsFree(N, r, busy);
    y, wrap := DrawFrom(N, r, src, src, false, busy);
  }

  class Source {
    const N: nat
    const r: nat
    var seqsrc: nat

    ghost predicate Valid()
      reads this
    {
      ValidSrc(N, r, seqsrc)
    }

    /** dthread_init's first value. */
    constructor (wsize: nat, rank: nat)
      requires rank < wsize && rank + wsize < TWO32
      ensures Valid() && N == wsize && r == rank && seqsrc == rank + wsize
    {
      N, r, seqsrc := wsize, rank, rank + wsize;
      StartIsValid(wsize, rank);
    }

    /** get_free_seq: the first number, going round the class from the source, that
        is not pending with this operation. */
    method GetFreeSeq(op: nat, pending: seq<Pending>) returns (x: nat, ghost wrap: bool)
      requires Valid() && exists y: nat :: ValidSrc(N, r, y) && y !in Busy(pending, op)
      modifies this
      ensures Valid() && Drew(N, r, old(seqsrc), x, seqsrc, wrap, Busy(pending, op))
    {
      hide Passed, ValidSrc, Busy, Wraps;
      ghost var busy := Busy(pending, op);
      AtStart(N, r, seqsrc, busy);
      wrap := false;
      while true
        invariant Valid() && Passed(N, r, old(seqsrc), seqsrc, wrap, busy)
        decreases !wrap, TWO32 - seqsrc
      {
        x := seqsrc;
        Bounds(N, r, x);
        NextIsValid(N, r, x);
        Overflow(N, x);
        seqsrc := (seqsrc + N) % TWO32;
        if seqsrc < x {
          seqsrc := r + N;
        }
        assert seqsrc == NextSrc(N, r, x);
        var at := None;
        if op != DTOP_NONE {
          at := FindPending(pending, op, x);
        }
        if at.None? {
          wrap := wrap || Wraps(N, x);
          break;
        }
        GoOn(N, r, old(seqsrc), x, wrap, busy);
        wrap := wrap || Wraps(N, x);
      }
    }
  }

  /** The unsigned sum is smaller than x exactly when it wrapped. */
  lemma Overflow(N: nat, x: nat)
    requires 0 < N < TWO32 && x < TWO32
    ensures ((x + N) % TWO32 < x <==> Wraps(N, x)) && (!Wraps(N, x) ==> (x + N) % TWO32 == x + N)
  {
  }
}
