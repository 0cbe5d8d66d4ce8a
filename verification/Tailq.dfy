/** Tail queues as the sys/queue.h macros keep them: the links are fields of the
    entries, so an entry can be on one queue at a time, and queues of one kind of
    entry share their links.  Entries are taken off at the front only. */
module Tailq {
  import opened Types

  /** A queue's head: its first and its last entry. */
  datatype Head = Head(first: Option<nat>, last: Option<nat>)

  /** The link field of every entry. */
  type Links = map<nat, Option<nat>>

  const EMPTY: Head := Head(None, None)

  function Nth(q: seq<nat>, i: nat): Option<nat> { if i < |q| then Some(q[i]) else None }

  predicate Distinct(q: seq<nat>) { forall i, j :: 0 <= i < j < |q| ==> q[i] != q[j] }

  /** Following the links from the head gives q. */
  ghost predicate Threads(next: Links, h: Head, q: seq<nat>) {
    && h.first == Nth(q, 0) && h.last == (if q == [] then None else Some(q[|q| - 1]))
    && Distinct(q)
    && forall i :: 0 <= i < |q| ==> q[i] in next && next[q[i]] == Nth(q, i + 1)
  }

  /** TAILQ_INSERT_TAIL */
  function AtTail(next: Links, h: Head, x: nat): (Links, Head) {
    var n := next[x := None];
    match h.last
    case None => (n, Head(Some(x), Some(x)))
    case Some(l) => (n[l := Some(x)], Head(h.first, Some(x)))
  }

  /** TAILQ_INSERT_HEAD */
  function AtHead(next: Links, h: Head, x: nat): (Links, Head) {
    (next[x := h.first], Head(Some(x), if h.first.None? then Some(x) else h.last))
  }

  /** TAILQ_REMOVE of the first entry. */
  function WithoutFirst(next: Links, h: Head): Head
    requires h.first.Some? && h.first.value in next
  {
    Head(next[h.first.value], if next[h.first.value].None? then None else h.last)
  }

  lemma TailThreads(next: Links, h: Head, q: seq<nat>, x: nat)
    requires Threads(next, h, q) && x !in q
    ensures var (n, g) := AtTail(next, h, x); Threads(n, g, q + [x])
  {
    var (n, g) := AtTail(next, h, x);
    var r := q + [x];
    forall i | 0 <= i < |r| ensures r[i] in n && n[r[i]] == Nth(r, i + 1) {
      if i < |q| - 1 { assert r[i] != q[|q| - 1] && next[r[i]] == Nth(q, i + 1); }
    }
  }

  lemma HeadThreads(next: Links, h: Head, q: seq<nat>, x: nat)
    requires Threads(next, h, q) && x !in q
    ensures var (n, g) := AtHead(next, h, x); Threads(n, g, [x] + q)
  {
  }

  lemma RestThreads(next: Links, h: Head, q: seq<nat>)
    requires Threads(next, h, q) && q != []
    ensures h.first == Some(q[0]) && q[0] in next && Threads(next, WithoutFirst(next, h), q[1..])
  {
  }

  /** Linking x in behind the last entry of q leaves a queue of others alone. */
  lemma TailElsewhere(next: Links, h: Head, q: seq<nat>, x: nat, g: Head, p: seq<nat>)
    requires Threads(next, h, q) && Threads(next, g, p) && x !in p && forall y :: y in p ==> y !in q
    ensures Threads(AtTail(next, h, x).0, g, p)
  {
    forall i | 0 <= i < |p| ensures p[i] in AtTail(next, h, x).0 && AtTail(next, h, x).0[p[i]] == Nth(p, i + 1) {
      assert p[i] in p;
    }
  }

  lemma HeadElsewhere(next: Links, h: Head, x: nat, g: Head, p: seq<nat>)
    requires Threads(next, g, p) && x !in p
    ensures Threads(AtHead(next, h, x).0, g, p)
  {
  }
}
