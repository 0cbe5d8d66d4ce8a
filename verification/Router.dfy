/** The broadcast tree that `binary_router` lays over the MPI ranks. */
module Router {

  /** my_rank shifted so that the root is 0. */
  function Adjusted(root: nat, N: nat, me: nat): (a: nat)
    requires root < N && me < N
    ensures a < N && (a == 0 <==> me == root)
  {
    if me >= root then me - root else me - root + N
  }

  /** binary_router: the next hops of me. */
  function Children(root: nat, N: nat, me: nat): seq<nat>
    requires root < N && me < N
  {
    var c0 := Adjusted(root, N, me) * 2 + 1;
    if c0 >= N then []
    else
      var child0 := (c0 + root) % N;
      if c0 == N - 1 then [child0] else [child0, (child0 + 1) % N]
  }

  /** The rank whose adjusted number is a. */
  function Unadjusted(root: nat, N: nat, a: nat): (r: nat)
    requires root < N && a < N
    ensures r < N && Adjusted(root, N, r) == a
  {
    if a + root < N then a + root else a + root - N
  }

  /** The one rank that forwards to r. */
  function Parent(root: nat, N: nat, r: nat): (p: nat)
    requires root < N && r < N && r != root
    ensures p < N && 2 * Adjusted(root, N, p) < Adjusted(root, N, r)
  {
    Unadjusted(root, N, (Adjusted(root, N, r) - 1) / 2)
  }

  lemma ModOnce(x: nat, N: nat)
    requires 0 < N && x < 2 * N
    ensures x % N == if x < N then x else x - N
  {
  }

  /** For every root and world size, r is a child of p exactly when p is r's
      parent: the child lists partition the ranks other than the root. */
  lemma ChildIffParent(root: nat, N: nat, p: nat, r: nat)
    requires root < N && p < N && r < N
    ensures r in Children(root, N, p) <==> r != root && Parent(root, N, r) == p
  {
    var c0 := Adjusted(root, N, p) * 2 + 1;
    if c0 < N {
      ModOnce(c0 + root, N);
      var child0 := (c0 + root) % N;
      assert Adjusted(root, N, child0) == c0;
      if c0 < N - 1 {
        ModOnce(child0 + 1, N);
        assert Adjusted(root, N, (child0 + 1) % N) == c0 + 1;
      }
    }
  }

  /** The children of the rank numbered a from the root are those numbered 2a + 1 and
      2a + 2, in this order, as far as there are such ranks. */
  lemma ChildrenAre(root: nat, N: nat, p: nat)
    requires root < N && p < N
    ensures var kids, a := Children(root, N, p), Adjusted(root, N, p);
            && |kids| == (if 2 * a + 2 < N then 2 else if 2 * a + 1 < N then 1 else 0)
            && forall i :: 0 <= i < |kids| ==> kids[i] < N && Adjusted(root, N, kids[i]) == 2 * a + 1 + i
  {
    var c0 := Adjusted(root, N, p) * 2 + 1;
    if c0 < N {
      ModOnce(c0 + root, N);
      if c0 < N - 1 { ModOnce((c0 + root) % N + 1, N); }
    }
  }

  lemma ChildrenDistinct(root: nat, N: nat, p: nat)
    requires root < N && p < N
    ensures forall i, j :: 0 <= i < j < |Children(root, N, p)| ==> Children(root, N, p)[i] != Children(root, N, p)[j]
    ensures forall r :: r in Children(root, N, p) ==> r < N && r != p && r != root
  {
    forall r | r in Children(root, N, p) ensures r < N && r != p && r != root { ChildIffParent(root, N, p, r); }
  }

  /** Ranks from the root down to r, each forwarding to the next. */
  function Path(root: nat, N: nat, r: nat): seq<nat>
    requires root < N && r < N
    decreases Adjusted(root, N, r)
  {
    if r == root then [root] else Path(root, N, Parent(root, N, r)) + [r]
  }

  /** Every rank is reached from the root along child links. */
  lemma {:induction false} PathReaches(root: nat, N: nat, r: nat)
    requires root < N && r < N
    ensures var p := Path(root, N, r);
            && p[0] == root && p[|p| - 1] == r
            && (forall i :: 0 <= i < |p| ==> p[i] < N)
            && (forall i :: 0 < i < |p| ==> p[i] in Children(root, N, p[i - 1]))
    decreases Adjusted(root, N, r)
  {
    if r != root {
      var q := Parent(root, N, r);
      PathReaches(root, N, q);
      ChildIffParent(root, N, q, r);
    }
  }

  function Pow2(n: nat): nat { if n == 0 then 1 else 2 * Pow2(n - 1) }

  /** No rank forwards to more than two others, and the way to a rank is no longer than
      in a balanced tree. */
  lemma {:induction false} TreeIsShallow(root: nat, N: nat, r: nat)
    requires root < N && r < N
    ensures |Children(root, N, r)| <= 2 && 1 <= |Path(root, N, r)|
    ensures Pow2(|Path(root, N, r)| - 1) <= Adjusted(root, N, r) + 1 <= N
    decreases Adjusted(root, N, r)
  {
    if r != root { TreeIsShallow(root, N, Parent(root, N, r)); }
  }
}
