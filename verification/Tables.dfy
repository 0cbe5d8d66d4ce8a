/** The circular slot search that gtab_alloc and ltab_alloc share. */
module Tables {
  import opened Types

  /** How many slots the search visits before it comes to q, starting after last. */
  function Distance(n: nat, last: nat, q: nat): int {
    if q > last then q - last - 1 else q - last - 1 + n
  }

  ghost function InUse(used: seq<bool>): set<nat> {
    set i: nat | i < |used| && used[i]
  }

  lemma UseOne(used: seq<bool>, p: nat)
    requires p < |used| && !used[p]
    ensures |InUse(used[p := true])| == |InUse(used)| + 1
  {
    assert InUse(used[p := true]) == InUse(used) + {p};
  }

  lemma DropOne(used: seq<bool>, p: nat)
    requires p < |used| && used[p]
    ensures |InUse(used[p := false])| == |InUse(used)| - 1
  {
    assert InUse(used[p := false]) == InUse(used) - {p};
  }

  lemma {:induction false} FullTable(used: seq<bool>)
    ensures |InUse(used)| <= |used|
    ensures |InUse(used)| == |used| <==> forall i :: 0 <= i < |used| ==> used[i]
  {
    if used == [] {
      assert InUse(used) == {};
    } else {
      var n := |used| - 1;
      var rest := used[..n];
      FullTable(rest);
      if used[n] { assert InUse(used) == InUse(rest) + {n}; } else { assert InUse(used) == InUse(rest); }
    }
  }

  /** A table of slots, how many are in use, and the slot allocated last. */
  class Table {
    const used: array<bool>
    var count: nat
    var last: nat

    ghost predicate Valid()
      reads this, used
    {
      last < used.Length && count == |InUse(used[..])|
    }

    constructor (n: nat)
      requires 0 < n
      ensures Valid() && fresh(used) && used.Length == n && count == 0 && forall i :: 0 <= i < n ==> !used[i]
    {
      used := new bool[n](_ => false);
      count, last := 0, 0;
      new;
      assert InUse(used[..]) == {};
    }

    /** The search: the free slot that comes first after last, going round; last
        itself is looked at last. */
    method Search() returns (p: Option<nat>)
      requires Valid()
      ensures p.None? <==> forall i :: 0 <= i < used.Length ==> used[i]
      ensures p.Some? ==> p.value < used.Length && !used[p.value]
      ensures p.Some? ==>
                forall q: nat ::
                  && q < used.Length
                  && Distance(used.Length, last, q) < Distance(used.Length, last, p.value) ==>
                  used[q]
    {
      var k := last;
      ghost var visited := 0;
      while true
        invariant k < used.Length && 0 <= visited < used.Length
        invariant k == if last + visited < used.Length then last + visited else last + visited - used.Length
        invariant forall q: nat :: q < used.Length && Distance(used.Length, last, q) < visited ==> used[q]
        decreases used.Length - visited
      {
        k := k + 1;
        if k >= used.Length {
          k := 0;
        }
        assert Distance(used.Length, last, k) == visited;
        if !used[k] {
          return Some(k);
        }
        if k == last {
          return None;
        }
        visited := visited + 1;
      }
    }

    /** gtab_alloc: fails exactly when the table is full. */
    method GtabAlloc() returns (p: Option<nat>)
      requires Valid()
      modifies this, used
      ensures Valid() && (p.None? <==> old(count) >= used.Length)
      ensures p.None? ==> used[..] == old(used[..]) && count == old(count)
      ensures p.Some? ==>
                && p.value < used.Length && !old(used[p.value]) && used[..] == old(used[..])[p.value := true]
                && count == old(count) + 1
    {
      FullTable(used[..]);
      if count >= used.Length {
        return None;
      }
      p := Search();
      p := Mark(p);
    }

    /** ltab_alloc: an empty table starts at slot 0 again. */
    method LtabAlloc() returns (p: Option<nat>)
      requires Valid()
      modifies this, used
      ensures Valid() && (p.None? <==> old(count) >= used.Length)
      ensures p.None? ==> used[..] == old(used[..]) && count == old(count)
      ensures p.Some? ==>
                && p.value < used.Length && !old(used[p.value]) && used[..] == old(used[..])[p.value := true]
                && count == old(count) + 1
      ensures old(count) == 0 ==> p == Some(0)
    {
      FullTable(used[..]);
      if count >= used.Length {
        return None;
      }
      if count == 0 {
        assert 0 !in InUse(used[..]);
        p := Some(0);
      } else {
        p := Search();
      }
      p := Mark(p);
    }

    method Mark(p: Option<nat>) returns (q: Option<nat>)
      requires Valid() && p.Some? && p.value < used.Length && !used[p.value]
      modifies this, used
      ensures Valid() && q == p && used[..] == old(used[..])[p.value := true] && count == old(count) + 1
    {
      UseOne(used[..], p.value);
      used[p.value] := true;
      count := count + 1;
      last := p.value;
      q := p;
      assert used[..] == old(used[..])[p.value := true];
    }

    /** gtab_free, ltab_free: freeing a free slot does nothing. */
    method Free(p: nat)
      requires Valid() && p < used.Length
      modifies this`count, used
      ensures Valid() && used[..] == old(used[..])[p := false] && count == old(count) - if old(used[p]) then 1 else 0
    {
      if used[p] {
        DropOne(used[..], p);
        used[p] := false;
        count := count - 1;
      }
      assert used[..] == old(used[..])[p := false];
    }
  }
}
