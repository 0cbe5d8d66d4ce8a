/** The "bsd" allocator as it works in place: bucket heads and counters in its
    metadata, block headers in the bytes of the arena itself. */
module BsdHeap {
  import opened Types
  import opened Align
  import opened Bytes
  import opened Bsd

  const MAGIC: nat := 0x5555

  /** The header of an allocated block of bucket b. */
  function MagIdx(b: nat): nat { b * 0x1_0000 + MAGIC }

  /** An aligned offset is never taken for a header: its low bits are no magic. */
  lemma LinksAreNotMagic(s: nat)
    requires s % ALIGN == 0
    ensures s % 0x1_0000 != MAGIC
  {
  }

  lemma HeaderDecodes(b: nat)
    requires b < NBUCKETS
    ensures MagIdx(b) % 0x1_0000 == MAGIC && MagIdx(b) / 0x1_0000 % 256 == b && MagIdx(b) < TWO64
  {
  }

  lemma Pow2Of64()
    ensures Pow2(63) == 0x8000_0000_0000_0000
  {
    Pow2Of31();
    assert Pow2(32) == 2 * Pow2(31);
    Pow2Sum(31, 32);
  }

  /** Sizes double from bucket to bucket; the last one is 2^63. */
  lemma Sizes(b: nat)
    ensures Size(b + 1) == 2 * Size(b) && 16 <= Size(b)
    ensures b < NBUCKETS ==> Size(b) <= 0x8000_0000_0000_0000
    ensures Size(b) == 0x8000_0000_0000_0000 <==> b == NBUCKETS - 1
    ensures b >= NBUCKETS ==> Size(b) > 0x8000_0000_0000_0000
  {
    Pow2Of64();
    Aligned(b);
    if b < NBUCKETS { Pow2Grows(b + 4, 63); } else { Pow2Grows(63, b + 4); }
  }

  /** A C int. */
  newtype int32 = x: int | -0x8000_0000 <= x < 0x8000_0000

  /** 1 << n, where that is defined. */
  function Shift(n: nat): (r: int32)
    requires n <= 30
    ensures r >= 0 && IntShift(n) == Some(r as nat)
  {
    Pow2Of31();
    Pow2Grows(n, 30);
    assert Pow2(31) == 2 * Pow2(30);
    if n == 0 then 1 else 2 * Shift(n - 1)
  }

  /** BUCKSIZE. */
  function BuckSize(b: nat): (r: nat)
    requires b <= INTBUCKET
    ensures r == Size(b)
  {
    Shift(b + 4) as nat
  }

  /** bsd_malloc's search for the bucket: size_t arithmetic, doubling until the
      block is large enough or the amount overflows. */
  method ChooseBucket(page: nat, pagebucket: nat, size: nat) returns (r: Option<nat>)
    requires pagebucket > MINBUCKET && page == Size(pagebucket) && page < 0x8000_0000 && size < TWO64
    ensures match r case Some(b) => IsFit(page, size, b) case None => NoFit(page, size)
  {
    hide Size, Pow2;
    var amt: nat, bucket: nat;
    var n: int;
    Sizes(pagebucket);
    Sizes(pagebucket - 1);
    if size <= page / 2 - OVERSIZE {
      amt, bucket, n := BuckSize(MINBUCKET), MINBUCKET, 0 - OVERSIZE;
      SizeGrows(MINBUCKET, pagebucket - 1);
    } else {
      amt, bucket, n := page, pagebucket, page - OVERSIZE;
    }
    while size > amt + n
      invariant MINBUCKET <= bucket < NBUCKETS && amt == Size(bucket)
      invariant n == Cap(page, bucket) - amt
      invariant n < 0 ==> size <= page / 2 - OVERSIZE
      invariant MINBUCKET < bucket ==> Cap(page, bucket - 1) < size
      decreases NBUCKETS - bucket
    {
      Sizes(bucket);
      amt := amt * 2 % TWO64;
      if amt == 0 {
        return None;
      }
      bucket := bucket + 1;
    }
    return Some(bucket);
  }

  lemma SizeGrows(a: nat, b: nat)
    requires a <= b
    ensures Size(a) <= Size(b)
  {
    Pow2Grows(a + 4, b + 4);
  }

  // ------------------------------------------------------------ the bytes of a heap

  /** The element after position i, 0 after the last. */
  function After(l: seq<nat>, i: nat): nat {
    if i + 1 < |l| then l[i + 1] else 0
  }

  function Head(l: seq<nat>): nat {
    if l == [] then 0 else l[0]
  }

  /** The first n elements of l are linked through their headers. */
  ghost predicate Linked(m: seq<byte>, l: seq<nat>, n: nat) {
    forall i :: 0 <= i < n && i < |l| ==> l[i] + 8 <= |m| && Word(m, l[i]) == After(l, i)
  }

  ghost predicate LinksOk(m: seq<byte>, free: seq<seq<nat>>) {
    forall b :: 0 <= b < |free| ==> Linked(m, free[b], |free[b]|)
  }

  ghost predicate HeadersOk(m: seq<byte>, bucket: Blocks, used: set<nat>) {
    forall s :: s in used ==> s in bucket && s + 8 <= |m| && Word(m, s) == MagIdx(bucket[s])
  }

  ghost function Live(bucket: Blocks, used: set<nat>, b: nat): set<nat> {
    set s | s in used && s in bucket && bucket[s] == b
  }

  ghost predicate CountsOk(nmalloc: seq<nat>, bucket: Blocks, used: set<nat>) {
    |nmalloc| == NBUCKETS && forall b :: 0 <= b < NBUCKETS ==> nmalloc[b] == |Live(bucket, used, b)|
  }

  ghost predicate HeadsOk(nextf: seq<nat>, free: seq<seq<nat>>) {
    |nextf| == |free| == NBUCKETS && forall b :: 0 <= b < NBUCKETS ==> nextf[b] == Head(free[b])
  }

  lemma AlignedApart(s: nat, t: nat)
    requires IsAligned(s) && IsAligned(t) && s != t
    ensures s + 16 <= t || t + 16 <= s
  {
  }

  lemma CountsTake(nmalloc: seq<nat>, bucket: Blocks, used: set<nat>, s: nat)
    requires CountsOk(nmalloc, bucket, used) && s in bucket && s !in used && bucket[s] < NBUCKETS
    ensures CountsOk(nmalloc[bucket[s] := nmalloc[bucket[s]] + 1], bucket, used + {s})
  {
    forall b: nat | b < NBUCKETS
      ensures |Live(bucket, used + {s}, b)| == |Live(bucket, used, b)| + if b == bucket[s] then 1 else 0
    {
      if b == bucket[s] { assert Live(bucket, used + {s}, b) == Live(bucket, used, b) + {s}; }
      else { assert Live(bucket, used + {s}, b) == Live(bucket, used, b); }
    }
  }

  lemma CountsGive(nmalloc: seq<nat>, bucket: Blocks, used: set<nat>, s: nat)
    requires CountsOk(nmalloc, bucket, used) && s in bucket && s in used && bucket[s] < NBUCKETS
    ensures nmalloc[bucket[s]] > 0 && CountsOk(nmalloc[bucket[s] := nmalloc[bucket[s]] - 1], bucket, used - {s})
  {
    forall b: nat | b < NBUCKETS
      ensures |Live(bucket, used, b)| == |Live(bucket, used - {s}, b)| + if b == bucket[s] then 1 else 0
    {
      if b == bucket[s] { assert Live(bucket, used, b) == Live(bucket, used - {s}, b) + {s}; }
      else { assert Live(bucket, used, b) == Live(bucket, used - {s}, b); }
    }
  }

  lemma CountsMore(nmalloc: seq<nat>, bucket: Blocks, bucket': Blocks, used: set<nat>)
    requires CountsOk(nmalloc, bucket, used) && (forall s :: s in used ==> s in bucket)
    requires forall s :: s in bucket ==> s in bucket' && bucket'[s] == bucket[s]
    ensures CountsOk(nmalloc, bucket', used)
  {
    forall b: nat | b < NBUCKETS ensures Live(bucket', used, b) == Live(bucket, used, b) { }
  }

  /** A header written at s leaves the links of other blocks alone. */
  lemma LinkedElsewhere(m: seq<byte>, m': seq<byte>, l: seq<nat>, n: nat, s: nat)
    requires Linked(m, l, n) && IsAligned(s) && SameBut(m, m', s)
    requires forall i :: 0 <= i < n && i < |l| ==> IsAligned(l[i]) && l[i] != s
    ensures Linked(m', l, n)
  {
    hide IsAligned, Word;
    forall i | 0 <= i < n && i < |l| ensures l[i] + 8 <= |m'| && Word(m', l[i]) == After(l, i) {
      AlignedApart(l[i], s);
      SameWord(m, m', s, l[i]);
    }
  }

  lemma HeadersElsewhere(m: seq<byte>, m': seq<byte>, bucket: Blocks, used: set<nat>, s: nat)
    requires HeadersOk(m, bucket, used) && IsAligned(s) && s !in used && SameBut(m, m', s)
    requires forall t :: t in used ==> IsAligned(t)
    ensures HeadersOk(m', bucket, used)
  {
    hide IsAligned, Word;
    forall t | t in used ensures t in bucket && t + 8 <= |m'| && Word(m', t) == MagIdx(bucket[t]) {
      AlignedApart(t, s);
      SameWord(m, m', s, t);
    }
  }

  /** What a valid heap says about the offsets its lists and marks hold. */
  ghost predicate StartsOk(h: Heap) {
    && |h.free| == NBUCKETS
    && (forall s :: s in h.bucket ==> IsAligned(s) && 0 < s && s + 16 <= h.core && h.bucket[s] < NBUCKETS)
    && (forall s :: s in h.used ==> s in h.bucket)
    && (forall b, i :: 0 <= b < NBUCKETS && 0 <= i < |h.free[b]| ==>
          h.free[b][i] in h.bucket && h.free[b][i] !in h.used && h.bucket[h.free[b][i]] == b)
    && (forall b, i, j :: 0 <= b < NBUCKETS && 0 <= i < j < |h.free[b]| ==> h.free[b][i] != h.free[b][j])
  }

  lemma Starts(h: Heap)
    requires Valid(h)
    ensures StartsOk(h) && h.core <= h.end && 0 < h.lo && IsAligned(h.core)
  {
    hide Extent, Follows, IsAligned;
    forall s | s in h.bucket ensures s + 16 <= h.core { ExtentAligned(h.page, h.bucket[s]); }
  }

  /** The header of block s was overwritten; s is not on any list of free. */
  lemma LinksElsewhere(m: seq<byte>, m': seq<byte>, h: Heap, free: seq<seq<nat>>, s: nat)
    requires LinksOk(m, free) && StartsOk(h) && IsAligned(s) && SameBut(m, m', s)
    requires forall b, i :: 0 <= b < |free| && 0 <= i < |free[b]| ==> free[b][i] in h.bucket && free[b][i] != s
    ensures LinksOk(m', free)
  {
    hide IsAligned, Word;
    forall b | 0 <= b < |free| ensures Linked(m', free[b], |free[b]|) {
      LinkedElsewhere(m, m', free[b], |free[b]|, s);
    }
  }

  /** Dropping the first block of a list leaves the rest linked. */
  lemma LinksTail(m: seq<byte>, free: seq<seq<nat>>, b: nat)
    requires LinksOk(m, free) && b < |free| && free[b] != []
    ensures LinksOk(m, free[b := free[b][1..]])
  {
  }

  /** The user bytes of the blocks allocated in h are the same in m and m'. */
  ghost predicate UserBytesKept(h: Heap, m: seq<byte>, m': seq<byte>) {
    |m'| == |m| && forall s, x :: s in h.used && s in h.bucket && InUser(h, s, x) && 0 <= x < |m| ==> m'[x] == m[x]
  }

  /** Writing a block header touches no user byte. */
  lemma HeaderKeepsUserBytes(h: Heap, m: seq<byte>, m': seq<byte>, s: nat)
    requires Valid(h) && s in h.bucket && SameBut(m, m', s)
    ensures UserBytesKept(h, m, m')
  {
    hide Valid, InUser;
    forall t, x | t in h.used && t in h.bucket && InUser(h, t, x) && 0 <= x < |m| ensures m'[x] == m[x] {
      HeaderOutside(h, s, t, x);
    }
  }

  lemma HeaderOutside(h: Heap, s: nat, t: nat, x: int)
    requires Valid(h) && s in h.bucket && t in h.bucket && InUser(h, t, x)
    ensures !(s <= x < s + 8)
  {
    if s != t { UserAreasDisjoint(h, t, s, x); }
  }

  /** m and m' agree below core. */
  ghost predicate SameBelow(m: seq<byte>, m': seq<byte>, core: nat) {
    |m'| == |m| && forall x :: 0 <= x < core && x < |m| ==> m'[x] == m[x]
  }

  lemma NothingYet(m: seq<byte>, l: seq<nat>, core: nat)
    ensures Linked(m, l, 0) && SameBelow(m, m, core)
  {
  }

  lemma KeptSame(h: Heap, m: seq<byte>)
    ensures UserBytesKept(h, m, m) && SameBelow(m, m, h.core)
  {
  }

  lemma FitIs(page: nat, size: nat, r: Option<nat>)
    requires match r case Some(b) => IsFit(page, size, b) case None => NoFit(page, size)
    ensures Fit(page, size) == r && (r.Some? ==> MINBUCKET <= r.value < NBUCKETS)
  {
    hide Cap, FitFrom;
    match r
    case Some(b) => FitFromIs(page, size, MINBUCKET, b);
    case None => FitFromNone(page, size, MINBUCKET);
  }

  lemma StoreAbove(m0: seq<byte>, m: seq<byte>, m': seq<byte>, core: nat, s: nat)
    requires SameBelow(m0, m, core) && core <= s && SameBut(m, m', s)
    ensures SameBelow(m0, m', core)
  {
  }

  lemma BelowKeeps(h: Heap, m: seq<byte>, m': seq<byte>)
    requires Valid(h) && SameBelow(m, m', h.core)
    ensures UserBytesKept(h, m, m')
    ensures HeadersOk(m, h.bucket, h.used) ==> HeadersOk(m', h.bucket, h.used)
  {
    hide Extent, Follows, IsAligned, MagIdx;
    Starts(h);
  }

  lemma BelowLinks(h: Heap, m: seq<byte>, m': seq<byte>, b: nat)
    requires StartsOk(h) && SameBelow(m, m', h.core) && b < NBUCKETS && Linked(m, h.free[b], |h.free[b]|)
    ensures Linked(m', h.free[b], |h.free[b]|)
  {
  }

  /** Block k of a new list is linked to the block that follows it. */
  lemma LinkNext(m: seq<byte>, m': seq<byte>, l: seq<nat>, s: nat, next: nat)
    requires l != [] && l[|l| - 1] == s && s + 8 <= |m| && Linked(m, l, |l| - 1) && SameBut(m, m', s)
             && Word(m', s) == next
    requires forall i :: 0 <= i < |l| ==> IsAligned(l[i])
    requires forall i, j :: 0 <= i < j < |l| ==> l[i] != l[j]
    ensures Linked(m', l + [next], |l|)
    ensures next == 0 ==> Linked(m', l, |l|)
  {
    hide IsAligned, Word;
    LinkedElsewhere(m, m', l, |l| - 1, s);
  }

  /** The free list of b after n blocks were added to an empty one. */
  lemma AddedList(h: Heap, b: nat, n: nat)
    requires Valid(h) && MINBUCKET <= b < NBUCKETS && h.free[b] == [] && 0 < n
             && h.core + Times(Extent(h.page, b), n) <= h.end
    ensures var t := AddBlocks(h, b, n);
            && Valid(t) && StartsOk(t) && |t.free[b]| == n && t.free[b][0] == h.core
            && t.core == h.core + Times(Extent(h.page, b), n) && t.free[b][n - 1] + Extent(h.page, b) == t.core
  {
    hide Extent, PageOk, Tiles, BucketsOk;
    AddBlocksValid(h, b, n);
    Starts(AddBlocks(h, b, n));
    FirstAdded(h, b, n);
    TimesGrows(Extent(h.page, b), n - 1, n);
    AddBlocksValid(h, b, n - 1);
  }

  lemma AddedOne(h: Heap, b: nat, n: nat)
    requires b < |h.free|
    ensures var t, u := AddBlocks(h, b, n), AddBlocks(h, b, n + 1);
            u.free == t.free[b := t.free[b] + [t.core]] && (n == 0 ==> t == h)
  {
  }

  /** What one carve takes and yields. */
  lemma CarvePlan(h: Heap, b: nat, n: nat, amt: nat)
    requires Valid(h)
    requires if Size(b) < h.page then amt == h.page && n == h.page / Size(b) else amt == Size(b) + h.page && n == 1
    ensures amt == CarveBytes(h.page, b) == Times(Extent(h.page, b), n) && n == BlocksPerCarve(h.page, b) && n >= 1
    ensures n > 1 ==> Extent(h.page, b) == Size(b)
  {
    CarveFills(h.page, b);
  }

  lemma {:induction false} FirstAdded(h: Heap, b: nat, n: nat)
    requires b < |h.free| && h.free[b] == [] && 0 < n
    ensures var t := AddBlocks(h, b, n); t.free[b] != [] && t.free[b][0] == h.core
  {
    hide Extent;
    if n > 1 { FirstAdded(h, b, n - 1); }
  }

  // ------------------------------------------------------------ the allocator

  /** The metadata (bucket heads, counters, core) and the bytes represent h. */
  ghost predicate Represents(h: Heap, m: seq<byte>, nextf: seq<nat>, nmalloc: seq<nat>, mycore: nat, coreResid: nat) {
    && Valid(h) && mycore == h.core && mycore + coreResid == h.end && h.end <= |m| < TWO64
    && HeadsOk(nextf, h.free) && LinksOk(m, h.free) && HeadersOk(m, h.bucket, h.used)
       && CountsOk(nmalloc, h.bucket, h.used)
    && IntBuckets(h.bucket)
  }

  class Arena {
    const mem: array<byte>
    const nextf: array<nat>
    const nmalloc: array<nat>
    const page: nat
    const pagebucket: nat
    const minUoffset: nat
    var mycore: nat
    var coreResid: nat
    ghost var heap: Heap

    ghost predicate Rep()
      reads this, mem, nextf, nmalloc
    {
      && nextf != nmalloc
      && heap.lo == minUoffset && heap.page == page == Size(pagebucket) && pagebucket > MINBUCKET && page < 0x8000_0000
      && Represents(heap, mem[..], nextf[..], nmalloc[..], mycore, coreResid)
    }

    /** bsd_init: an empty heap whose core is the whole arena from lo on. */
    constructor (length: nat, lo: nat, pagesz: nat)
      requires PageOk(pagesz) && pagesz < 0x8000_0000 && 0 < lo <= length < TWO64 && IsAligned(lo)
      ensures Rep() && fresh(mem) && fresh(nextf) && fresh(nmalloc)
      ensures heap == Heap(pagesz, lo, lo, length, map[], {}, seq(NBUCKETS, i => []))
    {
      var bucket := 0;
      SizeOfPage(pagesz);
      while BuckSize(bucket) < pagesz
        invariant bucket <= INTBUCKET
        invariant exists p: nat :: bucket <= p <= INTBUCKET && p > MINBUCKET && Size(p) == pagesz
        decreases pagesz - Size(bucket)
      {
        Sizes(bucket);
        bucket := bucket + 1;
      }
      FirstSize(pagesz, bucket);
      page := pagesz;
      minUoffset := lo;
      pagebucket := bucket;
      mycore := lo;
      coreResid := length - lo;
      mem := new byte[length];
      nextf := new nat[NBUCKETS](_ => 0);
      nmalloc := new nat[NBUCKETS](_ => 0);
      heap := Heap(pagesz, lo, lo, length, map[], {}, seq(NBUCKETS, i => []));
      new;
      Empty(heap, mem[..], nextf[..], nmalloc[..]);
    }

    /** Take the first block off list b and mark it allocated. */
    method Pop(b: nat) returns (s: nat)
      requires Rep() && MINBUCKET <= b < NBUCKETS && heap.free[b] != []
      modifies this`heap, mem, nextf, nmalloc
      ensures Rep() && heap == Take(old(heap), b) && s == old(heap.free[b][0])
      ensures s in heap.bucket && SameBut(old(mem[..]), mem[..], s)
    {
      hide Valid, Size, IsAligned, MagIdx, Word, LinksOk, HeadersOk, CountsOk;
      Starts(heap);
      FirstLink(heap, mem[..], b);
      s := nextf[b];
      Counts(nmalloc[..], heap);
      var next := Load(mem, s);
      nextf[b] := next;
      HeaderDecodes(b);
      Store(mem, s, MagIdx(b));
      nmalloc[b] := nmalloc[b] + 1;
      assert nextf[..] == old(nextf[..])[b := next];
      assert nmalloc[..] == old(nmalloc[..])[b := old(nmalloc[b]) + 1];
      Popped(heap, old(mem[..]), mem[..], old(nextf[..]), old(nmalloc[..]), mycore, coreResid, b);
      heap := Take(heap, b);
    }

    /** Put the allocated block s at the head of its bucket's list. */
    method Push(s: nat, b: nat)
      requires Rep() && s in heap.used && s in heap.bucket && b == heap.bucket[s]
      modifies this`heap, mem, nextf, nmalloc
      ensures Rep() && heap == Release(old(heap), s)
      ensures SameBut(old(mem[..]), mem[..], s)
    {
      hide Valid, Size, IsAligned, MagIdx, Word, LinksOk, HeadersOk, CountsOk;
      Starts(heap);
      CountsGive(nmalloc[..], heap.bucket, heap.used, s);
      Counts(nmalloc[..], heap);
      Store(mem, s, nextf[b]);
      nextf[b] := s;
      nmalloc[b] := nmalloc[b] - 1;
      assert nextf[..] == old(nextf[..])[b := s];
      assert nmalloc[..] == old(nmalloc[..])[b := old(nmalloc[b]) - 1];
      Pushed(heap, old(mem[..]), mem[..], old(nextf[..]), old(nmalloc[..]), mycore, coreResid, s);
      heap := Release(heap, s);
    }

    /** bsd_morecore: carve a page of blocks, or one large block, onto list b. */
    method Morecore(b: nat)
      requires Rep() && (b <= INTBUCKET || b >= NBUCKETS) && (b < NBUCKETS ==> heap.free[b] == [])
      modifies this, mem, nextf
      ensures Rep() && heap == if MINBUCKET <= b < NBUCKETS then Bsd.Morecore(old(heap), b) else old(heap)
      ensures SameBelow(old(mem[..]), mem[..], old(heap.core))
    {
      hide Valid, Extent, Size, IsAligned, MagIdx, Word, Times, AddBlocks, CarveBytes, BlocksPerCarve, CountsOk,
        HeadersOk, LinksOk, Linked;
      if b < MINBUCKET || b >= NBUCKETS {
        return;
      }
      var sz := BuckSize(b);
      Sizes(b);
      var amt, nblks;
      if sz < page {
        amt := page;
        nblks := amt / sz;
      } else {
        amt := sz + page;
        nblks := 1;
      }
      CarvePlan(heap, b, nblks, amt);
      if coreResid < amt {
        return;
      }
      var curoff := mycore;
      mycore := mycore + amt;
      coreResid := coreResid - amt;
      nextf[b] := curoff;
      assert nextf[..] == old(nextf[..])[b := curoff];
      LinkBlocks(b, sz, nblks, curoff, curoff);
      heap := AddBlocks(heap, b, nblks);
      Carved(old(heap), old(mem[..]), mem[..], old(nextf[..]), nmalloc[..], old(mycore), old(coreResid), b, nblks);
    }

    /** The loop that strings the new blocks together. */
    method LinkBlocks(b: nat, sz: nat, blocks: nat, start: nat, first: nat)
      requires Valid(heap) && MINBUCKET <= b < NBUCKETS && heap.free[b] == [] && 0 < blocks
      requires heap.core + Times(Extent(heap.page, b), blocks) <= heap.end <= mem.Length < TWO64
      requires start == first == heap.core && (blocks > 1 ==> Extent(heap.page, b) == sz)
      modifies mem
      ensures var l := AddBlocks(heap, b, blocks).free[b]; Linked(mem[..], l, |l|)
      ensures SameBelow(old(mem[..]), mem[..], heap.core)
    {
      hide Valid, Extent, IsAligned, Word, Times, AddBlocks, Linked, SameBelow, SameBut;
      var op, curoff, nblks := start, first, blocks;
      ghost var k := 1;
      TimesGrows(Extent(heap.page, b), 1, blocks);
      AddedList(heap, b, 1);
      NothingYet(mem[..], AddBlocks(heap, b, 1).free[b], heap.core);
      nblks := nblks - 1;
      while nblks > 0
        invariant 1 <= k && k + nblks == blocks
        invariant heap.core + Times(Extent(heap.page, b), k) <= heap.end
        invariant |AddBlocks(heap, b, k).free[b]| == k && curoff == op == AddBlocks(heap, b, k).free[b][k - 1]
        invariant Linked(mem[..], AddBlocks(heap, b, k).free[b], k - 1)
        invariant heap.core <= op && SameBelow(old(mem[..]), mem[..], heap.core)
      {
        TimesGrows(Extent(heap.page, b), k + 1, blocks);
        AddedList(heap, b, k);
        AddedList(heap, b, k + 1);
        AddedOne(heap, b, k);
        ghost var m := mem[..];
        curoff := curoff + sz;
        Store(mem, op, curoff);
        LinkNext(m, mem[..], AddBlocks(heap, b, k).free[b], op, curoff);
        StoreAbove(old(mem[..]), m, mem[..], heap.core, op);
        op := op + sz;
        nblks := nblks - 1;
        k := k + 1;
      }
      AddedList(heap, b, k);
      ghost var m := mem[..];
      Store(mem, op, 0);
      LinkNext(m, mem[..], AddBlocks(heap, b, k).free[b], op, 0);
      StoreAbove(old(mem[..]), m, mem[..], heap.core, op);
    }

    /** Make sure list b has a block, if there is room for one. */
    method Stock(b: nat)
      requires Rep() && MINBUCKET <= b <= INTBUCKET
      modifies this, mem, nextf
      ensures Rep() && heap == Stocked(old(heap), b)
      ensures UserBytesKept(old(heap), old(mem[..]), mem[..])
    {
      hide Valid, Size, LinksOk, HeadersOk, CountsOk, Bsd.Morecore, UserBytesKept, SameBelow;
      Starts(heap);
      KeptSame(heap, mem[..]);
      if nextf[b] == 0 {
        Morecore(b);
        BelowKeeps(old(heap), old(mem[..]), mem[..]);
      }
    }

    /** bsd_malloc. */
    method Malloc(size: nat) returns (r: Option<nat>)
      requires Rep() && size < TWO64 && IntRequest(page, size)
      modifies this, mem, nextf, nmalloc
      ensures Rep() && (heap, r) == Bsd.Malloc(old(heap), size)
      ensures UserBytesKept(old(heap), old(mem[..]), mem[..])
    {
      hide Valid, Size, LinksOk, HeadersOk, CountsOk, Stocked, Fit, UserBytesKept, SameBut;
      Starts(heap);
      KeptSame(heap, mem[..]);
      var choice := ChooseBucket(page, pagebucket, size);
      FitIs(page, size, choice);
      FitIsInt(page, size);
      if choice.None? {
        return None;
      }
      var b := choice.value;
      BuckSizeDefined(b);
      Stock(b);
      Starts(heap);
      if nextf[b] == 0 {
        return None;
      }
      ghost var h, m := heap, mem[..];
      var s := Pop(b);
      StockKeeps(old(heap), b);
      HeaderKeepsUserBytes(h, m, mem[..], s);
      KeptTwice(old(heap), h, old(mem[..]), m, mem[..]);
      return Some(s + OVERSIZE);
    }

    /** bsd_free: the block goes back to its bucket; a block without the magic
        number, such as one that is already free, is left alone, and so is any
        other place without it. */
    method Free(off: nat)
      requires Rep() && (off >= minUoffset + OVERSIZE ==>
                           off - OVERSIZE in heap.bucket || Unmarked(mem[..], off - OVERSIZE))
      modifies this`heap, mem, nextf, nmalloc
      ensures Rep() && heap == if off < minUoffset + OVERSIZE then old(heap) else Release(old(heap), off - OVERSIZE)
      ensures off >= minUoffset + OVERSIZE && off - OVERSIZE !in old(heap.used) ==>
                mem[..] == old(mem[..]) && nextf[..] == old(nextf[..]) && nmalloc[..] == old(nmalloc[..])
      ensures UserBytesKept(old(heap), old(mem[..]), mem[..])
    {
      hide Valid, Size, LinksOk, HeadersOk, CountsOk, UserBytesKept, SameBut, Word;
      KeptSame(heap, mem[..]);
      if off < minUoffset + OVERSIZE {
        return;
      }
      var s := off - OVERSIZE;
      if s in heap.bucket { HeaderSays(heap, mem[..], s); }
      MarkedIfUsed(heap, mem[..], s);
      var w := Load(mem, s);
      if w % 0x1_0000 != MAGIC {
        return;
      }
      var bucket := w / 0x1_0000 % 256;
      if bucket >= NBUCKETS {
        return;
      }
      Push(s, bucket);
      HeaderKeepsUserBytes(old(heap), old(mem[..]), mem[..], s);
    }

    /** bsd_realloc: the block stays if its bucket still is the right one; else
        its bytes move to a new block and the old one is freed. */
    method Realloc(off: nat, size: nat) returns (r: Option<nat>)
      requires Rep() && size < TWO64
      requires off >= minUoffset + OVERSIZE ==> off - OVERSIZE in heap.bucket || Unmarked(mem[..], off - OVERSIZE)
      requires off >= minUoffset + OVERSIZE && off - OVERSIZE in heap.used ==> IntRequest(page, size)
      modifies this, mem, nextf, nmalloc
      ensures Rep()
      ensures off < minUoffset + OVERSIZE || off - OVERSIZE !in old(heap.used) ==>
                r == None && heap == old(heap) && mem[..] == old(mem[..])
      ensures off >= minUoffset + OVERSIZE && off - OVERSIZE in old(heap.used) ==>
                Reallocated(old(heap), off - OVERSIZE, size, old(mem[..]), heap, r, mem[..])
    {
      hide Valid, Size, LinksOk, HeadersOk, CountsOk, UserBytesKept, SameBut, Word, Bsd.Malloc, IsFit, StartsOk;
      if off < minUoffset + OVERSIZE {
        return None;
      }
      var s := off - OVERSIZE;
      if s in heap.bucket { HeaderSays(heap, mem[..], s); }
      MarkedIfUsed(heap, mem[..], s);
      var w := Load(mem, s);
      if w % 0x1_0000 != MAGIC {
        return None;
      }
      var bucket := w / 0x1_0000 % 256;
      if s in heap.bucket { BucketInRange(heap, s); }
      if bucket < MINBUCKET || bucket >= NBUCKETS {
        return None;
      }
      var keep, bucksize := SameBucket(bucket, size);
      if keep {
        StayedPut(heap, s, size, mem[..]);
        return Some(off);
      }
      r := Move(off, size, bucksize);
    }

    /** The move: allocate, copy, free. */
    method Move(off: nat, size: nat, bucksize: nat) returns (r: Option<nat>)
      requires Rep() && size < TWO64 && IntRequest(page, size)
      requires off >= minUoffset + OVERSIZE && off - OVERSIZE in heap.used && off - OVERSIZE in heap.bucket
      requires bucksize == Cap(page, heap.bucket[off - OVERSIZE])
      requires !IsFit(page, size, heap.bucket[off - OVERSIZE])
      modifies this, mem, nextf, nmalloc
      ensures Rep() && Reallocated(old(heap), off - OVERSIZE, size, old(mem[..]), heap, r, mem[..])
    {
      hide Valid, Size, LinksOk, HeadersOk, CountsOk, UserBytesKept, Bsd.Malloc, Bsd.Release, IsFit, StartsOk, Cap,
        InUser, HeadsOk, Moved;
      var s := off - OVERSIZE;
      CopyFits(heap, size, s);
      r := Malloc(size);
      if r.None? {
        FewerKept(old(heap), s, old(mem[..]), mem[..]);
        return;
      }
      var n := if size < bucksize then size else bucksize;
      ghost var h, m := heap, mem[..];
      Copy(mem, r.value, off, n);
      ghost var m1 := mem[..];
      CopyInside(h, r.value, n, m, m1);
      UserWrite(h, m, m1, nextf[..], nmalloc[..], mycore, coreResid, r.value - OVERSIZE);
      Free(off);
      MoveDone(old(heap), h, s, r.value, size, n, old(mem[..]), m, m1, mem[..]);
    }

    /** bsd_realloc's test whether size needs the bucket the block is in. */
    method SameBucket(bucket: nat, size: nat) returns (keep: bool, bucksize: nat)
      requires Rep() && MINBUCKET <= bucket <= INTBUCKET
      ensures keep == IsFit(page, size, bucket) && bucksize == Cap(page, bucket)
    {
      hide Represents, Pow2, Size;
      Sizes(bucket);
      Sizes(bucket - 1);
      Sizes(MINBUCKET - 1);
      bucksize := BuckSize(bucket);
      bucksize := if bucksize < page then bucksize - OVERSIZE else bucksize + (page - OVERSIZE);
      var prevbucksize := 0;
      if bucket > MINBUCKET {
        SizeGrows(MINBUCKET, bucket - 1);
        prevbucksize := BuckSize(bucket - 1);
        prevbucksize := if prevbucksize < page then prevbucksize - OVERSIZE else prevbucksize + (page - OVERSIZE);
      }
      keep := size <= bucksize && (prevbucksize == 0 || size > prevbucksize);
    }
  }

  /** The bytes a realloc must preserve are at to what they were at the block s. */
  ghost predicate Moved(h: Heap, s: nat, size: nat, m: seq<byte>, to: nat, m': seq<byte>) {
    && s in h.bucket
    && var n := if size < Cap(h.page, h.bucket[s]) then size else Cap(h.page, h.bucket[s]);
    && 0 <= n && Copied(m, s + OVERSIZE, m', to, n)
  }

  /** bsd_realloc of the allocated block s: the heap and the result are those of
      the specification, the bytes moved along, all other blocks kept theirs. */
  ghost predicate Reallocated(h: Heap, s: nat, size: nat, m: seq<byte>, h': Heap, r: Option<nat>, m': seq<byte>) {
    && Valid(h) && s in h.used && (h', r) == Bsd.Realloc(h, s, size)
    && (r.Some? ==> Moved(h, s, size, m, r.value, m'))
    && UserBytesKept(h.(used := h.used - {s}), m, m')
  }

  lemma BucketInRange(h: Heap, s: nat)
    requires Valid(h) && IntBuckets(h.bucket) && s in h.bucket
    ensures MINBUCKET <= h.bucket[s] <= INTBUCKET
  {
  }

  /** The word at s is no header of an allocated block. */
  ghost predicate Unmarked(m: seq<byte>, s: nat) {
    s + 8 <= |m| && (Word(m, s) % 0x1_0000 != MAGIC || Word(m, s) / 0x1_0000 % 256 >= NBUCKETS)
  }

  lemma MarkedIfUsed(h: Heap, m: seq<byte>, s: nat)
    requires Valid(h) && h.end <= |m| && LinksOk(m, h.free) && HeadersOk(m, h.bucket, h.used)
    ensures s in h.used ==> s in h.bucket && !Unmarked(m, s)
  {
    hide Valid, LinksOk, Word;
    if s in h.used { HeaderSays(h, m, s); }
  }

  lemma StayedPut(h: Heap, s: nat, size: nat, m: seq<byte>)
    requires Valid(h) && s in h.bucket && h.end <= |m|
    ensures Moved(h, s, size, m, s + OVERSIZE, m) && UserBytesKept(h.(used := h.used - {s}), m, m)
  {
    hide Extent, IsAligned, PageOk;
    ExtentAligned(h.page, h.bucket[s]);
  }

  lemma FewerKept(h: Heap, s: nat, m: seq<byte>, m': seq<byte>)
    requires UserBytesKept(h, m, m')
    ensures UserBytesKept(h.(used := h.used - {s}), m, m')
  {
  }

  /** Where old and new block of a move lie. */
  ghost predicate Apart(h: Heap, t: Heap, s: nat, to: nat, size: nat) {
    && s in h.bucket && s in t.bucket && to >= OVERSIZE && to - OVERSIZE in t.bucket && to - OVERSIZE != s
    && t.bucket[s] == h.bucket[s] && h.page == t.page && Keeps(h, t) && to - OVERSIZE !in h.used
       && t.used == h.used + {to - OVERSIZE}
    && var (n, k) := (Cap(t.page, t.bucket[s]), Cap(t.page, t.bucket[to - OVERSIZE]));
    && 0 <= n && size <= k && s + OVERSIZE + n <= t.core <= t.end && to + k <= t.core
    && (s + OVERSIZE + n <= to - OVERSIZE || to + k <= s)
  }

  lemma CopyFits(h: Heap, size: nat, s: nat)
    requires Valid(h) && s in h.used
    ensures var (t, r) := Bsd.Malloc(h, size); r.Some? ==> Valid(t) && Apart(h, t, s, r.value, size)
  {
    hide Extent, PageOk, BucketsOk, Bsd.Malloc, Follows;
    MallocCorrect(h, size);
    ExtentAligned(h.page, h.bucket[s]);
  }

  /** Only user bytes of block s differ. */
  ghost predicate WroteUser(h: Heap, s: int, m: seq<byte>, m': seq<byte>) {
    s >= 0 && s in h.bucket && |m'| == |m| && forall x :: 0 <= x < |m| && !InUser(h, s, x) ==> m'[x] == m[x]
  }

  lemma CopyInside(t: Heap, to: nat, n: nat, m: seq<byte>, m': seq<byte>)
    requires to >= OVERSIZE && to - OVERSIZE in t.bucket && n <= Cap(t.page, t.bucket[to - OVERSIZE]) && |m'| == |m|
    requires forall x :: 0 <= x < |m| && !(to <= x < to + n) ==> m'[x] == m[x]
    ensures WroteUser(t, to - OVERSIZE, m, m')
  {
  }

  /** Malloc (m0 to m), copy (to m1) and free (to m2) add up to a move. */
  lemma MoveDone(h: Heap, t: Heap, s: nat, to: nat, size: nat, n: nat, m0: seq<byte>, m: seq<byte>, m1: seq<byte>,
                 m2: seq<byte>)
    requires Valid(t) && Apart(h, t, s, to, size) && t.end <= |m0| && s in h.used
    requires n == if size < Cap(h.page, h.bucket[s]) then size else Cap(h.page, h.bucket[s])
    requires UserBytesKept(h, m0, m) && UserBytesKept(t, m1, m2)
    requires Copied(m, s + OVERSIZE, m1, to, n) && WroteUser(t, to - OVERSIZE, m, m1)
    ensures Moved(h, s, size, m0, to, m2) && UserBytesKept(h.(used := h.used - {s}), m0, m2)
  {
    hide Extent, Valid;
    BytesFollow(h, t, s, to, size, n, m0, m, m1, m2);
    var k := h.(used := h.used - {s});
    forall q, x | q in k.used && q in k.bucket && InUser(k, q, x) && 0 <= x < |m0| ensures m2[x] == m0[x] {
      assert InUser(h, q, x) && InUser(t, q, x);
      if q != to - OVERSIZE { UserAreasDisjoint(t, q, to - OVERSIZE, x); }
    }
  }

  lemma BytesFollow(h: Heap, t: Heap, s: nat, to: nat, size: nat, n: nat, m0: seq<byte>, m: seq<byte>, m1: seq<byte>,
                    m2: seq<byte>)
    requires Apart(h, t, s, to, size) && t.end <= |m0| && s in h.used && n <= Cap(h.page, h.bucket[s]) && n <= size
    requires UserBytesKept(h, m0, m) && UserBytesKept(t, m1, m2) && |m1| == |m| && Copied(m, s + OVERSIZE, m1, to, n)
    ensures Copied(m0, s + OVERSIZE, m2, to, n)
  {
    hide Extent;
    forall x | to <= x < to + n ensures m2[x] == m0[s + OVERSIZE + x - to] {
      assert InUser(t, to - OVERSIZE, x) && InUser(h, s, s + OVERSIZE + x - to);
      assert m1[to..to + n][x - to] == m[s + OVERSIZE..s + OVERSIZE + n][x - to];
    }
  }

  /** Writing user bytes of block s disturbs neither headers nor lists. */
  lemma UserWrite(h: Heap, m: seq<byte>, m': seq<byte>, nextf: seq<nat>, nmalloc: seq<nat>, mycore: nat, resid: nat,
                  s: nat)
    requires Represents(h, m, nextf, nmalloc, mycore, resid) && WroteUser(h, s, m, m')
    ensures Represents(h, m', nextf, nmalloc, mycore, resid)
  {
    hide Valid, IsAligned, MagIdx, Word, CountsOk, HeadsOk, InUser;
    Starts(h);
    forall t | t in h.bucket ensures t + 8 <= |m| && Word(m', t) == Word(m, t) { HeaderUnwritten(h, m, m', s, t); }
  }

  lemma HeaderUnwritten(h: Heap, m: seq<byte>, m': seq<byte>, s: nat, t: nat)
    requires Valid(h) && t in h.bucket && WroteUser(h, s, m, m') && h.end <= |m|
    ensures t + 8 <= |m| && Word(m', t) == Word(m, t)
  {
    Starts(h);
    hide Valid, InUser;
    forall x | t <= x < t + 8 ensures !InUser(h, s, x) { if InUser(h, s, x) { HeaderOutside(h, t, s, x); } }
  }

  lemma StockKeeps(h: Heap, b: nat)
    requires Valid(h) && MINBUCKET <= b < NBUCKETS
    ensures Keeps(h, Stocked(h, b)) && Stocked(h, b).used == h.used
  {
    hide Valid, Stocked;
    StockedValid(h, b);
  }

  /** Two changes in a row keep the user bytes of the blocks allocated before. */
  lemma KeptTwice(h: Heap, h': Heap, m: seq<byte>, m': seq<byte>, m'': seq<byte>)
    requires UserBytesKept(h, m, m') && UserBytesKept(h', m', m'') && Keeps(h, h') && h.used <= h'.used
    ensures UserBytesKept(h, m, m'')
  {
  }

  /** What the header of a block reads as. */
  lemma HeaderSays(h: Heap, m: seq<byte>, s: nat)
    requires Valid(h) && h.end <= |m| && LinksOk(m, h.free) && HeadersOk(m, h.bucket, h.used) && s in h.bucket
    ensures s + 8 <= |m| && h.bucket[s] < NBUCKETS
    ensures s in h.used ==> Word(m, s) % 0x1_0000 == MAGIC && Word(m, s) / 0x1_0000 % 256 == h.bucket[s]
    ensures s !in h.used ==> Word(m, s) % 0x1_0000 != MAGIC
  {
    hide Tiles, PageOk, IsAligned, Word;
    Starts(h);
    if s in h.used { HeaderDecodes(h.bucket[s]); }
    else {
      var l := h.free[h.bucket[s]];
      var i :| 0 <= i < |l| && l[i] == s;
      assert Linked(m, l, |l|);
      LinkAligned(h, h.bucket[s], i);
      LinksAreNotMagic(After(l, i));
    }
  }

  lemma LinkAligned(h: Heap, b: nat, i: nat)
    requires StartsOk(h) && b < NBUCKETS && i < |h.free[b]|
    ensures After(h.free[b], i) % ALIGN == 0
  {
  }

  /** The new list is linked, and everything carved before is as it was. */
  lemma Carved(h: Heap, m: seq<byte>, m': seq<byte>, nextf: seq<nat>, nmalloc: seq<nat>, mycore: nat, resid: nat,
               b: nat, n: nat)
    requires Represents(h, m, nextf, nmalloc, mycore, resid) && MINBUCKET <= b <= INTBUCKET && h.free[b] == [] && 0 < n
    requires SameBelow(m, m', h.core) && Times(Extent(h.page, b), n) <= resid
    requires var l := AddBlocks(h, b, n).free[b]; Linked(m', l, |l|)
    ensures var amt := Times(Extent(h.page, b), n);
            Represents(AddBlocks(h, b, n), m', nextf[b := h.core], nmalloc, mycore + amt, resid - amt)
  {
    hide PageOk, Tiles, BucketsOk, ListsOk, Extent, IsAligned, MagIdx, Word, Times, AddBlocks, Linked;
    var t := AddBlocks(h, b, n);
    Starts(h);
    AddedList(h, b, n);
    AddBlocksValid(h, b, n);
    BelowKeeps(h, m, m');
    CountsMore(nmalloc, h.bucket, t.bucket, h.used);
    forall c | 0 <= c < NBUCKETS ensures Linked(m', t.free[c], |t.free[c]|) {
      if c != b { BelowLinks(h, m, m', c); }
    }
  }

  lemma SizeOfPage(page: nat)
    requires PageOk(page) && page < 0x8000_0000
    ensures exists p: nat :: MINBUCKET < p <= INTBUCKET && Size(p) == page
  {
    var p: nat :| p >= 6 && page == Pow2(p);
    assert Size(p - 4) == page;
    Pow2Of31();
    if p > 30 { Pow2Grows(31, p); }
  }

  lemma FirstSize(page: nat, b: nat)
    requires page <= Size(b) && exists p: nat :: b <= p && p > MINBUCKET && Size(p) == page
    ensures Size(b) == page && b > MINBUCKET
  {
    var p: nat :| b <= p && p > MINBUCKET && Size(p) == page;
    Pow2Grows(b + 4, p + 4);
  }

  lemma Empty(h: Heap, m: seq<byte>, nextf: seq<nat>, nmalloc: seq<nat>)
    requires PageOk(h.page) && 0 < h.lo && IsAligned(h.lo) && h.lo == h.core <= h.end == |m| < TWO64
    requires h.bucket == map[] && h.used == {} && h.free == seq(NBUCKETS, i => [])
    requires nextf == seq(NBUCKETS, i => 0) && nmalloc == seq(NBUCKETS, i => 0)
    ensures Represents(h, m, nextf, nmalloc, h.core, h.end - h.core)
  {
  }

  lemma FirstLink(h: Heap, m: seq<byte>, b: nat)
    requires StartsOk(h) && LinksOk(m, h.free) && b < NBUCKETS && h.free[b] != []
    ensures h.free[b][0] + 8 <= |m| && Word(m, h.free[b][0]) == Head(h.free[b][1..]) && h.free[b][0] in h.bucket
  {
  }

  lemma Counts(nmalloc: seq<nat>, h: Heap)
    requires CountsOk(nmalloc, h.bucket, h.used)
    ensures |nmalloc| == NBUCKETS
  {
  }

  lemma Popped(h: Heap, m: seq<byte>, m': seq<byte>, nextf: seq<nat>, nmalloc: seq<nat>, mycore: nat, resid: nat,
               b: nat)
    requires Represents(h, m, nextf, nmalloc, mycore, resid) && MINBUCKET <= b < NBUCKETS && h.free[b] != []
    requires SameBut(m, m', h.free[b][0]) && h.free[b][0] + 8 <= |m| && Word(m', h.free[b][0]) == MagIdx(b)
    ensures |nmalloc| == NBUCKETS
    ensures Represents(Take(h, b), m', nextf[b := Head(h.free[b][1..])], nmalloc[b := nmalloc[b] + 1], mycore, resid)
  {
    hide PageOk, Tiles, BucketsOk, ListsOk, IsAligned, MagIdx, Word, Linked, CountsOk;
    var s := h.free[b][0];
    Counts(nmalloc, h);
    Starts(h);
    TakeValid(h, b);
    LinksTail(m, h.free, b);
    CountsTake(nmalloc, h.bucket, h.used, s);
    LinksElsewhere(m, m', h, h.free[b := h.free[b][1..]], s);
    HeadersElsewhere(m, m', h.bucket, h.used, s);
  }

  lemma Pushed(h: Heap, m: seq<byte>, m': seq<byte>, nextf: seq<nat>, nmalloc: seq<nat>, mycore: nat, resid: nat,
               s: nat)
    requires Represents(h, m, nextf, nmalloc, mycore, resid) && s in h.used && s in h.bucket && h.bucket[s] < NBUCKETS
    requires SameBut(m, m', s) && s + 8 <= |m| && Word(m', s) == nextf[h.bucket[s]]
    ensures |nmalloc| == NBUCKETS && nmalloc[h.bucket[s]] > 0
    ensures var b := h.bucket[s];
            Represents(Release(h, s), m', nextf[b := s], nmalloc[b := nmalloc[b] - 1], mycore, resid)
  {
    hide PageOk, Tiles, BucketsOk, ListsOk, IsAligned, MagIdx, Word, Linked, CountsOk;
    var b := h.bucket[s];
    Counts(nmalloc, h);
    Starts(h);
    ReleaseCorrect(h, s);
    CountsGive(nmalloc, h.bucket, h.used, s);
    LinksElsewhere(m, m', h, h.free, s);
    LinksHead(m', h.free, b, s);
    HeadersElsewhere(m, m', h.bucket, h.used - {s}, s);
  }

  lemma LinksHead(m: seq<byte>, free: seq<seq<nat>>, b: nat, s: nat)
    requires LinksOk(m, free) && b < |free| && s + 8 <= |m| && Word(m, s) == Head(free[b])
    ensures LinksOk(m, free[b := [s] + free[b]])
  {
  }
}
