/** The "bsd" allocator on values: power-of-two buckets, free lists, and the core
    they are carved from. */
module Bsd {
  import opened Types
  import opened Align

  const NBUCKETS: nat := 60
  const MINBUCKET: nat := 1
  const OVERSIZE: nat := 16

  // ------------------------------------------------------------ buckets

  function Pow2(n: nat): (p: nat)
    ensures 1 <= p
  {
    if n == 0 then 1 else 2 * Pow2(n - 1)
  }

  /** Bytes of a block of bucket b; the smallest is 16. */
  function Size(b: nat): nat { Pow2(b + 4) }

  /** What bsd_morecore sets aside for one block: at or above a page, a page more. */
  function Extent(page: nat, b: nat): nat {
    if Size(b) < page then Size(b) else Size(b) + page
  }

  /** What the caller can use of a block. */
  function Cap(page: nat, b: nat): int { Extent(page, b) - OVERSIZE }

  lemma {:induction false} Pow2Grows(a: nat, b: nat)
    requires a <= b
    ensures Pow2(a) <= Pow2(b) && (a < b ==> 2 * Pow2(a) <= Pow2(b))
    decreases b
  {
    if a < b { Pow2Grows(a, b - 1); }
  }

  lemma {:induction false} Aligned(b: nat)
    ensures Size(b) % ALIGN == 0 && Size(b) >= ALIGN
  {
    if b == 0 { assert Pow2(4) == 2 * (2 * (2 * (2 * Pow2(0)))); } else { Aligned(b - 1); }
  }

  /** Larger buckets hold strictly more. */
  lemma CapGrows(page: nat, a: nat, b: nat)
    requires a < b
    ensures Cap(page, a) < Cap(page, b)
  {
    Pow2Grows(a + 4, b + 4);
  }

  /** Bucket b is the least that holds size bytes. */
  predicate IsFit(page: nat, size: nat, b: nat) {
    && MINBUCKET <= b < NBUCKETS && size <= Cap(page, b)
    && (MINBUCKET < b ==> Cap(page, b - 1) < size)
  }

  /** No bucket holds size bytes. */
  predicate NoFit(page: nat, size: nat) {
    Cap(page, NBUCKETS - 1) < size
  }

  /** The least bucket from b on that holds size bytes. */
  function FitFrom(page: nat, size: nat, b: nat): (f: Option<nat>)
    requires b <= NBUCKETS
    ensures f.Some? ==> b <= f.value < NBUCKETS
    decreases NBUCKETS - b
  {
    if b == NBUCKETS then None
    else if size <= Cap(page, b) then Some(b)
    else FitFrom(page, size, b + 1)
  }

  function Fit(page: nat, size: nat): (f: Option<nat>)
    ensures f.Some? ==> MINBUCKET <= f.value < NBUCKETS
  {
    FitFrom(page, size, MINBUCKET)
  }

  lemma {:induction false} FitFromIs(page: nat, size: nat, b: nat, f: nat)
    requires MINBUCKET <= b <= f && IsFit(page, size, f)
    ensures FitFrom(page, size, b) == Some(f)
    decreases f - b
  {
    if b < f {
      if b < f - 1 { CapGrows(page, b, f - 1); }
      FitFromIs(page, size, b + 1, f);
    }
  }

  lemma {:induction false} FitFromNone(page: nat, size: nat, b: nat)
    requires b <= NBUCKETS && NoFit(page, size)
    ensures FitFrom(page, size, b) == None
    decreases NBUCKETS - b
  {
    if b < NBUCKETS {
      if b < NBUCKETS - 1 { CapGrows(page, b, NBUCKETS - 1); }
      FitFromNone(page, size, b + 1);
    }
  }

  lemma {:induction false} FitFromFits(page: nat, size: nat, b: nat)
    requires MINBUCKET <= b <= NBUCKETS && (MINBUCKET < b ==> Cap(page, b - 1) < size)
    ensures match FitFrom(page, size, b) case Some(f) => IsFit(page, size, f) case None => NoFit(page, size)
    decreases NBUCKETS - b
  {
    if b < NBUCKETS && Cap(page, b) < size { FitFromFits(page, size, b + 1); }
  }

  /** Fit finds the least bucket that holds size bytes, if any does. */
  lemma FitFits(page: nat, size: nat)
    ensures match Fit(page, size) case Some(f) => IsFit(page, size, f) case None => NoFit(page, size)
  {
    FitFromFits(page, size, MINBUCKET);
  }

  // ------------------------------------------------------------ buckets as C ints

  /** The last bucket whose size is an int. */
  const INTBUCKET: nat := 26

  /** The value of the C expression 1 << n for a 32-bit int: undefined when the
      count is out of range or the result is no int (section 6.5.7 of ISO C11). */
  function IntShift(n: nat): Option<nat> {
    if n < 32 && Pow2(n) < 0x8000_0000 then Some(Pow2(n)) else None
  }

  lemma Pow2Of31()
    ensures Pow2(31) == 0x8000_0000
  {
    assert Pow2(4) == 16 && Pow2(7) == 128;
    Pow2Sum(4, 4);
    Pow2Sum(8, 8);
    Pow2Sum(16, 8);
    Pow2Sum(24, 7);
  }

  /** BUCKSIZE computes the size of a bucket exactly up to bucket 26. */
  lemma BuckSizeDefined(b: nat)
    ensures IntShift(b + 4) == Some(Size(b)) <==> b <= INTBUCKET
    ensures IntShift(b + 4).Some? <==> b <= INTBUCKET
  {
    Pow2Of31();
    assert Pow2(31) == 2 * Pow2(30);
    if b <= INTBUCKET { Pow2Grows(b + 4, 30); } else { Pow2Grows(31, b + 4); }
  }

  /** Requests for which bsd_malloc needs no bucket beyond the ints: those that fit
      in bucket 26, and those it refuses before it looks at a bucket. */
  predicate IntRequest(page: nat, size: nat) {
    size <= Cap(page, INTBUCKET) || NoFit(page, size)
  }

  /** The exact condition for the chosen bucket to have a defined size. */
  lemma FitIsInt(page: nat, size: nat)
    ensures Fit(page, size).Some? && Fit(page, size).value <= INTBUCKET <==> size <= Cap(page, INTBUCKET)
    ensures (Fit(page, size).Some? ==> IntShift(Fit(page, size).value + 4).Some?) <==> IntRequest(page, size)
  {
    hide IntShift, Cap;
    FitFits(page, size);
    var f := Fit(page, size);
    CapGrows(page, INTBUCKET, NBUCKETS - 1);
    if f.Some? {
      BuckSizeDefined(f.value);
      if f.value < INTBUCKET { CapGrows(page, f.value, INTBUCKET); }
      else if INTBUCKET < f.value - 1 { CapGrows(page, INTBUCKET, f.value - 1); }
      if f.value < NBUCKETS - 1 { CapGrows(page, f.value, NBUCKETS - 1); }
    }
  }

  /** With pages of 4096 bytes a request for 2^32 bytes asks for 1 << 32. */
  lemma TooLargeForInt()
    ensures Fit(4096, 0x1_0000_0000) == Some(28) && IntShift(28 + 4) == None && !IntRequest(4096, 0x1_0000_0000)
  {
    Pow2Of31();
    assert Pow2(32) == 2 * Pow2(31);
    hide Pow2;
    FitFromIs(4096, 0x1_0000_0000, MINBUCKET, 28);
    FitIsInt(4096, 0x1_0000_0000);
    BuckSizeDefined(28);
  }

  /** All carved blocks have a bucket whose size is an int. */
  ghost predicate IntBuckets(bucket: map<nat, nat>) {
    forall s :: s in bucket ==> bucket[s] <= INTBUCKET
  }

  // ------------------------------------------------------------ the heap

  /** Carved blocks by start offset, which of them are allocated, the free list of
      each bucket, and the core [core, end) not yet carved. */
  datatype Heap = Heap(page: nat, lo: nat, core: nat, end: nat,
                       bucket: map<nat, nat>, used: set<nat>, free: seq<seq<nat>>)

  type Blocks = map<nat, nat>

  function BlockEnd(page: nat, bucket: Blocks, s: nat): nat
    requires s in bucket
  {
    s + Extent(page, bucket[s])
  }

  /** The page size is a power of two, at least 64. */
  ghost predicate PageOk(page: nat) {
    exists p: nat :: p >= 6 && page == Pow2(p)
  }

  /** A block starts at e, or the uncarved core does. */
  predicate Follows(core: nat, bucket: Blocks, e: nat) {
    e == core || e in bucket
  }

  /** The blocks tile [lo, core): they start at lo, each ends where another
      starts or at the core, and no two overlap. */
  ghost predicate Tiles(page: nat, lo: nat, core: nat, bucket: Blocks) {
    && lo <= core && Follows(core, bucket, lo)
    && (forall s :: s in bucket ==> lo <= s < BlockEnd(page, bucket, s) <= core)
    && (forall s :: s in bucket ==> Follows(core, bucket, BlockEnd(page, bucket, s)))
    && (forall s, t :: s in bucket && t in bucket && s < t ==> BlockEnd(page, bucket, s) <= t)
  }

  ghost predicate BucketsOk(lo: nat, core: nat, bucket: Blocks) {
    && 0 < lo && IsAligned(lo) && IsAligned(core)
    && (forall s :: s in bucket ==> IsAligned(s) && MINBUCKET <= bucket[s] < NBUCKETS)
  }

  /** A block is allocated, or on the free list of its own bucket, once. */
  ghost predicate ListsOk(bucket: Blocks, used: set<nat>, free: seq<seq<nat>>) {
    && |free| == NBUCKETS && (forall s :: s in used ==> s in bucket)
    && (forall b, i :: 0 <= b < NBUCKETS && 0 <= i < |free[b]| ==>
          free[b][i] in bucket && bucket[free[b][i]] == b && free[b][i] !in used)
    && (forall b, i, j :: 0 <= b < NBUCKETS && 0 <= i < j < |free[b]| ==> free[b][i] != free[b][j])
    && (forall s :: s in bucket && s !in used ==> bucket[s] < NBUCKETS && s in free[bucket[s]])
  }

  ghost predicate Valid(h: Heap) {
    && PageOk(h.page) && h.core <= h.end && Tiles(h.page, h.lo, h.core, h.bucket)
    && BucketsOk(h.lo, h.core, h.bucket) && ListsOk(h.bucket, h.used, h.free)
  }

  /** The user bytes of the block that starts at s. */
  ghost predicate InUser(h: Heap, s: nat, x: int)
    requires s in h.bucket
  {
    s + OVERSIZE <= x < BlockEnd(h.page, h.bucket, s)
  }

  /** Every carved byte belongs to exactly one block. */
  lemma EveryByteHasItsBlock(h: Heap, x: nat)
    requires Valid(h) && h.lo <= x < h.core
    ensures exists s :: s in h.bucket && s <= x < BlockEnd(h.page, h.bucket, s)
    ensures forall s, t | s in h.bucket && t in h.bucket && s <= x < BlockEnd(h.page, h.bucket, s) ::
              t <= x < BlockEnd(h.page, h.bucket, t) ==> s == t
  {
    hide Extent, PageOk, BucketsOk, ListsOk;
    var s := BlockFrom(h.page, h.lo, h.core, h.bucket, h.lo, x);
  }

  /** Walk from block to block until the one that holds x. */
  lemma {:induction false} BlockFrom(page: nat, lo: nat, core: nat, bucket: Blocks, s: nat, x: nat) returns (t: nat)
    requires Tiles(page, lo, core, bucket) && s in bucket && s <= x < core
    ensures t in bucket && t <= x < BlockEnd(page, bucket, t)
    decreases core - s
  {
    hide Extent;
    t := s;
    if BlockEnd(page, bucket, s) <= x { t := BlockFrom(page, lo, core, bucket, BlockEnd(page, bucket, s), x); }
  }

  // ------------------------------------------------------------ operations

  /** One more block of bucket b at the core, at the end of its free list. */
  function AddBlock(h: Heap, b: nat): Heap
    requires b < |h.free|
  {
    h.(core := h.core + Extent(h.page, b), bucket := h.bucket[h.core := b], free := h.free[b := h.free[b] + [h.core]])
  }

  function AddBlocks(h: Heap, b: nat, n: nat): (t: Heap)
    requires b < |h.free|
    ensures |t.free| == |h.free| && t.page == h.page && t.lo == h.lo && t.end == h.end && t.used == h.used
  {
    if n == 0 then h else AddBlock(AddBlocks(h, b, n - 1), b)
  }

  /** A page of small blocks, or one large one. */
  function BlocksPerCarve(page: nat, b: nat): nat {
    if Size(b) < page then page / Size(b) else 1
  }

  function CarveBytes(page: nat, b: nat): nat {
    if Size(b) < page then page else Size(b) + page
  }

  /** bsd_morecore. */
  function Morecore(h: Heap, b: nat): Heap
    requires b < |h.free| && h.core <= h.end
  {
    if h.end - h.core < CarveBytes(h.page, b) then h else AddBlocks(h, b, BlocksPerCarve(h.page, b))
  }

  /** Take the first block off list b. */
  function Take(h: Heap, b: nat): Heap
    requires b < |h.free| && h.free[b] != []
  {
    h.(free := h.free[b := h.free[b][1..]], used := h.used + {h.free[b][0]})
  }

  function Stocked(h: Heap, b: nat): (m: Heap)
    requires b < |h.free| && h.core <= h.end
    ensures |m.free| == |h.free|
  {
    if h.free[b] == [] then Morecore(h, b) else h
  }

  /** bsd_malloc: the heap afterwards and the user offset of the new block. */
  ghost function Malloc(h: Heap, size: nat): (Heap, Option<nat>)
    requires Valid(h)
  {
    match Fit(h.page, size)
    case None => (h, None)
    case Some(b) =>
      var m := Stocked(h, b);
      if m.free[b] == [] then (m, None) else (Take(m, b), Some(m.free[b][0] + OVERSIZE))
  }

  /** bsd_free of the block at s; nothing happens if it is not allocated. */
  ghost function Release(h: Heap, s: nat): Heap
    requires Valid(h)
  {
    if s !in h.used then h
    else h.(used := h.used - {s}, free := h.free[h.bucket[s] := [s] + h.free[h.bucket[s]]])
  }

  /** bsd_realloc of the allocated block at s. */
  ghost function Realloc(h: Heap, s: nat, size: nat): (Heap, Option<nat>)
    requires Valid(h) && s in h.used
  {
    if IsFit(h.page, size, h.bucket[s]) then (h, Some(s + OVERSIZE))
    else
      var (m, r) := Malloc(h, size);
      MallocCorrect(h, size);
      if r.None? then (m, None) else (Release(m, s), r)
  }

  // ------------------------------------------------------------ carving

  function Times(e: nat, n: nat): nat { if n == 0 then 0 else e + Times(e, n - 1) }

  lemma {:induction false} TimesIs(e: nat, n: nat)
    ensures Times(e, n) == e * n
  {
    if n > 0 { TimesIs(e, n - 1); }
  }

  lemma {:induction false} Pow2Sum(a: nat, b: nat)
    ensures Pow2(a + b) == Pow2(a) * Pow2(b)
  {
    if b > 0 { Pow2Sum(a, b - 1); }
  }

  /** Small blocks fill a page without rest. */
  lemma PageDivides(page: nat, b: nat)
    requires PageOk(page) && Size(b) < page
    ensures Times(Size(b), page / Size(b)) == page && page / Size(b) >= 2
  {
    var p: nat :| p >= 6 && page == Pow2(p);
    if p <= b + 4 { Pow2Grows(p, b + 4); }
    Pow2Sum(b + 4, p - b - 4);
    Quotient(Size(b), Pow2(p - b - 4));
    TimesIs(Size(b), page / Size(b));
    assert Pow2(p - b - 4) == 2 * Pow2(p - b - 5);
  }

  lemma {:induction false} TimesGrows(e: nat, m: nat, n: nat)
    requires m <= n
    ensures Times(e, m) <= Times(e, n) && (m < n ==> Times(e, m) + e <= Times(e, n))
    decreases n
  {
    if m < n { TimesGrows(e, m, n - 1); }
  }

  lemma Quotient(d: nat, q: nat)
    requires d > 0
    ensures d * q / d == q
  {
    var k := d * q / d;
    TimesIs(d, q);
    TimesIs(d, k);
    assert d * q == d * k + d * q % d;
    if k < q { TimesGrows(d, k, q); } else if k > q { TimesGrows(d, q, k); }
  }

  lemma CarveFills(page: nat, b: nat)
    requires PageOk(page)
    ensures Times(Extent(page, b), BlocksPerCarve(page, b)) == CarveBytes(page, b) && BlocksPerCarve(page, b) >= 1
  {
    if Size(b) < page { PageDivides(page, b); }
    else { assert Times(Extent(page, b), 1) == Extent(page, b) + Times(Extent(page, b), 0); }
  }

  lemma ExtentAligned(page: nat, b: nat)
    requires PageOk(page)
    ensures IsAligned(Extent(page, b)) && Extent(page, b) >= ALIGN
  {
    var p: nat :| p >= 6 && page == Pow2(p);
    Aligned(b);
    Aligned(p - 4);
  }

  lemma AddBlockValid(h: Heap, b: nat)
    requires Valid(h) && MINBUCKET <= b < NBUCKETS && h.core + Extent(h.page, b) <= h.end
    ensures Valid(AddBlock(h, b)) && h.core !in h.bucket
  {
    hide Extent, PageOk, Tiles, ListsOk, IsAligned;
    ExtentAligned(h.page, b);
    AlignedSum(h.core, Extent(h.page, b));
    AddBlockTiles(h.page, h.lo, h.core, h.bucket, b);
    AddBlockLists(h.bucket, h.used, h.free, h.core, b);
  }

  lemma AddBlockTiles(page: nat, lo: nat, core: nat, bucket: Blocks, b: nat)
    requires Tiles(page, lo, core, bucket) && 0 < Extent(page, b)
    ensures Tiles(page, lo, core + Extent(page, b), bucket[core := b]) && core !in bucket
  {
    hide Extent, Follows;
    FollowsMore(page, core, bucket, b, lo);
    var w := bucket[core := b];
    forall s | s in w ensures Follows(core + Extent(page, b), w, BlockEnd(page, w, s)) {
      if s != core { FollowsMore(page, core, bucket, b, BlockEnd(page, bucket, s)); }
          else { CoreFollows(page, core, w); }
    }
  }

  lemma FollowsMore(page: nat, core: nat, bucket: Blocks, b: nat, e: nat)
    requires Follows(core, bucket, e)
    ensures Follows(core + Extent(page, b), bucket[core := b], e)
  {
  }

  lemma CoreFollows(page: nat, core: nat, bucket: Blocks)
    requires core in bucket
    ensures Follows(core + Extent(page, bucket[core]), bucket, BlockEnd(page, bucket, core))
  {
  }

  lemma AddBlockLists(bucket: Blocks, used: set<nat>, free: seq<seq<nat>>, core: nat, b: nat)
    requires ListsOk(bucket, used, free) && b < NBUCKETS && core !in bucket
    ensures ListsOk(bucket[core := b], used, free[b := free[b] + [core]])
  {
  }

  lemma {:induction false} AddBlocksValid(h: Heap, b: nat, n: nat)
    requires Valid(h) && MINBUCKET <= b < NBUCKETS && h.core + Times(Extent(h.page, b), n) <= h.end
    ensures var t := AddBlocks(h, b, n);
            && Valid(t) && t.core == h.core + Times(Extent(h.page, b), n)
            && (forall s :: s in h.bucket ==> s in t.bucket && t.bucket[s] == h.bucket[s])
            && (forall c :: 0 <= c < NBUCKETS && c != b ==> t.free[c] == h.free[c])
            && |t.free[b]| == |h.free[b]| + n
            && (IntBuckets(h.bucket) && b <= INTBUCKET ==> IntBuckets(t.bucket))
  {
    hide Extent, PageOk, Tiles, BucketsOk;
    if n > 0 {
      AddBlocksValid(h, b, n - 1);
      AddBlockValid(AddBlocks(h, b, n - 1), b);
    }
  }

  // ------------------------------------------------------------ what operations keep

  /** Blocks and allocated blocks of h are still there in t. */
  ghost predicate Keeps(h: Heap, t: Heap) {
    && t.page == h.page && t.lo == h.lo && t.end == h.end && h.core <= t.core
    && (forall s :: s in h.bucket ==> s in t.bucket && t.bucket[s] == h.bucket[s])
  }

  lemma StockedValid(h: Heap, b: nat)
    requires Valid(h) && MINBUCKET <= b < NBUCKETS
    ensures var m := Stocked(h, b);
            && Valid(m) && Keeps(h, m) && m.used == h.used
            && (m.free[b] == [] <==> h.free[b] == [] && h.end - h.core < CarveBytes(h.page, b))
            && (IntBuckets(h.bucket) && b <= INTBUCKET ==> IntBuckets(m.bucket))
  {
    hide Extent, PageOk, Tiles, BucketsOk, CarveBytes, BlocksPerCarve;
    CarveFills(h.page, b);
    if h.free[b] == [] && h.end - h.core >= CarveBytes(h.page, b) {
      AddBlocksValid(h, b, BlocksPerCarve(h.page, b));
    }
  }

  lemma TakeLists(bucket: Blocks, used: set<nat>, free: seq<seq<nat>>, b: nat)
    requires ListsOk(bucket, used, free) && b < NBUCKETS && free[b] != []
    ensures ListsOk(bucket, used + {free[b][0]}, free[b := free[b][1..]])
    ensures free[b][0] in bucket && bucket[free[b][0]] == b && free[b][0] !in used
  {
  }

  lemma TakeValid(h: Heap, b: nat)
    requires Valid(h) && b < NBUCKETS && h.free[b] != []
    ensures var s := h.free[b][0];
            Valid(Take(h, b)) && Keeps(h, Take(h, b)) && s in h.bucket && h.bucket[s] == b && s !in h.used
  {
    hide PageOk, Tiles, BucketsOk;
    TakeLists(h.bucket, h.used, h.free, b);
  }

  /** What bsd_malloc promises when it chose bucket b. */
  lemma MallocFrom(h: Heap, size: nat, b: nat)
    requires Valid(h) && MINBUCKET <= b < NBUCKETS && Fit(h.page, size) == Some(b)
    ensures var (t, r) := Malloc(h, size);
            && Valid(t) && Keeps(h, t)
            && (r.None? ==> t.used == h.used)
            && (r.Some? ==>
                  && r.value >= OVERSIZE && r.value - OVERSIZE in t.bucket && r.value - OVERSIZE !in h.used
                  && t.used == h.used + {r.value - OVERSIZE} && IsAligned(r.value) && t.bucket[r.value - OVERSIZE] == b)
            && (r.None? <==> h.free[b] == [] && h.end - h.core < CarveBytes(h.page, b))
            && (IntBuckets(h.bucket) && b <= INTBUCKET ==> IntBuckets(t.bucket))
  {
    hide PageOk, Tiles, Stocked, Fit, CarveBytes, IntBuckets;
    StockedValid(h, b);
    var m := Stocked(h, b);
    if m.free[b] != [] {
      TakeValid(m, b);
      AlignedSum(m.free[b][0], OVERSIZE);
    }
  }

  /** The block list of the fitting bucket is empty and the core too short. */
  ghost predicate NoRoom(h: Heap, size: nat)
    requires |h.free| == NBUCKETS
  {
    exists b: nat :: IsFit(h.page, size, b) && h.free[b] == [] && h.end - h.core < CarveBytes(h.page, b)
  }

  /** bsd_malloc: on success the block is new, large enough, of the least bucket
      that is, and every other block is as before; it fails exactly when no bucket
      fits or there is no room.  Requests for int buckets carve no others. */
  lemma MallocCorrect(h: Heap, size: nat)
    requires Valid(h)
    ensures var (t, r) := Malloc(h, size);
            && Valid(t) && Keeps(h, t)
            && (r.None? ==> t.used == h.used)
            && (r.Some? ==>
                  && r.value >= OVERSIZE && r.value - OVERSIZE in t.bucket && r.value - OVERSIZE !in h.used
                  && t.used == h.used + {r.value - OVERSIZE} && IsAligned(r.value)
                  && IsFit(h.page, size, t.bucket[r.value - OVERSIZE]))
            && (r.None? <==> NoFit(h.page, size) || NoRoom(h, size))
            && (IntBuckets(h.bucket) && IntRequest(h.page, size) ==> IntBuckets(t.bucket))
  {
    hide PageOk, Tiles, BucketsOk, Fit, CarveBytes, Cap, IntBuckets;
    FitIsInt(h.page, size);
    FitFits(h.page, size);
    OnlyFit(h.page, size);
    var f := Fit(h.page, size);
    if f.Some? { MallocFrom(h, size, f.value); }
  }

  /** A free block of the bucket is used before anything is carved, the one freed last
      first; only an empty list takes a page, or one large block, from the core. */
  lemma MallocReuses(h: Heap, size: nat, b: nat)
    requires Valid(h) && IsFit(h.page, size, b)
    ensures var (t, r) := Malloc(h, size);
            && (h.free[b] != [] ==> t.core == h.core && t.bucket == h.bucket && r == Some(h.free[b][0] + OVERSIZE))
            && (h.free[b] == [] && r.Some? ==>
                  t.core == h.core + CarveBytes(h.page, b) && r == Some(h.core + OVERSIZE))
            && (h.free[b] == [] && r.None? ==> t == h)
            && (forall c :: 0 <= c < NBUCKETS && c != b ==> t.free[c] == h.free[c])
  {
    hide PageOk, Tiles, Fit, CarveBytes, BlocksPerCarve, IsFit, Extent, BucketsOk;
    OnlyFit(h.page, size);
    FitBounds(h.page, size, b);
    CarveFills(h.page, b);
    if h.free[b] == [] && h.end - h.core >= CarveBytes(h.page, b) {
      AddBlocksValid(h, b, BlocksPerCarve(h.page, b));
      FirstCarved(h, b, BlocksPerCarve(h.page, b));
    }
  }

  lemma FitBounds(page: nat, size: nat, b: nat)
    requires IsFit(page, size, b)
    ensures MINBUCKET <= b < NBUCKETS
  {
  }

  lemma {:induction false} FirstCarved(h: Heap, b: nat, n: nat)
    requires b < |h.free| && h.free[b] == [] && n > 0
    ensures AddBlocks(h, b, n).free[b] != [] && AddBlocks(h, b, n).free[b][0] == h.core
  {
    if n > 1 { FirstCarved(h, b, n - 1); }
  }

  /** A block that is freed is the next one of its bucket to be allocated, and then
      the heap is as it was. */
  lemma FreedIsReused(h: Heap, s: nat, size: nat)
    requires Valid(h) && s in h.used && IsFit(h.page, size, h.bucket[s])
    ensures Valid(Release(h, s)) && Malloc(Release(h, s), size) == (h, Some(s + OVERSIZE))
  {
    hide PageOk, Tiles, Fit, IsFit, BucketsOk;
    ReleaseCorrect(h, s);
    OnlyFit(h.page, size);
    var t := Release(h, s);
    assert t.free[h.bucket[s]][1..] == h.free[h.bucket[s]];
    assert h.used - {s} + {s} == h.used;
    assert t.free[h.bucket[s] := h.free[h.bucket[s]]] == h.free;
  }

  /** At most one bucket is the least that fits. */
  lemma OnlyFit(page: nat, size: nat)
    ensures forall b: nat :: IsFit(page, size, b) ==> Fit(page, size) == Some(b) && !NoFit(page, size)
  {
    forall b: nat | IsFit(page, size, b) ensures Fit(page, size) == Some(b) && !NoFit(page, size) {
      FitFromIs(page, size, MINBUCKET, b);
      if b < NBUCKETS - 1 { CapGrows(page, b, NBUCKETS - 1); }
    }
  }

  /** bsd_free gives an allocated block back to its bucket and leaves a block that
      is already free alone. */
  lemma ReleaseCorrect(h: Heap, s: nat)
    requires Valid(h) && s in h.bucket
    ensures var t := Release(h, s);
            && Valid(t) && Keeps(h, t) && t.used == h.used - {s}
            && (s !in h.used ==> t == h)
  {
    hide PageOk, Tiles;
    if s in h.used { ReleaseLists(h.bucket, h.used, h.free, s); }
  }

  lemma ReleaseLists(bucket: Blocks, used: set<nat>, free: seq<seq<nat>>, s: nat)
    requires ListsOk(bucket, used, free) && s in used && bucket[s] < NBUCKETS
    ensures ListsOk(bucket, used - {s}, free[bucket[s] := [s] + free[bucket[s]]])
  {
  }

  /** bsd_realloc keeps the block exactly when its bucket is the one malloc would
      choose; otherwise exactly the new block replaces the old. */
  lemma ReallocCorrect(h: Heap, s: nat, size: nat)
    requires Valid(h) && s in h.used
    ensures var (t, r) := Realloc(h, s, size);
            && Valid(t) && Keeps(h, t)
            && (r.None? ==> t.used == h.used)
            && (r.Some? ==>
                  && r.value >= OVERSIZE && r.value - OVERSIZE in t.bucket
                     && IsFit(h.page, size, t.bucket[r.value - OVERSIZE])
                  && t.used == h.used - {s} + {r.value - OVERSIZE}
                  && (r.value == s + OVERSIZE <==> Fit(h.page, size) == Some(h.bucket[s]))
                  && (r.value != s + OVERSIZE ==> r.value - OVERSIZE !in h.used))
            && (r.None? <==> Fit(h.page, size) != Some(h.bucket[s]) && (NoFit(h.page, size) || NoRoom(h, size)))
            && (IntBuckets(h.bucket) && IntRequest(h.page, size) ==> IntBuckets(t.bucket))
  {
    hide PageOk, Tiles, Fit, IsFit, Malloc, IntBuckets, IntRequest;
    OnlyFit(h.page, size);
    if !IsFit(h.page, size, h.bucket[s]) {
      FitFits(h.page, size);
      MallocCorrect(h, size);
      ReleaseCorrect(Malloc(h, size).0, s);
    }
  }

  // ------------------------------------------------------------ any sequence of calls

  datatype Op = OpMalloc(size: nat) | OpFree(s: nat) | OpRealloc(s: nat, size: nat)

  /** Callers free and resize only blocks they were given; freeing one twice is
      allowed. */
  ghost predicate Allowed(h: Heap, op: Op) {
    match op
    case OpMalloc(_) => true
    case OpFree(s) => s in h.bucket
    case OpRealloc(s, _) => s in h.used
  }

  ghost function After(h: Heap, op: Op): Heap
    requires Valid(h) && Allowed(h, op)
  {
    match op
    case OpMalloc(size) => Malloc(h, size).0
    case OpFree(s) => Release(h, s)
    case OpRealloc(s, size) => Realloc(h, s, size).0
  }

  /** From a valid heap, op is allowed and leads to t. */
  ghost predicate Leads(h: Heap, op: Op, t: Heap) {
    Valid(h) ==> Allowed(h, op) && t == After(h, op)
  }

  ghost predicate Session(hs: seq<Heap>, ops: seq<Op>) {
    && |hs| == |ops| + 1 && Valid(hs[0])
    && forall i :: 0 <= i < |ops| ==> Leads(hs[i], ops[i], hs[i + 1])
  }

  /** Over any sequence of calls the blocks tile the carved range, every block is
      allocated or on its own list, and no block ever moves or changes size. */
  lemma {:induction false} SessionValid(hs: seq<Heap>, ops: seq<Op>, i: nat, j: nat)
    requires Session(hs, ops) && i <= j <= |ops|
    ensures Valid(hs[i]) && Valid(hs[j]) && Keeps(hs[i], hs[j])
    decreases j
  {
    hide Valid, After, Allowed;
    if 0 < j {
      if i < j { SessionValid(hs, ops, i, j - 1); } else { SessionValid(hs, ops, j - 1, j - 1); }
      assert Leads(hs[j - 1], ops[j - 1], hs[j]);
      StepValid(hs[j - 1], ops[j - 1]);
    }
  }

  lemma StepValid(h: Heap, op: Op)
    requires Valid(h) && Allowed(h, op)
    ensures Valid(After(h, op)) && Keeps(h, After(h, op))
  {
    hide PageOk, Tiles, BucketsOk, Malloc, Realloc, Release;
    match op
    case OpMalloc(size) => MallocCorrect(h, size);
    case OpFree(s) => ReleaseCorrect(h, s);
    case OpRealloc(s, size) => ReallocCorrect(h, s, size);
  }

  /** The call asks only for buckets whose size is an int. */
  predicate IntOp(page: nat, op: Op) {
    match op
    case OpMalloc(size) => IntRequest(page, size)
    case OpFree(_) => true
    case OpRealloc(_, size) => IntRequest(page, size)
  }

  /** As long as callers ask only for int buckets, over any sequence of calls every
      BUCKSIZE that is computed is defined. */
  lemma {:induction false} SessionDefined(hs: seq<Heap>, ops: seq<Op>, j: nat)
    requires Session(hs, ops) && j <= |ops| && IntBuckets(hs[0].bucket)
    requires forall i :: 0 <= i < j ==> IntOp(hs[0].page, ops[i])
    ensures IntBuckets(hs[j].bucket)
  {
    hide Valid, After, Allowed, IntBuckets, IntOp;
    if 0 < j {
      SessionDefined(hs, ops, j - 1);
      SessionValid(hs, ops, 0, j - 1);
      assert Leads(hs[j - 1], ops[j - 1], hs[j]);
      StepDefined(hs[j - 1], ops[j - 1]);
    }
  }

  lemma StepDefined(h: Heap, op: Op)
    requires Valid(h) && Allowed(h, op) && IntBuckets(h.bucket) && IntOp(h.page, op)
    ensures IntBuckets(After(h, op).bucket)
  {
    hide PageOk, Tiles, BucketsOk, Malloc, Realloc, IntRequest, IntBuckets;
    match op
    case OpMalloc(size) => MallocCorrect(h, size);
    case OpFree(s) =>
    case OpRealloc(s, size) => ReallocCorrect(h, s, size);
  }

  /** User areas of allocated blocks never overlap each other or any header. */
  lemma UserAreasDisjoint(h: Heap, s: nat, t: nat, x: int)
    requires Valid(h) && s in h.bucket && t in h.bucket && s != t && InUser(h, s, x)
    ensures !InUser(h, t, x) && !(t <= x < t + OVERSIZE)
  {
    ExtentAligned(h.page, h.bucket[t]);
    hide Extent, PageOk, BucketsOk, ListsOk;
  }
}
