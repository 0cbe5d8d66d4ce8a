/** The "break" allocator: a line between allocated and free memory that moves up
    with every allocation and back to the start when nothing is allocated. */
module BreakHeap {
  import opened Types
  import opened Align
  import opened Bytes

  const HDRLEN: nat := 16
  const BREAK_BEFORE: nat := 0xbef01e12
  const BREAK_AFTER: nat := 0xaf1e1345
  const DEAD: nat := 0xdeaddead

  /** size rounded up to the alignment. */
  function Padded(size: nat): (p: nat)
    ensures size <= p < size + ALIGN && IsAligned(p)
  {
    var pad := size % ALIGN;
    if pad != 0 then size + (ALIGN - pad) else size
  }

  function Total(size: nat): nat { Padded(size) + HDRLEN }

  /** What the source's 64-bit total holds. */
  function Total64(size: nat): nat { Total(size) % TWO64 }

  // ------------------------------------------------------------ the heap

  /** The allocated blocks by the offset of their header, with their sizes, the
      break line, and the headers of freed blocks that no block has covered since. */
  datatype Heap = Heap(base: nat, end: nat, brk: nat, live: map<nat, nat>, dead: set<nat>)

  ghost predicate Within(h: Heap) {
    forall s :: s in h.live ==> h.base <= s && IsAligned(s) && s + Total(h.live[s]) <= h.brk
  }

  ghost predicate Apart(live: map<nat, nat>) {
    forall s, t :: s in live && t in live && s < t ==> s + Total(live[s]) <= t
  }

  /** The header at s and the block at t do not overlap. */
  predicate Clear(s: nat, t: nat, size: nat) { s + HDRLEN <= t || t + Total(size) <= s }

  /** Dead headers are in the arena and outside all live blocks. */
  ghost predicate DeadOk(base: nat, end: nat, live: map<nat, nat>, dead: set<nat>) {
    && (forall s :: s in dead ==> base <= s && s + HDRLEN <= end)
    && (forall s, t :: s in dead && t in live ==> Clear(s, t, live[t]))
  }

  /** Live blocks lie below the break and do not overlap; with none, the break is
      back at the start. */
  ghost predicate Valid(h: Heap) {
    && h.base <= h.brk <= h.end && IsAligned(h.base) && IsAligned(h.brk)
    && Within(h) && Apart(h.live) && (h.live == map[] ==> h.brk == h.base)
    && DeadOk(h.base, h.end, h.live, h.dead)
  }

  function Fits(h: Heap, size: nat): bool
    requires h.brk <= h.end
  {
    Total(size) <= h.end - h.brk
  }

  /** The source's test for room. */
  predicate Admits(h: Heap, size: nat)
    requires h.brk <= h.end
  {
    Total64(size) <= h.end - h.brk
  }

  /** The test is right: the total does not wrap, or wraps to something that does
      not fit either. */
  predicate TestsRight(h: Heap, size: nat) {
    Total(size) < TWO64 || Total64(size) > h.end - h.brk
  }

  /** The source's test says what it should exactly under that condition. */
  lemma AdmitsIffFits(h: Heap, size: nat)
    requires h.brk <= h.end < TWO64 && size < TWO64
    ensures (Admits(h, size) <==> Fits(h, size)) <==> TestsRight(h, size)
    ensures Total(size) < TWO64 <==> size <= TWO64 - 2 * HDRLEN
  {
  }

  /** A request whose total wraps to 0 is granted by every heap. */
  lemma WrappedIsAdmitted(h: Heap)
    requires h.brk <= h.end < TWO64
    ensures Admits(h, TWO64 - HDRLEN) && !Fits(h, TWO64 - HDRLEN)
  {
  }

  /** break_malloc: the next block starts at the break. */
  function Grown(h: Heap, size: nat): Heap {
    h.(brk := h.brk + Total(size), live := h.live[h.brk := size],
       dead := set s | s in h.dead && Clear(s, h.brk, size))
  }

  /** break_free of the live block s. */
  function Freed(h: Heap, s: nat): Heap {
    var live := h.live - {s};
    h.(live := live, brk := if live == map[] then h.base else h.brk, dead := h.dead + {s})
  }

  lemma TotalAligned(size: nat)
    ensures IsAligned(Total(size)) && size + HDRLEN <= Total(size)
  {
    hide IsAligned;
    HeaderAligned();
    AlignedSum(Padded(size), HDRLEN);
  }

  lemma GrownApart(h: Heap, size: nat)
    requires Within(h) && Apart(h.live) && IsAligned(h.brk) && h.base <= h.brk
    ensures Within(Grown(h, size)) && Apart(Grown(h, size).live) && h.brk !in h.live
  {
    hide IsAligned, Padded;
  }

  /** The new block is nobody else's. */
  lemma GrownValid(h: Heap, size: nat)
    requires Valid(h) && Fits(h, size)
    ensures Valid(Grown(h, size)) && h.brk !in h.live && |Grown(h, size).live| == |h.live| + 1
  {
    hide IsAligned, Total, Within, Apart, Clear;
    TotalAligned(size);
    AlignedSum(h.brk, Total(size));
    GrownApart(h, size);
    assert h.brk in Grown(h, size).live;
  }

  lemma HeaderAligned()
    ensures IsAligned(HDRLEN)
  {
  }

  /** A reset happens only when nothing is live, so it never frees memory that
      somebody still uses. */
  lemma FreedValid(h: Heap, s: nat)
    requires Valid(h) && s in h.live
    ensures Valid(Freed(h, s)) && |Freed(h, s).live| == |h.live| - 1
    ensures Freed(h, s).brk == if |h.live| == 1 then h.base else h.brk
  {
    hide IsAligned, Within, Apart, DeadOk;
    FreedDead(h, s);
    FreedApart(h, s);
    assert (h.live - {s}).Keys == h.live.Keys - {s};
  }

  lemma FreedApart(h: Heap, s: nat)
    requires Within(h) && Apart(h.live)
    ensures Apart(h.live - {s}) && Within(Freed(h, s))
  {
    hide IsAligned, Total;
  }

  lemma FreedDead(h: Heap, s: nat)
    requires Within(h) && Apart(h.live) && DeadOk(h.base, h.end, h.live, h.dead) && h.brk <= h.end && s in h.live
    ensures DeadOk(h.base, h.end, h.live - {s}, h.dead + {s})
  {
    hide IsAligned, Padded;
  }

  /** What break_malloc makes of the heap in the source's arithmetic. */
  function Malloced(h: Heap, size: nat): Heap
    requires h.brk <= h.end
  {
    if Admits(h, size) then Grown(h, size).(brk := h.brk + Total64(size)) else h
  }

  /** break_malloc keeps the heap valid if and only if its test is right. */
  lemma MallocedValid(h: Heap, size: nat)
    requires Valid(h)
    ensures Valid(Malloced(h, size)) <==> TestsRight(h, size)
    ensures TestsRight(h, size) ==> Malloced(h, size) == if Fits(h, size) then Grown(h, size) else h
  {
    hide Within, Apart, DeadOk, IsAligned, Total, Total64;
    if TestsRight(h, size) {
      if Admits(h, size) { NotWrapped(h, size); GrownValid(h, size); } else { RefusedDoesNotFit(h, size); }
    } else {
      NotWithin(h, size);
    }
  }

  lemma RefusedDoesNotFit(h: Heap, size: nat)
    requires h.brk <= h.end && !Admits(h, size)
    ensures !Fits(h, size)
  {
  }

  /** A total that wrapped leaves the new block beyond the break. */
  lemma NotWithin(h: Heap, size: nat)
    requires h.brk <= h.end && !TestsRight(h, size)
    ensures Admits(h, size) && !Within(Malloced(h, size))
  {
    hide Padded, IsAligned;
    assert h.brk in Malloced(h, size).live && Total64(size) < Total(size);
  }

  // ------------------------------------------------------------ any sequence of calls

  datatype Op = OpMalloc(size: nat) | OpFree(s: nat) | OpRealloc(s: nat, size: nat)

  /** Callers ask only for sizes on which the test for room is right.  They free and
      resize blocks they were given, and may free one again as long as no other
      block has covered its header. */
  predicate Allowed(h: Heap, op: Op) {
    && h.brk <= h.end
    && match op
       case OpMalloc(size) => TestsRight(h, size)
       case OpFree(s) => s in h.live || s in h.dead
       case OpRealloc(s, size) => s in h.live && (size > h.live[s] ==> TestsRight(h, size))
  }

  function After(h: Heap, op: Op): Heap
    requires Allowed(h, op)
  {
    match op
    case OpMalloc(size) => Malloced(h, size)
    case OpFree(s) => if s in h.live then Freed(h, s) else h
    case OpRealloc(s, size) => if size <= h.live[s] || !Admits(h, size) then h else Freed(Malloced(h, size), s)
  }

  ghost predicate Session(hs: seq<Heap>, ops: seq<Op>) {
    && |hs| == |ops| + 1 && Valid(hs[0])
    && forall i :: 0 <= i < |ops| ==> Allowed(hs[i], ops[i]) && hs[i + 1] == After(hs[i], ops[i])
  }

  lemma {:induction false} SessionValid(hs: seq<Heap>, ops: seq<Op>, i: nat)
    requires Session(hs, ops) && i <= |ops|
    ensures Valid(hs[i])
  {
    hide Valid, After, Allowed;
    if i > 0 {
      SessionValid(hs, ops, i - 1);
      StepValid(hs[i - 1], ops[i - 1]);
    }
  }

  lemma StepValid(h: Heap, op: Op)
    requires Valid(h) && Allowed(h, op)
    ensures Valid(After(h, op))
  {
    hide Within, Apart, IsAligned, Padded, Total, Malloced, TestsRight;
    match op
    case OpMalloc(size) => MallocedValid(h, size);
    case OpFree(s) => if s in h.live { FreedValid(h, s); }
    case OpRealloc(s, size) =>
      if size > h.live[s] && Admits(h, size) {
        NotWrapped(h, size);
        MallocedValid(h, size);
        GrowthNeverResets(h, s, size);
      }
  }

  /** What one call does to the live blocks: a new one at the break with exactly the
      size asked for, one less, or a larger one in place of a smaller. */
  function LiveAfter(h: Heap, op: Op): map<nat, nat>
    requires h.brk <= h.end
  {
    match op
    case OpMalloc(size) => if h.end - h.brk < Total(size) then h.live else h.live[h.brk := size]
    case OpFree(s) => h.live - {s}
    case OpRealloc(s, size) =>
      if s !in h.live || size <= h.live[s] || h.end - h.brk < Total(size) then h.live
      else (h.live - {s})[h.brk := size]
  }

  /** Over any sequence of calls the live blocks are those asked for and not freed,
      and the break is at the start, where it was, or behind the new block. */
  lemma SessionIs(hs: seq<Heap>, ops: seq<Op>, i: nat)
    requires Session(hs, ops) && i < |ops|
    ensures hs[i].brk <= hs[i].end && hs[i + 1].live == LiveAfter(hs[i], ops[i])
    ensures hs[i + 1].base == hs[i].base && hs[i + 1].end == hs[i].end
    ensures hs[i + 1].brk ==
            if hs[i + 1].live == map[] then hs[i].base
            else if hs[i].brk in hs[i + 1].live then hs[i].brk + Total(hs[i + 1].live[hs[i].brk])
            else hs[i].brk
  {
    hide Valid, After, Allowed;
    SessionValid(hs, ops, i);
    StepIs(hs[i], ops[i]);
  }

  lemma StepIs(h: Heap, op: Op)
    requires Valid(h) && Allowed(h, op)
    ensures var t := After(h, op);
            && h.brk <= h.end && t.live == LiveAfter(h, op) && t.base == h.base && t.end == h.end
            && t.brk == if t.live == map[] then h.base
                        else if h.brk in t.live then h.brk + Total(t.live[h.brk]) else h.brk
  {
    hide Within, Apart, DeadOk, IsAligned, Padded, Total, Malloced, TestsRight, Admits;
    BreakIsFree(h);
    match op
    case OpMalloc(size) => MallocedValid(h, size);
    case OpFree(s) => if s in h.dead && s !in h.live { assert h.live - {s} == h.live; }
    case OpRealloc(s, size) =>
      if size > h.live[s] {
        MallocedValid(h, size);
        TestSays(h, size);
        if Admits(h, size) { GrowthNeverResets(h, s, size); }
      }
  }

  /** No live block starts at the break. */
  lemma BreakIsFree(h: Heap)
    requires Valid(h)
    ensures h.brk !in h.live
  {
    hide Apart, DeadOk, IsAligned, Padded;
  }

  lemma TestSays(h: Heap, size: nat)
    requires h.brk <= h.end && TestsRight(h, size)
    ensures Admits(h, size) <==> Fits(h, size)
  {
    if Admits(h, size) { NotWrapped(h, size); } else { RefusedDoesNotFit(h, size); }
  }

  /** A growing realloc allocates before it frees, so its free never resets. */
  lemma GrowthNeverResets(h: Heap, s: nat, size: nat)
    requires Valid(h) && s in h.live && Fits(h, size)
    ensures var t := Freed(Grown(h, size), s);
            Valid(t) && t.brk == h.brk + Total(size) && s != h.brk && t.live == (h.live - {s})[h.brk := size]
  {
    hide Within, Apart, IsAligned, Padded, Total;
    GrownValid(h, size);
    FreedValid(Grown(h, size), s);
    assert |h.live| > 0;
    assert (h.live - {s})[h.brk := size] == h.live[h.brk := size] - {s};
  }

  // ------------------------------------------------------------ headers in the arena

  /** The header as two words: BREAK_BEFORE with the high half of the size, the
      low half with BREAK_AFTER. */
  function Front(size: nat): nat { BREAK_BEFORE + TWO32 * (size / TWO32) }
  function Back(size: nat): nat { size % TWO32 + TWO32 * BREAK_AFTER }

  predicate Intact(m: seq<byte>, s: nat)
    requires s + HDRLEN <= |m|
  {
    Word(m, s) % TWO32 == BREAK_BEFORE && Word(m, s + 8) / TWO32 == BREAK_AFTER
  }

  function SizeAt(m: seq<byte>, s: nat): nat
    requires s + HDRLEN <= |m|
  {
    Word(m, s) / TWO32 * TWO32 + Word(m, s + 8) % TWO32
  }

  ghost predicate HeaderOk(m: seq<byte>, s: nat, size: nat) {
    size < TWO64 && s + HDRLEN <= |m| && Word(m, s) == Front(size) && Word(m, s + 8) == Back(size)
  }

  lemma HeaderReads(m: seq<byte>, s: nat, size: nat)
    requires HeaderOk(m, s, size)
    ensures Intact(m, s) && SizeAt(m, s) == size
  {
    hide Word;
  }

  lemma HeaderWords(size: nat)
    requires size < TWO64
    ensures Front(size) < TWO64 && Back(size) < TWO64
  {
  }

  ghost predicate Represents(h: Heap, m: seq<byte>, nalloc: nat) {
    && Valid(h) && h.end <= |m| < TWO64 && nalloc == |h.live|
    && (forall s :: s in h.live ==> HeaderOk(m, s, h.live[s]))
    && (forall s :: s in h.dead ==> s + HDRLEN <= |m| && !Intact(m, s))
  }

  /** The user bytes of the blocks live in h are the same in m and m'. */
  ghost predicate UserBytesKept(h: Heap, m: seq<byte>, m': seq<byte>) {
    && |m'| == |m|
    && forall s, x :: s in h.live && s + HDRLEN <= x < s + HDRLEN + h.live[s] && x < |m| ==> m'[x] == m[x]
  }

  lemma BlockKept(m: seq<byte>, m': seq<byte>, lo: nat, hi: nat, s: nat, size: nat)
    requires ChangedOnly(m, m', lo, hi) && HeaderOk(m, s, size) && (s + Total(size) <= lo || hi <= s)
    ensures HeaderOk(m', s, size)
  {
    hide Front, Back;
  }

  /** A change elsewhere leaves a dead header dead. */
  lemma DeadKept(m: seq<byte>, m': seq<byte>, lo: nat, hi: nat, s: nat)
    requires ChangedOnly(m, m', lo, hi) && s + HDRLEN <= |m| && (s + HDRLEN <= lo || hi <= s) && !Intact(m, s)
    ensures !Intact(m', s)
  {
  }

  /** A change outside all live blocks keeps their headers and their bytes. */
  lemma OutsideKept(h: Heap, m: seq<byte>, m': seq<byte>, lo: nat, hi: nat)
    requires ChangedOnly(m, m', lo, hi) && forall s :: s in h.live ==> HeaderOk(m, s, h.live[s])
    requires forall s :: s in h.live ==> s + Total(h.live[s]) <= lo || hi <= s
    ensures UserBytesKept(h, m, m') && forall s :: s in h.live ==> HeaderOk(m', s, h.live[s])
  {
  }

  class Arena {
    const mem: array<byte>
    const base: nat
    const end: nat
    var brk: nat
    var nalloc: nat
    ghost var live: map<nat, nat>
    ghost var dead: set<nat>

    ghost function View(): Heap
      reads this
    {
      Heap(base, end, brk, live, dead)
    }

    ghost predicate Rep()
      reads this, mem
    {
      Represents(View(), mem[..], nalloc)
    }

    /** break_init. */
    constructor (length: nat, start: nat)
      requires IsAligned(start) && start <= length < TWO64
      ensures Rep() && fresh(mem) && View() == Heap(start, length, start, map[], {})
    {
      mem := new byte[length];
      base, end, brk, nalloc := start, length, start, 0;
      live, dead := map[], {};
    }

    /** Write the header of a block of this size. */
    method PutHeader(s: nat, size: nat)
      requires s + HDRLEN <= mem.Length && size < TWO64
      modifies mem
      ensures HeaderOk(mem[..], s, size) && ChangedOnly(old(mem[..]), mem[..], s, s + HDRLEN)
    {
      hide Word, Front, Back;
      HeaderWords(size);
      Store(mem, s, Front(size));
      ghost var m := mem[..];
      Store(mem, s + 8, Back(size));
      SameWord(m, mem[..], s + 8, s);
    }

    /** break_malloc.  The heap stays valid exactly if the test for room is right;
        a request that the test admits by a wrapped total is granted all the same. */
    method Malloc(size: nat) returns (r: Option<nat>)
      requires Rep() && size < TWO64 && (TestsRight(View(), size) || brk + HDRLEN <= mem.Length)
      modifies this, mem
      ensures old(brk <= end) && View() == Malloced(old(View()), size)
      ensures r == if Admits(old(View()), size) then Some(old(brk) + HDRLEN) else None
      ensures TestsRight(old(View()), size) ==> Rep() && (r.Some? <==> Fits(old(View()), size))
      ensures !TestsRight(old(View()), size) ==> !Valid(View())
      ensures UserBytesKept(old(View()), old(mem[..]), mem[..])
    {
      hide Valid, HeaderOk, Padded, UserBytesKept, Represents, Total64, TestsRight, Total;
      Bounds(View(), mem[..], nalloc);
      Nothing(View(), mem[..]);
      var pad := size % ALIGN;
      if pad != 0 {
        pad := ALIGN - pad;
      }
      TotalIs(size, pad);
      var total := (size + pad + HDRLEN) % TWO64;
      MallocRight(View(), mem[..], nalloc, size);
      if total > end - brk {
        return None;
      }
      PutHeader(brk, size);
      GrownRepresents(View(), old(mem[..]), mem[..], nalloc, size);
      r := Some(brk + HDRLEN);
      dead := set s | s in dead && Clear(s, brk, size);
      live := live[brk := size];
      brk := brk + total;
      nalloc := nalloc + 1;
    }

    /** break_free: a block whose header is not intact, such as one that was freed
        already and not covered since, is left alone. */
    method Free(off: nat)
      requires Rep() && (off >= base + HDRLEN ==> off <= mem.Length)
      requires off >= base + HDRLEN && off - HDRLEN !in live ==> off - HDRLEN in dead || !Intact(mem[..], off - HDRLEN)
      modifies this, mem
      ensures Rep()
      ensures off < base + HDRLEN || off - HDRLEN !in old(live) ==> View() == old(View()) && mem[..] == old(mem[..])
      ensures off >= base + HDRLEN && off - HDRLEN in old(live) ==>
                View() == Freed(old(View()), off - HDRLEN) && !Intact(mem[..], off - HDRLEN)
      ensures UserBytesKept(View(), old(mem[..]), mem[..])
    {
      hide Represents, UserBytesKept, Word, Intact, Valid;
      Nothing(View(), mem[..]);
      if off < base + HDRLEN {
        return;
      }
      var s := off - HDRLEN;
      if s in dead { DeadReads(View(), mem[..], nalloc, s); }
      var front := Load(mem, s);
      var back := Load(mem, s + 8);
      IntactMeans(mem[..], s);
      if front % TWO32 != BREAK_BEFORE || back / TWO32 != BREAK_AFTER {
        ReadsBack(View(), mem[..], nalloc, s);
        return;
      }
      DeadWord(front);
      Store(mem, s, DEAD + TWO32 * (front / TWO32));
      FreedRepresents(View(), old(mem[..]), mem[..], nalloc, s);
      live, dead := live - {s}, dead + {s};
      if nalloc > 0 {
        nalloc := nalloc - 1;
      }
      if nalloc == 0 {
        brk := base;
      }
    }

    /** break_realloc: a block that need not grow stays; otherwise its bytes move to
        a new block and the old one is freed. */
    method Realloc(off: nat, size: nat) returns (r: Option<nat>)
      requires Rep() && size < TWO64 && (off >= base + HDRLEN ==> off <= mem.Length)
      requires off >= base + HDRLEN && off - HDRLEN !in live ==> off - HDRLEN in dead || !Intact(mem[..], off - HDRLEN)
      requires off >= base + HDRLEN && off - HDRLEN in live && size > live[off - HDRLEN] ==> TestsRight(View(), size)
      modifies this, mem
      ensures Rep()
      ensures off < base + HDRLEN || off - HDRLEN !in old(live) ==>
                r == None && View() == old(View()) && mem[..] == old(mem[..])
      ensures off >= base + HDRLEN && off - HDRLEN in old(live) ==>
                Reallocated(old(View()), off - HDRLEN, size, old(mem[..]), View(), r, mem[..])
    {
      hide Represents, UserBytesKept, Word, Intact, Valid, SizeAt, Reallocated;
      if off < base + HDRLEN {
        return None;
      }
      var s := off - HDRLEN;
      if s in dead { DeadReads(View(), mem[..], nalloc, s); }
      var front := Load(mem, s);
      var back := Load(mem, s + 8);
      IntactMeans(mem[..], s);
      if front % TWO32 != BREAK_BEFORE || back / TWO32 != BREAK_AFTER {
        ReadsBack(View(), mem[..], nalloc, s);
        return None;
      }
      var oldSize := front / TWO32 * TWO32 + back % TWO32;
      SizeReads(View(), mem[..], nalloc, s);
      if size <= oldSize {
        StayedPut(View(), s, size, mem[..], nalloc);
        return Some(off);
      }
      r := Grow(s, oldSize, size);
    }

    /** The growing case: allocate, copy, free. */
    method Grow(s: nat, oldSize: nat, size: nat) returns (r: Option<nat>)
      requires Rep() && s in live && live[s] == oldSize < size < TWO64 && TestsRight(View(), size)
      modifies this, mem
      ensures Rep() && Reallocated(old(View()), s, size, old(mem[..]), View(), r, mem[..])
    {
      hide Represents, UserBytesKept, Valid, Total, Reallocated, ChangedOnly;
      Room(View(), mem[..], nalloc, s, size);
      r := Malloc(size);
      if r.None? {
        NotMoved(old(View()), s, size, old(mem[..]), mem[..]);
        return;
      }
      ghost var h, m := View(), mem[..];
      Copy(mem, r.value, s + HDRLEN, oldSize);
      ghost var m1 := mem[..];
      CopyKeeps(h, m, m1, nalloc, r.value - HDRLEN, oldSize);
      StillLive(h, m1, nalloc, s);
      Free(s + HDRLEN);
      MoveDone(old(View()), s, size, old(mem[..]), m, m1, mem[..]);
    }
  }

  /** break_realloc of the live block s. */
  ghost predicate Reallocated(h: Heap, s: nat, size: nat, m: seq<byte>, h': Heap, r: Option<nat>, m': seq<byte>) {
    && Valid(h) && s in h.live
    && (if size <= h.live[s] then h' == h && r == Some(s + HDRLEN) && m' == m
        else if !Fits(h, size) then h' == h && r == None
        else
          && h' == Freed(Grown(h, size), s) && r == Some(h.brk + HDRLEN)
          && Copied(m, s + HDRLEN, m', h.brk + HDRLEN, h.live[s]))
    && UserBytesKept(h.(live := h.live - {s}), m, m')
  }

  lemma SizeReads(h: Heap, m: seq<byte>, nalloc: nat, s: nat)
    requires Represents(h, m, nalloc) && s in h.live
    ensures s + HDRLEN <= |m| && Word(m, s) / TWO32 * TWO32 + Word(m, s + 8) % TWO32 == h.live[s]
  {
    hide Word;
    HeaderReads(m, s, h.live[s]);
  }

  lemma StayedPut(h: Heap, s: nat, size: nat, m: seq<byte>, nalloc: nat)
    requires Represents(h, m, nalloc) && s in h.live && size <= h.live[s]
    ensures Reallocated(h, s, size, m, h, Some(s + HDRLEN), m)
  {
  }

  lemma NotMoved(h: Heap, s: nat, size: nat, m: seq<byte>, m': seq<byte>)
    requires Valid(h) && s in h.live && h.live[s] < size && !Fits(h, size) && UserBytesKept(h, m, m')
    ensures Reallocated(h, s, size, m, h, None, m')
  {
  }

  /** Where the old and the new block of a move lie. */
  lemma Room(h: Heap, m: seq<byte>, nalloc: nat, s: nat, size: nat)
    requires Represents(h, m, nalloc) && s in h.live && h.live[s] < size
    ensures Valid(h) && h.base <= s && s + HDRLEN + h.live[s] <= h.brk <= h.end <= |m|
    ensures Fits(h, size) ==> h.brk + HDRLEN + size <= h.end && h.brk + Total(size) <= h.end && Valid(Grown(h, size))
  {
    if Fits(h, size) { GrownValid(h, size); }
    hide IsAligned, Padded;
    assert s + Total(h.live[s]) <= h.brk;
  }

  /** Writing inside the block t disturbs no header. */
  lemma CopyKeeps(h: Heap, m: seq<byte>, m': seq<byte>, nalloc: nat, t: nat, n: nat)
    requires Represents(h, m, nalloc) && t in h.live && n <= h.live[t] && ChangedOnly(m, m', t + HDRLEN, t + HDRLEN + n)
    ensures Represents(h, m', nalloc)
  {
    hide Word, Padded, IsAligned;
    forall s | s in h.live ensures HeaderOk(m', s, h.live[s]) {
      if s != t { BlockKept(m, m', t + HDRLEN, t + HDRLEN + n, s, h.live[s]); }
      else { SameHeader(m, m', t, h.live[t], t + HDRLEN, t + HDRLEN + n); }
    }
    forall s | s in h.dead ensures s + HDRLEN <= |m'| && !Intact(m', s) {
      assert Clear(s, t, h.live[t]);
      DeadKept(m, m', t + HDRLEN, t + HDRLEN + n, s);
    }
  }

  lemma SameHeader(m: seq<byte>, m': seq<byte>, t: nat, size: nat, lo: nat, hi: nat)
    requires HeaderOk(m, t, size) && ChangedOnly(m, m', lo, hi) && t + HDRLEN <= lo
    ensures HeaderOk(m', t, size)
  {
    hide Front, Back;
  }

  lemma StillLive(h: Heap, m: seq<byte>, nalloc: nat, s: nat)
    requires Represents(h, m, nalloc) && s in h.live
    ensures h.base <= s && s + HDRLEN <= |m|
  {
  }

  /** Malloc (m0 to m), copy (to m1) and free (to m2) add up to a move. */
  lemma MoveDone(h: Heap, s: nat, size: nat, m0: seq<byte>, m: seq<byte>, m1: seq<byte>, m2: seq<byte>)
    requires Valid(h) && s in h.live && h.live[s] < size && Fits(h, size) && h.brk + HDRLEN + size <= |m0|
    requires UserBytesKept(h, m0, m) && UserBytesKept(Freed(Grown(h, size), s), m1, m2)
    requires Copied(m, s + HDRLEN, m1, h.brk + HDRLEN, h.live[s])
    requires ChangedOnly(m, m1, h.brk + HDRLEN, h.brk + HDRLEN + h.live[s])
    ensures Reallocated(h, s, size, m0, Freed(Grown(h, size), s), Some(h.brk + HDRLEN), m2)
  {
    hide Valid, Total, Copied, UserBytesKept, ChangedOnly;
    GrownValid(h, size);
    BytesMoved(h, s, size, m0, m, m1, m2);
    BytesKept(h, s, size, m0, m, m1, m2);
  }

  lemma BytesMoved(h: Heap, s: nat, size: nat, m0: seq<byte>, m: seq<byte>, m1: seq<byte>, m2: seq<byte>)
    requires s in h.live && h.live[s] < size && h.brk + HDRLEN + size <= |m0| && h.brk !in h.live
    requires UserBytesKept(h, m0, m) && UserBytesKept(Freed(Grown(h, size), s), m1, m2)
    requires Copied(m, s + HDRLEN, m1, h.brk + HDRLEN, h.live[s])
    ensures Copied(m0, s + HDRLEN, m2, h.brk + HDRLEN, h.live[s])
  {
    hide Padded;
    var n, to, from := h.live[s], h.brk + HDRLEN, s + HDRLEN;
    var t := Freed(Grown(h, size), s);
    assert h.brk in t.live && t.live[h.brk] == size;
    forall x | to <= x < to + n ensures m2[x] == m0[from + x - to] {
      assert m1[to..to + n][x - to] == m[from..from + n][x - to];
    }
  }

  lemma BytesKept(h: Heap, s: nat, size: nat, m0: seq<byte>, m: seq<byte>, m1: seq<byte>, m2: seq<byte>)
    requires Valid(h) && s in h.live && h.brk !in h.live && h.live[s] < size
    requires UserBytesKept(h, m0, m) && UserBytesKept(Freed(Grown(h, size), s), m1, m2)
    requires ChangedOnly(m, m1, h.brk + HDRLEN, h.brk + HDRLEN + h.live[s])
    ensures UserBytesKept(h.(live := h.live - {s}), m0, m2)
  {
    hide Padded, IsAligned;
    var k := h.(live := h.live - {s});
    var t := Freed(Grown(h, size), s);
    forall q, x | q in k.live && q + HDRLEN <= x < q + HDRLEN + k.live[q] && x < |m0| ensures m2[x] == m0[x] {
      assert q in t.live && q + Total(h.live[q]) <= h.brk;
    }
  }

  lemma TotalIs(size: nat, pad: nat)
    requires pad == if size % ALIGN != 0 then ALIGN - size % ALIGN else 0
    ensures Total(size) == size + pad + HDRLEN && Total64(size) == (size + pad + HDRLEN) % TWO64
  {
  }

  lemma Bounds(h: Heap, m: seq<byte>, nalloc: nat)
    requires Represents(h, m, nalloc)
    ensures h.base <= h.brk <= h.end <= |m| < TWO64
  {
  }

  /** What the test admits fits, and did not wrap. */
  lemma NotWrapped(h: Heap, size: nat)
    requires h.brk <= h.end && TestsRight(h, size) && Admits(h, size)
    ensures Total64(size) == Total(size) && size + HDRLEN <= Total(size) && Fits(h, size)
  {
  }

  /** The header of the new block is written at the break. */
  lemma GrownRepresents(h: Heap, m: seq<byte>, m': seq<byte>, nalloc: nat, size: nat)
    requires Represents(h, m, nalloc)
    requires ChangedOnly(m, m', h.brk, h.brk + HDRLEN) && HeaderOk(m', h.brk, size)
    ensures UserBytesKept(h, m, m') && (Fits(h, size) ==> Represents(Grown(h, size), m', nalloc + 1))
  {
    hide HeaderOk, Padded, UserBytesKept, Intact, IsAligned;
    OutsideKept(h, m, m', h.brk, h.brk + HDRLEN);
    var t := Grown(h, size);
    if Fits(h, size) {
      GrownValid(h, size);
      forall s | s in t.dead ensures s + HDRLEN <= |m'| && !Intact(m', s) { DeadKept(m, m', h.brk, h.brk + HDRLEN, s); }
    }
  }

  /** What break_malloc's test means for the heap and for the room at the break. */
  lemma MallocRight(h: Heap, m: seq<byte>, nalloc: nat, size: nat)
    requires Represents(h, m, nalloc)
    ensures Valid(Malloced(h, size)) <==> TestsRight(h, size)
    ensures TestsRight(h, size) && Admits(h, size) ==>
              Fits(h, size) && Malloced(h, size) == Grown(h, size) && h.brk + HDRLEN <= |m|
    ensures !Admits(h, size) ==> !Fits(h, size) && TestsRight(h, size)
  {
    hide HeaderOk, Intact, Within, Apart, DeadOk, IsAligned, Padded;
    MallocedValid(h, size);
    if !Admits(h, size) { RefusedDoesNotFit(h, size); }
    else if TestsRight(h, size) { NotWrapped(h, size); }
  }

  lemma DeadReads(h: Heap, m: seq<byte>, nalloc: nat, s: nat)
    requires Represents(h, m, nalloc) && s in h.dead
    ensures s + HDRLEN <= |m| && !Intact(m, s)
  {
  }

  /** After the block at s is gone, every other block lies clear of its header. */
  lemma Others(h: Heap, s: nat)
    requires Valid(h) && s in h.live
    ensures forall t :: t in Freed(h, s).live ==> t + Total(h.live[t]) <= s || s + HDRLEN <= t
  {
  }

  lemma Nothing(h: Heap, m: seq<byte>)
    ensures UserBytesKept(h, m, m)
  {
  }

  lemma IntactMeans(m: seq<byte>, s: nat)
    requires s + HDRLEN <= |m|
    ensures Intact(m, s) <==> Word(m, s) % TWO32 == BREAK_BEFORE && Word(m, s + 8) / TWO32 == BREAK_AFTER
  {
  }

  lemma DeadWord(front: nat)
    requires front < TWO64
    ensures DEAD + TWO32 * (front / TWO32) < TWO64 && (DEAD + TWO32 * (front / TWO32)) % TWO32 == DEAD
  {
  }

  /** Invalidating the header of s gives the heap without s. */
  lemma FreedRepresents(h: Heap, m: seq<byte>, m': seq<byte>, nalloc: nat, s: nat)
    requires Represents(h, m, nalloc) && s in h.live && s + HDRLEN <= |m|
    requires SameBut(m, m', s) && Word(m', s) % TWO32 == DEAD
    ensures nalloc > 0 && Represents(Freed(h, s), m', nalloc - 1) && UserBytesKept(Freed(h, s), m, m') && !Intact(m', s)
    ensures Freed(h, s).brk == if nalloc == 1 then h.base else h.brk
  {
    hide HeaderOk, Padded, Word, UserBytesKept, Within, Apart, IsAligned;
    FreedValid(h, s);
    Others(h, s);
    OutsideKept(Freed(h, s), m, m', s, s + HDRLEN);
    assert !Intact(m', s);
    hide Intact;
    forall t | t in h.dead ensures t + HDRLEN <= |m'| && !Intact(m', t) {
      if t != s { HeaderApart(h, s, t); DeadKept(m, m', s, s + HDRLEN, t); }
    }
  }

  lemma HeaderApart(h: Heap, s: nat, t: nat)
    requires DeadOk(h.base, h.end, h.live, h.dead) && s in h.live && t in h.dead
    ensures t + HDRLEN <= s || s + HDRLEN <= t
  {
    hide Padded;
  }

  lemma ReadsBack(h: Heap, m: seq<byte>, nalloc: nat, s: nat)
    requires Represents(h, m, nalloc) && s + HDRLEN <= |m| && !Intact(m, s)
    ensures s !in h.live
  {
    if s in h.live { HeaderReads(m, s, h.live[s]); }
  }
}
