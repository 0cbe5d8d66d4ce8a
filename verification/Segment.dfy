/** A shared-memory segment: reserves at both ends, a metadata page, and memory
    that is handed out and never taken back. */
module Segment {
  import opened Types
  import opened Align
  import B = Bytes

  const TWO64: nat := B.TWO64

  /** What a 64-bit variable holds of x. */
  function U64(x: int): nat { x % TWO64 }

  function RoundUp(x: nat, a: nat): (y: nat)
    requires 0 < a
    ensures x <= y < x + a && y % a == 0 && (a == ALIGN ==> IsAligned(y))
  {
    var pad := x % a;
    if pad == 0 then x else (Rounded(x, a); x + (a - pad))
  }

  lemma Rounded(x: nat, a: nat)
    requires 0 < a
    ensures (x + (a - x % a)) % a == 0
  {
    var q := x / a + 1;
    assert x + (a - x % a) == q * a + 0;
    Multiple(q, a);
  }

  lemma {:induction false} Multiple(q: nat, a: nat)
    requires 0 < a
    ensures q * a % a == 0
  {
    if q > 0 {
      Multiple(q - 1, a);
      OneMore((q - 1) * a, a);
      assert q * a == (q - 1) * a + a;
    }
  }

  lemma OneMore(x: nat, a: nat)
    requires 0 < a && x % a == 0
    ensures (x + a) % a == 0
  {
    var k := (x + a) / a;
    var r := (x + a) % a;
    assert x == x / a * a;
    assert x + a == k * a + r;
    var d := x / a + 1 - k;
    assert r == d * a;
    if d >= 1 { AtLeast(d, a); } else if d < 0 { AtLeast(0 - d, a); }
  }

  lemma AtLeast(d: nat, a: nat)
    requires d >= 1
    ensures d * a >= a
  {
  }

  predicate OnPage(x: nat, page: nat) { 0 < page && page % ALIGN == 0 && x % page == 0 }

  // ------------------------------------------------------------ the layout

  /** What establish decides: refuse, or where metadata and free space lie. */
  datatype Layout = Refused | Laid(md: nat, first: nat, end: nat)

  /** establish once the mapping exists, in the source's 64-bit arithmetic. */
  function Plan(mapping: nat, size: nat, front: nat, back: nat, page: nat): Layout
    requires 0 < page
  {
    var reserve := U64(front + back);
    if reserve >= size || size - reserve < 2 * page then Refused
    else
      var pad := U64(mapping + front) % page;
      var md := U64(front + if pad != 0 then page - pad else 0);
      var first, end := U64(md + page), U64(size - back);
      if first >= end then Refused else Laid(md, first, end)
  }

  /** The metadata page is the first whole page behind the front reserve, and the free
      space is all that lies between it and the back reserve. */
  predicate Sound(mapping: nat, size: nat, front: nat, back: nat, page: nat, p: Layout) {
    && p.Laid? && OnPage(mapping + p.md, page)
    && front <= p.md < front + page && p.md + page == p.first < p.end && p.end + back == size
  }

  /** Sizes and reserves are 64-bit, the page size is an int whose double is one,
      and the mapping does not run over the end of the address space. */
  predicate Words(mapping: nat, size: nat, front: nat, back: nat, page: nat) {
    && front < TWO64 && back < TWO64 && size < TWO64 && mapping + size <= TWO64
    && 0 < page < 0x4000_0000 && page % ALIGN == 0
  }

  lemma Small(x: int)
    requires 0 <= x < TWO64
    ensures U64(x) == x
  {
  }

  /** Reserves whose sum fits in 64 bits are laid out soundly or refused, and they
      are refused exactly if too little is left; the last test is dead. */
  lemma PlanIsSound(mapping: nat, size: nat, front: nat, back: nat, page: nat)
    requires Words(mapping, size, front, back, page) && front + back < TWO64
    ensures var p := Plan(mapping, size, front, back, page);
            && (p.Refused? <==> front + back >= size || size - (front + back) < 2 * page)
            && (p.Laid? ==> Sound(mapping, size, front, back, page, p))
  {
    hide U64;
    Small(front + back);
    if front + back < size && size - (front + back) >= 2 * page {
      Small(mapping + front);
      var pad := (mapping + front) % page;
      var md := front + if pad != 0 then page - pad else 0;
      Small(md);
      Small(md + page);
      Small(size - back);
      if pad != 0 { Rounded(mapping + front, page); }
    }
  }

  /** The exact condition: what is laid out is sound if and only if the sum of the
      reserves did not wrap. */
  lemma SoundIffNoWrap(mapping: nat, size: nat, front: nat, back: nat, page: nat)
    requires Words(mapping, size, front, back, page) && Plan(mapping, size, front, back, page).Laid?
    ensures Sound(mapping, size, front, back, page, Plan(mapping, size, front, back, page)) <==> front + back < TWO64
  {
    hide Plan, OnPage;
    if front + back < TWO64 { PlanIsSound(mapping, size, front, back, page); }
  }

  /** Reserves that wrap to 0: a segment of three pages is laid out with its
      metadata page in front of it. */
  lemma WrappedReserve(mapping: nat)
    requires OnPage(mapping, 0x1000) && 0x1000 <= mapping < 0x1_0000_0000
    ensures Plan(mapping, 0x3000, TWO64 - 0x1000, 0x1000, 0x1000) == Laid(TWO64 - 0x1000, 0, 0x2000)
  {
    assert U64(TWO64) == 0;
    assert U64(mapping + (TWO64 - 0x1000)) == mapping - 0x1000;
    assert (mapping - 0x1000) % 0x1000 == 0;
  }

  // ------------------------------------------------------------ the segment

  /** An allocation: offset in the segment and length. */
  datatype Block = Block(off: nat, len: nat)

  class Seg {
    const mapping: nat      // local address of the segment
    const size: nat
    const front: nat        // reserved at the start
    const back: nat         // reserved at the end
    const page: nat
    var mdOffset: nat
    var firstAvail: nat
    var endAvail: nat
    ghost var blocks: seq<Block>

    /** The metadata page is page-aligned and clear of the front reserve. */
    ghost predicate LayoutOk()
      reads this
    {
      && OnPage(mapping + mdOffset, page)
      && front <= mdOffset < front + page && mdOffset + page <= firstAvail <= endAvail == size - back && back <= size
    }

    /** The allocations follow each other from the metadata page up to firstAvail. */
    ghost predicate BlocksOk()
      reads this
    {
      && (forall i :: 0 <= i < |blocks| ==>
            && blocks[i].len > 0 && IsAligned(mapping + blocks[i].off)
            && mdOffset + page <= blocks[i].off && blocks[i].off + blocks[i].len <= firstAvail)
      && (forall i, j :: 0 <= i < j < |blocks| ==> blocks[i].off + blocks[i].len <= blocks[j].off)
      && (firstAvail < endAvail ==> IsAligned(mapping + firstAvail))
    }

    ghost predicate Valid()
      reads this
    {
      LayoutOk() && BlocksOk()
    }

    constructor (addr: nat, mmsize: nat, reserveFront: nat, reserveBack: nat, pagesize: nat)
      ensures mapping == addr && size == mmsize && front == reserveFront && back == reserveBack && page == pagesize
    {
      mapping, size, front, back, page := addr, mmsize, reserveFront, reserveBack, pagesize;
    }

    /** establish with initialize set, once the mapping exists: lay out the segment. */
    method Establish() returns (err: nat)
      requires Words(mapping, size, front, back, page)
      modifies this
      ensures err == (if Plan(mapping, size, front, back, page).Refused? then EINVAL else 0)
      ensures err == 0 ==>
                Laid(mdOffset, firstAvail, endAvail) == Plan(mapping, size, front, back, page) && blocks == []
      ensures err == 0 ==> (Valid() <==> front + back < TWO64)
    {
      hide Sound, OnPage, U64;
      var reserve := U64(front + back);
      if reserve >= size {
        return EINVAL;
      }
      if size - reserve < 2 * page {
        return EINVAL;
      }
      var pad := U64(mapping + front) % page;
      if pad != 0 {
        pad := page - pad;
      }
      mdOffset := U64(front + pad);
      firstAvail := U64(mdOffset + page);
      endAvail := U64(size - back);
      blocks := [];
      if firstAvail >= endAvail {
        return EINVAL;
      }
      SoundIffNoWrap(mapping, size, front, back, page);
      ValidIffSound();
      err := 0;
    }

    lemma ValidIffSound()
      requires Words(mapping, size, front, back, page) && blocks == [] && firstAvail < endAvail
               && firstAvail == U64(mdOffset + page)
      ensures Valid() <==> Sound(mapping, size, front, back, page, Laid(mdOffset, firstAvail, endAvail))
    {
      if Sound(mapping, size, front, back, page, Laid(mdOffset, firstAvail, endAvail)) {
        PageAligned(mapping + mdOffset, page);
        Small(mdOffset + page);
      }
    }

    /** dthread_shmseg_alloc: the next aligned stretch, or all the rest if want is 0
        or rounds up to 2^64.  The stretch is long enough exactly if it does not. */
    method Alloc(want: nat) returns (r: Option<Block>)
      requires Valid() && size < TWO64 && want < TWO64
      modifies this`firstAvail, this`blocks
      ensures Valid()
      ensures var total := U64(RoundUp(want, ALIGN));
              && (r.None? <==> old(firstAvail) >= endAvail || total > endAvail - old(firstAvail))
              && (r.Some? ==> r.value == Block(old(firstAvail), if total == 0 then endAvail - old(firstAvail)
                                               else total))
      ensures r.None? ==> firstAvail == old(firstAvail) && blocks == old(blocks)
      ensures r.Some? ==> blocks == old(blocks) + [r.value] && firstAvail == r.value.off + r.value.len
      ensures r.Some? ==> (want <= r.value.len <==> RoundUp(want, ALIGN) < TWO64)
    {
      hide IsAligned, OnPage, U64;
      var pad := want % ALIGN;
      if pad != 0 {
        pad := ALIGN - pad;
      }
      assert want + pad == RoundUp(want, ALIGN);
      var total := U64(want + pad);
      WrapsToZero(want);
      RestIsShort();
      if firstAvail >= size || firstAvail >= endAvail {
        return None;
      }
      if total == 0 {
        total := endAvail - firstAvail;
      } else if total > endAvail - firstAvail {
        return None;
      }
      var b := Block(firstAvail, total);
      r := Some(b);
      if total < endAvail - firstAvail { AlignedSum(mapping + firstAvail, total); }
      blocks := blocks + [b];
      firstAvail := firstAvail + total;
    }

    lemma RestIsShort()
      requires Valid() && size < TWO64
      ensures endAvail - firstAvail < TWO64 - ALIGN
    {
    }
  }

  /** Rounding up a 64-bit number leaves 64 bits only by reaching 2^64. */
  lemma WrapsToZero(want: nat)
    requires want < TWO64
    ensures U64(RoundUp(want, ALIGN)) == if want > TWO64 - ALIGN then 0 else RoundUp(want, ALIGN)
    ensures RoundUp(want, ALIGN) < TWO64 <==> want <= TWO64 - ALIGN
    ensures IsAligned(U64(RoundUp(want, ALIGN)))
  {
  }

  /** What is page-aligned, and what follows a page later, is aligned. */
  lemma PageAligned(x: nat, page: nat)
    requires 0 < page && page % ALIGN == 0 && x % page == 0
    ensures x % ALIGN == 0 && (x + page) % ALIGN == 0
  {
    var k := x / page;
    assert x == k * page;
    MultipleOf(k, page);
  }

  lemma {:induction false} MultipleOf(k: nat, page: nat)
    requires page % ALIGN == 0
    ensures k * page % ALIGN == 0
  {
    if k > 0 {
      MultipleOf(k - 1, page);
      assert k * page == (k - 1) * page + page;
    }
  }
}
