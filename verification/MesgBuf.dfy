/** Finding mlog's message buffer again in memory that holds it somewhere, such as
    a core file, written on a machine of either byte order. */
module MesgBuf {
  import opened Types
  import opened RingBuffer
  import B = Bytes

  const HEAD: nat := 24
  const START: Text := [0x3E, 0x43, 0x70, 0x4D, 0x64, 0x55, 0x6C, 0x3C]   // >CpMdUl<
  const BEEF: nat := 0xDEAD_BEEF
  const FEEB: nat := 0xEFBE_ADDE   // wswap(BEEF)

  /** The fields of mlog_mbhead that describe the buffer behind it. */
  datatype Head = Head(len: nat, cnt: nat, wp: nat)

  // ------------------------------------------------------------ words and headers

  function Byte(w: nat): B.byte { (w % 256) as B.byte }

  /** The four bytes of a 32-bit word, lowest first. */
  function Low(w: nat): (b: Text)
    ensures |b| == 4
  {
    [Byte(w), Byte(w / 256), Byte(w / 256 / 256), Byte(w / 256 / 256 / 256)]
  }

  function Word(b0: B.byte, b1: B.byte, b2: B.byte, b3: B.byte): nat {
    b0 as nat + 256 * (b1 as nat + 256 * (b2 as nat + 256 * b3 as nat))
  }

  function WordAt(m: Text, off: nat): nat
    requires off + 4 <= |m|
  {
    Word(m[off], m[off + 1], m[off + 2], m[off + 3])
  }

  function WSwap(w: nat): nat {
    Word(Byte(w / 256 / 256 / 256), Byte(w / 256 / 256), Byte(w / 256), Byte(w))
  }

  /** A word as a machine of the other byte order stores it. */
  function High(w: nat): (b: Text)
    ensures |b| == 4
  {
    [Low(w)[3], Low(w)[2], Low(w)[1], Low(w)[0]]
  }

  lemma DigitsOf(b: B.byte, w: nat)
    ensures Byte(b as nat + 256 * w) == b && (b as nat + 256 * w) / 256 == w
  {
  }

  /** The bytes of a word come apart again. */
  lemma Digits(b0: B.byte, b1: B.byte, b2: B.byte, b3: B.byte)
    ensures Low(Word(b0, b1, b2, b3)) == [b0, b1, b2, b3]
  {
    DigitsOf(b3, 0);
    DigitsOf(b2, b3 as nat);
    DigitsOf(b1, b2 as nat + 256 * b3 as nat);
    DigitsOf(b0, b1 as nat + 256 * (b2 as nat + 256 * b3 as nat));
  }

  lemma WordIs(w: nat)
    requires w < TWO32
    ensures Word(Byte(w), Byte(w / 256), Byte(w / 256 / 256), Byte(w / 256 / 256 / 256)) == w
  {
  }

  /** Swapping twice gives the word back. */
  lemma SwapTwice(w: nat)
    requires w < TWO32
    ensures WSwap(WSwap(w)) == w
  {
    Digits(Byte(w / 256 / 256 / 256), Byte(w / 256 / 256), Byte(w / 256), Byte(w));
    WordIs(w);
  }

  /** The header at off, in this machine's byte order. */
  function ReadHead(m: Text, off: nat): Head
    requires off + HEAD <= |m|
  {
    var (len, cnt, wp) := (WordAt(m, off + 12), WordAt(m, off + 16), WordAt(m, off + 20));
    if WordAt(m, off + 8) == FEEB then Head(WSwap(len), WSwap(cnt), WSwap(wp)) else Head(len, cnt, wp)
  }

  /** A header as mlog_open lays it out, on a machine of the same or the other order. */
  function WriteHead(h: Head, other: bool): (b: Text)
    ensures |b| == HEAD
  {
    if other then START + High(BEEF) + High(h.len) + High(h.cnt) + High(h.wp)
    else START + Low(BEEF) + Low(h.len) + Low(h.cnt) + Low(h.wp)
  }

  predicate Fits32(h: Head) { h.len < TWO32 && h.cnt < TWO32 && h.wp < TWO32 }

  lemma ReadLow(m: Text, off: nat, w: nat)
    requires off + 4 <= |m| && m[off..off + 4] == Low(w) && w < TWO32
    ensures WordAt(m, off) == w
  {
    hide Low, Word;
    assert m[off..off + 4] == [m[off], m[off + 1], m[off + 2], m[off + 3]];
    LowWord(m[off], m[off + 1], m[off + 2], m[off + 3], w);
  }

  lemma LowWord(b0: B.byte, b1: B.byte, b2: B.byte, b3: B.byte, w: nat)
    requires [b0, b1, b2, b3] == Low(w) && w < TWO32
    ensures Word(b0, b1, b2, b3) == w
  {
    hide Word, Byte;
    var l := Low(w);
    assert b0 == l[0] && b1 == l[1] && b2 == l[2] && b3 == l[3];
    WordIs(w);
  }

  lemma ReadHigh(m: Text, off: nat, w: nat)
    requires off + 4 <= |m| && m[off..off + 4] == High(w) && w < TWO32
    ensures WordAt(m, off) == WSwap(w) && WSwap(WordAt(m, off)) == w
  {
    hide Word, Byte;
    var q, l := m[off..off + 4], Low(w);
    assert q[0] == m[off] && q[1] == m[off + 1] && q[2] == m[off + 2] && q[3] == m[off + 3];
    assert q[0] == l[3] && q[1] == l[2] && q[2] == l[1] && q[3] == l[0];
    SwapTwice(w);
  }

  /** Reading a written header gives it back, whatever order it was written in. */
  lemma HeadRoundTrip(m: Text, off: nat, h: Head, other: bool)
    requires off + HEAD <= |m| && m[off..off + HEAD] == WriteHead(h, other) && Fits32(h)
    ensures m[off..off + 8] == START && ReadHead(m, off) == h
  {
    hide Low, High, WordAt, WSwap, ReadHead;
    Part(m, off, 0, 8);
    Part(m, off, 8, 4);
    Part(m, off, 12, 4);
    Part(m, off, 16, 4);
    Part(m, off, 20, 4);
    if other {
      Fields(START, High(BEEF), High(h.len), High(h.cnt), High(h.wp));
      HighFields(m, off, h);
    } else {
      Fields(START, Low(BEEF), Low(h.len), Low(h.cnt), Low(h.wp));
      LowFields(m, off, h);
    }
  }

  lemma Part(m: Text, off: nat, i: nat, k: nat)
    requires off + HEAD <= |m| && i + k <= HEAD
    ensures m[off + i..off + i + k] == m[off..off + HEAD][i..i + k]
  {
    Cut(m, off, HEAD, i, k);
  }

  /** A slice of a slice. */
  lemma Cut(m: Text, at: nat, n: nat, i: nat, k: nat)
    requires at + n <= |m| && i + k <= n
    ensures m[at + i..at + i + k] == m[at..at + n][i..i + k]
  {
    var a, b := m[at + i..at + i + k], m[at..at + n][i..i + k];
    forall x | 0 <= x < k ensures a[x] == b[x] { }
  }

  lemma Middle(x: Text, y: Text, z: Text)
    ensures (x + y + z)[|x|..|x| + |y|] == y
  {
  }

  lemma Fields(start: Text, beef: Text, len: Text, cnt: Text, wp: Text)
    requires |start| == 8 && |beef| == |len| == |cnt| == |wp| == 4
    ensures var b := start + beef + len + cnt + wp;
            b[0..8] == start && b[8..12] == beef && b[12..16] == len && b[16..20] == cnt && b[20..24] == wp
  {
    var b := start + beef + len + cnt + wp;
    assert b == [] + start + (beef + len + cnt + wp) && b == start + beef + (len + cnt + wp);
    assert b == (start + beef) + len + (cnt + wp) && b == (start + beef + len + cnt) + wp + [];
    Middle([], start, beef + len + cnt + wp);
    Middle(start, beef, len + cnt + wp);
    Middle(start + beef, len, cnt + wp);
    Middle(start + beef + len, cnt, wp);
    Middle(start + beef + len + cnt, wp, []);
  }

  lemma LowFields(m: Text, off: nat, h: Head)
    requires off + HEAD <= |m| && Fits32(h)
    requires m[off + 8..off + 8 + 4] == Low(BEEF) && m[off + 12..off + 12 + 4] == Low(h.len)
    requires m[off + 16..off + 16 + 4] == Low(h.cnt) && m[off + 20..off + 20 + 4] == Low(h.wp)
    ensures ReadHead(m, off) == h
  {
    hide Low, WordAt, WSwap;
    ReadLow(m, off + 8, BEEF);
    ReadLow(m, off + 12, h.len);
    ReadLow(m, off + 16, h.cnt);
    ReadLow(m, off + 20, h.wp);
  }

  lemma SwappedBeef()
    ensures WSwap(BEEF) == FEEB
  {
    assert BEEF == 0xEF + 256 * (0xBE + 256 * (0xAD + 256 * 0xDE));
    Digits(0xEF, 0xBE, 0xAD, 0xDE);
    var l := Low(BEEF);
    assert l[0] == 0xEF && l[1] == 0xBE && l[2] == 0xAD && l[3] == 0xDE;
  }

  lemma HighFields(m: Text, off: nat, h: Head)
    requires off + HEAD <= |m| && Fits32(h)
    requires m[off + 8..off + 8 + 4] == High(BEEF) && m[off + 12..off + 12 + 4] == High(h.len)
    requires m[off + 16..off + 16 + 4] == High(h.cnt) && m[off + 20..off + 20 + 4] == High(h.wp)
    ensures ReadHead(m, off) == h
  {
    SwappedBeef();
    hide High, WordAt, WSwap;
    ReadHigh(m, off + 8, BEEF);
    ReadHigh(m, off + 12, h.len);
    ReadHigh(m, off + 16, h.cnt);
    ReadHigh(m, off + 20, h.wp);
  }

  // ------------------------------------------------------------ the search

  /** The header at off passes the checks.  The length is compared with the end of
      the memory as if the buffer began where its header does. */
  predicate Sane(m: Text, off: nat)
    requires off + HEAD <= |m|
  {
    && m[off..off + 8] == START
    && var h := ReadHead(m, off);
    && h.cnt <= h.len && h.wp <= h.len && off + h.len <= |m|
  }

  /** What the search takes for a message buffer. */
  predicate Plausible(m: Text, off: nat) {
    off % 4 == 0 && off + HEAD < |m| && Sane(m, off)
  }

  ghost predicate FirstPlausible(m: Text, off: nat) {
    Plausible(m, off) && forall p: nat :: p < off ==> !Plausible(m, p)
  }

  /** The buffer was found at at; the pieces are offsets into the memory. */
  datatype Found = Found(at: nat, b1: Piece, b2: Piece)

  function Shifted(p: Piece, at: nat): Piece { Piece(at + p.start, p.len) }

  /** mlog_findmesgbuf. */
  method Find(m: Text) returns (r: Option<Found>)
    ensures r.None? <==> forall p: nat :: !Plausible(m, p)
    ensures r.Some? ==> FirstPlausible(m, r.value.at)
    ensures r.Some? ==>
      var h := ReadHead(m, r.value.at);
      var (b1, b2) := Split(h.len, h.wp, h.cnt);
      r.value.b1 == Shifted(b1, r.value.at + HEAD) && r.value.b2 == Shifted(b2, r.value.at + HEAD)
  {
    hide Sane, ReadHead, Split;
    var ptr: nat := 0;
    while ptr + HEAD < |m|
      invariant ptr % 4 == 0
      invariant forall p: nat :: p < ptr ==> !Plausible(m, p)
    {
      if Sane(m, ptr) {
        var h := ReadHead(m, ptr);
        SaneBounds(m, ptr);
        assert Plausible(m, ptr);
        var b1, b2 := FoundPieces(h.len, h.wp, h.cnt);
        return Some(Found(ptr, Shifted(b1, ptr + HEAD), Shifted(b2, ptr + HEAD)));
      }
      ptr := ptr + 4;
    }
    return None;
  }

  lemma SaneBounds(m: Text, off: nat)
    requires off + HEAD <= |m| && Sane(m, off)
    ensures ReadHead(m, off).cnt <= ReadHead(m, off).len && ReadHead(m, off).wp <= ReadHead(m, off).len
  {
    hide ReadHead;
  }

  // ------------------------------------------------------------ what is found

  /** All bytes of the piece are in the memory. */
  predicate Inside(p: Piece, m: Text) { p.len == 0 || p.start + p.len <= |m| }

  /** The end of the bytes in use, counted from the start of the buffer. */
  function UsedEnd(h: Head): nat {
    if h.cnt == 0 then 0 else if h.wp < h.cnt then h.len else h.wp
  }

  /** The test of the length forgets the header, so a find need not lie in the
      memory: it does exactly if the used part of the buffer, header included,
      ends in it.  A buffer that fits as a whole always does. */
  lemma FoundInside(m: Text, off: nat)
    requires Plausible(m, off)
    ensures var h := ReadHead(m, off);
            var (b1, b2) := Split(h.len, h.wp, h.cnt);
            && (Inside(Shifted(b1, off + HEAD), m) && Inside(Shifted(b2, off + HEAD), m) <==>
                off + HEAD + UsedEnd(h) <= |m|)
            && (off + HEAD + h.len <= |m| ==> off + HEAD + UsedEnd(h) <= |m|)
  {
    hide ReadHead;
  }

  /** 28 bytes that are taken for a full buffer of 28 bytes: the piece found lies
      behind them. */
  lemma FoundOutside(m: Text)
    requires |m| == 28 && m[0..HEAD] == WriteHead(Head(28, 28, 0), false)
    ensures FirstPlausible(m, 0) && ReadHead(m, 0) == Head(28, 28, 0)
    ensures !Inside(Shifted(Split(28, 0, 28).0, HEAD), m)
  {
    hide ReadHead, WriteHead;
    HeadRoundTrip(m, 0, Head(28, 28, 0), false);
  }

  function Slice(m: Text, p: Piece): Text
    requires p.start + p.len <= |m|
  {
    m[p.start..p.start + p.len]
  }

  /** Memory in which a buffer with its header lies at off. */
  predicate Contains(m: Text, off: nat, h: Head, other: bool, buf: Text) {
    && off + HEAD + |buf| <= |m| && h.len == |buf| && Fits32(h)
    && m[off..off + HEAD] == WriteHead(h, other) && m[off + HEAD..off + HEAD + |buf|] == buf
  }

  /** The round trip: in memory that contains a ring buffer at a multiple of four,
      with nothing plausible before it and at least a byte behind its header, the
      pieces found are the end of everything that was logged to it. */
  lemma FindsTheLog(m: Text, off: nat, other: bool, buf: Text, wp: nat, cnt: nat, hist: Text)
    requires Holds(buf, wp, cnt, hist) && Contains(m, off, Head(|buf|, cnt, wp), other, buf)
    requires off % 4 == 0 && forall p: nat :: p < off ==> !Plausible(m, p)
    ensures FirstPlausible(m, off) && ReadHead(m, off) == Head(|buf|, cnt, wp)
    ensures var (b1, b2) := Split(|buf|, wp, cnt);
            var (p1, p2) := (Shifted(b1, off + HEAD), Shifted(b2, off + HEAD));
            && p1.start + p1.len <= |m| && p2.start + p2.len <= |m|
            && Slice(m, p1) + Slice(m, p2) == Last(hist, MinOf(|hist|, |buf|))
  {
    HoldsBounds(buf, wp, cnt, hist);
    HeadRoundTrip(m, off, Head(|buf|, cnt, wp), other);
    var (b1, b2) := Split(|buf|, wp, cnt);
    SliceIs(m, off + HEAD, buf, b1);
    SliceIs(m, off + HEAD, buf, b2);
    PiecesMatch(buf, wp, cnt, b1, b2);
  }

  lemma SliceIs(m: Text, at: nat, buf: Text, p: Piece)
    requires at + |buf| <= |m| && m[at..at + |buf|] == buf && InBuffer(p, |buf|)
    ensures Slice(m, Shifted(p, at)) == RingBuffer.Bytes(buf, p)
  {
    Cut(m, at, |buf|, p.start, p.len);
  }
}
