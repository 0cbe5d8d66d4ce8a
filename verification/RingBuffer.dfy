/** mlog's circular message buffer: the bytes it hands out are the end of
    everything ever logged. */
module RingBuffer {
  import opened Types
  import B = Bytes

  type Text = seq<B.byte>

  /** The last k bytes of s. */
  function Last(s: Text, k: nat): (l: Text)
    requires k <= |s|
    ensures |l| == k && (k == |s| ==> l == s)
  {
    s[|s| - k..]
  }

  function MinOf(a: nat, b: nat): nat { if a <= b then a else b }

  /** The buffer read from the write position on, all the way round. */
  function Rotated(buf: Text, wp: nat): Text
    requires wp <= |buf|
  {
    buf[wp..] + buf[..wp]
  }

  /** The buffer after d has been written at wp, going round the end. */
  function Written(buf: Text, wp: nat, d: Text): (w: Text)
    requires wp < |buf| && |d| <= |buf|
    ensures |w| == |buf|
  {
    var k := MinOf(|d|, |buf| - wp);
    var once := buf[..wp] + d[..k] + buf[wp + k..];
    d[k..] + once[|d| - k..]
  }

  function Advanced(n: nat, wp: nat, m: nat): nat {
    if m >= n then wp else if wp + m >= n then wp + m - n else wp + m
  }

  /** Writing moves the oldest bytes out at the front and d in at the end. */
  lemma WrittenRotated(buf: Text, wp: nat, d: Text)
    requires wp < |buf| && |d| <= |buf|
    ensures Advanced(|buf|, wp, |d|) < |buf|
    ensures Rotated(Written(buf, wp, d), Advanced(|buf|, wp, |d|)) == Rotated(buf, wp)[|d|..] + d
  {
    var n, w, a := |buf|, Written(buf, wp, d), Advanced(|buf|, wp, |d|);
    var l, r := Rotated(w, a), Rotated(buf, wp)[|d|..] + d;
    hide Rotated, Written;
    RotatedIs(w, a);
    RotatedIs(buf, wp);
    forall i | 0 <= i < n ensures l[i] == r[i] {
      WrittenAt(buf, wp, d, if a + i < n then a + i else a + i - n);
    }
  }

  lemma RotatedIs(buf: Text, wp: nat)
    requires wp < |buf|
    ensures |Rotated(buf, wp)| == |buf|
    ensures forall i :: 0 <= i < |buf| ==>
              Rotated(buf, wp)[i] == buf[if wp + i < |buf| then wp + i else wp + i - |buf|]
  {
  }

  /** What is written where: d from wp on and round the end, the rest as before. */
  lemma WrittenAt(buf: Text, wp: nat, d: Text, j: nat)
    requires wp < |buf| && |d| <= |buf| && j < |buf|
    ensures var k := if j >= wp then j - wp else j + |buf| - wp;
            Written(buf, wp, d)[j] == if k < |d| then d[k] else buf[j]
  {
  }

  lemma LastOfSum(a: Text, b: Text, k: nat)
    requires k <= |a|
    ensures Last(a + b, k + |b|) == Last(a, k) + b
  {
  }

  lemma LastOfDrop(s: Text, m: nat, k: nat)
    requires m + k <= |s|
    ensures Last(s[m..], k) == Last(s, k)
  {
  }

  lemma LastOfLast(s: Text, c: nat, k: nat)
    requires k <= c <= |s|
    ensures Last(Last(s, c), k) == Last(s, k)
  {
  }

  /** The newest cnt bytes are the end of the history. */
  ghost predicate Holds(buf: Text, wp: nat, cnt: nat, hist: Text) {
    && wp < |buf| && cnt == MinOf(|hist|, |buf|)
    && Last(Rotated(buf, wp), cnt) == Last(hist, cnt)
  }

  /** Logging b keeps that: history and buffer both end in b now. */
  lemma HoldsAfter(buf: Text, wp: nat, cnt: nat, hist: Text, b: Text)
    requires Holds(buf, wp, cnt, hist)
    ensures var d := Last(b, MinOf(|b|, |buf|));
            Holds(Written(buf, wp, d), Advanced(|buf|, wp, |b|), MinOf(cnt + |b|, |buf|), hist + b)
  {
    var n := |buf|;
    var d := Last(b, MinOf(|b|, n));
    WrittenRotated(buf, wp, d);
    var r := Rotated(buf, wp);
    EndsMatch(r, hist, b, cnt, n);
    assert Advanced(n, wp, |b|) == Advanced(n, wp, |d|);
  }

  lemma EndsMatch(r: Text, hist: Text, b: Text, cnt: nat, n: nat)
    requires |r| == n && cnt == MinOf(|hist|, n) && Last(r, cnt) == Last(hist, cnt)
    ensures var d := Last(b, MinOf(|b|, n));
            var c := MinOf(cnt + |b|, n);
            c == MinOf(|hist + b|, n) && Last(r[|d|..] + d, c) == Last(hist + b, c)
  {
    if |b| >= n { EndsReplaced(r, hist, b, n); } else { EndsShifted(r, hist, b, cnt, n); }
  }

  lemma EndsReplaced(r: Text, hist: Text, b: Text, n: nat)
    requires |r| == n <= |b|
    ensures var d := Last(b, n); Last(r[|d|..] + d, n) == Last(hist + b, n)
  {
  }

  lemma EndsShifted(r: Text, hist: Text, b: Text, cnt: nat, n: nat)
    requires |b| < |r| == n && cnt == MinOf(|hist|, n) && Last(r, cnt) == Last(hist, cnt)
    ensures var c := MinOf(cnt + |b|, n); Last(r[|b|..] + b, c) == Last(hist + b, c)
  {
    hide Last;
    var k := MinOf(cnt + |b|, n) - |b|;
    LastOfSum(r[|b|..], b, k);
    LastOfSum(hist, b, k);
    LastOfDrop(r, |b|, k);
    LastOfLast(r, cnt, k);
    LastOfLast(hist, cnt, k);
  }

  // ------------------------------------------------------------ reading

  /** A stretch of the buffer. */
  datatype Piece = Piece(start: nat, len: nat)

  predicate InBuffer(p: Piece, n: nat) { p.start + p.len <= n }

  function Bytes(buf: Text, p: Piece): (b: Text)
    requires InBuffer(p, |buf|)
    ensures |b| == p.len
  {
    buf[p.start..p.start + p.len]
  }

  /** Whatever the buffer holds, the pieces are its newest cnt bytes, in order. */
  ghost predicate Covers(n: nat, wp: nat, cnt: nat, b1: Piece, b2: Piece)
    requires wp <= n && cnt <= n && InBuffer(b1, n) && InBuffer(b2, n)
  {
    forall buf: Text :: |buf| == n ==> Bytes(buf, b1) + Bytes(buf, b2) == Last(Rotated(buf, wp), cnt)
  }

  /** mlog_dmesg_mbuf: the newest cnt bytes as one or two pieces. */
  method DmesgPieces(n: nat, wp: nat, cnt: nat) returns (b1: Piece, b2: Piece)
    requires wp <= n && cnt <= n
    ensures InBuffer(b1, n) && InBuffer(b2, n) && b1.len + b2.len == cnt
    ensures Covers(n, wp, cnt, b1, b2)
  {
    b1, b2 := Piece(wp, n - wp), Piece(0, wp);
    var skip := n - cnt;
    if skip >= b1.len {
      skip := skip - b1.len;
      b1, b2 := b2, Piece(0, 0);
    }
    if skip != 0 {
      b1 := Piece(b1.start + skip, b1.len - skip);
    }
    forall buf: Text | |buf| == n ensures Bytes(buf, b1) + Bytes(buf, b2) == Last(Rotated(buf, wp), cnt) {
      PiecesMatch(buf, wp, cnt, b1, b2);
    }
  }

  /** Where the newest cnt bytes are: in one piece before the write position, or
      from there to the end and on from the start. */
  function Split(n: nat, wp: nat, cnt: nat): (Piece, Piece)
    requires wp <= n && cnt <= n
  {
    if wp <= cnt then (Piece(wp + n - cnt, cnt - wp), Piece(0, wp)) else (Piece(wp - cnt, cnt), Piece(0, 0))
  }

  /** mlog_findmesgbuf's split of the same buffer, which keeps an empty first
      piece where the other drops it. */
  method FoundPieces(n: nat, wp: nat, cnt: nat) returns (b1: Piece, b2: Piece)
    requires wp <= n && cnt <= n
    ensures (b1, b2) == Split(n, wp, cnt)
    ensures InBuffer(b1, n) && InBuffer(b2, n) && b1.len + b2.len == cnt
    ensures Covers(n, wp, cnt, b1, b2)
  {
    b1, b2 := Piece(wp, n - wp), Piece(0, wp);
    var skip := n - cnt;
    if skip > b1.len {
      skip := skip - b1.len;
      b1, b2 := b2, Piece(0, 0);
    }
    if skip != 0 {
      b1 := Piece(b1.start + skip, b1.len - skip);
    }
    forall buf: Text | |buf| == n ensures Bytes(buf, b1) + Bytes(buf, b2) == Last(Rotated(buf, wp), cnt) {
      PiecesMatch(buf, wp, cnt, b1, b2);
    }
  }

  /** Both splits cover the newest cnt bytes. */
  lemma PiecesMatch(buf: Text, wp: nat, cnt: nat, b1: Piece, b2: Piece)
    requires wp <= |buf| && cnt <= |buf|
    requires || (wp <= cnt && b1 == Piece(wp + |buf| - cnt, cnt - wp) && b2 == Piece(0, wp))
             || (cnt <= wp && b1 == Piece(wp - cnt, cnt) && b2 == Piece(0, 0))
    ensures Bytes(buf, b1) + Bytes(buf, b2) == Last(Rotated(buf, wp), cnt)
  {
    hide Bytes;
    var l, c := Bytes(buf, b1) + Bytes(buf, b2), Rotated(buf, wp);
    assert |l| == cnt;
    forall i | 0 <= i < cnt ensures l[i] == Last(c, cnt)[i] {
      PiecesAt(buf, b1, b2, i);
      assert Last(c, cnt)[i] == c[|c| - cnt + i];
    }
  }

  /** What mlog_mbcopy must return: of the contents c without the newest offset
      bytes, the newest len. */
  function Window(c: Text, offset: int, len: nat): Text {
    var drop := if offset <= 0 then 0 else MinOf(offset, |c|);
    var rest := c[..|c| - drop];
    Last(rest, MinOf(len, |rest|))
  }

  // ------------------------------------------------------------ the buffer

  class Ring {
    const buf: array<B.byte>
    var wp: nat
    var cnt: nat
    ghost var hist: Text

    ghost predicate Valid()
      reads this, buf
    {
      Holds(buf[..], wp, cnt, hist)
    }

    constructor (n: nat)
      requires 0 < n
      ensures Valid() && hist == [] && fresh(buf) && buf.Length == n
    {
      buf := new B.byte[n](_ => 0);
      wp, cnt, hist := 0, 0, [];
    }

    /** memcpy of src into the buffer. */
    method Put(at: nat, src: Text)
      requires at + |src| <= buf.Length
      modifies buf
      ensures buf[..] == old(buf[..at]) + src + old(buf[at + |src|..])
    {
      for i := 0 to |src|
        invariant buf[..] == old(buf[..at]) + src[..i] + old(buf[at + i..])
      {
        buf[at + i] := src[i];
      }
    }

    /** Copy d in at the write position, in two parts if it goes round the end. */
    method Write(d: Text)
      requires wp < buf.Length && |d| <= buf.Length
      modifies buf
      ensures buf[..] == Written(old(buf[..]), wp, d)
    {
      hide Written;
      var room := buf.Length - wp;
      var ncpy := if |d| > room then room else |d|;
      Put(wp, d[..ncpy]);
      ghost var once := buf[..];
      if |d| > ncpy {
        Put(0, d[ncpy..]);
      }
      TwoCopies(old(buf[..]), once, buf[..], wp, d);
    }

    /** The message-buffer part of vmlog: only the end of a text longer than the
        buffer is kept. */
    method Log(b: Text)
      requires Valid()
      modifies this, buf
      ensures Valid() && hist == old(hist) + b
    {
      hide Holds, Written, Last;
      var n := buf.Length;
      var d := if |b| > n then b[|b| - n..] else b;
      LastIs(b, d, n);
      HoldsAfter(buf[..], wp, cnt, hist, b);
      HoldsBounds(buf[..], wp, cnt, hist);
      Write(d);
      if |b| < n {
        wp := wp + |b|;
        if wp >= n {
          wp := wp - n;
        }
      }
      if cnt < n {
        cnt := cnt + |b|;
        if cnt > n {
          cnt := n;
        }
      }
      hist := hist + b;
    }

    /** mlog_dmesg: the whole contents, oldest byte first. */
    method Dmesg() returns (text: Text)
      requires Valid()
      ensures text == Last(hist, MinOf(|hist|, buf.Length))
    {
      hide Rotated, Last, Covers;
      var b1, b2 := DmesgPieces(buf.Length, wp, cnt);
      Contents(buf[..], wp, cnt, hist, b1, b2);
      text := buf[b1.start..b1.start + b1.len] + buf[b2.start..b2.start + b2.len];
      assert text == Bytes(buf[..], b1) + Bytes(buf[..], b2);
    }

    /** mlog_mbcopy: len < 1 is an error, a negative offset counts as none. */
    method MbCopy(offset: int, len: int) returns (r: Option<Text>)
      requires Valid()
      ensures r == if len < 1 then None else Some(Window(Last(hist, MinOf(|hist|, buf.Length)), offset, len))
    {
      hide Rotated, Last, Covers, Window;
      if len < 1 {
        return None;
      }
      var b1, b2 := DmesgPieces(buf.Length, wp, cnt);
      Contents(buf[..], wp, cnt, hist, b1, b2);
      var p1, p2 := DropNewest(b1, b2, offset);
      var q1, q2 := SkipOldest(p1, p2, len);
      ghost var all := buf[..];
      Narrowed(all, b1, b2, p1, p2, q1, q2, offset, len);
      r := Some(buf[q1.start..q1.start + q1.len] + buf[q2.start..q2.start + q2.len]);
      assert r.value == Bytes(all, q1) + Bytes(all, q2);
    }

    /** Pull back from the newest data by offset bytes. */
    static method DropNewest(b1: Piece, b2: Piece, offset: int) returns (p1: Piece, p2: Piece)
      ensures p1.start == b1.start && p2.start == b2.start && p1.len <= b1.len && p2.len <= b2.len
      ensures p1.len < b1.len ==> p2.len == 0
      ensures p1.len + p2.len == b1.len + b2.len - (if offset <= 0 then 0 else MinOf(offset, b1.len + b2.len))
    {
      var off := offset;
      p1, p2 := b1, b2;
      if off > 0 && p2.len > 0 {
        if off > p2.len {
          off := off - p2.len;
          p2 := p2.(len := 0);
        } else {
          p2 := p2.(len := p2.len - off);
          off := 0;
        }
      }
      if off > 0 && p1.len > 0 {
        p1 := p1.(len := if off > p1.len then 0 else p1.len - off);
      }
    }

    /** Skip old data until only the newest len bytes remain; there always is
        enough of it to skip. */
    static method SkipOldest(b1: Piece, b2: Piece, len: nat) returns (p1: Piece, p2: Piece)
      ensures p1.start + p1.len == b1.start + b1.len || p1.len == 0
      ensures p2.start + p2.len == b2.start + b2.len && p1.start <= b1.start + b1.len
      ensures p1.len <= b1.len && p2.len <= b2.len && (p2.len < b2.len ==> p1.len == 0)
      ensures p1.len + p2.len == MinOf(len, b1.len + b2.len)
    {
      var got := b1.len + b2.len;
      var want := if len > got then got else len;
      var skip := if want < got then got - want else 0;
      p1, p2 := b1, b2;
      if skip != 0 {
        if skip > p1.len {
          skip := skip - p1.len;
          p1 := p1.(len := 0);
        } else {
          p1 := Piece(p1.start + skip, p1.len - skip);
          skip := 0;
        }
        if skip > p2.len {
          assert false;
        }
        p2 := Piece(p2.start + skip, p2.len - skip);
      }
    }
  }

  /** Dropping new and skipping old bytes of the pieces selects the window. */
  lemma Narrowed(buf: Text, b1: Piece, b2: Piece, p1: Piece, p2: Piece, q1: Piece, q2: Piece, offset: int, len: nat)
    requires InBuffer(b1, |buf|) && InBuffer(b2, |buf|)
    requires p1.start == b1.start && p2.start == b2.start && p1.len <= b1.len && p2.len <= b2.len
             && (p1.len < b1.len ==> p2.len == 0)
    requires p1.len + p2.len == b1.len + b2.len - (if offset <= 0 then 0 else MinOf(offset, b1.len + b2.len))
    requires (q1.start + q1.len == p1.start + p1.len || q1.len == 0) && q1.start <= p1.start + p1.len
    requires q2.start + q2.len == p2.start + p2.len && q1.len <= p1.len && q2.len <= p2.len
             && (q2.len < p2.len ==> q1.len == 0)
    requires q1.len + q2.len == MinOf(len, p1.len + p2.len)
    ensures InBuffer(q1, |buf|) && InBuffer(q2, |buf|)
    ensures Bytes(buf, q1) + Bytes(buf, q2) == Window(Bytes(buf, b1) + Bytes(buf, b2), offset, len)
  {
    hide Bytes, Last;
    var c := Bytes(buf, b1) + Bytes(buf, b2);
    var k := p1.len + p2.len;
    Prefix(buf, b1, b2, p1, p2);
    Suffix(buf, p1, p2, q1, q2);
    assert Bytes(buf, q1) + Bytes(buf, q2) == Last(c[..k], q1.len + q2.len);
  }

  lemma Prefix(buf: Text, b1: Piece, b2: Piece, p1: Piece, p2: Piece)
    requires InBuffer(b1, |buf|) && InBuffer(b2, |buf|)
    requires p1.start == b1.start && p2.start == b2.start && p1.len <= b1.len && p2.len <= b2.len
             && (p1.len < b1.len ==> p2.len == 0)
    ensures Bytes(buf, p1) + Bytes(buf, p2) == (Bytes(buf, b1) + Bytes(buf, b2))[..p1.len + p2.len]
  {
    hide Bytes;
    var l, c := Bytes(buf, p1) + Bytes(buf, p2), Bytes(buf, b1) + Bytes(buf, b2);
    forall i | 0 <= i < p1.len + p2.len ensures l[i] == c[..p1.len + p2.len][i] {
      PiecesAt(buf, p1, p2, i);
      PiecesAt(buf, b1, b2, i);
      assert c[..p1.len + p2.len][i] == c[i];
    }
  }

  lemma Suffix(buf: Text, p1: Piece, p2: Piece, q1: Piece, q2: Piece)
    requires InBuffer(p1, |buf|) && InBuffer(p2, |buf|)
    requires (q1.start + q1.len == p1.start + p1.len || q1.len == 0) && q1.start <= p1.start + p1.len
    requires q2.start + q2.len == p2.start + p2.len && q1.len <= p1.len && q2.len <= p2.len
             && (q2.len < p2.len ==> q1.len == 0)
    ensures InBuffer(q1, |buf|) && InBuffer(q2, |buf|)
    ensures Bytes(buf, q1) + Bytes(buf, q2) == Last(Bytes(buf, p1) + Bytes(buf, p2), q1.len + q2.len)
  {
    hide Bytes;
    var l, c := Bytes(buf, q1) + Bytes(buf, q2), Bytes(buf, p1) + Bytes(buf, p2);
    var k := q1.len + q2.len;
    forall i | 0 <= i < k ensures l[i] == Last(c, k)[i] {
      PiecesAt(buf, q1, q2, i);
      PiecesAt(buf, p1, p2, |c| - k + i);
      assert Last(c, k)[i] == c[|c| - k + i];
    }
  }

  lemma PiecesAt(buf: Text, p1: Piece, p2: Piece, i: nat)
    requires InBuffer(p1, |buf|) && InBuffer(p2, |buf|) && i < p1.len + p2.len
    ensures (Bytes(buf, p1) + Bytes(buf, p2))[i] == if i < p1.len then buf[p1.start + i] else buf[p2.start + i - p1.len]
  {
  }

  lemma LastIs(b: Text, d: Text, n: nat)
    requires d == if |b| > n then b[|b| - n..] else b
    ensures d == Last(b, MinOf(|b|, n))
  {
  }

  lemma HoldsBounds(buf: Text, wp: nat, cnt: nat, hist: Text)
    requires Holds(buf, wp, cnt, hist)
    ensures wp < |buf| && cnt <= |buf|
  {
  }

  /** One copy up to the end of the buffer and one at its start make the write. */
  lemma TwoCopies(buf: Text, once: Text, twice: Text, wp: nat, d: Text)
    requires wp < |buf| && |d| <= |buf|
    requires var k := MinOf(|d|, |buf| - wp);
             && once == buf[..wp] + d[..k] + buf[wp + k..]
             && twice == if |d| > k then [] + d[k..] + once[|d| - k..] else once
    ensures twice == Written(buf, wp, d)
  {
  }

  lemma Contents(buf: Text, wp: nat, cnt: nat, hist: Text, b1: Piece, b2: Piece)
    requires Holds(buf, wp, cnt, hist) && InBuffer(b1, |buf|) && InBuffer(b2, |buf|) && Covers(|buf|, wp, cnt, b1, b2)
    ensures Bytes(buf, b1) + Bytes(buf, b2) == Last(hist, MinOf(|hist|, |buf|))
  {
  }
}
