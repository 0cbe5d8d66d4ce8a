/** References into shared memory: a segment and an offset, which every rank turns
    into a pointer of its own, and back. */
module Refs {
  import opened Types
  import B = Bytes

  /** `dthread_shmmap_t`: where a segment is mapped on this rank. */
  datatype Map = Map(base: nat, size: nat)

  /** `dthread_shmref_t` */
  datatype Ref = Ref(shmid: nat, offset: nat, length: nat)

  /** The mappings of one rank lie in the address space and do not overlap. */
  ghost predicate MapsOk(maps: seq<Map>) {
    && (forall i :: 0 <= i < |maps| ==> maps[i].base + maps[i].size <= B.TWO64)
    && (forall i, j :: 0 <= i < |maps| && 0 <= j < |maps| && i != j ==>
          maps[i].base + maps[i].size <= maps[j].base || maps[j].base + maps[j].size <= maps[i].base)
  }

  /** Ranks map the same segments, perhaps at other addresses. */
  ghost predicate SameSegments(maps: seq<Map>, others: seq<Map>) {
    |maps| == |others| && forall i :: 0 <= i < |maps| ==> maps[i].size == others[i].size
  }

  /** The bytes [ptr, ptr + len), with at least the one at ptr, lie in m. */
  predicate Within(m: Map, ptr: nat, len: nat) {
    m.base <= ptr < m.base + m.size && ptr + len <= m.base + m.size
  }

  /** dthread_shmref2ptr; len 0 asks for no particular length. */
  function Ref2Ptr(maps: seq<Map>, ref: Option<Ref>, len: nat): Option<nat> {
    if ref.None? then None
    else
      var r := ref.value;
      if r.shmid >= |maps| then None
      else if r.offset >= maps[r.shmid].size then None
      else if r.length > maps[r.shmid].size - r.offset then None
      else if len != 0 && len > r.length then None
      else Some(maps[r.shmid].base + r.offset)
  }

  /** A reference becomes a pointer exactly if all its bytes lie in its segment and
      are enough, and then all of them lie in the mapping, without wrapping. */
  lemma ResolvedInside(maps: seq<Map>, r: Ref, len: nat)
    requires MapsOk(maps)
    ensures Ref2Ptr(maps, Some(r), len).Some? <==>
              r.shmid < |maps| && len <= r.length && Within(maps[r.shmid], maps[r.shmid].base + r.offset, r.length)
    ensures match Ref2Ptr(maps, Some(r), len)
            case None => true
            case Some(p) => Within(maps[r.shmid], p, r.length) && p + r.length <= B.TWO64 && p < B.TWO64
  {
  }

  /** dthread_ptr2shmref */
  method Ptr2Ref(maps: seq<Map>, ptr: nat, len: nat) returns (r: Option<Ref>)
    requires MapsOk(maps)
    ensures r.Some? <==> exists i :: 0 <= i < |maps| && Within(maps[i], ptr, len)
    ensures r.Some? ==> Names(maps, r.value, ptr, len)
  {
    var shmid: nat := 0;
    var offset: nat := 0;
    while shmid < |maps|
      invariant shmid <= |maps|
      invariant forall i :: 0 <= i < shmid ==> !Within(maps[i], ptr, 0)
    {
      if ptr >= maps[shmid].base {
        offset := ptr - maps[shmid].base;
        if offset < maps[shmid].size {
          break;
        }
      }
      shmid := shmid + 1;
    }
    if shmid >= |maps| {
      return None;
    }
    if len > maps[shmid].size - offset {
      return None;
    }
    return Some(Ref(shmid, offset, len));
  }

  /** r is the reference for len bytes at ptr. */
  predicate Names(maps: seq<Map>, r: Ref, ptr: nat, len: nat) {
    && r.shmid < |maps| && r.length == len && maps[r.shmid].base + r.offset == ptr && Within(maps[r.shmid], ptr, len)
  }

  /** Only one reference names a stretch of memory. */
  lemma NamesOne(maps: seq<Map>, r: Ref, q: Ref, ptr: nat, len: nat)
    requires MapsOk(maps) && Names(maps, r, ptr, len) && Names(maps, q, ptr, len)
    ensures r == q
  {
  }

  /** A reference names what it becomes, and what it names it becomes: the two
      functions are inverse to each other. */
  lemma RoundTrip(maps: seq<Map>, r: Ref, ptr: nat, len: nat)
    requires MapsOk(maps)
    ensures Names(maps, r, ptr, r.length) <==> Ref2Ptr(maps, Some(r), 0) == Some(ptr)
    ensures Ref2Ptr(maps, Some(r), len) == Some(ptr) ==> Names(maps, r, ptr, r.length)
  {
  }

  /** On another rank the reference becomes a pointer to the same place of the same
      segment. */
  lemma OtherRank(maps: seq<Map>, others: seq<Map>, r: Ref, ptr: nat, len: nat)
    requires MapsOk(maps) && MapsOk(others) && SameSegments(maps, others) && Names(maps, r, ptr, len)
    ensures var p := Ref2Ptr(others, Some(r), len);
            && p == Some(others[r.shmid].base + (ptr - maps[r.shmid].base)) && Names(others, r, p.value, len)
  {
  }
}
