/** The MPI thread's send slots: parallel arrays of messages and requests that are
    compacted in place after MPI_Testsome. */
module Testsome {
  import opened Types

  // ------------------------------------------------------------ slots with holes

  /** How many of the slots are holes. */
  ghost function Holes<T>(s: seq<Option<T>>): nat { multiset(s)[None] }

  lemma {:induction false} AllHoles<T>(s: seq<Option<T>>)
    requires forall i :: 0 <= i < |s| ==> s[i].None?
    ensures Holes(s) == |s|
  {
    if s != [] {
      assert s == s[..|s| - 1] + [None];
      AllHoles(s[..|s| - 1]);
    }
  }

  lemma {:induction false} OnlyHoles<T>(s: seq<Option<T>>, i: nat)
    requires i < |s| && s[i].Some?
    ensures Holes(s) < |s|
  {
    assert multiset(s)[s[i]] > 0;
    assert |multiset(s)| == |s|;
    assert multiset(s) == multiset(s) - multiset{s[i]} + multiset{s[i]};
    Part(multiset(s) - multiset{s[i]}, None);
  }

  lemma Part<T>(m: multiset<T>, x: T)
    ensures m[x] <= |m|
  {
  }

  lemma HolesSplit<T>(s: seq<Option<T>>, k: nat)
    requires k <= |s|
    ensures Holes(s) == Holes(s[..k]) + Holes(s[k..])
  {
    assert s == s[..k] + s[k..];
  }

  /** A hole below n and nothing but holes from n on are one too many. */
  lemma TooManyHoles<T>(s: seq<Option<T>>, n: nat, i: nat)
    requires i < n <= |s| && s[i].None?
    requires forall j :: n <= j < |s| ==> s[j].None?
    ensures Holes(s) > |s| - n
  {
    HolesSplit(s, n);
    AllHoles(s[n..]);
    assert s[..n][i].None?;
  }

  /** If the slots below n are full, the holes are exactly the others. */
  lemma RestIsHoles<T>(s: seq<Option<T>>, n: nat, i: nat)
    requires n <= |s| && Holes(s) == |s| - n && n <= i < |s|
    requires forall j :: 0 <= j < n ==> s[j].Some?
    ensures s[i].None?
  {
    HolesSplit(s, n);
    assert None !in s[..n];
    if s[i].Some? { OnlyHoles(s[n..], i - n); }
  }

  /** s holds what t holds, in some order. */
  ghost predicate Rearranges<T>(s: seq<Option<T>>, t: seq<Option<T>>) { multiset(s) == multiset(t) }

  lemma Itself<T>(s: seq<Option<T>>)
    ensures Rearranges(s, s)
  {
  }

  /** Moving a value into a hole and leaving a hole behind loses nothing. */
  lemma MoveIntoHole<T>(s: seq<Option<T>>, t: seq<Option<T>>, i: nat, j: nat)
    requires i < j < |s| && s[i].None? && s[j].Some? && Rearranges(s, t)
    ensures Rearranges(s[i := s[j]][j := None], t)
  {
  }

  function Full<T>(v: seq<T>): (s: seq<Option<T>>)
    ensures |s| == |v| && forall i :: 0 <= i < |v| ==> s[i] == Some(v[i])
  {
    seq(|v|, i requires 0 <= i < |v| => Some(v[i]))
  }

  lemma {:induction false} FullCounts<T>(v: seq<T>, x: T)
    ensures multiset(Full(v))[Some(x)] == multiset(v)[x]
  {
    if v != [] {
      var n := |v| - 1;
      FullCounts(v[..n], x);
      assert v == v[..n] + [v[n]];
      assert Full(v) == Full(v[..n]) + [Some(v[n])];
    }
  }

  // ------------------------------------------------------------ completing sends

  /** The slots after those listed in done have become holes. */
  function Punched<T>(s: seq<Option<T>>, done: seq<nat>): (t: seq<Option<T>>)
    requires forall k :: 0 <= k < |done| ==> done[k] < |s|
    ensures |t| == |s|
  {
    if done == [] then s else Punched(s, done[..|done| - 1])[done[|done| - 1] := None]
  }

  /** What the listed slots held. */
  function Picked<T>(v: seq<T>, done: seq<nat>): seq<T>
    requires forall k :: 0 <= k < |done| ==> done[k] < |v|
  {
    seq(|done|, k requires 0 <= k < |done| => v[done[k]])
  }

  ghost predicate Distinct(done: seq<nat>, n: nat) {
    && (forall k :: 0 <= k < |done| ==> done[k] < n)
    && (forall j, k :: 0 <= j < k < |done| ==> done[j] != done[k])
  }

  lemma {:induction false} PunchedAt<T>(v: seq<T>, done: seq<nat>, i: nat)
    requires i < |v| && forall k :: 0 <= k < |done| ==> done[k] < |v|
    ensures Punched(Full(v), done)[i] == if i in done then None else Some(v[i])
  {
    if done != [] {
      var l := |done| - 1;
      PunchedAt(v, done[..l], i);
      assert done == done[..l] + [done[l]];
    }
  }

  lemma UpdateCount<T>(s: seq<T>, i: nat, v: T, x: T)
    requires i < |s|
    ensures multiset(s[i := v])[x] == multiset(s)[x] - (if s[i] == x then 1 else 0) + (if v == x then 1 else 0)
  {
  }

  /** Every value is still in its slot or was picked, and each pick left a hole. */
  lemma {:induction false} PunchedCount<T>(v: seq<T>, done: seq<nat>, x: T)
    requires Distinct(done, |v|)
    ensures Holes(Punched(Full(v), done)) == |done|
    ensures multiset(Punched(Full(v), done))[Some(x)] + multiset(Picked(v, done))[x] == multiset(v)[x]
  {
    hide Holes, Picked;
    if done == [] {
      NothingPunched(v, x);
    } else {
      var l := |done| - 1;
      var d := done[..l];
      PunchedCount(v, d, x);
      PunchedAt(v, d, done[l]);
      PunchOne(Punched(Full(v), d), done[l], v[done[l]], x);
      PickOne(v, done, x);
    }
  }

  lemma NothingPunched<T>(v: seq<T>, x: T)
    ensures Holes(Full(v)) == 0 && multiset(Full(v))[Some(x)] + multiset(Picked(v, []))[x] == multiset(v)[x]
  {
    assert None !in Full(v);
    FullCounts(v, x);
  }

  lemma PunchOne<T>(s: seq<Option<T>>, i: nat, v: T, x: T)
    requires i < |s| && s[i] == Some(v)
    ensures Holes(s[i := None]) == Holes(s) + 1
    ensures multiset(s[i := None])[Some(x)] == multiset(s)[Some(x)] - (if v == x then 1 else 0)
  {
    UpdateCount(s, i, None, Some(x));
    UpdateCount(s, i, None, None);
  }

  lemma PickOne<T>(v: seq<T>, done: seq<nat>, x: T)
    requires done != [] && forall k :: 0 <= k < |done| ==> done[k] < |v|
    ensures var l := |done| - 1;
            multiset(Picked(v, done))[x] == multiset(Picked(v, done[..l]))[x] + (if v[done[l]] == x then 1 else 0)
  {
    var l := |done| - 1;
    assert Picked(v, done) == Picked(v, done[..l]) + [v[done[l]]];
  }

  // ------------------------------------------------------------ the slots

  /** A queued message and MPI's handle for its send. */
  datatype Mqe = Mqe(id: nat)
  datatype Request = Request(id: nat)

  type Slot = Option<(Mqe, Request)>

  /** Slot i of the arrays is what g says: a hole, or a message with its request. */
  predicate ShowsAt(mqes: seq<Option<Mqe>>, reqs: seq<Request>, g: seq<Slot>, i: nat)
    requires i < |mqes| && i < |reqs| && i < |g|
  {
    match g[i]
    case None => mqes[i].None?
    case Some(p) => mqes[i] == Some(p.0) && reqs[i] == p.1
  }

  function Zip(a: seq<Option<Mqe>>, b: seq<Request>): (v: seq<(Mqe, Request)>)
    requires |a| == |b| && forall i :: 0 <= i < |a| ==> a[i].Some?
    ensures |v| == |a| && forall i :: 0 <= i < |a| ==> v[i] == (a[i].value, b[i])
  {
    seq(|a|, i requires 0 <= i < |a| => (a[i].value, b[i]))
  }

  /** The first message of each picked pair. */
  function Messages(v: seq<(Mqe, Request)>): (m: seq<Mqe>)
    ensures |m| == |v| && forall i :: 0 <= i < |v| ==> m[i] == v[i].0
  {
    seq(|v|, i requires 0 <= i < |v| => v[i].0)
  }

  /** The arrays show g from slot i to slot j. */
  ghost predicate Shows(mqes: seq<Option<Mqe>>, reqs: seq<Request>, g: seq<Slot>, i: nat, j: nat) {
    |g| <= |mqes| && |g| <= |reqs| && forall k :: i <= k < j && k < |g| ==> ShowsAt(mqes, reqs, g, k)
  }

  lemma ShownAt(mqes: seq<Option<Mqe>>, reqs: seq<Request>, g: seq<Slot>, i: nat, j: nat, k: nat)
    requires Shows(mqes, reqs, g, i, j) && i <= k < j && k < |g|
    ensures k < |mqes| && k < |reqs| && (mqes[k].None? <==> g[k].None?)
    ensures g[k].Some? ==> g[k].value == (mqes[k].value, reqs[k])
  {
    assert ShowsAt(mqes, reqs, g, k);
  }

  lemma ShowsPart(mqes: seq<Option<Mqe>>, reqs: seq<Request>, g: seq<Slot>, n: nat)
    requires Shows(mqes, reqs, g, 0, |g|) && n <= |g|
    ensures Shows(mqes, reqs, g, 0, n) && Shows(mqes, reqs, g, n, |g|)
  {
  }

  lemma SameHoles(g: seq<Slot>, h: seq<Slot>)
    requires Rearranges(g, h)
    ensures Holes(g) == Holes(h)
  {
  }

  /** Compaction under way: slots below lcv are full, those from n to pull have
      been emptied, and no message has been lost. */
  ghost predicate HalfWay(mqes: seq<Option<Mqe>>, reqs: seq<Request>, g: seq<Slot>, g0: seq<Slot>, lcv: nat, n: nat,
                          pull: nat) {
    && n <= pull <= |g| == |g0| && Rearranges(g, g0)
    && Shows(mqes, reqs, g, 0, n) && Shows(mqes, reqs, g, pull, |g|)
    && (forall i :: 0 <= i < lcv && i < |g| ==> g[i].Some?)
    && (forall i :: 0 <= i < n && g0[i].Some? ==> g[i] == g0[i])
    && (forall i :: n <= i < pull ==> g[i].None?)
  }

  /** One move in the arrays is one move in g. */
  lemma MoveShows(mqes: seq<Option<Mqe>>, reqs: seq<Request>, g: seq<Slot>, lcv: nat, n: nat, pull: nat)
    requires lcv < n <= pull < |g| && Shows(mqes, reqs, g, 0, n) && Shows(mqes, reqs, g, pull, |g|)
    ensures var g' := g[lcv := g[pull]][pull := None];
            var m, r := mqes[lcv := mqes[pull]], reqs[lcv := reqs[pull]];
            Shows(m, r, g', 0, n) && Shows(m, r, g', pull + 1, |g|)
  {
    assert ShowsAt(mqes, reqs, g, pull);
    var g' := g[lcv := g[pull]][pull := None];
    var m, r := mqes[lcv := mqes[pull]], reqs[lcv := reqs[pull]];
    forall k | 0 <= k < |g| && (k < n || pull < k) ensures ShowsAt(m, r, g', k) {
      if k != lcv { assert ShowsAt(mqes, reqs, g, k); }
    }
  }

  class Slots {
    var mqes: array<Option<Mqe>>
    var reqs: array<Request>
    var nalloc: nat
    var nused: nat

    ghost predicate Valid()
      reads this, mqes
    {
      && nused <= nalloc <= mqes.Length && nalloc <= reqs.Length && 0 < nalloc
      && forall i :: 0 <= i < nused ==> mqes[i].Some?
    }

    /** The pending sends, in slot order, each message with its request. */
    ghost function View(): (v: seq<(Mqe, Request)>)
      requires Valid()
      reads this, mqes, reqs
      ensures |v| == nused && forall i :: 0 <= i < nused ==> v[i] == (mqes[i].value, reqs[i])
    {
      Zip(mqes[..nused], reqs[..nused])
    }

    /** mpimts_init with n slots. */
    constructor (n: nat)
      requires 0 < n
      ensures Valid() && View() == [] && fresh(mqes) && fresh(reqs)
    {
      mqes := new Option<Mqe>[n](_ => None);
      reqs := new Request[n](_ => Request(0));
      nalloc, nused := n, 0;
    }

    /** realloc of the message array to n entries. */
    method GrowMqes(n: nat)
      requires Valid() && nalloc < n
      modifies this`mqes
      ensures Valid() && mqes.Length == n && fresh(mqes) && View() == old(View())
    {
      var m := new Option<Mqe>[n](_ => None);
      for i := 0 to nused
        invariant mqes == old(mqes) && mqes[..] == old(mqes[..])
        invariant forall k :: 0 <= k < i ==> m[k] == mqes[k]
      {
        m[i] := mqes[i];
      }
      ghost var v := View();
      mqes := m;
      assert View() == v;
    }

    /** realloc of the request array to n entries. */
    method GrowReqs(n: nat)
      requires Valid() && nalloc < n
      modifies this`reqs
      ensures Valid() && reqs.Length == n && fresh(reqs) && View() == old(View())
    {
      var r := new Request[n](_ => Request(0));
      for i := 0 to nused
        invariant reqs == old(reqs) && reqs[..] == old(reqs[..])
        invariant forall k :: 0 <= k < i ==> r[k] == reqs[k]
      {
        r[i] := reqs[i];
      }
      ghost var v := View();
      reqs := r;
      assert View() == v;
    }

    /** mpimts_setslots: grow the arrays to n entries.  got are the outcomes of the
        four reallocs, for messages, requests, indices and statuses; one that
        fails leaves the arrays before it longer than the slot count says. */
    method SetSlots(n: nat, got: (bool, bool, bool, bool)) returns (ok: bool)
      requires Valid()
      modifies this
      ensures Valid() && View() == old(View()) && nused == old(nused)
      ensures ok == (n <= old(nalloc) || (got.0 && got.1 && got.2 && got.3))
      ensures nalloc == if ok && old(nalloc) < n then n else old(nalloc)
      ensures (mqes == old(mqes) || fresh(mqes)) && (reqs == old(reqs) || fresh(reqs))
    {
      if n <= nalloc {
        return true;
      }
      if !got.0 {
        return false;
      }
      GrowMqes(n);
      if !got.1 {
        return false;
      }
      GrowReqs(n);
      if !got.2 || !got.3 {
        return false;
      }
      nalloc := n;
      return true;
    }

    /** mpimts_add: the new send takes the first unused slot; it fails exactly if
        all are used and the arrays cannot grow, and then changes no pending send. */
    method Add(mqe: Mqe, req: Request, got: (bool, bool, bool, bool)) returns (ok: bool)
      requires Valid()
      modifies this, mqes, reqs
      ensures Valid() && View() == if ok then old(View()) + [(mqe, req)] else old(View())
      ensures ok == (old(nused) < old(nalloc) || (got.0 && got.1 && got.2 && got.3))
    {
      ok := true;
      if nused == nalloc {
        ok := SetSlots(nalloc * 2, got);
        if !ok {
          return;
        }
      }
      mqes[nused], reqs[nused] := Some(mqe), req;
      nused := nused + 1;
    }

    /** The first loop of mpimts_test: release each completed send, leave a hole. */
    method ReleaseDone(done: seq<nat>) returns (released: seq<Mqe>, firsthole: nat)
      requires Valid() && Distinct(done, nused) && done != []
      modifies mqes
      ensures released == Messages(Picked(old(View()), done))
      ensures firsthole in done && forall k :: 0 <= k < |done| ==> firsthole <= done[k]
      ensures Shows(mqes[..], reqs[..], Punched(Full(old(View())), done), 0, nused)
    {
      ghost var v := View();
      released, firsthole := [], done[0];
      for lcv := 0 to |done|
        invariant firsthole in done && forall k :: 0 <= k < lcv ==> firsthole <= done[k]
        invariant released == Messages(Picked(v, done))[..lcv]
        invariant forall i :: 0 <= i < nused ==> mqes[i] == if i in done[..lcv] then None else Some(v[i].0)
      {
        var i := done[lcv];
        if i < firsthole {
          firsthole := i;
        }
        assert i !in done[..lcv];
        released := released + [mqes[i].value];
        mqes[i] := None;
      }
      forall i | 0 <= i < nused ensures ShowsAt(mqes[..], reqs[..], Punched(Full(v), done), i) { PunchedAt(v, done, i);
                                                                                                }
    }

    /** The second loop: fill the holes below the new count from the slots above
        it.  There always is a message left to pull, so the source's overflow
        branch is dead. */
    method Compact(ghost g0: seq<Slot>, got: nat, firsthole: nat) returns (ghost g: seq<Slot>)
      requires |g0| == nused <= nalloc <= mqes.Length && nalloc <= reqs.Length && Holes(g0) == got < nused
      requires Shows(mqes[..], reqs[..], g0, 0, nused)
      requires firsthole <= nused && forall i :: 0 <= i < firsthole ==> g0[i].Some?
      modifies mqes, reqs, this`nused
      ensures nused == old(nused) - got && Valid() && |g| == |g0| && Rearranges(g, g0)
      ensures forall i :: 0 <= i < nused ==> g[i] == Some(View()[i]) && (g0[i].Some? ==> g[i] == g0[i])
    {
      g := g0;
      var newNused: nat := nused - got;
      var pullfrom: nat := newNused;
      var lcv: nat := firsthole;
      ShowsPart(mqes[..], reqs[..], g0, newNused);
      Itself(g0);
      while lcv < newNused
        invariant nused == |g0| && HalfWay(mqes[..], reqs[..], g, g0, lcv, newNused, pullfrom)
      {
        ShownAt(mqes[..], reqs[..], g, 0, newNused, lcv);
        if mqes[lcv].None? {
          pullfrom, g := FillHole(g, g0, lcv, newNused, pullfrom);
        }
        lcv := lcv + 1;
      }
      nused := newNused;
      forall i | 0 <= i < nused ensures mqes[i].Some? && g[i] == Some((mqes[i].value, reqs[i])) {
        ShownAt(mqes[..], reqs[..], g, 0, newNused, i);
      }
    }

    /** Pull the next message into the hole at lcv. */
    method FillHole(ghost g: seq<Slot>, ghost g0: seq<Slot>, lcv: nat, newNused: nat, start: nat)
      returns (pullfrom: nat, ghost g': seq<Slot>)
      requires |g0| == nused <= mqes.Length && nused <= reqs.Length && Holes(g0) == nused - newNused
      requires lcv < newNused <= nused && HalfWay(mqes[..], reqs[..], g, g0, lcv, newNused, start) && g[lcv].None?
      modifies mqes, reqs
      ensures HalfWay(mqes[..], reqs[..], g', g0, lcv + 1, newNused, pullfrom)
    {
      pullfrom := Scan(g, start, newNused);
      SameHoles(g, g0);
      if pullfrom >= nused {
        TooManyHoles(g, newNused, lcv);
        assert false;
      }
      MoveIntoHole(g, g0, lcv, pullfrom);
      MoveShows(mqes[..], reqs[..], g, lcv, newNused, pullfrom);
      g' := g[lcv := g[pullfrom]][pullfrom := None];
      mqes[lcv] := mqes[pullfrom];
      reqs[lcv] := reqs[pullfrom];
      assert mqes[..] == old(mqes[..])[lcv := old(mqes[pullfrom])]
             && reqs[..] == old(reqs[..])[lcv := old(reqs[pullfrom])];
      pullfrom := pullfrom + 1;
    }

    /** mpimts_finalize: each pending send is released, once, and its request given
        up, in slot order. */
    method Finalize() returns (released: seq<Mqe>, freed: seq<Request>)
      requires Valid()
      modifies this`nused
      ensures nused == 0 && released == Messages(old(View())) && |freed| == |released|
      ensures forall i :: 0 <= i < |freed| ==> freed[i] == old(View())[i].1
    {
      released, freed := [], [];
      for lcv := 0 to nused
        invariant nused == old(nused) && released == Messages(old(View()))[..lcv] && |freed| == lcv
        invariant forall i :: 0 <= i < lcv ==> freed[i] == reqs[i]
      {
        freed := freed + [reqs[lcv]];
        if mqes[lcv].Some? {
          released := released + [mqes[lcv].value];
        }
      }
      nused := 0;
    }

    /** Skip holes from start on. */
    method Scan(ghost g: seq<Slot>, start: nat, ghost low: nat) returns (pullfrom: nat)
      requires |g| == nused <= mqes.Length && nused <= reqs.Length && low <= start <= nused
      requires forall i :: low <= i < start ==> g[i].None?
      requires Shows(mqes[..], reqs[..], g, start, nused)
      ensures start <= pullfrom <= nused
      ensures forall i :: low <= i < pullfrom ==> g[i].None?
      ensures pullfrom < nused ==> g[pullfrom].Some?
      ensures Shows(mqes[..], reqs[..], g, pullfrom, nused)
    {
      pullfrom := start;
      while pullfrom < nused && mqes[pullfrom].None?
        invariant start <= pullfrom <= nused
        invariant forall i :: low <= i < pullfrom ==> g[i].None?
      {
        assert ShowsAt(mqes[..], reqs[..], g, pullfrom);
        pullfrom := pullfrom + 1;
      }
      if pullfrom < nused { assert ShowsAt(mqes[..], reqs[..], g, pullfrom); }
    }

    /** mpimts_test for the slots MPI_Testsome reports as completed: exactly these
        messages are released, and exactly the other pairs remain, still paired
        and, where they need not move, in place. */
    method Test(done: seq<nat>) returns (released: seq<Mqe>)
      requires Valid() && Distinct(done, nused)
      modifies this`nused, mqes, reqs
      ensures Valid() && nused == old(nused) - |done|
      ensures released == Messages(Picked(old(View()), done))
      ensures multiset(View()) + multiset(Picked(old(View()), done)) == multiset(old(View()))
      ensures forall i :: 0 <= i < nused && i !in done ==> View()[i] == old(View())[i]
    {
      released := [];
      ghost var v := View();
      AtMostAll(done, nused);
      if nused == 0 || |done| == 0 {
        assert Picked(v, done) == [];
        return;
      }
      var firsthole;
      released, firsthole := ReleaseDone(done);
      ghost var g0 := Punched(Full(v), done);
      PunchedCount(v, done, v[0]);
      if |done| >= nused {
        nused := 0;
        Settled(v, done, g0, []);
        return;
      }
      forall i | 0 <= i < firsthole ensures g0[i].Some? { PunchedAt(v, done, i); }
      ghost var g := Compact(g0, |done|, firsthole);
      forall i | 0 <= i < nused && i !in done ensures View()[i] == v[i] { PunchedAt(v, done, i); }
      Settled(v, done, g, View());
    }
  }

  lemma {:induction false} AtMostAll(done: seq<nat>, n: nat)
    requires Distinct(done, n)
    ensures |done| <= n
  {
    var v := seq(n, i => 0);
    PunchedCount(v, done, 0);
    Part(multiset(Punched(Full(v), done)), None);
  }

  /** If g rearranges the punched slots and starts with w, then w and the picked
      pairs make up v. */
  lemma Settled(v: seq<(Mqe, Request)>, done: seq<nat>, g: seq<Slot>, w: seq<(Mqe, Request)>)
    requires Distinct(done, |v|) && |g| == |v| && |w| == |v| - |done|
    requires Rearranges(g, Punched(Full(v), done))
    requires forall i :: 0 <= i < |w| ==> g[i] == Some(w[i])
    ensures multiset(w) + multiset(Picked(v, done)) == multiset(v)
  {
    forall x ensures (multiset(w) + multiset(Picked(v, done)))[x] == multiset(v)[x] {
      PunchedCount(v, done, x);
      CountOf(g, w, x);
    }
  }

  lemma CountOf(g: seq<Slot>, w: seq<(Mqe, Request)>, x: (Mqe, Request))
    requires |w| <= |g| && Holes(g) == |g| - |w| && forall i :: 0 <= i < |w| ==> g[i] == Some(w[i])
    ensures multiset(g)[Some(x)] == multiset(w)[x]
  {
    forall i | |w| <= i < |g| ensures g[i].None? { RestIsHoles(g, |w|, i); }
    FullCounts(w, x);
    assert g[..|w|] == Full(w);
    assert g == g[..|w|] + g[|w|..];
    assert Some(x) !in g[|w|..];
  }
}
