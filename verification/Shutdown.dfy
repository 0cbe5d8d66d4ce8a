/** The shutdown broadcast: who has been told, who is draining. */
module Shutdown {
  import opened Types
  import opened Machine
  import Router

  type Wire = map<nat, Bcast>

  /** A BCASTSHUTDOWN runs from a draining rank to a child that does not drain
      yet, one per child. */
  ghost predicate NoticesOk(c: Config, bc: Wire, draining: set<nat>, clock: nat) {
    && (forall k :: k in bc ==>
          && k < clock && 0 < bc[k].dst < c.N && bc[k].dst !in draining
          && bc[k].src == Router.Parent(0, c.N, bc[k].dst) && bc[k].src in draining)
    && (forall j, k :: j in bc && k in bc && bc[j].dst == bc[k].dst ==> j == k)
  }

  ghost predicate TreeOk(c: Config, draining: set<nat>) {
    forall r :: r in draining ==> r < c.N && (r != 0 ==> Router.Parent(0, c.N, r) in draining)
  }

  /** Every child of a draining rank drains or has its notice coming. */
  ghost predicate ToldOk(c: Config, bc: Wire, draining: set<nat>) {
    forall r: nat :: 0 < r < c.N && Router.Parent(0, c.N, r) in draining && r !in draining ==> Told(bc, r)
  }

  ghost predicate Inv(c: Config, bc: Wire, draining: set<nat>, clock: nat) {
    NoticesOk(c, bc, draining, clock) && TreeOk(c, draining) && ToldOk(c, bc, draining)
  }

  ghost predicate Told(bc: Wire, r: nat) {
    exists k :: k in bc && bc[k].dst == r
  }

  /** The notices rank r sends: one per child, on fresh stamps. */
  lemma {:induction false} SendAllIs(bc: Wire, clock: nat, r: nat, kids: seq<nat>)
    ensures var w := SendAll(bc, clock, r, kids);
            && (forall k :: k in w <==> k in bc || clock <= k < clock + |kids|)
            && (forall k :: k in bc && !(clock <= k < clock + |kids|) ==> w[k] == bc[k])
            && (forall i: nat :: i < |kids| ==> clock + i in w && w[clock + i] == Bcast(r, kids[i]))
    decreases |kids|
  {
    if kids != [] {
      var b := bc[clock := Bcast(r, kids[0])];
      var w := SendAll(b, clock + 1, r, kids[1..]);
      SendAllIs(b, clock + 1, r, kids[1..]);
      forall i: nat | i < |kids| ensures clock + i in w && w[clock + i] == Bcast(r, kids[i]) {
        if i > 0 { assert clock + 1 + (i - 1) in w; }
      }
    }
  }

  /** The children of a rank that does not drain yet neither drain nor are told. */
  lemma KidsAreNew(c: Config, bc: Wire, draining: set<nat>, clock: nat, r: nat, i: nat)
    requires c.Valid() && Inv(c, bc, draining, clock) && r < c.N && r !in draining
    requires i < |Router.Children(0, c.N, r)|
    ensures var q := Router.Children(0, c.N, r)[i];
            0 < q < c.N && q != r && q !in draining && Router.Parent(0, c.N, q) == r && !Told(bc, q)
  {
    Router.ChildrenDistinct(0, c.N, r);
    Router.ChildIffParent(0, c.N, r, Router.Children(0, c.N, r)[i]);
  }

  /** The wire right after rank r forwarded, its own notice still on it. */
  ghost predicate Forwarded(c: Config, bc: Wire, w: Wire, draining: set<nat>, clock: nat, r: nat) {
    && (forall k :: k in w ==>
          && k < clock && 0 < w[k].dst < c.N && w[k].dst !in draining
          && w[k].src == Router.Parent(0, c.N, w[k].dst) && (w[k].src in draining || w[k].src == r)
          && (w[k].dst == r ==> k in bc && bc[k].dst == r))
    && (forall j, k :: j in w && k in w && w[j].dst == w[k].dst ==> j == k)
  }

  lemma Forward(c: Config, bc: Wire, draining: set<nat>, clock: nat, r: nat)
    requires c.Valid() && Inv(c, bc, draining, clock) && r < c.N && r !in draining
    ensures var kids := Router.Children(0, c.N, r);
            Forwarded(c, bc, SendAll(bc, clock, r, kids), draining, clock + |kids|, r)
  {
    var kids := Router.Children(0, c.N, r);
    var w := SendAll(bc, clock, r, kids);
    SendAllIs(bc, clock, r, kids);
    Router.ChildrenDistinct(0, c.N, r);
    forall k | k in w
      ensures if k < clock then k in bc && w[k] == bc[k] else k - clock < |kids| && w[k] == Bcast(r, kids[k - clock])
    {
      if clock <= k { assert clock + (k - clock) in w; }
    }
    forall i: nat | i < |kids|
      ensures 0 < kids[i] < c.N && kids[i] != r && kids[i] !in draining && Router.Parent(0, c.N, kids[i]) == r
              && !Told(bc, kids[i])
    {
      KidsAreNew(c, bc, draining, clock, r, i);
    }
  }

  lemma TakeNotice(c: Config, bc: Wire, w: Wire, draining: set<nat>, clock: nat, r: nat, notice: set<nat>)
    requires Forwarded(c, bc, w, draining, clock, r)
    requires forall k :: k in bc && bc[k].dst == r ==> k in notice
    ensures NoticesOk(c, w - notice, draining + {r}, clock)
  {
  }

  lemma ForwardTells(c: Config, bc: Wire, draining: set<nat>, clock: nat, r: nat, q: nat)
    requires c.Valid() && Inv(c, bc, draining, clock) && r < c.N
    requires 0 < q < c.N && Router.Parent(0, c.N, q) in draining + {r} && q !in draining + {r}
    ensures Told(SendAll(bc, clock, r, Router.Children(0, c.N, r)), q)
  {
    var kids := Router.Children(0, c.N, r);
    var w := SendAll(bc, clock, r, kids);
    SendAllIs(bc, clock, r, kids);
    if Router.Parent(0, c.N, q) == r {
      Router.ChildIffParent(0, c.N, r, q);
      var i :| 0 <= i < |kids| && kids[i] == q;
      assert clock + i in w && w[clock + i].dst == q;
    } else {
      var k :| k in bc && bc[k].dst == q;
      assert k in w && w[k].dst == q;
    }
  }

  /** broadcast_shutdown on rank r, which then takes its own notices (none on
      rank 0, one elsewhere) off the wire. */
  lemma BroadcastKeeps(c: Config, bc: Wire, draining: set<nat>, clock: nat, r: nat, notice: set<nat>)
    requires c.Valid() && Inv(c, bc, draining, clock) && r < c.N && r !in draining
    requires forall k :: k in notice <==> k in bc && bc[k].dst == r
    requires r != 0 ==> Told(bc, r)
    ensures var kids := Router.Children(0, c.N, r);
            Inv(c, SendAll(bc, clock, r, kids) - notice, draining + {r}, clock + |kids|)
  {
    var kids := Router.Children(0, c.N, r);
    var w := SendAll(bc, clock, r, kids);
    Forward(c, bc, draining, clock, r);
    TakeNotice(c, bc, w, draining, clock + |kids|, r, notice);
    BroadcastTells(c, bc, draining, clock, r, notice);
    if r != 0 { NoticeFromParent(c, bc, draining, clock, r); }
  }

  lemma NoticeFromParent(c: Config, bc: Wire, draining: set<nat>, clock: nat, r: nat)
    requires c.Valid() && NoticesOk(c, bc, draining, clock) && 0 < r < c.N && Told(bc, r)
    ensures Router.Parent(0, c.N, r) in draining
  {
  }

  lemma BroadcastTells(c: Config, bc: Wire, draining: set<nat>, clock: nat, r: nat, notice: set<nat>)
    requires c.Valid() && Inv(c, bc, draining, clock) && r < c.N
    requires forall k :: k in notice ==> k in bc && bc[k].dst == r && k < clock
    ensures ToldOk(c, SendAll(bc, clock, r, Router.Children(0, c.N, r)) - notice, draining + {r})
  {
    var kids := Router.Children(0, c.N, r);
    var w := SendAll(bc, clock, r, kids);
    SendAllIs(bc, clock, r, kids);
    forall q: nat | 0 < q < c.N && Router.Parent(0, c.N, q) in draining + {r} && q !in draining + {r}
      ensures Told(w - notice, q)
    {
      ForwardTells(c, bc, draining, clock, r, q);
      var k :| k in w && w[k].dst == q;
      assert k in w - notice;
    }
  }

  /** Once rank 0 drains and no notice is in flight, every rank drains. */
  lemma {:induction false} AllDrain(c: Config, bc: Wire, draining: set<nat>, clock: nat, r: nat)
    requires c.Valid() && Inv(c, bc, draining, clock) && 0 in draining && bc == map[] && r < c.N
    ensures r in draining
  {
    if r != 0 { AllDrain(c, bc, draining, clock, Router.Parent(0, c.N, r)); }
  }
}
