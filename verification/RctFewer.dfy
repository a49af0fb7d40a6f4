/**
 The smaller of two twin worlds: whatever is there without the half-made resource is there with
 it, and what is kept there by the half-made resource alone can be told from the larger world.
 */
module RctFewer {
  import opened RctState
  import opened RctInvariant
  import opened RctRelease
  import opened RctCascade
  import opened RctCreation
  import opened RctProtocol
  import opened RctRollback
  import opened RctSurvival
  import opened RctParallel

  // ---------------------------------------------------------------- the smaller world

  lemma {:induction false} InLess(a: seq<Node>, b: seq<Node>, x: Id)
    requires |a| == |b| && forall i :: 0 <= i < |a| ==> a[i].Holds(x) <= b[i].Holds(x)
    ensures In(a, x) <= In(b, x)
  {
    if a != [] { InLess(a[..|a| - 1], b[..|b| - 1], x); }
  }

  /** Whatever is there without `c` is there with it. */
  lemma {:induction false} Fewer(u: State, w: State, c: Id, r: nat)
    requires Twin(u, w, c) && Good(u) && Good(w) && r <= 5
    ensures forall i :: 0 <= i < |u.nodes| && Rank(u.nodes[i].kind) >= r && Alive(w, i) ==> Alive(u, i)
    decreases 5 - r
  {
    hide GoodBut, Twin;
    if r < 5 {
      Fewer(u, w, c, r + 1);
      TwinAll(u, w, c);
      forall i | 0 <= i < |u.nodes| && Rank(u.nodes[i].kind) >= r && Alive(w, i) ensures Alive(u, i) { FewerAt(u, w, c, r, i); }
    }
  }

  lemma FewerAt(u: State, w: State, c: Id, r: nat, i: Id)
    requires Twin(u, w, c) && Good(u) && Good(w) && Alive(w, i) && i < |u.nodes| && Rank(u.nodes[i].kind) >= r
    requires forall h :: 0 <= h < |u.nodes| && Rank(u.nodes[h].kind) >= r + 1 && Alive(w, h) ==> Alive(u, h)
    ensures Alive(u, i)
  {
    hide GoodBut, In;
    GoodParts(w, multiset{});
    TwinAt(u, w, c, i);
    forall h | 0 <= h < |u.nodes| ensures w.nodes[h].Holds(i) <= u.nodes[h].Holds(i) {
      TwinAt(u, w, c, h);
      if w.nodes[h].Holds(i) >= 1 { HolderRank(w, h, i); }
    }
    InLess(w.nodes, u.nodes, i);
    AliveIffHeld(u, i);
    AliveIffHeld(w, i);
  }

  lemma FewerAll(u: State, w: State, c: Id)
    requires Twin(u, w, c) && Good(u) && Good(w)
    ensures w.byId <= u.byId
    ensures forall i :: i in w.byId ==> Alive(w, i) && Alive(u, i) && i != c && Alike(u.nodes[i], w.nodes[i])
    ensures forall x :: x in w.byUuid ==> x in u.byUuid
  {
    hide GoodBut, Twin;
    GoodParts(u, multiset{});
    GoodParts(w, multiset{});
    TwinAll(u, w, c);
    Fewer(u, w, c, 0);
    forall i | i in w.byId
      ensures i in u.byId && Alive(w, i) && Alive(u, i) && i != c && Alike(u.nodes[i], w.nodes[i]) && u.nodes[i].uuid == w.nodes[i].uuid
    {
      assert Registered(w, {}, i);
      assert Alive(u, i);
      assert Registered(u, {}, i);
      TwinAt(u, w, c, i);
    }
  }

  /** What is there with `c` and not without it is `c` or one of those it depends on. */
  lemma {:induction false} OnlyAbove(u: State, w: State, c: Id, i: Id)
    requires Twin(u, w, c) && Good(u) && Good(w) && Alive(u, i) && !Below(u.nodes, i, c)
    ensures Alive(w, i)
    decreases 5 - Rank(u.nodes[i].kind)
  {
    hide GoodBut, In, Shape;
    GoodParts(u, multiset{});
    GoodParts(w, multiset{});
    TwinAt(u, w, c, i);
    AliveIffHeld(u, i);
    AliveIffHeld(w, i);
    NotParent(u, c, i);
    if !Alive(w, i) {
      var h := InWitness(u.nodes, i);
      HolderAbove(u, w, c, i, h);
      HolderRank(u, h, i);
      if u.nodes[h].kind == Member { MembersAlike(u, w, c, h); } else { OnlyAbove(u, w, c, h); }
      InAtLeast(w.nodes, h, i);
    }
  }

  lemma NotParent(u: State, c: Id, i: Id)
    requires Shape(u) && c < |u.nodes| && !Below(u.nodes, i, c)
    ensures multiset(u.nodes[c].up)[i] == 0 && i != c
  {
    if i in u.nodes[c].up { ParentAbove(u, c, i); }
  }

  lemma ParentAbove(s: State, x: Id, p: Id)
    requires Shape(s) && x < |s.nodes| && p in s.nodes[x].up
    ensures Below(s.nodes, p, x)
  {
    assert ShapeAt(s.nodes, x);
    var j :| 0 <= j < |s.nodes[x].up| && s.nodes[x].up[j] == p;
    assert j == 0 || j == 1;
  }

  lemma HolderAbove(u: State, w: State, c: Id, i: Id, h: Id)
    requires Twin(u, w, c) && Shape(u) && h < |u.nodes| && i < |u.nodes| && u.nodes[h].Holds(i) >= 1 && !Below(u.nodes, i, c)
    ensures Alive(u, h) && h != c && Alike(u.nodes[h], w.nodes[h]) && u.nodes[h].up == w.nodes[h].up
    ensures u.nodes[h].kind != Member ==> !Below(u.nodes, h, c)
  {
    hide Shape;
    TwinAt(u, w, c, h);
    OwnedKinds(u, h);
    NotParent(u, c, i);
    TwinAll(u, w, c);
    if u.nodes[h].kind != Member {
      assert i in u.nodes[h].up;
      ParentAbove(u, h, i);
      if Below(u.nodes, h, c) { BelowTrans(u.nodes, i, h, c); }
    }
  }

  // ---------------------------------------------------------------- what is kept there by others

  /** `i` is there on its own account: neither `c` nor the creator of `c` need hold it. */
  ghost predicate Kept(u: State, c: Id, i: Id)
    requires c < |u.nodes|
    decreases if i < |u.nodes| then 5 - Rank(u.nodes[i].kind) else 0
  {
    && Alive(u, i) && i != c
    && (|| u.nodes[i].Main() >= 1 || u.borrows[i] > multiset(u.nodes[c].up)[i]
        || exists h :: 0 <= h < |u.nodes| && Rank(u.nodes[h].kind) > Rank(u.nodes[i].kind)
             && u.nodes[h].Holds(i) >= 1 && Kept(u, c, h))
  }

  /** What is there without `c` is what is kept there. */
  lemma {:induction false} KeptExactly(u: State, w: State, c: Id, i: Id)
    requires Twin(u, w, c) && Good(u) && Good(w) && i < |u.nodes| && c < |u.nodes|
    ensures Alive(w, i) <==> Kept(u, c, i)
    decreases 5 - Rank(u.nodes[i].kind)
  {
    hide GoodBut, Twin, Kept;
    TwinAll(u, w, c);
    forall h | 0 <= h < |u.nodes| && Rank(u.nodes[h].kind) > Rank(u.nodes[i].kind) ensures Alive(w, h) <==> Kept(u, c, h) {
      KeptExactly(u, w, c, h);
    }
    if Alive(w, i) { KeptIfThere(u, w, c, i); }
    if Kept(u, c, i) { ThereIfKept(u, w, c, i); }
  }

  lemma KeptIfThere(u: State, w: State, c: Id, i: Id)
    requires Twin(u, w, c) && Good(u) && Good(w) && c < |u.nodes| && Alive(w, i) && i < |u.nodes|
    requires forall h :: 0 <= h < |u.nodes| && Rank(u.nodes[h].kind) > Rank(u.nodes[i].kind) ==> (Alive(w, h) <==> Kept(u, c, h))
    ensures Kept(u, c, i)
  {
    hide GoodBut, In, Shape;
    GoodParts(w, multiset{});
    TwinAt(u, w, c, i);
    Fewer(u, w, c, 0);
    AliveIffHeld(w, i);
    if In(w.nodes, i) >= 1 {
      var h := InWitness(w.nodes, i);
      TwinAt(u, w, c, h);
      HolderRank(w, h, i);
    }
  }

  lemma ThereIfKept(u: State, w: State, c: Id, i: Id)
    requires Twin(u, w, c) && Good(u) && Good(w) && c < |u.nodes| && Kept(u, c, i)
    requires forall h :: 0 <= h < |u.nodes| && Rank(u.nodes[h].kind) > Rank(u.nodes[i].kind) ==> (Alive(w, h) <==> Kept(u, c, h))
    ensures Alive(w, i)
  {
    hide GoodBut, In, Shape;
    TwinAt(u, w, c, i);
    AliveIffHeld(w, i);
    if u.nodes[i].Main() == 0 && u.borrows[i] <= multiset(u.nodes[c].up)[i] {
      var h :| 0 <= h < |u.nodes| && Rank(u.nodes[h].kind) > Rank(u.nodes[i].kind) && u.nodes[h].Holds(i) >= 1 && Kept(u, c, h);
      TwinAt(u, w, c, h);
      InAtLeast(w.nodes, h, i);
    }
  }

  /** Looking `i` up meets nothing that is there because of `c` only. */
  ghost predicate Clear(u: State, c: Id, i: Id)
    requires c < |u.nodes|
  {
    Alive(u, i) ==> Kept(u, c, i)
  }

  /** Exactly such a look-up gives the same in both worlds. */
  lemma ClearExactly(u: State, w: State, c: Id, i: Id)
    requires Twin(u, w, c) && Inv(u) && Inv(w) && c < |u.nodes|
    ensures Agree(u, w, c, i) <==> Clear(u, c, i)
  {
    hide GoodBut, Settled, Slots, Twin, Kept;
    InvIsGood(u);
    InvIsGood(w);
    ById(u);
    ById(w);
    FewerAll(u, w, c);
    TwinAll(u, w, c);
    BuildingAlive(u, c);
    if i < |u.nodes| { KeptExactly(u, w, c, i); }
    NotKept(u, c);
  }

  lemma NotKept(u: State, c: Id)
    requires c < |u.nodes|
    ensures !Kept(u, c, c)
  {
  }
}
