/**
 Twins and closing by id: the two worlds stay alike whatever is closed, the half-made resource
 itself included.
 */
module RctParallelCloses {
  import opened RctState
  import opened RctInvariant
  import opened RctRelease
  import opened RctClose
  import opened RctCascade
  import opened RctSteps
  import opened RctCreation
  import opened RctProtocol
  import opened RctRollback
  import opened RctRuns
  import opened RctSurvival
  import opened RctParallel

  import opened RctInTime
  import opened RctCloseById
  import opened RctFewer

  /** What only `c` keeps there goes on being held when it is closed. */
  lemma {:induction false} KeptByNone(u: State, c: Id, C: set<Id>, x: Id)
    requires Good(u) && c < |u.nodes| && Alive(u, x) && !Kept(u, c, x) && x != c
    requires multiset(u.nodes[c].up) <= u.borrows && u.nodes[c].kind != Member
    ensures Lasts(u, C, x) && u.nodes[x].Main() == 0
    decreases 5 - Rank(u.nodes[x].kind)
  {
    hide GoodBut, In, Shape;
    GoodParts(u, multiset{});
    AliveIffHeld(u, x);
    if u.borrows[x] == 0 {
      var h := InWitness(u.nodes, x);
      HolderRank(u, h, x);
      NotHeldBy(u, c, x);
      KeptByNone(u, c, C, h);
    }
  }

  lemma NotHeldBy(u: State, c: Id, x: Id)
    requires Shape(u) && c < |u.nodes| && u.nodes[c].kind != Member && multiset(u.nodes[c].up) <= u.borrows && u.borrows[x] == 0
    ensures u.nodes[c].Holds(x) == 0
  {
    OwnedKinds(u, c);
  }

  /** What remains in the smaller world remains in the larger one. */
  lemma {:induction false} LastsFewer(u: State, w: State, c: Id, C: set<Id>, x: Id)
    requires Twin(u, w, c) && Good(u) && Good(w) && Lasts(w, C, x)
    ensures Lasts(u, C, x)
    decreases 5 - Rank(w.nodes[x].kind)
  {
    hide GoodBut;
    TwinAt(u, w, c, x);
    Fewer(u, w, c, 0);
    if AfterClose(w, C, x).Main() == 0 && w.borrows[x] == 0 {
      var h :| 0 <= h < |w.nodes| && Rank(w.nodes[h].kind) > Rank(w.nodes[x].kind) && w.nodes[h].Holds(x) >= 1 && Lasts(w, C, h);
      TwinAt(u, w, c, h);
      LastsFewer(u, w, c, C, h);
    }
  }

  lemma RemainsFewer(u: State, w: State, c: Id, b: Id, x: Id)
    requires Twin(u, w, c) && Good(u) && Good(w) && Remains(w, b, x)
    ensures Remains(u, b, x)
  {
    hide GoodBut, Twin, Lasts, Below;
    TwinAll(u, w, c);
    forall i | 0 <= i < |u.nodes| ensures Below(u.nodes, b, i) <==> Below(w.nodes, b, i) { TwinBelow(u, w, c, b, i); }
    assert BelowOf(u, b) == BelowOf(w, b);
    LastsFewer(u, w, c, BelowOf(u, b), x);
  }

  /** A router with something given up below it is closed. The half-made resource may keep a
      transport there that is remembered as the next one in one world and not in the other, so that
      such a close may be in order in one and not in the other. */
  ghost predicate AboveGivenUp(u: State, i: Id) {
    Found(u, i, Router) && exists x :: GivenUp(u, x) && Below(u.nodes, i, x) && x != i
  }

  lemma GivenUpFewer(u: State, w: State, c: Id, x: Id)
    requires Twin(u, w, c) && Good(u) && Good(w) && GivenUp(w, x)
    ensures GivenUp(u, x) && x != c
  {
    hide GoodBut;
    TwinAt(u, w, c, x);
    Fewer(u, w, c, 0);
  }

  /** Otherwise what may be closed in the larger world may be closed in the smaller one. */
  lemma MayCloseFewer(u: State, w: State, c: Id, i: Id)
    requires Twin(u, w, c) && Inv(u) && Inv(w) && MayClose(u, i) && !AboveGivenUp(u, i)
    ensures MayClose(w, i)
  {
    hide Inv, Remains, Twin, Below, InTime, GivenUp;
    InvIsGood(u);
    InvIsGood(w);
    if i in w.byId && i < |w.nodes| {
      FewerAll(u, w, c);
      TwinAt(u, w, c, i);
      forall x | GivenUp(w, x) && Below(w.nodes, i, x) ensures x == i {
        GivenUpFewer(u, w, c, x);
        TwinBelow(u, w, c, i, x);
      }
      if w.nodes[i].kind == Router { NoneInTime(w, i); }
      if GivenUp(w, i) {
        GivenUpFewer(u, w, c, i);
        if Remains(w, i, i) { RemainsFewer(u, w, c, i, i); }
      }
    }
  }

  /** Closing what is closed only borrows it for a moment. */
  lemma CloseNothing(u: State, i: Id)
    requires Inv(u) && Alive(u, i) && u.nodes[i].closed && i in u.byId
    ensures KeepsIntent(u, Close(u, i)) && Close(u, i).borrows == u.borrows
  {
    hide GoodBut, Settled, Slots, Borrow, Release, KeepsIntent, OnlyRefs;
    var v := Borrow(u, i);
    InvIsGood(u);
    BorrowInv(u, i);
    BorrowGood(u, multiset{}, i);
    OnlyRefsNode(u, v, i);
    OnlyRefsKeeps(u, v);
    ReleaseIntent(v, i);
    KeepsTwice(u, v, Release(v, i));
    assert u.borrows + multiset{i} - multiset{i} == u.borrows;
  }

  lemma {:induction false} BelowUnheld(nodes: seq<Node>, c: Id, x: Id)
    requires forall i :: 0 <= i < |nodes| ==> c !in nodes[i].up
    requires Below(nodes, c, x)
    ensures x == c
    decreases x
  {
    if x != c {
      var j := if nodes[x].up[0] < x && Below(nodes, c, nodes[x].up[0]) then 0 else 1;
      BelowUnheld(nodes, c, nodes[x].up[j]);
    }
  }

  /** Closing the half-made resource itself, which nobody is below. */
  lemma OtherClosesIt(u: State, w: State, c: Id)
    requires Twin(u, w, c) && Inv(u) && c in u.byId && c < |u.nodes|
    ensures Twin(Close(u, c), w, c)
  {
    hide Inv, Twin, CloseLk, Borrow, Release, Close, NoFailedBelow, OnlyRefs, KeepsIntent, ClosesDown;
    var v := Borrow(u, c);
    var t := CloseLk(v, c);
    TwinAll(u, w, c);
    InvIsGood(u);
    ById(u);
    BorrowGood(u, multiset{}, c);
    OnlyRefsKeeps(u, v);
    NothingBelowIt(u, w, c);
    PlainOther(u, c);
    ReleaseIntent(t, c);
    assert u.borrows + multiset{c} - multiset{c} == u.borrows;
    OnlyFlagged(u, w, c, v, t, Release(t, c));
  }

  lemma NothingBelowIt(u: State, w: State, c: Id)
    requires Twin(u, w, c)
    ensures NoFailedBelow(u, c)
  {
    hide Below;
    forall x | 0 <= x < |u.nodes| && !u.nodes[x].disposed && Below(u.nodes, c, x) ensures u.nodes[x].phase != Failed {
      forall i | 0 <= i < |u.nodes| ensures c !in u.nodes[i].up { TwinAt(u, w, c, i); }
      BelowUnheld(u.nodes, c, x);
    }
  }

  lemma OnlyFlagged(u: State, w: State, c: Id, v: State, t: State, r: State)
    requires Twin(u, w, c) && KeepsIntent(u, v) && ClosesDown(v, t, c) && KeepsIntent(t, r) && r.borrows == u.borrows
    ensures Twin(r, w, c)
  {
    hide ClosesDown, Below;
    DownAt(v, t, c, c);
    forall i | 0 <= i < |u.nodes| && i != c
      ensures r.nodes[i] == u.nodes[i].(refs := r.nodes[i].refs, disposed := r.nodes[i].disposed)
      ensures u.nodes[i].disposed ==> r.nodes[i].disposed
    {
      DownAt(v, t, c, i);
      if Below(v.nodes, c, i) { BelowUnheld(v.nodes, c, i); }
    }
    TwinMove(u, w, r, w, c);
  }

  lemma TwinRelabel(u: State, w: State, c: Id, i: Id, p: Phase, mu: multiset<Id>, mw: multiset<Id>)
    requires Twin(u, w, c) && i < |u.nodes| && i != c && c < |u.nodes|
    requires mu == mw + multiset(u.nodes[c].up) && mu[c] == 0
    ensures |w.nodes| == |u.nodes|
    ensures Twin(Relabel(u, i, p, mu), Relabel(w, i, p, mw), c)
  {
    TwinMove(u, w, Relabel(u, i, p, mu), Relabel(w, i, p, mw), c);
  }

  /** Both worlds close what was not given up. */
  lemma TwinPlain(u: State, w: State, c: Id, i: Id)
    requires Twin(u, w, c) && Inv(u) && Inv(w) && i != c && i in u.byId && i in w.byId && Plain(u, i) && Plain(w, i)
    ensures Twin(Close(u, i), Close(w, i), c)
  {
    hide Inv, Twin, Borrow, CloseLk, Release, ClosesDown, Close;
    var u1, w1 := Borrow(u, i), Borrow(w, i);
    InvIsGood(u);
    InvIsGood(w);
    TwinBorrow(u, w, c, i);
    InvIsGood(CloseLk(u1, i));
    InvIsGood(CloseLk(w1, i));
    TwinClose(u1, w1, CloseLk(u1, i), CloseLk(w1, i), c, i);
    TwinRelease(CloseLk(u1, i), CloseLk(w1, i), c, i);
  }

  /** Both worlds close what was given up and goes away. */
  lemma TwinPaid(u: State, w: State, c: Id, i: Id)
    requires Twin(u, w, c) && Inv(u) && Inv(w) && i != c && Paid(u, i) && !Remains(u, i, i) && Paid(w, i) && !Remains(w, i, i)
    ensures Twin(Close(u, i), Close(w, i), c)
  {
    hide Inv, Twin, CloseLk, Borrow, Lent, Relabel, Remains, Close, ClosesDown, Release;
    TwinAll(u, w, c);
    TwinLent(u, w, c, i);
    PaidClose(u, i);
    PaidClose(w, i);
    var tu, tw := CloseLk(Lent(u, i), i), CloseLk(Lent(w, i), i);
    InvIsGood(tu);
    InvIsGood(tw);
    TwinClose(Lent(u, i), Lent(w, i), tu, tw, c, i);
    TwinAll(tu, tw, c);
    TwinAll(Lent(u, i), Lent(w, i), c);
    DownAt(Lent(u, i), tu, i, c);
    LentUp(u, i, c);
    TwinRelabel(tu, tw, c, i, Failed, u.borrows, w.borrows);
  }

  lemma LentUp(s: State, i: Id, x: Id)
    requires Inv(s) && GivenUp(s, i) && x < |s.nodes|
    ensures |Borrow(s, i).nodes| == |s.nodes| && Lent(s, i).nodes[x].up == s.nodes[x].up
  {
    hide GoodBut, Settled, Slots, Borrow, OnlyRefs;
    InvIsGood(s);
    GivenUpKind(s, i);
    BorrowGood(s, multiset{}, i);
    OnlyRefsNode(s, Borrow(s, i), x);
  }

  lemma TwinLent(u: State, w: State, c: Id, i: Id)
    requires Twin(u, w, c) && Inv(u) && Inv(w) && i != c && GivenUp(u, i) && GivenUp(w, i)
    ensures |Borrow(u, i).nodes| == |u.nodes| && |Borrow(w, i).nodes| == |w.nodes|
    ensures Twin(Lent(u, i), Lent(w, i), c)
  {
    hide Inv, Twin, Borrow, Relabel, OnlyRefs;
    var u1, w1 := Borrow(u, i), Borrow(w, i);
    InvIsGood(u);
    InvIsGood(w);
    GivenUpKind(u, i);
    GivenUpKind(w, i);
    BorrowGood(u, multiset{}, i);
    BorrowGood(w, multiset{}, i);
    OnlyRefsNode(u, u1, i);
    OnlyRefsNode(w, w1, i);
    TwinAll(u, w, c);
    TwinBorrow(u, w, c, i);
    TwinAll(u1, w1, c);
    OnlyRefsNode(u, u1, c);
    TwinRelabel(u1, w1, c, i, Live, u.borrows, w.borrows);
  }

  /** Closing by id needs no caution: what only the half-made resource keeps there is closed
      already, or it could not be closed at all. */
  lemma OtherCloses(u: State, w: State, c: Id, i: Id)
    requires Twin(u, w, c) && Inv(u) && Inv(w) && MayClose(u, i) && (i < |u.nodes| ==> u.nodes[i].kind != Room)
    requires AboveGivenUp(u, i) ==> MayClose(w, i)
    ensures (i < |w.nodes| ==> w.nodes[i].kind != Room) && MayClose(w, i) && Twin(Close(u, i), Close(w, i), c)
  {
    hide Inv, Twin, Close, MayClose, Kept, Remains, GivenUp, AboveGivenUp;
    InvIsGood(u);
    InvIsGood(w);
    TwinAll(u, w, c);
    ById(u);
    ById(w);
    if !AboveGivenUp(u, i) { MayCloseFewer(u, w, c, i); }
    Fewer(u, w, c, 0);
    if i < |u.nodes| { TwinAt(u, w, c, i); }
    if Alive(w, i) {
      CloseBoth(u, w, c, i);
    } else {
      NotClosed(w, i);
      if Alive(u, i) { CloseOne(u, w, c, i); } else { NotClosed(u, i); }
    }
  }

  lemma CloseBoth(u: State, w: State, c: Id, i: Id)
    requires Twin(u, w, c) && Inv(u) && Inv(w) && MayClose(u, i) && MayClose(w, i) && Alive(u, i) && Alive(w, i)
    requires u.nodes[i].kind != Room
    ensures Twin(Close(u, i), Close(w, i), c)
  {
    hide Inv, Twin, Close, Remains, MayClose, Plain, Paid;
    ById(u);
    ById(w);
    TwinAll(u, w, c);
    TwinAt(u, w, c, i);
    if GivenUp(u, i) {
      PaidAny(u, i);
      PaidAny(w, i);
      TwinPaid(u, w, c, i);
    } else {
      PlainAny(u, i);
      PlainAny(w, i);
      TwinPlain(u, w, c, i);
    }
  }

  lemma CloseOne(u: State, w: State, c: Id, i: Id)
    requires Twin(u, w, c) && Inv(u) && Inv(w) && MayClose(u, i) && Alive(u, i) && !Alive(w, i) && u.nodes[i].kind != Room
    ensures Twin(Close(u, i), w, c)
  {
    hide Inv, Twin, Close, Lasts, BelowOf, Kept, KeepsIntent, ClearBelow;
    InvIsGood(u);
    InvIsGood(w);
    ById(u);
    TwinAll(u, w, c);
    if i == c {
      OtherClosesIt(u, w, c);
    } else {
      KeptExactly(u, w, c, i);
      KeptByNone(u, c, BelowOf(u, i), i);
      assert !GivenUp(u, i);
      CloseNothing(u, i);
      KeepsItself(w);
      TwinKeeps(u, w, Close(u, i), w, c);
    }
  }
}
