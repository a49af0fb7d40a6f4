/**
 Building concrete states: a router that is ready and whatever is begun below it, piece by piece.
 */
module RctBuilding {
  import opened RctState
  import opened RctRefs
  import opened RctInvariant
  import opened RctCascade
  import opened RctSteps
  import opened RctCreation
  import opened RctProtocol
  import opened RctRooms
  import opened RctRollback
  import opened RctSurvival
  import opened RctTheorems
  import opened RctClosedParents
  import opened RctParallel
  import opened RctNotice

  datatype Piece = Piece(kind: Kind, up: seq<Id>, phase: Phase)

  predicate PieceAt(n: Node, i: Id, q: Piece) {
    n.kind == q.kind && n.uuid == i + 1 && n.up == q.up && n.owned == [] && !n.closed && n.phase == q.phase
  }

  /** The state consists of these resources, all of them open. */
  ghost predicate Built(s: State, l: seq<Piece>) {
    && Inv(s) && |s.nodes| == |l|
    && forall i :: 0 <= i < |l| ==> PieceAt(s.nodes[i], i, l[i])
  }

  lemma BuiltParts(s: State, l: seq<Piece>, i: Id)
    requires Built(s, l) && i < |l|
    ensures Inv(s) && |s.nodes| == |l| && PieceAt(s.nodes[i], i, l[i])
    ensures l[i].phase != Failed ==> Alive(s, i) && Found(s, i, l[i].kind)
    ensures l[i].phase == Building ==> UnderConstruction(s, i)
  {
    hide Inv;
    if l[i].phase != Failed { OpenAlive(s, i); }
  }

  lemma OpenAlive(s: State, i: Id)
    requires Inv(s) && i < |s.nodes| && !s.nodes[i].closed && s.nodes[i].phase != Failed
    ensures Alive(s, i) && Found(s, i, s.nodes[i].kind)
  {
    hide GoodBut, Settled, Slots;
    InvIsGood(s);
    GoodParts(s, multiset{});
    OpenSurvives(s, multiset{}, i);
    FoundIfAlive(s, i);
  }

  /** One more resource, with the next uuid. */
  function Added(s: State, k: Kind, up: seq<Id>): State {
    Begin(s, k, up, |s.nodes| + 1, 0)
  }

  predicate Fits(l: seq<Piece>, k: Kind, up: seq<Id>) {
    && k !in {Room, Member} && |up| == |ParentKinds(k)|
    && forall j :: 0 <= j < |up| ==> up[j] < |l| && l[up[j]].kind == ParentKinds(k)[j] && l[up[j]].phase != Failed
  }

  lemma BuiltReady(s: State, l: seq<Piece>, k: Kind, up: seq<Id>)
    requires Built(s, l) && Fits(l, k, up)
    ensures |s.nodes| + 1 !in s.byUuid && ParentsFound(s, k, up) && forall p :: p in up ==> p < |s.nodes| && !s.nodes[p].closed
  {
    hide Inv, Found;
    forall j | 0 <= j < |up| ensures Found(s, up[j], ParentKinds(k)[j]) { BuiltParts(s, l, up[j]); }
    forall p | p in up ensures p < |s.nodes| && !s.nodes[p].closed {
      var j :| 0 <= j < |up| && up[j] == p;
      BuiltParts(s, l, p);
    }
    forall i | 0 <= i < |s.nodes| ensures s.nodes[i].uuid != |s.nodes| + 1 { BuiltParts(s, l, i); }
    OtherUuid(s, |s.nodes| + 1);
  }

  lemma BuildNext(s: State, l: seq<Piece>, k: Kind, up: seq<Id>)
    requires Built(s, l) && Fits(l, k, up)
    ensures Built(Added(s, k, up), l + [Piece(k, up, Building)]) && Added(s, k, up).borrows == s.borrows + multiset(up)
  {
    hide Inv, Begin, ParentsFound, PieceAt;
    var t := Added(s, k, up);
    BuiltReady(s, l, k, up);
    BeginInv(s, k, up, |s.nodes| + 1, 0);
    InvIsGood(s);
    BeginFrame(s, k, up, |s.nodes| + 1, 0);
    forall i | 0 <= i < |l| ensures PieceAt(t.nodes[i], i, l[i]) { SamePiece(s.nodes[i], t.nodes[i], i, l[i]); }
    NewPiece(s, k, up);
  }

  lemma SamePiece(a: Node, b: Node, i: Id, q: Piece)
    requires PieceAt(a, i, q) && b == a.(refs := b.refs, disposed := b.disposed)
    ensures PieceAt(b, i, q)
  {
  }

  lemma NewPiece(s: State, k: Kind, up: seq<Id>)
    ensures PieceAt(NewNode(s, k, up, |s.nodes| + 1, 0), |s.nodes|, Piece(k, up, Building))
  {
  }

  lemma BuiltKeeps(s: State, t: State, l: seq<Piece>)
    requires Built(s, l) && Inv(t) && KeepsIntent(s, t)
    ensures Built(t, l)
  {
    hide Inv, PieceAt;
    forall i | 0 <= i < |l| ensures PieceAt(t.nodes[i], i, l[i]) { SamePiece(s.nodes[i], t.nodes[i], i, l[i]); }
  }

  /** A creator is done. */
  function Finished(s: State, c: Id, p: Phase): State {
    if !UnderConstruction(s, c) then s else RefLk(SetPhase(s, c, p), c, if p == Live then -INIT_REFS + 1 else -INIT_REFS)
  }

  lemma BuildFinished(s: State, l: seq<Piece>, c: Id, p: Phase)
    requires Built(s, l) && c < |l| && l[c].phase == Building && p != Building
    ensures Built(Finished(s, c, p), l[c := l[c].(phase := p)]) && Finished(s, c, p).borrows == s.borrows
  {
    hide Inv, RefLk;
    BuiltParts(s, l, c);
    InvIsGood(s);
    FinishKeeps(s, c, p, if p == Live then -INIT_REFS + 1 else -INIT_REFS);
    if p == Live { FinishOkInv(s, c); } else { FinishFailInv(s, c); }
    var t := Finished(s, c, p);
    forall i | 0 <= i < |l| ensures PieceAt(t.nodes[i], i, l[c := l[c].(phase := p)][i]) {
      assert PieceAt(s.nodes[i], i, l[i]);
    }
  }

  lemma BuildReleased(s: State, l: seq<Piece>, i: Id)
    requires Built(s, l) && i in s.borrows
    ensures Built(Release(s, i), l) && Release(s, i).borrows == s.borrows - multiset{i}
  {
    hide Inv, Release, PieceAt, KeepsIntent;
    ReleaseInv(s, i);
    ReleaseIntent(s, i);
    BuiltKeeps(s, Release(s, i), l);
  }

  lemma ReadyBuilt()
    ensures Built(RouterReady(), [Piece(Router, [], Live)]) && RouterReady().borrows == multiset{}
  {
    hide Inv, RefLk;
    RouterReadyIs();
    InvIsGood(RouterReady());
    OneShape(RouterReady());
    ReadyUnheld();
  }

  lemma BuiltDistinct(s: State, l: seq<Piece>)
    requires Built(s, l) && forall i :: 0 <= i < |l| ==> l[i].kind != Member
    ensures DistinctUsers(s)
  {
    hide Built;
    forall i | 0 <= i < |s.nodes| ensures s.nodes[i].kind != Member {
      BuiltSize(s, l);
      BuiltParts(s, l, i);
    }
  }

  lemma BuiltSize(s: State, l: seq<Piece>)
    requires Built(s, l)
    ensures Inv(s) && |s.nodes| == |l|
  {
  }
}
