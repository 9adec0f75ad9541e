/**
 * The three-point arc generator: a flat point list is cut into consecutive
 * start-through-end triples, each triple becomes one arc (or a straight
 * line when its perpendicular bisectors do not meet) with a per-arc vertex
 * count, and optionally the chain of edges joining consecutive vertices.
 *
 * Coordinates are not modelled: the i-th vertex of an arc is recorded as
 * the i-th sample along the arc or along the line. Points are of an
 * arbitrary type P, and whether a triple is drawn as a straight line is a
 * parameter.
 */
module BasicArc {
  import opened Wrappers

  datatype ArcVertex = OnArc(i: nat) | OnLine(i: nat)

  datatype Edge = Edge(a: nat, b: nat)

  datatype ArcGeometry = ArcGeometry(verts: seq<ArcVertex>, edges: seq<Edge>)

  /** The arcs of a node: one vertex list per triple, and one edge list per triple when edges are made. */
  datatype Arcs = Arcs(verts: seq<seq<ArcVertex>>, edges: seq<seq<Edge>>)

  /**
   * The consecutive triples of a flat point list; a trailing one or two
   * points are dropped. The slice starts 0, 3, ... below len - 2 are exactly
   * the len / 3 multiples of three that still have three points after them.
   */
  function Triples<P>(v: seq<P>): (r: seq<seq<P>>)
    ensures |r| == |v| / 3
    ensures forall j :: 0 <= j < |r| ==> |r[j]| == 3 && 3 * j + 3 <= |v| && r[j] == v[3 * j .. 3 * j + 3]
  {
    seq(|v| / 3, j requires 0 <= j < |v| / 3 => v[3 * j .. 3 * j + 3])
  }

  function Flatten<P>(groups: seq<seq<P>>): seq<P>
  {
    if groups == [] then [] else Flatten(groups[..|groups| - 1]) + groups[|groups| - 1]
  }

  /** Joined back together, the triples are the point list without its trailing remainder. */
  lemma {:induction false} TriplesCover<P>(v: seq<P>, m: nat)
    requires m <= |v| / 3
    ensures Flatten(Triples(v)[..m]) == v[..3 * m]
  {
    if m > 0 {
      var t := Triples(v);
      var a, b := 3 * (m - 1), 3 * m;
      TriplesCover(v, m - 1);
      assert t[..m][..m - 1] == t[..m - 1];
      assert t[m - 1] == v[a .. b];
      assert v[..b] == v[..a] + v[a .. b];
    }
  }

  /** The edges (n, n + 1) along a chain of count vertices. */
  function EdgeChain(count: nat): (edges: seq<Edge>)
    ensures count == 0 ==> edges == []
    ensures count > 0 ==> |edges| == count - 1
    ensures forall k :: 0 <= k < |edges| ==> edges[k].a < count && edges[k].b < count && edges[k].b == edges[k].a + 1
    ensures forall k :: 0 <= k < |edges| - 1 ==> edges[k].b == edges[k + 1].a
    ensures edges != [] ==> edges[0].a == 0 && edges[|edges| - 1].b == count - 1
  {
    seq(if count > 0 then count - 1 else 0, n requires 0 <= n => Edge(n, n + 1))
  }

  /** The samples of an arc of n vertices (none when n is not positive). */
  function ArcSamples(n: int, straight: bool): (r: seq<ArcVertex>)
    ensures |r| == if n > 0 then n else 0
    ensures forall i :: 0 <= i < |r| ==> r[i] == if straight then OnLine(i) else OnArc(i)
  {
    seq(if n > 0 then n else 0, i requires 0 <= i => if straight then OnLine(i) else OnArc(i))
  }

  /**
   * One arc of numVerts vertices. The step divides by numVerts - 1, so a
   * count of 1 raises ZeroDivisionError; a count that is not positive gives
   * no vertices.
   */
  method GenerateArc(numVerts: int, straight: bool, makeEdges: bool) returns (r: Result<ArcGeometry>)
    ensures r.Failure? <==> numVerts == 1
    ensures r.Failure? ==> r.error == ZeroDivisionError
    ensures r.Success? ==> r.value.verts == ArcSamples(numVerts, straight)
    ensures r.Success? && numVerts >= 0 ==> |r.value.verts| == numVerts
    ensures r.Success? ==> r.value.edges == if makeEdges then EdgeChain(|r.value.verts|) else []
  {
    var n := numVerts - 1;
    var verts: seq<ArcVertex> := [];
    if !straight {
      var i := 0;
      while i < n + 1
        invariant 0 <= i && (n + 1 >= 0 ==> i <= n + 1) && (n + 1 <= 1 ==> i == 0)
        invariant verts == ArcSamples(i, false)
      {
        if n == 0 {
          return Failure(ZeroDivisionError);
        }
        verts := verts + [OnArc(i)];
        i := i + 1;
      }
      if n == 0 {
        assert false;
      }
      if n + 1 < 0 {
        assert |verts| == |ArcSamples(numVerts, straight)| == 0;
      } else {
        assert i == numVerts;
      }
    } else {
      if n == 0 {
        return Failure(ZeroDivisionError);
      }
      verts := seq(if n + 1 > 0 then n + 1 else 0, i requires 0 <= i => OnLine(i));
      assert |verts| == |ArcSamples(numVerts, straight)|;
      assert forall k :: 0 <= k < |verts| ==> verts[k] == ArcSamples(numVerts, straight)[k];
    }
    assert verts == ArcSamples(numVerts, straight);
    var edges: seq<Edge> := [];
    if makeEdges {
      edges := EdgeChain(|verts|);
    }
    r := Success(ArcGeometry(verts, edges));
  }

  function AtLeastThree(n: int): (r: int)
    ensures r >= 3 && r >= n && (r == 3 || r == n)
  {
    if n > 3 then n else 3
  }

  /** The vertex lists of the first m triples; the triple at idx takes its vertex count from nv[idx]. */
  function VertsOf<P>(t: seq<seq<P>>, nv: seq<int>, straight: seq<P> -> bool, m: nat): (r: seq<seq<ArcVertex>>)
    requires m <= |t| && m <= |nv|
    ensures |r| == m
    ensures forall idx :: 0 <= idx < m ==> r[idx] == ArcSamples(AtLeastThree(nv[idx]), straight(t[idx]))
  {
    if m == 0 then []
    else VertsOf(t, nv, straight, m - 1) + [ArcSamples(AtLeastThree(nv[m - 1]), straight(t[m - 1]))]
  }

  /** The edge chains of the first m arcs. */
  function EdgesOf(nv: seq<int>, m: nat): (r: seq<seq<Edge>>)
    requires m <= |nv|
    ensures |r| == m
    ensures forall idx :: 0 <= idx < m ==> r[idx] == EdgeChain(AtLeastThree(nv[idx]))
  {
    if m == 0 then [] else EdgesOf(nv, m - 1) + [EdgeChain(AtLeastThree(nv[m - 1]))]
  }

  /**
   * All arcs of a flat point list. Each arc has max(3, nv[idx]) vertices;
   * fewer counts than triples is an IndexError.
   */
  method MakeAllArcs<P>(v: seq<P>, nv: seq<int>, makeEdges: bool, straight: seq<P> -> bool) returns (r: Result<Arcs>)
    ensures |nv| < |v| / 3 <==> r == Failure(IndexError)
    ensures |nv| >= |v| / 3 ==> r.Success?
    ensures r.Success? ==> r.value.verts == VertsOf(Triples(v), nv, straight, |v| / 3)
    ensures r.Success? ==> r.value.edges == if makeEdges then EdgesOf(nv, |v| / 3) else []
  {
    var collected := Triples(v);
    var vertsOut: seq<seq<ArcVertex>> := [];
    var edgesOut: seq<seq<Edge>> := [];
    var idx := 0;
    while idx < |collected|
      invariant 0 <= idx <= |collected| && idx <= |nv|
      invariant vertsOut == VertsOf(collected, nv, straight, idx)
      invariant edgesOut == if makeEdges then EdgesOf(nv, idx) else []
    {
      if idx >= |nv| {
        return Failure(IndexError);
      }
      var arc := ArcFor(collected[idx], nv[idx], makeEdges, straight);
      vertsOut := vertsOut + [arc.verts];
      if makeEdges {
        edgesOut := edgesOut + [arc.edges];
      }
      idx := idx + 1;
    }
    r := Success(Arcs(vertsOut, edgesOut));
  }

  /** One arc of make_all_arcs: at least three vertices, so the generator cannot fail. */
  method ArcFor<P>(pts: seq<P>, count: int, makeEdges: bool, straight: seq<P> -> bool) returns (arc: ArcGeometry)
    ensures arc.verts == ArcSamples(AtLeastThree(count), straight(pts))
    ensures arc.edges == if makeEdges then EdgeChain(AtLeastThree(count)) else []
  {
    var numVerts := AtLeastThree(count);
    var r := GenerateArc(numVerts, straight(pts), makeEdges);
    if r.Failure? {
      assert false;
    }
    arc := r.value;
  }

  /**
   * The per-arc vertex counts. From a linked socket: its first list (an
   * empty list when the link does not come from a number socket), padded
   * with its last count up to numArcs when it is shorter and not empty.
   * Unlinked: numArcs copies of the node's own count.
   */
  function PaddedCounts(linked: bool, fromNumbers: bool, data: seq<seq<int>>, numArcs: nat, own: int)
    : (r: Result<seq<int>>)
    ensures linked && fromNumbers && data == [] <==> r == Failure(IndexError)
    ensures r.Failure? ==> r == Failure(IndexError)
    ensures linked && !fromNumbers ==> r == Success([])
    ensures linked && fromNumbers && data != [] && (data[0] == [] || |data[0]| >= numArcs) ==> r == Success(data[0])
    ensures linked && fromNumbers && data != [] && data[0] != [] && |data[0]| < numArcs ==>
      r.Success? && |r.value| == numArcs && r.value[..|data[0]|] == data[0] &&
      forall i :: |data[0]| <= i < numArcs ==> r.value[i] == data[0][|data[0]| - 1]
    ensures !linked ==> r.Success? && |r.value| == numArcs && forall i :: 0 <= i < numArcs ==> r.value[i] == own
  {
    if !linked then Success(seq(numArcs, _ => own))
    else if fromNumbers && data == [] then Failure(IndexError)
    else
      var given := if fromNumbers then data[0] else [];
      if given != [] && |given| < numArcs then
        Success(given + seq(numArcs - |given|, _ => given[|given| - 1]))
      else Success(given)
  }

  /** The loops that read or pad the per-arc vertex counts. */
  method PadVertexCounts(linked: bool, fromNumbers: bool, data: seq<seq<int>>, numArcs: nat, own: int)
    returns (r: Result<seq<int>>)
    ensures r == PaddedCounts(linked, fromNumbers, data, numArcs, own)
  {
    var nv: seq<int> := [];
    if linked {
      if fromNumbers {
        if data == [] {
          return Failure(IndexError);
        }
        nv := data[0];
      }
      if nv != [] && |nv| < numArcs {
        var padNum := numArcs - |nv|;
        ghost var given := nv;
        for i := 0 to padNum
          invariant |nv| == |given| + i && nv[..|given|] == given
          invariant forall j :: |given| <= j < |nv| ==> nv[j] == given[|given| - 1]
        {
          nv := nv + [nv[|nv| - 1]];
        }
        assert nv == given + seq(numArcs - |given|, _ => given[|given| - 1]);
      }
    } else {
      for i := 0 to numArcs
        invariant |nv| == i && forall j :: 0 <= j < i ==> nv[j] == own
      {
        nv := nv + [own];
      }
      assert nv == seq(numArcs, _ => own);
    }
    r := Success(nv);
  }

  /**
   * The arc node's host state: which sockets exist and are linked, whether
   * the point and count links come from the expected socket kinds, the data
   * they carry, and the node's own vertex count.
   */
  datatype ArcNode<P> = ArcNode(
    hasEdgesOutput: bool,
    vertsLinked: bool,
    edgesLinked: bool,
    pointsLinked: bool,
    pointsFromVertices: bool,
    pointsData: seq<seq<P>>,
    countsLinked: bool,
    countsFromNumbers: bool,
    countsData: seq<seq<int>>,
    numVerts: int)

  /** What the node sends out: the vertex lists, and the edge lists when the edge output is linked. */
  datatype ArcOutput = ArcOutput(verts: seq<seq<ArcVertex>>, edges: Option<seq<seq<Edge>>>)

  /** The points the node reads: the first list on the point input when it comes from a vertex socket. */
  function PointsOf<P>(node: ArcNode<P>): Result<seq<P>>
  {
    if !node.pointsFromVertices then Success([])
    else if node.pointsData == [] then Failure(IndexError)
    else Success(node.pointsData[0])
  }

  /**
   * The node's process: nothing is sent unless the edge output exists and
   * both the vertex output and the point input are linked, nor when the
   * point count is not a multiple of three. Otherwise the arcs of the point
   * triples, with the padded per-arc counts, are sent to the vertex output,
   * and their edge chains too when the edge output is linked.
   */
  method Process<P>(node: ArcNode<P>, straight: seq<P> -> bool) returns (r: Result<Option<ArcOutput>>)
    ensures !node.hasEdgesOutput || !node.vertsLinked || !node.pointsLinked ==> r == Success(None)
    ensures node.hasEdgesOutput && node.vertsLinked && node.pointsLinked ==>
      match PointsOf(node)
      case Failure(e) => r == Failure(e)
      case Success(v) =>
        (|v| % 3 != 0 ==> r == Success(None)) &&
        (|v| % 3 == 0 ==>
          match PaddedCounts(node.countsLinked, node.countsFromNumbers, node.countsData, |v| / 3, node.numVerts)
          case Failure(e) => r == Failure(e)
          case Success(nv) =>
            (|nv| < |v| / 3 ==> r == Failure(IndexError)) &&
            (|nv| >= |v| / 3 ==>
              r == Success(Some(ArcOutput(
                VertsOf(Triples(v), nv, straight, |v| / 3),
                if node.edgesLinked then Some(EdgesOf(nv, |v| / 3)) else None))))) &&
        (|v| % 3 == 0 && node.countsLinked && node.countsFromNumbers && node.countsData == [] ==>
          r == Failure(IndexError)) &&
        (|v| % 3 == 0 && |v| > 0 && node.countsLinked &&
         (!node.countsFromNumbers || (node.countsData != [] && node.countsData[0] == [])) ==>
          r == Failure(IndexError)) &&
        (r.Success? && r.value.Some? ==>
          |v| % 3 == 0 && |r.value.value.verts| == |v| / 3 &&
          (node.edgesLinked <==> r.value.value.edges.Some?) &&
          (node.edgesLinked ==> |r.value.value.edges.value| == |v| / 3) &&
          (!node.countsLinked ==>
            forall idx :: 0 <= idx < |v| / 3 ==> |r.value.value.verts[idx]| == AtLeastThree(node.numVerts)))
  {
    if !node.hasEdgesOutput {
      return Success(None);
    }
    if !(node.vertsLinked && node.pointsLinked) {
      return Success(None);
    }
    var points := PointsOf(node);
    if points.Failure? {
      return Failure(points.error);
    }
    var v := points.value;
    if !(|v| % 3 == 0) {
      return Success(None);
    }
    var numArcs := |v| / 3;
    var nv := PadVertexCounts(node.countsLinked, node.countsFromNumbers, node.countsData, numArcs, node.numVerts);
    if nv.Failure? {
      return Failure(nv.error);
    }
    var makeEdges := node.edgesLinked;
    var arcs := MakeAllArcs(v, nv.value, makeEdges, straight);
    if arcs.Failure? {
      return Failure(arcs.error);
    }
    var edges := if makeEdges then Some(arcs.value.edges) else None;
    r := Success(Some(ArcOutput(arcs.value.verts, edges)));
  }
}
