/**
 * Index arithmetic of the torus generator: the edge and quad lists that
 * connect an n1 x n2 grid of vertices wrapped around both directions, and
 * the shape of the vertex and normal lists. Vertex k lies on revolution
 * section k / n2 and spin section k % n2.
 */
module Torus {

  // ---------------------------------------------------------------------------
  // Arithmetic on the wrapped grid

  lemma {:induction false} MulAtLeast(n: int, d: int)
    requires n >= 1 && d >= 1
    ensures n * d >= n
  {
    assert n * d == n * (d - 1) + n;
  }

  /** Index n * r + c of a grid row of width n splits back into row r and column c. */
  lemma {:induction false} RowColumn(n: int, r: int, c: int)
    requires n >= 1 && r >= 0 && 0 <= c < n
    ensures (n * r + c) / n == r && (n * r + c) % n == c
  {
    var a := n * r + c;
    var q, m := a / n, a % n;
    assert a == n * q + m && 0 <= m < n;
    assert n * (q - r) == c - m;
    assert n * (r - q) == m - c;
    if q > r {
      MulAtLeast(n, q - r);
      assert false;
    }
    if q < r {
      MulAtLeast(n, r - q);
      assert false;
    }
  }

  /** Row r of a grid with n1 rows of width n2 holds indices below n1 * n2. */
  lemma {:induction false} GridIndexInRange(n1: int, n2: int, r: int, c: int)
    requires n1 >= 1 && n2 >= 1 && 0 <= r < n1 && 0 <= c < n2
    ensures 0 <= n2 * r + c < n1 * n2
  {
    MulAtLeast(n2, n1 - r);
    assert n2 * (n1 - r) == n1 * n2 - n2 * r;
  }

  /** An index below n1 * n2 lies on a row below n1. */
  lemma {:induction false} RowInRange(n1: int, n2: int, k: int)
    requires n1 >= 1 && n2 >= 1 && 0 <= k < n1 * n2
    ensures 0 <= k / n2 < n1 && 0 <= k % n2 < n2
  {
    var r, c := k / n2, k % n2;
    assert k == n2 * r + c;
    assert n2 * (-r) == -(n2 * r);
    assert n2 * (r - n1) == n2 * r - n1 * n2;
    if r < 0 {
      MulAtLeast(n2, -r);
      assert false;
    }
    if r > n1 {
      MulAtLeast(n2, r - n1);
      assert false;
    }
  }

  // ---------------------------------------------------------------------------
  // Reference definitions of the k-th edge and the k-th quad

  /**
   * The k-th edge of a spin loop (around the tube): vertex k to the next
   * vertex of its ring, the last vertex of a ring wrapping to the first.
   */
  function SpinEdge(n2: int, k: int): seq<int>
    requires n2 >= 1
  {
    [k, if (k + 1) % n2 == 0 then k + 1 - n2 else k + 1]
  }

  /**
   * The k-th edge of a revolution loop (around the centre): vertex k to the
   * same spin section of the next ring, the last ring wrapping to the first.
   */
  function RevolutionEdge(n1: int, n2: int, k: int): seq<int>
    requires n1 >= 1 && n2 >= 1
  {
    [k, if k + n2 < n1 * n2 then k + n2 else k + n2 - n1 * n2]
  }

  /** The quad whose first corner is vertex k, corners in the order the generator emits them. */
  function Quad(n1: int, n2: int, k: int): seq<int>
    requires n1 >= 1 && n2 >= 1
  {
    var r, c := k / n2, k % n2;
    var r', c' := (r + 1) % n1, (c + 1) % n2;
    [n2 * r + c, n2 * r + c', n2 * r' + c', n2 * r' + c]
  }

  lemma {:induction false} SpinEdgeInRange(n1: int, n2: int, k: int)
    requires n1 >= 1 && n2 >= 1 && 0 <= k < n1 * n2
    ensures |SpinEdge(n2, k)| == 2
    ensures forall x :: x in SpinEdge(n2, k) ==> 0 <= x < n1 * n2
  {
    if (k + 1) % n2 == 0 {
      if k + 1 < n2 {
        RowColumn(n2, 0, k + 1);
        assert false;
      }
    } else {
      if k + 1 == n1 * n2 {
        RowColumn(n2, n1, 0);
        assert false;
      }
    }
  }

  lemma {:induction false} RevolutionEdgeInRange(n1: int, n2: int, k: int)
    requires n1 >= 1 && n2 >= 1 && 0 <= k < n1 * n2
    ensures |RevolutionEdge(n1, n2, k)| == 2
    ensures forall x :: x in RevolutionEdge(n1, n2, k) ==> 0 <= x < n1 * n2
  {
    MulAtLeast(n1, n2);
  }

  lemma {:induction false} QuadInRange(n1: int, n2: int, k: int)
    requires n1 >= 1 && n2 >= 1 && 0 <= k < n1 * n2
    ensures |Quad(n1, n2, k)| == 4
    ensures forall x :: x in Quad(n1, n2, k) ==> 0 <= x < n1 * n2
  {
    var r, c := k / n2, k % n2;
    RowInRange(n1, n2, k);
    var r', c' := (r + 1) % n1, (c + 1) % n2;
    GridIndexInRange(n1, n2, r, c);
    GridIndexInRange(n1, n2, r, c');
    GridIndexInRange(n1, n2, r', c');
    GridIndexInRange(n1, n2, r', c);
  }

  // ---------------------------------------------------------------------------
  // The generators

  /** The first m spin edges, in generation order. */
  function SpinEdgeList(n2: int, m: nat): (edges: seq<seq<int>>)
    requires n2 >= 1
    ensures |edges| == m
  {
    if m == 0 then [] else SpinEdgeList(n2, m - 1) + [SpinEdge(n2, m - 1)]
  }

  /** The first m revolution edges, in generation order. */
  function RevolutionEdgeList(n1: int, n2: int, m: nat): (edges: seq<seq<int>>)
    requires n1 >= 1 && n2 >= 1
    ensures |edges| == m
  {
    if m == 0 then [] else RevolutionEdgeList(n1, n2, m - 1) + [RevolutionEdge(n1, n2, m - 1)]
  }

  /** The first m quads, in generation order. */
  function QuadList(n1: int, n2: int, m: nat): (polys: seq<seq<int>>)
    requires n1 >= 1 && n2 >= 1
    ensures |polys| == m
  {
    if m == 0 then [] else QuadList(n1, n2, m - 1) + [Quad(n1, n2, m - 1)]
  }

  lemma {:induction false} SpinEdgeListAt(n2: int, m: nat)
    requires n2 >= 1
    ensures forall k :: 0 <= k < m ==> SpinEdgeList(n2, m)[k] == SpinEdge(n2, k)
  {
    if m > 0 {
      SpinEdgeListAt(n2, m - 1);
    }
  }

  lemma {:induction false} RevolutionEdgeListAt(n1: int, n2: int, m: nat)
    requires n1 >= 1 && n2 >= 1
    ensures forall k :: 0 <= k < m ==> RevolutionEdgeList(n1, n2, m)[k] == RevolutionEdge(n1, n2, k)
  {
    if m > 0 {
      RevolutionEdgeListAt(n1, n2, m - 1);
    }
  }

  lemma {:induction false} QuadListAt(n1: int, n2: int, m: nat)
    requires n1 >= 1 && n2 >= 1
    ensures forall k :: 0 <= k < m ==> QuadList(n1, n2, m)[k] == Quad(n1, n2, k)
  {
    if m > 0 {
      QuadListAt(n1, n2, m - 1);
    }
  }

  /** The section after x on a loop of m sections. */
  function Next(m: int, x: int): int
  {
    if x + 1 == m then 0 else x + 1
  }

  // One ring of the grid at a time: the edges or quads whose first corner
  // lies on the ring starting at vertex row, for its first m columns.

  function SpinRing(n2: int, row: int, m: nat): (edges: seq<seq<int>>)
    ensures |edges| == m
  {
    if m == 0 then [] else SpinRing(n2, row, m - 1) + [[row + m - 1, row + Next(n2, m - 1)]]
  }

  function RevolutionRing(row: int, nextRow: int, m: nat): (edges: seq<seq<int>>)
    ensures |edges| == m
  {
    if m == 0 then [] else RevolutionRing(row, nextRow, m - 1) + [[row + m - 1, nextRow + m - 1]]
  }

  function QuadRing(n2: int, row: int, nextRow: int, m: nat): (polys: seq<seq<int>>)
    ensures |polys| == m
  {
    if m == 0 then []
    else
      var c, c' := m - 1, Next(n2, m - 1);
      QuadRing(n2, row, nextRow, m - 1) + [[row + c, row + c', nextRow + c', nextRow + c]]
  }

  /** The spin edge leaving column j of ring i, with the wrap-around made explicit. */
  lemma {:induction false} SpinEdgeAt(n2: int, i: int, j: int)
    requires n2 >= 1 && i >= 0 && 0 <= j < n2
    ensures SpinEdge(n2, n2 * i + j) == [n2 * i + j, n2 * i + Next(n2, j)]
  {
    if j + 1 < n2 {
      RowColumn(n2, i, j + 1);
    } else {
      RowColumn(n2, i + 1, 0);
    }
  }

  /** The revolution edge leaving column j of ring i, with the wrap-around made explicit. */
  lemma {:induction false} RevolutionEdgeAt(n1: int, n2: int, i: int, j: int)
    requires n1 >= 1 && n2 >= 1 && 0 <= i < n1 && 0 <= j < n2
    ensures RevolutionEdge(n1, n2, n2 * i + j) == [n2 * i + j, n2 * Next(n1, i) + j]
  {
    if i + 1 < n1 {
      GridIndexInRange(n1, n2, i + 1, j);
    } else {
      assert n2 * i + n2 == n1 * n2;
    }
  }

  /** The quad at row i, column j, with the wrap-around made explicit. */
  lemma {:induction false} QuadAt(n1: int, n2: int, i: int, j: int)
    requires n1 >= 1 && n2 >= 1 && 0 <= i < n1 && 0 <= j < n2
    ensures Quad(n1, n2, n2 * i + j) ==
      [n2 * i + j, n2 * i + Next(n2, j), n2 * Next(n1, i) + Next(n2, j), n2 * Next(n1, i) + j]
  {
    RowColumn(n2, i, j);
    if j + 1 < n2 {
      RowColumn(n2, 0, j + 1);
    } else {
      RowColumn(n2, 1, 0);
    }
    if i + 1 < n1 {
      RowColumn(n1, 0, i + 1);
    } else {
      RowColumn(n1, 1, 0);
    }
  }

  /** The spin edges of ring i continue the list of the rings before it. */
  lemma {:induction false} SpinEdgeListRing(n2: int, i: int, m: nat)
    requires n2 >= 1 && i >= 0 && m <= n2
    ensures SpinEdgeList(n2, n2 * i + m) == SpinEdgeList(n2, n2 * i) + SpinRing(n2, n2 * i, m)
  {
    if m > 0 {
      SpinEdgeListRing(n2, i, m - 1);
      SpinEdgeAt(n2, i, m - 1);
    }
  }

  /** The revolution edges of ring i continue the list of the rings before it. */
  lemma {:induction false} RevolutionEdgeListRing(n1: int, n2: int, i: int, m: nat)
    requires n1 >= 1 && n2 >= 1 && 0 <= i < n1 && m <= n2
    ensures RevolutionEdgeList(n1, n2, n2 * i + m) ==
      RevolutionEdgeList(n1, n2, n2 * i) + RevolutionRing(n2 * i, n2 * Next(n1, i), m)
  {
    if m > 0 {
      RevolutionEdgeListRing(n1, n2, i, m - 1);
      RevolutionEdgeAt(n1, n2, i, m - 1);
    }
  }

  /** The quads of ring i continue the list of the rings before it. */
  lemma {:induction false} QuadListRing(n1: int, n2: int, i: int, m: nat)
    requires n1 >= 1 && n2 >= 1 && 0 <= i < n1 && m <= n2
    ensures QuadList(n1, n2, n2 * i + m) ==
      QuadList(n1, n2, n2 * i) + QuadRing(n2, n2 * i, n2 * Next(n1, i), m)
  {
    if m > 0 {
      QuadListRing(n1, n2, i, m - 1);
      QuadAt(n1, n2, i, m - 1);
    }
  }

  /** All edges of the torus: the spin loops, then the revolution loops. */
  function TorusEdgeList(n1: int, n2: int): (edges: seq<seq<int>>)
    requires n1 >= 1 && n2 >= 1
    ensures |edges| == 2 * (n1 * n2)
  {
    SpinEdgeList(n2, n1 * n2) + RevolutionEdgeList(n1, n2, n1 * n2)
  }

  /**
   * The edge list holds, in order, the spin edge and then the revolution
   * edge of every vertex, and every endpoint is a valid vertex index.
   */
  lemma {:induction false} TorusEdgesShape(n1: int, n2: int)
    requires n1 >= 1 && n2 >= 1
    ensures forall k :: 0 <= k < n1 * n2 ==> TorusEdgeList(n1, n2)[k] == SpinEdge(n2, k)
    ensures forall k :: 0 <= k < n1 * n2 ==> TorusEdgeList(n1, n2)[n1 * n2 + k] == RevolutionEdge(n1, n2, k)
    ensures forall e, x :: e in TorusEdgeList(n1, n2) && x in e ==> 0 <= x < n1 * n2
  {
    var edges := TorusEdgeList(n1, n2);
    SpinEdgeListAt(n2, n1 * n2);
    RevolutionEdgeListAt(n1, n2, n1 * n2);
    forall e, x | e in edges && x in e
      ensures 0 <= x < n1 * n2
    {
      var p :| 0 <= p < |edges| && edges[p] == e;
      if p < n1 * n2 {
        SpinEdgeInRange(n1, n2, p);
      } else {
        RevolutionEdgeInRange(n1, n2, p - n1 * n2);
      }
    }
  }

  /** The quad list holds the quad of every vertex, in order, with valid corner indices. */
  lemma {:induction false} TorusPolygonsShape(n1: int, n2: int)
    requires n1 >= 1 && n2 >= 1
    ensures |QuadList(n1, n2, n1 * n2)| == n1 * n2
    ensures forall k :: 0 <= k < n1 * n2 ==> QuadList(n1, n2, n1 * n2)[k] == Quad(n1, n2, k)
    ensures forall q, x :: q in QuadList(n1, n2, n1 * n2) && x in q ==> 0 <= x < n1 * n2
  {
    var polys := QuadList(n1, n2, n1 * n2);
    QuadListAt(n1, n2, n1 * n2);
    forall q, x | q in polys && x in q
      ensures 0 <= x < n1 * n2
    {
      var p :| 0 <= p < |polys| && polys[p] == q;
      QuadInRange(n1, n2, p);
    }
  }

  /** The spin edges of one ring: consecutive vertices, the last joined back to the first. */
  method SpinRingEdges(n2: int, row: int) returns (ring: seq<seq<int>>)
    requires n2 >= 1
    ensures ring == SpinRing(n2, row, n2)
  {
    ring := [];
    var j := 0;
    while j < n2 - 1
      invariant 0 <= j <= n2 - 1
      invariant ring == SpinRing(n2, row, j)
    {
      ring := ring + [[row + j, row + j + 1]];
      j := j + 1;
    }
    ring := ring + [[row + n2 - 1, row + 0]];
  }

  /** The spin loop part of torus_edges: around the torus tube. */
  method SpinLoopEdges(n1: int, n2: int) returns (edges: seq<seq<int>>)
    requires n1 >= 1 && n2 >= 1
    ensures edges == SpinEdgeList(n2, n1 * n2)
  {
    edges := [];
    var i := 0;
    while i < n1
      invariant 0 <= i <= n1
      invariant edges == SpinEdgeList(n2, n2 * i)
    {
      var ring := SpinRingEdges(n2, n2 * i);
      edges := edges + ring;
      SpinEdgeListRing(n2, i, n2);
      assert n2 * (i + 1) == n2 * i + n2;
      i := i + 1;
    }
    assert n2 * n1 == n1 * n2;
  }

  /** The revolution loop part of torus_edges: around the torus centre. */
  method RevolutionLoopEdges(n1: int, n2: int) returns (edges: seq<seq<int>>)
    requires n1 >= 1 && n2 >= 1
    ensures edges == RevolutionEdgeList(n1, n2, n1 * n2)
  {
    edges := [];
    var i := 0;
    while i < n1 - 1
      invariant 0 <= i <= n1 - 1
      invariant edges == RevolutionEdgeList(n1, n2, n2 * i)
    {
      ghost var before := edges;
      var j := 0;
      while j < n2
        invariant 0 <= j <= n2
        invariant edges == before + RevolutionRing(n2 * i, n2 * (i + 1), j)
      {
        edges := edges + [[n2 * i + j, n2 * (i + 1) + j]];
        j := j + 1;
      }
      RevolutionEdgeListRing(n1, n2, i, n2);
      assert n2 * (i + 1) == n2 * i + n2;
      i := i + 1;
    }
    ghost var before := edges;
    var j := 0;
    while j < n2
      invariant 0 <= j <= n2
      invariant edges == before + RevolutionRing(n2 * (n1 - 1), n2 * 0, j)
    {
      edges := edges + [[n2 * (n1 - 1) + j, n2 * 0 + j]];
      j := j + 1;
    }
    RevolutionEdgeListRing(n1, n2, n1 - 1, n2);
    assert n2 * (n1 - 1) + n2 == n1 * n2;
  }

  /**
   * torus_edges: first the n1 spin loops of n2 edges each, then the n2
   * revolution loops of n1 edges each (see TorusEdgesShape).
   */
  method TorusEdges(n1: int, n2: int) returns (edges: seq<seq<int>>)
    requires n1 >= 1 && n2 >= 1
    ensures edges == TorusEdgeList(n1, n2)
  {
    var spin := SpinLoopEdges(n1, n2);
    var revolution := RevolutionLoopEdges(n1, n2);
    edges := spin + revolution;
  }

  /** The quads of the last ring complete the list, wrapping to the first ring. */
  lemma {:induction false} QuadListLastRow(n1: int, n2: int)
    requires n1 >= 1 && n2 >= 1
    ensures QuadList(n1, n2, n1 * n2) ==
      QuadList(n1, n2, n2 * (n1 - 1)) + QuadRing(n2, n2 * (n1 - 1), n2 * 0, n2)
  {
    QuadListRing(n1, n2, n1 - 1, n2);
    assert n2 * (n1 - 1) + n2 == n1 * n2;
  }

  /** The rows of torus_polygons whose quads do not wrap around the centre. */
  method InnerRowPolygons(n1: int, n2: int) returns (polys: seq<seq<int>>)
    requires n1 >= 1 && n2 >= 1
    ensures polys == QuadList(n1, n2, n2 * (n1 - 1))
  {
    polys := [];
    var i := 0;
    while i < n1 - 1
      invariant 0 <= i <= n1 - 1
      invariant polys == QuadList(n1, n2, n2 * i)
    {
      ghost var before := polys;
      var j := 0;
      while j < n2 - 1
        invariant 0 <= j <= n2 - 1
        invariant polys == before + QuadRing(n2, n2 * i, n2 * (i + 1), j)
      {
        polys := polys + [[n2 * i + j, n2 * i + j + 1, n2 * (i + 1) + j + 1, n2 * (i + 1) + j]];
        j := j + 1;
      }
      polys := polys + [[n2 * i + n2 - 1, n2 * i + 0, n2 * (i + 1) + 0, n2 * (i + 1) + n2 - 1]];
      QuadListRing(n1, n2, i, n2);
      assert n2 * (i + 1) == n2 * i + n2;
      i := i + 1;
    }
  }

  /**
   * torus_polygons: one quad per vertex, in grid order, the last row
   * wrapping to the first (see TorusPolygonsShape).
   */
  method TorusPolygons(n1: int, n2: int) returns (polys: seq<seq<int>>)
    requires n1 >= 1 && n2 >= 1
    ensures polys == QuadList(n1, n2, n1 * n2)
  {
    polys := InnerRowPolygons(n1, n2);
    ghost var before := polys;
    var j := 0;
    while j < n2 - 1
      invariant 0 <= j <= n2 - 1
      invariant polys == before + QuadRing(n2, n2 * (n1 - 1), n2 * 0, j)
    {
      polys := polys + [[n2 * (n1 - 1) + j, n2 * (n1 - 1) + j + 1, n2 * 0 + j + 1, n2 * 0 + j]];
      j := j + 1;
    }
    polys := polys + [[n2 * (n1 - 1) + n2 - 1, n2 * (n1 - 1) + 0, n2 * 0 + 0, n2 * 0 + n2 - 1]];
    QuadListLastRow(n1, n2);
  }

  // ---------------------------------------------------------------------------
  // Vertex and normal lists (shape only)

  /** A vertex or normal, abstracted to the revolution and spin sections it is sampled at. */
  datatype Sample = Sample(revolution: int, spin: int)

  /** torus_verts returns one flat list, or (Separate) one list per revolution section. */
  datatype VertexLayout = Flat(points: seq<Sample>) | Separated(loops: seq<seq<Sample>>)

  ghost predicate SamplesUpTo(norms: seq<Sample>, n2: int, m: int)
    requires n2 >= 1 && 0 <= m <= |norms|
  {
    forall k :: 0 <= k < m ==> norms[k] == Sample(k / n2, k % n2)
  }

  /** Ring r sampled at its first m spin sections. */
  function Ring(r: int, m: nat): (ring: seq<Sample>)
    ensures |ring| == m
    ensures forall c :: 0 <= c < m ==> ring[c] == Sample(r, c)
  {
    seq(m, c => Sample(r, c))
  }

  /**
   * torus_verts, with coordinates abstracted: n1 * n2 normals in grid
   * order; vertices flat in the same order, or n1 loops of n2 when
   * Separate is set.
   */
  method TorusVerts(n1: int, n2: int, separate: bool) returns (verts: VertexLayout, norms: seq<Sample>)
    requires n1 >= 1 && n2 >= 1
    ensures |norms| == n1 * n2
    ensures forall k :: 0 <= k < n1 * n2 ==> norms[k] == Sample(k / n2, k % n2)
    ensures verts.Separated? <==> separate
    ensures verts.Flat? ==> verts.points == norms
    ensures verts.Separated? ==>
      |verts.loops| == n1 && forall r :: 0 <= r < n1 ==> verts.loops[r] == Ring(r, n2)
  {
    var flat: seq<Sample> := [];
    var loops: seq<seq<Sample>> := [];
    norms := [];
    var i := 0;
    ghost var base := 0;
    while i < n1
      invariant 0 <= i <= n1 && base == n2 * i
      invariant |norms| == base
      invariant SamplesUpTo(norms, n2, base)
      invariant !separate ==> flat == norms
      invariant separate ==> |loops| == i && forall r :: 0 <= r < i ==> loops[r] == Ring(r, n2)
    {
      var loopVerts: seq<Sample> := [];
      ghost var before := norms;
      var j := 0;
      while j < n2
        invariant 0 <= j <= n2
        invariant loopVerts == Ring(i, j)
        invariant norms == before + loopVerts
      {
        loopVerts := loopVerts + [Sample(i, j)];
        norms := norms + [Sample(i, j)];
        j := j + 1;
      }
      forall k | 0 <= k < base + n2
        ensures norms[k] == Sample(k / n2, k % n2)
      {
        if k >= base {
          RowColumn(n2, i, k - base);
          assert norms[k] == loopVerts[k - base];
        } else {
          assert norms[k] == before[k];
        }
      }
      assert n2 * (i + 1) == base + n2;
      if separate {
        loops := loops + [loopVerts];
      } else {
        flat := flat + loopVerts;
      }
      i, base := i + 1, base + n2;
    }
    verts := if separate then Separated(loops) else Flat(flat);
  }
}
