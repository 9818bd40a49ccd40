/**
 * The geometry of the board: the unit-quad template every cell is built
 * from, the grid lines that cut normalized device space into cells, and the
 * placed quad a cell's vertex buffer must hold.
 */
module Geometry {

  /** Board dimensions (compile-time constants of the program). */
  const Rows: nat := 20
  const Columns: nat := 20

  /** The unit quad: two triangles over [-0.5, 0.5]^2, with their texture coordinates. */
  const Square: seq<real> := [
    // X,   Y,    Z,   U,   V
    -0.5,  0.5, 0.0, 0.0, 1.0,
    -0.5, -0.5, 0.0, 0.0, 0.0,
     0.5, -0.5, 0.0, 1.0, 0.0,

    -0.5,  0.5, 0.0, 0.0, 1.0,
     0.5,  0.5, 0.0, 1.0, 1.0,
     0.5, -0.5, 0.0, 1.0, 0.0
  ]

  // Each vertex takes five consecutive components: X, Y, Z (position) and U, V (texture).

  /** Number of whole vertices in an interleaved buffer. */
  function VertexCount(buf: seq<real>): (n: nat) {
    |buf| / 5
  }

  predicate HasVertex(buf: seq<real>, v: nat) {
    5 * v + 5 <= |buf|
  }

  function PosX(buf: seq<real>, v: nat): (c: real) requires HasVertex(buf, v) { buf[5 * v] }
  function PosY(buf: seq<real>, v: nat): (c: real) requires HasVertex(buf, v) { buf[5 * v + 1] }
  function PosZ(buf: seq<real>, v: nat): (c: real) requires HasVertex(buf, v) { buf[5 * v + 2] }
  function TexU(buf: seq<real>, v: nat): (c: real) requires HasVertex(buf, v) { buf[5 * v + 3] }
  function TexV(buf: seq<real>, v: nat): (c: real) requires HasVertex(buf, v) { buf[5 * v + 4] }

  /** The shape of a unit-quad template: six flat vertices making the two
      triangles (top-left, bottom-left, bottom-right) and (top-left,
      top-right, bottom-right) of [-0.5, 0.5]^2, whose texture coordinates are
      the position shifted into [0, 1]^2. */
  ghost predicate IsUnitQuad(t: seq<real>) {
    && |t| == 30
    && Corner(t, 0) == (-0.5, 0.5) && Corner(t, 1) == (-0.5, -0.5) && Corner(t, 2) == (0.5, -0.5)
    && Corner(t, 3) == (-0.5, 0.5) && Corner(t, 4) == (0.5, 0.5) && Corner(t, 5) == (0.5, -0.5)
    && forall v: nat :: v < 6 ==>
      && HasVertex(t, v)
      && PosZ(t, v) == 0.0
      && TexU(t, v) == PosX(t, v) + 0.5
      && TexV(t, v) == PosY(t, v) + 0.5
  }

  /** The program's template is a unit quad of six vertices. */
  lemma TemplateIsUnitQuad()
    ensures IsUnitQuad(Square) && VertexCount(Square) == 6
  {
    forall v: nat | v < 6
      ensures && HasVertex(Square, v)
              && PosZ(Square, v) == 0.0
              && TexU(Square, v) == PosX(Square, v) + 0.5
              && TexV(Square, v) == PosY(Square, v) + 0.5
    {
      if v == 0 { } else if v == 1 { } else if v == 2 { } else if v == 3 { } else if v == 4 { } else { }
    }
  }

  /** Every vertex of a unit quad lies on a corner of [-0.5, 0.5]^2. */
  lemma UnitQuadOnCorners(t: seq<real>, v: nat)
    requires IsUnitQuad(t) && v < 6
    ensures HasVertex(t, v)
    ensures PosX(t, v) == -0.5 || PosX(t, v) == 0.5
    ensures PosY(t, v) == -0.5 || PosY(t, v) == 0.5
  {
    if v == 0 { } else if v == 1 { } else if v == 2 { } else if v == 3 { } else if v == 4 { } else { }
  }

  /** The (X, Y) position of vertex v. */
  function Corner(buf: seq<real>, v: nat): (p: (real, real))
    requires HasVertex(buf, v)
  {
    (PosX(buf, v), PosY(buf, v))
  }

  // ---------------------------------------------------------------------
  // Grid lines and cell rectangles in normalized device space

  /** The device coordinate of the k-th of the n + 1 lines that cut [-1, 1]
      into n equal cells. */
  function GridLine(k: int, n: nat): (g: real)
    requires n > 0
  {
    2.0 * (k as real) / (n as real) - 1.0
  }

  /** The device coordinate a template coordinate t is sent to in cell k of n:
      the cell's low edge for a negative t, its high edge otherwise. */
  function Edge(t: real, k: int, n: nat): (e: real)
    requires n > 0
  {
    if t < 0.0 then GridLine(k, n) else GridLine(k + 1, n)
  }

  datatype Rect = Rect(left: real, right: real, bottom: real, top: real)

  /** The device-space rectangle of the cell at column x and row y (row 0 at the bottom). */
  function CellRect(x: int, y: int): (r: Rect) {
    Rect(GridLine(x, Columns), GridLine(x + 1, Columns), GridLine(y, Rows), GridLine(y + 1, Rows))
  }

  predicate Contains(r: Rect, px: real, py: real) {
    r.left <= px <= r.right && r.bottom <= py <= r.top
  }

  predicate InInterior(r: Rect, px: real, py: real) {
    r.left < px < r.right && r.bottom < py < r.top
  }

  predicate ValidAddress(x: int, y: int) {
    0 <= x < Columns && 0 <= y < Rows
  }

  /** The placed value of component i of template t for the cell (x, y):
      X components follow the columns, Y components the rows, and Z, U, V
      are kept. */
  function PlacedComponent(t: seq<real>, i: nat, x: int, y: int): (c: real)
    requires i < |t|
  {
    if i % 5 == 0 then Edge(t[i], x, Columns)
    else if i % 5 == 1 then Edge(t[i], y, Rows)
    else t[i]
  }

  /** The vertex buffer of the cell (x, y), built from template t. */
  function Placed(t: seq<real>, x: int, y: int): (r: seq<real>)
    ensures |r| == |t|
  {
    seq(|t|, i requires 0 <= i < |t| => PlacedComponent(t, i, x, y))
  }

  // ---------------------------------------------------------------------
  // One axis: the n cells of [-1, 1]

  /** The outer grid lines are the edges of device space. */
  lemma GridLineEnds(n: nat)
    requires n > 0
    ensures GridLine(0, n) == -1.0 && GridLine(n, n) == 1.0
  {
    assert (n as real) / (n as real) == 1.0;
  }

  /** Grid lines are strictly increasing. */
  lemma GridLineIncreasing(j: int, k: int, n: nat)
    requires n > 0 && j < k
    ensures GridLine(j, n) < GridLine(k, n)
  {
    var d := n as real;
    assert 2.0 * (k as real) / d - 2.0 * (j as real) / d == 2.0 * ((k - j) as real) / d;
    assert 2.0 * ((k - j) as real) / d > 0.0;
  }

  /** A valid cell lies in [-1, 1] and has positive width. */
  lemma CellWithinDevice(k: int, n: nat)
    requires n > 0 && 0 <= k < n
    ensures -1.0 <= GridLine(k, n) < GridLine(k + 1, n) <= 1.0
  {
    GridLineEnds(n);
    if k > 0 { GridLineIncreasing(0, k, n); }
    GridLineIncreasing(k, k + 1, n);
    if k + 1 < n { GridLineIncreasing(k + 1, n, n); }
  }

  /** Every point of [GridLine(k), 1] lies in one of the cells k, ..., n - 1. */
  lemma {:induction false} LineCoveredFrom(p: real, k: nat, n: nat)
    requires n > 0 && k < n
    requires GridLine(k, n) <= p <= 1.0
    ensures exists j :: k <= j < n && GridLine(j, n) <= p <= GridLine(j + 1, n)
    decreases n - k
  {
    if p > GridLine(k + 1, n) {
      GridLineEnds(n);
      LineCoveredFrom(p, k + 1, n);
    }
  }

  /** The n cells cover [-1, 1]. */
  lemma LineCovered(p: real, n: nat)
    requires n > 0 && -1.0 <= p <= 1.0
    ensures exists k :: 0 <= k < n && GridLine(k, n) <= p <= GridLine(k + 1, n)
  {
    GridLineEnds(n);
    LineCoveredFrom(p, 0, n);
  }

  /** Distinct cells of one axis do not overlap: between them lies at most a shared edge. */
  lemma LineCellsDisjoint(j: int, k: int, n: nat)
    requires n > 0 && j < k
    ensures GridLine(j + 1, n) <= GridLine(k, n)
  {
    if j + 1 < k { GridLineIncreasing(j + 1, k, n); }
  }

  // ---------------------------------------------------------------------
  // The board

  /** Every valid cell lies inside device space and is not degenerate. */
  lemma CellRectBounds(x: int, y: int)
    requires ValidAddress(x, y)
    ensures var r := CellRect(x, y);
      -1.0 <= r.left < r.right <= 1.0 && -1.0 <= r.bottom < r.top <= 1.0
  {
    CellWithinDevice(x, Columns);
    CellWithinDevice(y, Rows);
  }

  /** Neighbouring cells share their common edge; the outer cells reach the edges of device space. */
  lemma CellEdgesShared(x: int, y: int)
    ensures CellRect(x, y).right == CellRect(x + 1, y).left
    ensures CellRect(x, y).top == CellRect(x, y + 1).bottom
    ensures CellRect(0, y).left == -1.0 && CellRect(Columns - 1, y).right == 1.0
    ensures CellRect(x, 0).bottom == -1.0 && CellRect(x, Rows - 1).top == 1.0
  {
    GridLineEnds(Columns);
    GridLineEnds(Rows);
  }

  /** The cells of the board cover [-1, 1]^2. */
  lemma CellsCoverDevice(px: real, py: real)
    requires -1.0 <= px <= 1.0 && -1.0 <= py <= 1.0
    ensures exists x, y :: ValidAddress(x, y) && Contains(CellRect(x, y), px, py)
  {
    LineCovered(px, Columns);
    LineCovered(py, Rows);
    var x :| 0 <= x < Columns && GridLine(x, Columns) <= px <= GridLine(x + 1, Columns);
    var y :| 0 <= y < Rows && GridLine(y, Rows) <= py <= GridLine(y + 1, Rows);
    assert Contains(CellRect(x, y), px, py);
  }

  /** Together with CellRectBounds and CellsCoverDevice: the cells tile
      [-1, 1]^2, because no point lies inside two different cells. */
  lemma CellsDisjoint(x: int, y: int, x': int, y': int, px: real, py: real)
    requires ValidAddress(x, y) && ValidAddress(x', y') && (x, y) != (x', y')
    ensures !(InInterior(CellRect(x, y), px, py) && InInterior(CellRect(x', y'), px, py))
  {
    if x < x' { LineCellsDisjoint(x, x', Columns); }
    else if x' < x { LineCellsDisjoint(x', x, Columns); }
    else if y < y' { LineCellsDisjoint(y, y', Rows); }
    else { LineCellsDisjoint(y', y, Rows); }
  }

  // ---------------------------------------------------------------------
  // The placed quad

  /** The placed buffer keeps the template's layout: every vertex of the
      template becomes the matching corner of the cell's rectangle, with the
      same depth and texture coordinates. */
  lemma PlacedQuad(t: seq<real>, x: int, y: int, v: nat)
    requires HasVertex(t, v)
    ensures var b, r := Placed(t, x, y), CellRect(x, y);
      && HasVertex(b, v)
      && PosX(b, v) == (if PosX(t, v) < 0.0 then r.left else r.right)
      && PosY(b, v) == (if PosY(t, v) < 0.0 then r.bottom else r.top)
      && PosZ(b, v) == PosZ(t, v)
      && TexU(b, v) == TexU(t, v)
      && TexV(b, v) == TexV(t, v)
  {
    var b := Placed(t, x, y);
    ComponentIndex(v, 0);
    ComponentIndex(v, 1);
    ComponentIndex(v, 2);
    ComponentIndex(v, 3);
    ComponentIndex(v, 4);
    assert PosX(b, v) == PlacedComponent(t, 5 * v, x, y);
    assert PosY(b, v) == PlacedComponent(t, 5 * v + 1, x, y);
    assert PosZ(b, v) == PlacedComponent(t, 5 * v + 2, x, y);
    assert TexU(b, v) == PlacedComponent(t, 5 * v + 3, x, y);
    assert TexV(b, v) == PlacedComponent(t, 5 * v + 4, x, y);
  }

  /** Component c of vertex v sits at an index whose remainder is c. */
  lemma ComponentIndex(v: nat, c: nat)
    requires c < 5
    ensures (5 * v + c) % 5 == c
  {
  }

  /** The position of vertex v of a placed cell, from the corner the template puts it on. */
  lemma PlacedVertexCorner(t: seq<real>, x: int, y: int, v: nat)
    requires HasVertex(t, v)
    ensures HasVertex(Placed(t, x, y), v)
    ensures Corner(Placed(t, x, y), v) == (Edge(PosX(t, v), x, Columns), Edge(PosY(t, v), y, Rows))
  {
    PlacedQuad(t, x, y, v);
  }

  /** The two triangles of a cell placed from a unit quad:
      (top-left, bottom-left, bottom-right) and (top-left, top-right, bottom-right)
      of the cell's rectangle. */
  lemma PlacedCorners(t: seq<real>, x: int, y: int)
    requires IsUnitQuad(t)
    ensures VertexCount(Placed(t, x, y)) == 6
    ensures Corner(Placed(t, x, y), 0) == TopLeft(CellRect(x, y))
    ensures Corner(Placed(t, x, y), 1) == BottomLeft(CellRect(x, y))
    ensures Corner(Placed(t, x, y), 2) == BottomRight(CellRect(x, y))
    ensures Corner(Placed(t, x, y), 3) == TopLeft(CellRect(x, y))
    ensures Corner(Placed(t, x, y), 4) == TopRight(CellRect(x, y))
    ensures Corner(Placed(t, x, y), 5) == BottomRight(CellRect(x, y))
  {
    PlacedVertexCorner(t, x, y, 0);
    PlacedVertexCorner(t, x, y, 1);
    PlacedVertexCorner(t, x, y, 2);
    PlacedVertexCorner(t, x, y, 3);
    PlacedVertexCorner(t, x, y, 4);
    PlacedVertexCorner(t, x, y, 5);
  }

  function TopLeft(r: Rect): (p: (real, real)) { (r.left, r.top) }
  function TopRight(r: Rect): (p: (real, real)) { (r.right, r.top) }
  function BottomLeft(r: Rect): (p: (real, real)) { (r.left, r.bottom) }
  function BottomRight(r: Rect): (p: (real, real)) { (r.right, r.bottom) }

  /** Placing a unit quad is the affine map that sends [-0.5, 0.5]^2 onto the
      cell's rectangle, and the texture coordinates stretch the whole image over it. */
  lemma PlacedIsAffine(t: seq<real>, x: int, y: int, v: nat)
    requires IsUnitQuad(t) && v < 6
    ensures var b, r := Placed(t, x, y), CellRect(x, y);
      && HasVertex(b, v) && HasVertex(t, v)
      && PosX(b, v) == r.left + (PosX(t, v) + 0.5) * (r.right - r.left)
      && PosY(b, v) == r.bottom + (PosY(t, v) + 0.5) * (r.top - r.bottom)
      && r.left < r.right && r.bottom < r.top
      && PosX(b, v) == r.left + TexU(b, v) * (r.right - r.left)
      && PosY(b, v) == r.bottom + TexV(b, v) * (r.top - r.bottom)
  {
    var b, r := Placed(t, x, y), CellRect(x, y);
    UnitQuadOnCorners(t, v);
    PlacedQuad(t, x, y, v);
    GridLineIncreasing(x, x + 1, Columns);
    GridLineIncreasing(y, y + 1, Rows);
    AffineAxis(PosX(t, v), r.left, r.right, PosX(b, v));
    AffineAxis(PosY(t, v), r.bottom, r.top, PosY(b, v));
  }

  /** On one axis, choosing the low or high edge by the sign of t in {-0.5, 0.5}
      is the affine map from [-0.5, 0.5] onto [lo, hi]. */
  lemma AffineAxis(t: real, lo: real, hi: real, e: real)
    requires t == -0.5 || t == 0.5
    requires e == if t < 0.0 then lo else hi
    ensures e == lo + (t + 0.5) * (hi - lo)
  {
  }

  /** Cells placed in neighbouring columns (rows) meet exactly: every high
      X (Y) coordinate of one equals every low X (Y) coordinate of the next. */
  lemma PlacedNeighboursShareEdges(t: seq<real>, x: int, y: int, v: nat, w: nat)
    requires HasVertex(t, v) && HasVertex(t, w)
    ensures PosX(t, v) >= 0.0 && PosX(t, w) < 0.0 ==>
      PosX(Placed(t, x, y), v) == PosX(Placed(t, x + 1, y), w)
    ensures PosY(t, v) >= 0.0 && PosY(t, w) < 0.0 ==>
      PosY(Placed(t, x, y), v) == PosY(Placed(t, x, y + 1), w)
  {
    PlacedQuad(t, x, y, v);
    PlacedQuad(t, x + 1, y, w);
    PlacedQuad(t, x, y + 1, w);
  }
}
