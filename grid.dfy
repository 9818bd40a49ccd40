/**
 * Building the board: each cell's vertex buffer is computed from the
 * template, uploaded to the GPU, and the cells are stored in a table with
 * the rows flipped so that row 0 is drawn at the bottom of the screen.
 */
module Grid {
  import opened Geometry

  /** A vertex-array handle: the index of the uploaded buffer in the GPU's table. */
  type Handle = nat

  /** A board cell: its logical column and row, and the handle of its geometry. */
  datatype Cell = Cell(x: int, y: int, drawable: Handle)

  /** The graphics device, reduced to the vertex buffers uploaded to it. */
  class Gpu {
    var vaos: seq<seq<real>>

    constructor ()
      ensures vaos == []
    {
      vaos := [];
    }

    /** Uploads a vertex buffer and returns the handle of its vertex array. */
    method MakeVao(points: seq<real>) returns (h: Handle)
      modifies this
      ensures h == |old(vaos)| && vaos == old(vaos) + [points]
    {
      h := |vaos|;
      vaos := vaos + [points];
    }
  }

  /** The vertex buffer of the cell (x, y): a copy of the template whose X and
      Y components are moved to the cell's edges, found by a stride counter
      that cycles through the five components of each vertex. */
  method CellPoints(template: seq<real>, x: int, y: int) returns (points: seq<real>)
    ensures points == Placed(template, x, y)
  {
    var buf := new real[|template|](i requires 0 <= i < |template| => template[i]);
    var stride := 0;
    for i := 0 to buf.Length
      invariant i == 0 ==> stride == 0
      invariant i > 0 ==> stride == (i - 1) % 5 + 1
      invariant forall j :: 0 <= j < i ==> buf[j] == PlacedComponent(template, j, x, y)
      invariant forall j :: i <= j < buf.Length ==> buf[j] == template[j]
    {
      var position: real;
      var size: real;

      stride := stride + 1;
      if stride == 6 {
        stride := 1;
      }
      StrideStep(i, stride);

      if stride == 1 {
        size := 1.0 / (Columns as real);
        position := (x as real) * size;
        ScaledEdges(x, Columns);
      } else if stride == 2 {
        size := 1.0 / (Rows as real);
        position := (y as real) * size;
        ScaledEdges(y, Rows);
      } else {
        continue;
      }

      if buf[i] < 0.0 {
        buf[i] := (position * 2.0) - 1.0;
      } else {
        buf[i] := ((position + size) * 2.0) - 1.0;
      }
    }
    points := buf[..];
  }

  /** After its update at index i, the stride counter is the 1-based component number. */
  lemma StrideStep(i: nat, stride: int)
    requires i == 0 ==> stride == 1
    requires i > 0 ==> stride == (if (i - 1) % 5 + 1 == 5 then 1 else (i - 1) % 5 + 2)
    ensures stride == i % 5 + 1
  {
  }

  /** The edges as `newCell` computes them, from the cell size 1/n, are grid lines k and k + 1. */
  lemma ScaledEdges(k: int, n: nat)
    requires n > 0
    ensures (k as real) * (1.0 / (n as real)) * 2.0 - 1.0 == GridLine(k, n)
    ensures ((k as real) * (1.0 / (n as real)) + 1.0 / (n as real)) * 2.0 - 1.0 == GridLine(k + 1, n)
  {
  }

  /** Creates the cell (x, y) and uploads its geometry. */
  method NewCell(gpu: Gpu, x: int, y: int) returns (c: Cell)
    modifies gpu
    ensures c == Cell(x, y, |old(gpu.vaos)|)
    ensures gpu.vaos == old(gpu.vaos) + [Placed(Square, x, y)]
  {
    var points := CellPoints(Square, x, y);
    var h := gpu.MakeVao(points);
    c := Cell(x, y, h);
  }

  /** The logical row stored at table position y: the table lists rows top first. */
  function Flip(y: int): (r: int)
    ensures r + y == Rows - 1
    ensures 0 <= y < Columns <==> 0 <= r < Rows
  {
    Rows - 1 - y
  }

  /** The first n cells of the table row for column x, uploaded from handle base on. */
  ghost predicate RowBuilt(vaos: seq<seq<real>>, base: nat, x: nat, row: seq<Cell>, n: nat) {
    && |row| == n
    && forall y :: 0 <= y < n ==>
      && row[y] == Cell(x, Flip(y), base + x * Columns + y)
      && row[y].drawable < |vaos|
      && vaos[row[y].drawable] == Placed(Square, x, Flip(y))
  }

  /** The layout of the table of cells for handles uploaded from base on:
      Rows outer entries of Columns cells, cell [x][y] being the logical cell
      (x, Flip(y)), uploaded in outer-x, inner-y order. */
  ghost predicate GridLayout(cells: seq<seq<Cell>>, base: nat) {
    && |cells| == Rows
    && forall x :: 0 <= x < Rows ==>
      && |cells[x]| == Columns
      && forall y :: 0 <= y < Columns ==> cells[x][y] == Cell(x, Flip(y), base + x * Columns + y)
  }

  /** Every cell's handle names the geometry placed for its logical address. */
  ghost predicate Uploaded(vaos: seq<seq<real>>, cells: seq<seq<Cell>>) {
    forall x, y :: 0 <= x < |cells| && 0 <= y < |cells[x]| ==>
      cells[x][y].drawable < |vaos| && vaos[cells[x][y].drawable] == Placed(Square, cells[x][y].x, cells[x][y].y)
  }

  /** Builds the whole table of cells, uploading one buffer per cell. */
  method MakeCells(gpu: Gpu) returns (cells: seq<seq<Cell>>)
    modifies gpu
    ensures GridLayout(cells, |old(gpu.vaos)|)
    ensures Uploaded(gpu.vaos, cells)
    ensures |gpu.vaos| == |old(gpu.vaos)| + Rows * Columns
    ensures gpu.vaos[..|old(gpu.vaos)|] == old(gpu.vaos)
  {
    ghost var base := |gpu.vaos|;
    var table := new seq<Cell>[Rows](_ => []);

    for x := 0 to Rows
      invariant |gpu.vaos| == base + x * Columns
      invariant gpu.vaos[..base] == old(gpu.vaos)
      invariant forall x' :: 0 <= x' < x ==> RowBuilt(gpu.vaos, base, x', table[x'], Columns)
      invariant forall x' :: x <= x' < Rows ==> table[x'] == []
    {
      for y := 0 to Columns
        invariant |gpu.vaos| == base + x * Columns + y
        invariant gpu.vaos[..base] == old(gpu.vaos)
        invariant RowBuilt(gpu.vaos, base, x, table[x], y)
        invariant forall x' :: 0 <= x' < x ==> RowBuilt(gpu.vaos, base, x', table[x'], Columns)
        invariant forall x' :: x < x' < Rows ==> table[x'] == []
      {
        var c := NewCell(gpu, x, 19 - y);
        table[x] := table[x] + [c];
      }
    }
    cells := table[..];
  }

  /** A draw call: bind a vertex array and draw count vertices as triangles. */
  datatype DrawCall = DrawArrays(vao: Handle, first: nat, count: nat)

  /** Drawing one cell: all vertices of the template, from the cell's vertex array. */
  function Draw(c: Cell): (d: DrawCall)
    ensures d.vao == c.drawable && d.first == 0
    ensures d.count == 6 && 5 * d.count == |Square|
  {
    DrawArrays(c.drawable, 0, VertexCount(Square))
  }

  /** The two cells the demo draws each frame, at fixed table positions. */
  function DrawTree(cells: seq<seq<Cell>>): (r: seq<DrawCall>)
    requires |cells| > 18 && |cells[0]| > 0 && |cells[18]| > 18
    ensures |r| == 2
    ensures r[0].vao == cells[0][0].drawable && r[1].vao == cells[18][18].drawable
    ensures forall d :: d in r ==> d.first == 0 && d.count == 6
  {
    [Draw(cells[0][0]), Draw(cells[18][18])]
  }

  // ---------------------------------------------------------------------
  // Properties of the built table

  /** The flip reverses the rows: storage position 0 holds the top row and
      position Rows - 1 the bottom row, and applying it twice is the identity. */
  lemma FlipReversesRows(y: int)
    ensures Flip(0) == Rows - 1 && Flip(Rows - 1) == 0
    ensures Flip(Flip(y)) == y
    ensures 0 <= y < Columns <==> 0 <= Flip(y) < Rows
  {
  }

  /** Each logical address of the board is stored exactly once: at table
      position [x][Flip(y)], and every table entry holds a valid address. */
  lemma GridHoldsEveryAddressOnce(cells: seq<seq<Cell>>, base: nat)
    requires GridLayout(cells, base)
    ensures forall x, y :: 0 <= x < |cells| && 0 <= y < |cells[x]| ==>
      ValidAddress(cells[x][y].x, cells[x][y].y)
    ensures forall cx, cy {:trigger ValidAddress(cx, cy)} :: ValidAddress(cx, cy) ==>
      0 <= Flip(cy) < |cells[cx]| && cells[cx][Flip(cy)].x == cx && cells[cx][Flip(cy)].y == cy
    ensures forall x, y, x', y' ::
      0 <= x < |cells| && 0 <= y < |cells[x]| && 0 <= x' < |cells| && 0 <= y' < |cells[x']| &&
      (x, y) != (x', y') ==>
        (cells[x][y].x, cells[x][y].y) != (cells[x'][y'].x, cells[x'][y'].y) &&
        cells[x][y].drawable != cells[x'][y'].drawable
  {
    forall cx, cy | ValidAddress(cx, cy)
      ensures 0 <= Flip(cy) < |cells[cx]| && cells[cx][Flip(cy)].x == cx && cells[cx][Flip(cy)].y == cy
    {
      FlipReversesRows(cy);
    }
    forall x, y, x', y' |
      0 <= x < |cells| && 0 <= y < |cells[x]| && 0 <= x' < |cells| && 0 <= y' < |cells[x']| &&
      (x, y) != (x', y')
      ensures cells[x][y].drawable != cells[x'][y'].drawable
    {
      HandleOrder(x, y, x', y');
    }
  }

  /** Handles are numbered row after row of the table, so distinct
      positions get distinct handles. */
  lemma HandleOrder(x: int, y: int, x': int, y': int)
    requires 0 <= y < Columns && 0 <= y' < Columns
    requires (x, y) != (x', y')
    ensures x * Columns + y != x' * Columns + y'
  {
    if x < x' {
      assert x * Columns + y < (x + 1) * Columns <= x' * Columns;
    } else if x' < x {
      assert x' * Columns + y' < (x' + 1) * Columns <= x * Columns;
    }
  }

  /** The two cells drawn each frame lie in the table, they are the
      logical cells (0, 19) and (18, 1), and each draw covers all six
      vertices uploaded for that cell. */
  lemma DrawTreeOnGrid(cells: seq<seq<Cell>>, base: nat, vaos: seq<seq<real>>)
    requires GridLayout(cells, base) && Uploaded(vaos, cells)
    ensures |cells| > 18 && |cells[0]| > 0 && |cells[18]| > 18
    ensures DrawTree(cells) == [DrawArrays(base, 0, 6), DrawArrays(base + 18 * Columns + 18, 0, 6)]
    ensures (cells[0][0].x, cells[0][0].y) == (0, 19)
    ensures (cells[18][18].x, cells[18][18].y) == (18, 1)
    ensures vaos[base] == Placed(Square, 0, 19)
    ensures vaos[base + 18 * Columns + 18] == Placed(Square, 18, 1)
    ensures forall d :: d in DrawTree(cells) ==> d.vao < |vaos| && 5 * d.count == |vaos[d.vao]|
  {
    TemplateIsUnitQuad();
    assert cells[0][0] == Cell(0, 19, base);
    assert cells[18][18] == Cell(18, 1, base + 18 * Columns + 18);
  }

  /** The device rectangles of the two drawn cells: the top-left corner cell and
      the cell one in from the right and bottom edges. */
  lemma DrawTreeRects()
    ensures CellRect(0, 19) == Rect(-1.0, -0.9, 0.9, 1.0)
    ensures CellRect(18, 1) == Rect(0.8, 0.9, -0.9, -0.8)
  {
  }
}
