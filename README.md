# Pacman-Go board geometry, modelled in Dafny

The program draws a 20 × 20 board of textured quads. Its computable core
lives in `Source/main.go`:

- the unit-quad template `square`: 6 vertices of X, Y, Z, U, V;
- `newCell`, which copies the template and walks the copy with a stride
  counter. It moves every X component to the low or high column edge of
  the cell and every Y component to the low or high row edge, then uploads
  the buffer;
- `makeCells`, which fills the table of cells with nested loops and flips
  the rows so that stored row `y` is logical row `19 - y`;
- `drawTree`, which draws the cells at the fixed positions `[0][0]` and
  `[18][18]`;
- the key callback `onKey`: Escape closes the window and Space cycles the
  polygon mode Fill → Line → Point → Fill.

The model has three modules:

- `Geometry` (geometry.dfy) holds the template and the reference geometry.
  `GridLine(k, n) = 2k/n - 1` is the k-th line cutting [-1, 1] into n
  cells, `CellRect(x, y)` is the device rectangle of a cell, and
  `Placed(t, x, y)` is the buffer a cell built from template `t` must hold.
  It also holds the lemmas that the cells tile device space and that
  placement is the affine map of the template onto the cell. They are
  stated for any template of the right length, or for any unit-quad
  template (`IsUnitQuad`: the two triangles top-left, bottom-left,
  bottom-right and top-left, top-right, bottom-right of [-0.5, 0.5]^2,
  flat, with texture coordinates equal to the position shifted by 0.5).
  `TemplateIsUnitQuad` shows that the program's template `Square` is one.
- `Grid` (grid.dfy) holds the imperative code. `CellPoints` is the copy
  and the stride loop on an `array<real>`, proved equal to `Placed`. The
  template it copies is a parameter, standing for the package variable
  `square`. `NewCell` calls it on `Square` and uploads the result.
  `MakeCells` (nested loops appending to the rows of a table) calls
  `NewCell` once per cell, and `DrawTree` picks the two drawn cells. The GPU is a class `Gpu` whose only state is the
  table of uploaded vertex buffers. A handle is an index into that table,
  so the model can state which geometry every cell's handle names.
- `Input` (input.dfy) holds the key callback as a function on the window's
  close flag and the polygon mode, with the cycle lemmas.

Coordinates are Dafny `real`s: the computation is exact rational
arithmetic, an idealisation of the program's `float32`.

Two details of the code shape the model:

- `makeCells` bounds its outer loop by `rows` but uses that index as a
  column, and it flips with the literal `19 - y`. Both equal the
  `Columns` / `Rows - 1 - y` reading only because `rows == columns == 20`.
  `Grid.Flip`, `Grid.FlipReversesRows` and `Grid.GridLayout` state the flip
  as `Rows - 1 - y`, and `MakeCells`, whose body keeps the literal `19`,
  is proved to meet it.
- The drawn entry `cells[0][0]` is the logical cell (0, 19), not the
  logical cell (0, 0): it covers [-1, -0.9] × [0.9, 1], the top-left
  corner of the screen. The entry `cells[18][18]` is the logical cell
  (18, 1) at [0.8, 0.9] × [-0.9, -0.8] (`Grid.DrawTreeOnGrid`,
  `Grid.DrawTreeRects`).

## Model

| member | source | states |
|---|---|---|
| `Geometry.TemplateIsUnitQuad` | Source/main.go:27-36 | The template holds 30 components, so 6 vertices. Vertices 0 to 5 sit at (-0.5, 0.5), (-0.5, -0.5), (0.5, -0.5), (-0.5, 0.5), (0.5, 0.5) and (0.5, -0.5), all with Z = 0, and each texture coordinate is its position shifted by 0.5, so (U, V) runs over the corners of [0, 1]^2. |
| `Geometry.UnitQuadOnCorners` | Source/main.go:27-36 | Every vertex of a unit-quad template has X and Y in {-0.5, 0.5}. |
| `Geometry.Placed` | Source/main.go:107-108 | A cell's buffer has exactly as many components as the template. |
| `Grid.CellPoints` | Source/main.go:106-136 | The copy-and-stride loop yields exactly `Placed(template, x, y)`: X components go to column edges, Y components to row edges, and Z, U, V are kept. The loop invariants pin the stride counter to `(i - 1) mod 5 + 1` and say which prefix is rewritten. |
| `Grid.StrideStep` | Source/main.go:115-118 | After its update at index i, the cycling counter equals `i mod 5 + 1`. So stride 1 is exactly the X components and stride 2 exactly the Y components. |
| `Grid.ScaledEdges` | Source/main.go:121-135 | The source's `(position * 2) - 1` and `((position + size) * 2) - 1`, with `size = 1/n` and `position = k * size`, equal grid lines k and k + 1. |
| `Geometry.PlacedQuad` | Source/main.go:110-135 | Vertex v of a placed cell is at the low X edge when the template X is negative and at the high X edge otherwise; the same holds for Y. Z, U and V equal the template's. |
| `Geometry.PlacedVertexCorner` | Source/main.go:131-135 | The position of each placed vertex is the pair of edges chosen by the signs of the template's X and Y. |
| `Geometry.PlacedCorners` | Source/main.go:27-36 | A cell placed from any unit-quad template has 6 vertices forming the triangles (top-left, bottom-left, bottom-right) and (top-left, top-right, bottom-right) of its rectangle. |
| `Geometry.PlacedIsAffine` | Source/main.go:121-135 | For a unit-quad template, placement is the affine map of [-0.5, 0.5]^2 onto a rectangle of positive size. Each vertex's texture coordinate is its relative position in the cell; since the template's vertices reach all four corners, the whole image covers every cell. |
| `Geometry.PlacedNeighboursShareEdges` | Source/main.go:131-134 | Every high X (Y) coordinate of a placed cell equals every low X (Y) coordinate of the next cell in the column (row) direction. |
| `Geometry.GridLineEnds` | Source/main.go:131-134 | Cell 0's low edge is -1 and cell n - 1's high edge is 1. |
| `Geometry.GridLineIncreasing` | Source/main.go:131-134 | Grid lines strictly increase with their index. |
| `Geometry.CellWithinDevice` | Source/main.go:121-134 | For 0 ≤ k < n: -1 ≤ low edge < high edge ≤ 1. |
| `Geometry.LineCoveredFrom` | Source/main.go:121-134 | Every point of [GridLine(k), 1] is in one of the cells k to n - 1 (by induction on n - k). |
| `Geometry.LineCovered` | Source/main.go:121-134 | The n cells of an axis cover [-1, 1]. |
| `Geometry.LineCellsDisjoint` | Source/main.go:121-134 | For cells j < k on one axis, cell j's high edge is at most cell k's low edge. |
| `Geometry.CellRectBounds` | Source/main.go:121-134 | Every valid cell's rectangle lies in [-1, 1]^2 and has positive width and height. |
| `Geometry.CellEdgesShared` | Source/main.go:131-134 | Neighbouring cells share their common edge, and the outermost cells reach ±1. |
| `Geometry.CellsCoverDevice` | Source/main.go:121-134 | Every point of [-1, 1]^2 lies in the rectangle of some valid address. |
| `Geometry.CellsDisjoint` | Source/main.go:121-134 | No point lies inside the interiors of two different valid cells. With the two lemmas above, the cells tile device space. |
| `Grid.Gpu.MakeVao` | Source/main.go:235-253 | Uploading appends the buffer to the GPU's table and returns its index as the handle. |
| `Grid.NewCell` | Source/main.go:106-143 | The new cell records (x, y) and a fresh handle, and that handle names exactly `Placed(Square, x, y)`. |
| `Grid.MakeCells` | Source/main.go:93-104 | The table has Rows entries of Columns cells. Entry [x][y] is logical cell (x, Rows - 1 - y) with handle base + x·Columns + y, so cells are uploaded outer x, inner y. Every handle names its cell's placed buffer, and earlier uploads are untouched. |
| `Grid.Flip` | Source/main.go:98 | Table row y holds logical row r with r + y = Rows - 1, and y is a valid table row exactly when r is a valid logical row. |
| `Grid.FlipReversesRows` | Source/main.go:96-98 | Storage row 0 holds logical row 19 and storage row 19 holds logical row 0. The flip is an involution mapping the column range onto the row range. |
| `Grid.GridHoldsEveryAddressOnce` | Source/main.go:93-104 | In a built table, every entry has a valid address and every valid address is stored at [x][Rows - 1 - y]. Distinct positions hold distinct addresses and distinct handles. |
| `Grid.HandleOrder` | Source/main.go:96-101 | The numbering x·Columns + y of the nested loops is injective on the table. |
| `Grid.DrawTreeOnGrid` | Source/main.go:88-91 | On a built table, both fixed positions are in bounds. They hold logical cells (0, 19) and (18, 1), and each draw call covers exactly the 6 vertices uploaded for its cell. |
| `Grid.DrawTreeRects` | Source/main.go:89-90 | Cell (0, 19) covers [-1, -0.9] × [0.9, 1] and cell (18, 1) covers [0.8, 0.9] × [-0.9, -0.8]. |
| `Grid.Draw` | Source/main.go:145-148 | Drawing a cell binds that cell's handle and draws from vertex 0 all 6 vertices of the template, 5 components each. |
| `Grid.DrawTree` | Source/main.go:88-91 | Two draw calls, for the cells at table positions [0][0] and [18][18], each of 6 vertices from vertex 0. |
| `Input.NextMode` | Source/main.go:158-166 | The next mode is the successor in the cycle Fill, Line, Point (index + 1 mod 3), so it always differs from the current one. |
| `Input.OnKey` | Source/main.go:150-169 | After an event the close flag is set exactly when it was set or Escape was pressed, and the mode advances exactly when Space was pressed. |
| `Input.ModeAfter` | Source/main.go:158-166 | k steps of the cycle, k < 3, advance the mode index by k mod 3. |
| `Input.EscapeRequestsClose` | Source/main.go:151-154 | Pressing Escape sets the close flag and keeps the polygon mode. |
| `Input.SpaceAdvancesMode` | Source/main.go:155-166 | Pressing Space moves the mode to its successor and keeps the close flag. |
| `Input.OtherEventsIgnored` | Source/main.go:150-169 | Releases, repeats and other keys change nothing, and no event clears the close flag. |
| `Input.ModeCycleHasPeriodThree` | Source/main.go:158-166 | One or two steps of Fill → Line → Point → Fill change the mode, and three steps restore it. |
| `Input.SpacePressesCycle` | Source/main.go:155-166 | n Space presses advance the mode by n mod 3 and keep the close flag (by induction on n). |
| `Input.ThreePressesRestore` | Source/main.go:155-166 | Three Space presses return to the starting state. |

## Left out

- Grid.CellPoints: computes in exact `real` arithmetic, not `float32`. It does not model rounding, so the proved equalities (shared edges, the ±1 ends) are stated for the ideal affine map.
- Window and context setup (`initGlfw`), the render loop in `main` and `drawCells` (clear, use program, bind texture, poll events, swap buffers): calls into the windowing and graphics libraries with no computed result.
- Shader compilation and program linking (`initOpenGL`, `compileShader`), `readShaderCode` and `newTexture`: file I/O, image decoding and GPU calls.
- The body of `makeVao` (buffer generation, vertex attribute layout): abstracted as `Gpu.MakeVao`, which appends the uploaded buffer to a table and returns its index as the handle.
- The body of `cell.draw`: drawing is modelled only as the draw call value `Draw` (the cell's handle and `len(square)/5` vertices). No rasterization is modelled.
- `onKey`'s query of the current polygon mode from the graphics state and the `PointSize(20.0)` call: only the mode-to-next-mode mapping is modelled. A queried mode outside the three is not representable.
- `runtime.LockOSThread`: thread pinning.
- Determinism of building twice: holds by construction, since `MakeCells` is specified by the functions `Placed` and `Flip`.
