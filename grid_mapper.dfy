/**
 * The grid mapper: it places single-character detections on a 9x9 grid of
 * strings. Each detection goes to the cell that holds its box's centroid,
 * once a margin of 2% of the page width is trimmed off every side. A
 * detection whose centroid falls outside the grid is dropped, and a later
 * detection for the same cell overwrites an earlier one.
 */
module GridMapper {
  import opened Options
  import opened Ocr
  import Normalizer

  /** The border trimmed from every side of the page: 2% of its width. */
  function Margin(width: real): (r: real)
    ensures 50.0 * r == width
  {
    width * 0.02
  }

  /** The width of one cell: two margins and nine cells span the page's width. */
  function CellWidth(width: real): (r: real)
    ensures 2.0 * Margin(width) + 9.0 * r == width
  {
    (width - 2.0 * Margin(width)) / 9.0
  }

  /**
   * The height of one cell: two margins and nine cells span the page's
   * height. The margin is the one taken from the width.
   */
  function CellHeight(width: real, height: real): (r: real)
    ensures 2.0 * Margin(width) + 9.0 * r == height
  {
    (height - 2.0 * Margin(width)) / 9.0
  }

  /** The sum of the vertices' x-coordinates, added from the first to the last. */
  function SumX(vs: seq<Point>): real
    decreases |vs|
  {
    if vs == [] then 0.0 else SumX(vs[..|vs| - 1]) + vs[|vs| - 1].x
  }

  /** The sum of the vertices' y-coordinates, added from the first to the last. */
  function SumY(vs: seq<Point>): real
    decreases |vs|
  {
    if vs == [] then 0.0 else SumY(vs[..|vs| - 1]) + vs[|vs| - 1].y
  }

  /** The centroid's x: the sum of the x-coordinates divided by 4. */
  function CenterX(vs: seq<Point>): real {
    SumX(vs) / 4.0
  }

  /** The centroid's y: the sum of the y-coordinates divided by 4. */
  function CenterY(vs: seq<Point>): real {
    SumY(vs) / 4.0
  }

  /** For a box of 4 vertices the centre is the mean of its vertices. */
  lemma CenterOfFour(vs: seq<Point>)
    requires |vs| == 4
    ensures CenterX(vs) == (vs[0].x + vs[1].x + vs[2].x + vs[3].x) / 4.0
    ensures CenterY(vs) == (vs[0].y + vs[1].y + vs[2].y + vs[3].y) / 4.0
  {
    assert vs[..3][..2] == vs[..2];
    assert vs[..2][..1] == vs[..1];
    assert vs[..1][..0] == [];
    assert SumX(vs[..1]) == vs[0].x && SumY(vs[..1]) == vs[0].y;
    assert SumX(vs[..2]) == vs[0].x + vs[1].x && SumY(vs[..2]) == vs[0].y + vs[1].y;
    assert SumX(vs[..3]) == vs[0].x + vs[1].x + vs[2].x && SumY(vs[..3]) == vs[0].y + vs[1].y + vs[2].y;
  }

  datatype Cell = Cell(row: int, col: int)

  /**
   * The cell a detection is written to, or None when it is dropped. A cell
   * size of 0 makes the source's floating-point quotient infinite or NaN,
   * which never passes the bounds test, so that detection is dropped too.
   */
  function Target(width: real, height: real, d: Detection): (r: Option<Cell>)
    ensures r.Some? ==> 0 <= r.value.row < 9 && 0 <= r.value.col < 9
  {
    var cellWidth, cellHeight := CellWidth(width), CellHeight(width, height);
    if cellWidth == 0.0 || cellHeight == 0.0 then None
    else
      var col := ((CenterX(d.vertices) - Margin(width)) / cellWidth).Floor;
      var row := ((CenterY(d.vertices) - Margin(width)) / cellHeight).Floor;
      if 0 <= row < 9 && 0 <= col < 9 then Some(Cell(row, col)) else None
  }

  /** A 9x9 matrix of strings. */
  predicate IsGrid(g: seq<seq<string>>) {
    |g| == 9 && forall r :: 0 <= r < 9 ==> |g[r]| == 9
  }

  /** The grid before any detection: 9 rows of 9 empty cells. */
  function EmptyGrid(): (g: seq<seq<string>>)
    ensures IsGrid(g)
    ensures forall r, c :: 0 <= r < 9 && 0 <= c < 9 ==> g[r][c] == ""
  {
    seq(9, _ => seq(9, _ => ""))
  }

  /** One step of the mapping loop: only the detection's cell, if any, changes. */
  function Place(width: real, height: real, g: seq<seq<string>>, d: Detection): (next: seq<seq<string>>)
    requires IsGrid(g)
    ensures IsGrid(next)
    ensures forall r, c :: 0 <= r < 9 && 0 <= c < 9 ==>
      next[r][c] == (if Target(width, height, d) == Some(Cell(r, c)) then d.text else g[r][c])
  {
    match Target(width, height, d)
    case Some(cell) => g[cell.row := g[cell.row][cell.col := d.text]]
    case None => g
  }

  /** The grid after mapping `dets` in order. */
  function GridOf(width: real, height: real, dets: seq<Detection>): (g: seq<seq<string>>)
    ensures IsGrid(g)
    decreases |dets|
  {
    if dets == [] then EmptyGrid()
    else Place(width, height, GridOf(width, height, dets[..|dets| - 1]), dets[|dets| - 1])
  }

  /**
   * The body of the mapping loop for one detection: write it to its cell, if
   * any. The margin and the cell sizes are the ones the caller computed once
   * for the page.
   */
  method PlaceDetection(grid: array2<string>, width: real, height: real,
                        margin: real, cellWidth: real, cellHeight: real, detection: Detection)
    requires grid.Length0 == 9 && grid.Length1 == 9
    requires margin == Margin(width) && cellWidth == CellWidth(width) && cellHeight == CellHeight(width, height)
    modifies grid
    ensures forall r, c :: 0 <= r < 9 && 0 <= c < 9 ==>
      grid[r, c] == (if Target(width, height, detection) == Some(Cell(r, c)) then detection.text else old(grid[r, c]))
  {
    var centerX := SumX(detection.vertices) / 4.0;
    var centerY := SumY(detection.vertices) / 4.0;
    var adjustedX := centerX - margin;
    var adjustedY := centerY - margin;
    if cellWidth != 0.0 && cellHeight != 0.0 {
      var col := (adjustedX / cellWidth).Floor;
      var row := (adjustedY / cellHeight).Floor;
      if 0 <= row < 9 && 0 <= col < 9 {
        grid[row, col] := detection.text;
      }
    }
  }

  /** The mapping loop, writing into a freshly allocated 9x9 array. */
  method MapToGrid(width: real, height: real, dets: seq<Detection>) returns (grid: array2<string>)
    ensures fresh(grid)
    ensures grid.Length0 == 9 && grid.Length1 == 9
    ensures forall r, c :: 0 <= r < 9 && 0 <= c < 9 ==> grid[r, c] == GridOf(width, height, dets)[r][c]
  {
    var margin := Margin(width);
    var cellWidth := CellWidth(width);
    var cellHeight := CellHeight(width, height);
    grid := new string[9, 9]((_, _) => "");
    for i := 0 to |dets|
      invariant grid.Length0 == 9 && grid.Length1 == 9
      invariant forall r, c :: 0 <= r < 9 && 0 <= c < 9 ==> grid[r, c] == GridOf(width, height, dets[..i])[r][c]
    {
      PlaceDetection(grid, width, height, margin, cellWidth, cellHeight, dets[i]);
      assert dets[..i + 1][..i] == dets[..i];
    }
    assert dets[..|dets|] == dets;
  }

  /** A cell that no detection maps to stays "". */
  lemma {:induction false} UnwrittenCellIsEmpty(width: real, height: real, dets: seq<Detection>, r: int, c: int)
    requires 0 <= r < 9 && 0 <= c < 9
    requires forall k :: 0 <= k < |dets| ==> Target(width, height, dets[k]) != Some(Cell(r, c))
    ensures GridOf(width, height, dets)[r][c] == ""
    decreases |dets|
  {
    if dets != [] {
      var init := dets[..|dets| - 1];
      assert forall k :: 0 <= k < |init| ==> init[k] == dets[k];
      UnwrittenCellIsEmpty(width, height, init, r, c);
    }
  }

  /** Last write wins: a cell holds the text of the last detection mapped to it. */
  lemma {:induction false} LastWriteWins(width: real, height: real, dets: seq<Detection>, r: int, c: int, k: int)
    requires 0 <= r < 9 && 0 <= c < 9 && 0 <= k < |dets|
    requires Target(width, height, dets[k]) == Some(Cell(r, c))
    requires forall j :: k < j < |dets| ==> Target(width, height, dets[j]) != Some(Cell(r, c))
    ensures GridOf(width, height, dets)[r][c] == dets[k].text
    decreases |dets|
  {
    if k < |dets| - 1 {
      var init := dets[..|dets| - 1];
      assert forall j :: 0 <= j < |init| ==> init[j] == dets[j];
      LastWriteWins(width, height, init, r, c, k);
    }
  }

  /** When every detection is a digit 1-9, every cell is "" or one such digit. */
  lemma {:induction false} CellsAreDigits(width: real, height: real, dets: seq<Detection>)
    requires forall k :: 0 <= k < |dets| ==> Normalizer.Matches19(dets[k].text)
    ensures forall r, c :: 0 <= r < 9 && 0 <= c < 9 ==>
      GridOf(width, height, dets)[r][c] == "" || Normalizer.Matches19(GridOf(width, height, dets)[r][c])
    decreases |dets|
  {
    if dets != [] {
      CellsAreDigits(width, height, dets[..|dets| - 1]);
    }
  }

  /** `k` is the floor of `x` exactly when `k <= x < k + 1`. */
  lemma FloorIs(x: real, k: int)
    ensures x.Floor == k <==> k as real <= x < k as real + 1.0
  {
  }

  /** For a positive divisor, comparing a quotient is comparing the dividend with a multiple. */
  lemma QuotientOrder(x: real, size: real, t: real)
    requires size > 0.0
    ensures t <= x / size <==> t * size <= x
    ensures x / size < t <==> x < t * size
  {
    var q := x / size;
    assert q * size == x;
    assert (q - t) * size == x - t * size;
    if t <= q { assert (q - t) * size >= 0.0; } else { assert (t - q) * size > 0.0; }
    if q < t { assert (t - q) * size > 0.0; } else { assert (q - t) * size >= 0.0; }
  }

  /** For a positive size, dividing and flooring picks the band `[k * size, (k + 1) * size)`. */
  lemma BandIndex(x: real, size: real, k: int)
    requires size > 0.0
    ensures (x / size).Floor == k <==> k as real * size <= x < (k + 1) as real * size
  {
    FloorIs(x / size, k);
    QuotientOrder(x, size, k as real);
    QuotientOrder(x, size, (k + 1) as real);
  }

  /**
   * With positive cell sizes, a detection goes to cell (row, col) exactly
   * when its centroid lies in that cell's rectangle of the trimmed page.
   */
  lemma TargetRegion(width: real, height: real, d: Detection, row: int, col: int)
    requires CellWidth(width) > 0.0 && CellHeight(width, height) > 0.0
    ensures Target(width, height, d) == Some(Cell(row, col)) <==>
      0 <= row < 9 && 0 <= col < 9 &&
      Margin(width) + col as real * CellWidth(width) <= CenterX(d.vertices) < Margin(width) + (col + 1) as real * CellWidth(width) &&
      Margin(width) + row as real * CellHeight(width, height) <= CenterY(d.vertices) < Margin(width) + (row + 1) as real * CellHeight(width, height)
  {
    BandIndex(CenterX(d.vertices) - Margin(width), CellWidth(width), col);
    BandIndex(CenterY(d.vertices) - Margin(width), CellHeight(width, height), row);
  }

  /** A 1000x1000 page: a detection centred at (106, 106) lands in cell (0, 0). */
  lemma MarginExample()
    ensures Margin(1000.0) == 20.0 && CellWidth(1000.0) == 960.0 / 9.0 && CellHeight(1000.0, 1000.0) == 960.0 / 9.0
    ensures Target(1000.0, 1000.0, Detection("5", [Point(96.0, 96.0), Point(116.0, 96.0), Point(116.0, 116.0), Point(96.0, 116.0)]))
      == Some(Cell(0, 0))
  {
    var vs := [Point(96.0, 96.0), Point(116.0, 96.0), Point(116.0, 116.0), Point(96.0, 116.0)];
    CenterOfFour(vs);
    BandIndex(86.0, 960.0 / 9.0, 0);
  }

  /** A detection centred on the page's corner falls in row and column -1 and is dropped. */
  lemma CornerExample()
    ensures var vs := [Point(0.0, 0.0), Point(0.0, 0.0), Point(0.0, 0.0), Point(0.0, 0.0)];
      ((CenterY(vs) - Margin(1000.0)) / CellHeight(1000.0, 1000.0)).Floor == -1 &&
      ((CenterX(vs) - Margin(1000.0)) / CellWidth(1000.0)).Floor == -1
    ensures Target(1000.0, 1000.0, Detection("5", [Point(0.0, 0.0), Point(0.0, 0.0), Point(0.0, 0.0), Point(0.0, 0.0)])) == None
  {
    var vs := [Point(0.0, 0.0), Point(0.0, 0.0), Point(0.0, 0.0), Point(0.0, 0.0)];
    CenterOfFour(vs);
    BandIndex(-20.0, 960.0 / 9.0, -1);
  }
}
