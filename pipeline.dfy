/**
 * The reconstruction as the request handler runs it: normalise the page's
 * words into digit detections, then map the detections onto the 9x9 grid.
 */
module Pipeline {
  import opened Options
  import opened Ocr
  import Normalizer
  import GridMapper
  import VisualGrid

  /** The grid reconstructed from a page of the given size. */
  function ReconstructedGrid(page: Page, width: real, height: real): seq<seq<string>> {
    GridMapper.GridOf(width, height, Normalizer.NormalizeWords(PageWords(page)))
  }

  /** Every reconstructed cell is "" or a single digit in '1'..'9'. */
  lemma ReconstructedCells(page: Page, width: real, height: real)
    ensures GridMapper.IsGrid(ReconstructedGrid(page, width, height))
    ensures forall r, c :: 0 <= r < 9 && 0 <= c < 9 ==>
      ReconstructedGrid(page, width, height)[r][c] == "" ||
      Normalizer.Matches19(ReconstructedGrid(page, width, height)[r][c])
  {
    var dets := Normalizer.NormalizeWords(PageWords(page));
    Normalizer.NormalizeWordsAreDigits(PageWords(page));
    GridMapper.CellsAreDigits(width, height, dets);
  }

  /** The visual rendering of a 9x9 grid of digits and empty cells reads back as that grid. */
  lemma DigitGridRoundTrip(g: seq<seq<string>>)
    requires GridMapper.IsGrid(g)
    requires forall r, c :: 0 <= r < 9 && 0 <= c < 9 ==> g[r][c] == "" || Normalizer.Matches19(g[r][c])
    ensures VisualGrid.ParseVisualGrid(VisualGrid.CreateVisualGrid(g)) == Some(g)
  {
    forall i, j | 0 <= i < |g| && 0 <= j < |g[i]|
      ensures ' ' !in g[i][j] && '\n' !in g[i][j]
    {
      assert g[i][j] == "" || Normalizer.Matches19(g[i][j]);
    }
    VisualGrid.VisualGridRoundTrip(g);
  }

  /** The visual rendering of a reconstructed grid reads back as that grid. */
  lemma ReconstructedVisualRoundTrip(page: Page, width: real, height: real)
    ensures VisualGrid.ParseVisualGrid(VisualGrid.CreateVisualGrid(ReconstructedGrid(page, width, height)))
      == Some(ReconstructedGrid(page, width, height))
  {
    ReconstructedCells(page, width, height);
    DigitGridRoundTrip(ReconstructedGrid(page, width, height));
  }

  /** The handler's reconstruction: the normalisation loop, then the mapping loop. */
  method Reconstruct(page: Page, width: real, height: real) returns (grid: array2<string>)
    ensures fresh(grid)
    ensures grid.Length0 == 9 && grid.Length1 == 9
    ensures forall r, c :: 0 <= r < 9 && 0 <= c < 9 ==> grid[r, c] == ReconstructedGrid(page, width, height)[r][c]
    ensures forall r, c :: 0 <= r < 9 && 0 <= c < 9 ==> grid[r, c] == "" || Normalizer.Matches19(grid[r, c])
  {
    var detections := Normalizer.Normalize(page);
    grid := GridMapper.MapToGrid(width, height, detections);
    ReconstructedCells(page, width, height);
  }
}
