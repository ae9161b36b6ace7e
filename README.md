# Reconstructing a 9x9 digit grid from OCR words

This project is a Dafny model of the geometric core of a puzzle-image endpoint. The endpoint takes the words that a document-text OCR engine
found on a photographed 9x9 puzzle and turns them into a 9x9 matrix of
strings in two steps:

1. **Detection normaliser.** It walks the page's blocks, paragraphs and
   words in order. It drops words with empty text or without exactly 4
   vertices. It keeps a one-character word only when that character is
   `1`..`9`. It splits a longer word into one detection per `1`..`9`
   character, and each such character gets the word's box shifted
   horizontally by `index * (v1.x - v0.x) / length`. That shift is
   leftward when `v1.x < v0.x`. An absent coordinate reads as 0.
   The exception is the two x values of the character width; see the
   character-width line under "## Left out".
2. **Grid mapper.** The margin is 2% of the page width. Cells are
   `(width - 2*margin)/9` wide and `(height - 2*margin)/9` high. Each
   detection's centroid (the vertex sums divided by 4), minus the margin,
   is floor-divided by the cell size to give `(row, col)`. A detection
   inside the grid overwrites that cell, so the last write wins. A
   detection outside the grid is dropped.

The model also covers `createVisualGrid`, which renders the grid as text.

Modules:

- `Options`: `Option`.
- `Ocr` (ocr.dfy): the response shapes that are read (`Page`, `Block`,
  `Paragraph`, `Word`, `Symbol`, `BoundingPoly`, `Vertex` with optional
  coordinates), the word text (the symbols joined), and the flattening of
  the traversal into one word list.
- `Normalizer` (normalizer.dfy): three nested loops as the methods
  `Normalize`, `NormalizeBlock` and `NormalizeParagraph`; the per-word body
  `NormalizeWord`; the per-character split `SplitToken`. Each method is
  proved equal to a specification function (`NormalizeWords`,
  `WordDetections`, `SplitDetections`), and the lemmas state what those
  functions mean.
- `GridMapper` (grid_mapper.dfy): `MapToGrid` fills a fresh `array2<string>`
  one detection at a time (`PlaceDetection`). It is proved equal to the
  fold `GridOf` over `Place`, whose cell is chosen by `Target`.
- `VisualGrid` (visual_grid.dfy): `CreateVisualGrid` and its inverse
  `ParseVisualGrid`.
- `Pipeline` (pipeline.dfy): `Reconstruct`, which runs the normaliser and
  then the mapper, and the end-to-end properties.

Pixel arithmetic is exact `real` arithmetic, and `Math.floor` is `.Floor`.
Width and height are parameters. The model demands nothing of them.

## Model

| member | source | states |
|---|---|---|
| Ocr.OrZero | src/routes/api/vision/+server.ts:82-83 | a coordinate as the box is copied: the reported value, or 0 when it is absent (also lines 91-92) |
| Ocr.OrEmpty | src/routes/api/vision/+server.ts:64-66 | a list the traversal walks: the reported list, or the empty list when it is absent |
| Ocr.ParagraphsWords | src/routes/api/vision/+server.ts:65-66 | the words of a sequence of paragraphs, paragraph by paragraph, an absent word list contributing none |
| Ocr.BlocksWords | src/routes/api/vision/+server.ts:64-66 | the words of a sequence of blocks, block by block, absent paragraph lists contributing none |
| Ocr.PageWords | src/routes/api/vision/+server.ts:64-66 | every word of the page in the order the three nested loops visit them |
| Ocr.SymbolText | src/routes/api/vision/+server.ts:67 | the text one symbol contributes to its word's joined text: its text, or "" when absent |
| Ocr.SymbolsText | src/routes/api/vision/+server.ts:67 | the symbols' texts concatenated in order, a missing text counting as ""; the result is empty exactly when every symbol contributes "" |
| Ocr.SymbolsTextOfChars | src/routes/api/vision/+server.ts:67 | when every symbol is one character, the word's text has one character per symbol and spells them in order |
| Ocr.WordText | src/routes/api/vision/+server.ts:67 | a word's text is its symbols' texts joined, or "" without a symbol list; it is empty exactly when there is no symbol list or every symbol contributes "" |
| Ocr.WordVertices | src/routes/api/vision/+server.ts:68 | a word's vertex list is present exactly when both its bounding box and the box's vertex list are, and is then that list |
| Normalizer.Matches19 | src/routes/api/vision/+server.ts:79 | the test `/^[1-9]$/` without flags: the string is exactly one character, and it is in '1'..'9' (also line 89) |
| Normalizer.Offset | src/routes/api/vision/+server.ts:80 | how far the character at a given index is shifted: that many character widths |
| Normalizer.Usable | src/routes/api/vision/+server.ts:70 | a word is looked at only when its text is non-empty and it has a vertex list of exactly 4 vertices |
| Normalizer.CharWidth | src/routes/api/vision/+server.ts:77 | a split token's characters share the distance from the first vertex's x to the second's equally, an absent x reading as 0 |
| Normalizer.Translate | src/routes/api/vision/+server.ts:81-84 | a detection's box has as many vertices as the word's box, each with x = (x or 0) + the shift and y = (y or 0) |
| Normalizer.WordDetections | src/routes/api/vision/+server.ts:67-95 | what one word contributes: nothing for a skipped word, the split digits for a longer token, itself for a one-character 1..9 word (its properties are the `WordTexts` and `WordGeometry` rows) |
| Normalizer.NormalizeWords | src/routes/api/vision/+server.ts:64-98 | the detections of a word list, each word's in turn (its properties are the `NormalizeWordsAppend` and `NormalizeWordsAreDigits` rows) |
| Normalizer.SplitToken | src/routes/api/vision/+server.ts:77-88 | the per-character loop of a multi-character token returns exactly `SplitDetections` of the whole token |
| Normalizer.NormalizeWord | src/routes/api/vision/+server.ts:67-95 | the body of the word loop (skip test, split branch, single-character branch) returns exactly `WordDetections(word)` |
| Normalizer.NormalizeParagraph | src/routes/api/vision/+server.ts:66-96 | the word loop over one paragraph (absent word list read as empty) returns the normalisation of its words in order |
| Normalizer.NormalizeBlock | src/routes/api/vision/+server.ts:65-97 | the paragraph loop over one block returns the paragraphs' detections in order |
| Normalizer.Normalize | src/routes/api/vision/+server.ts:64-98 | the whole normalisation returns `NormalizeWords` of the page's words in block, paragraph, word order; every detection is one character in 1..9 with a 4-vertex box |
| Normalizer.SplitDetections | src/routes/api/vision/+server.ts:78-88 | every detection from a split token has text matching `/^[1-9]$/` and as many vertices as the word's box |
| Normalizer.WordDetectionsAreDigits | src/routes/api/vision/+server.ts:79-94 | every detection a word yields has text of exactly one character in 1..9 and 4 vertices; '0', letters and punctuation never get through |
| Normalizer.NormalizeWordsAreDigits | src/routes/api/vision/+server.ts:64-98 | the same for the whole normaliser output |
| Normalizer.DigitPositionsExact | src/routes/api/vision/+server.ts:78-79 | the positions kept from a token are exactly its 1..9 positions, each below the limit, in strictly increasing order |
| Normalizer.SplitDetectionsAt | src/routes/api/vision/+server.ts:77-86 | the k-th detection of a split token is the token's k-th 1..9 character at position p, with box `Translate(vs, charWidth * p)` |
| Normalizer.SplitDetectionsTexts | src/routes/api/vision/+server.ts:78-88 | the texts of a split token, concatenated, are exactly the token's 1..9 characters in order |
| Normalizer.WordTexts | src/routes/api/vision/+server.ts:70-95 | a word with empty text, no vertex list or not exactly 4 vertices yields nothing; otherwise it yields exactly its 1..9 characters in order, one detection per such character |
| Normalizer.WordGeometry | src/routes/api/vision/+server.ts:77-93 | for a usable word, detection k comes from character position p and every vertex has x = (x or 0) + p * (v1.x - v0.x)/length and y = (y or 0); a one-character word keeps its box |
| Normalizer.NormalizeWordsAppend | src/routes/api/vision/+server.ts:64-98 | normalising concatenated word lists concatenates the results, so the output follows the traversal order word by word |
| Normalizer.NormalizeParagraphs | src/routes/api/vision/+server.ts:65-96 | the detections of a sequence of paragraphs, each paragraph's words' detections in turn |
| Normalizer.NormalizeBlocks | src/routes/api/vision/+server.ts:64-97 | the detections of a sequence of blocks, each block's paragraphs' detections in turn |
| Normalizer.NormalizeParagraphsFlat | src/routes/api/vision/+server.ts:65-66 | normalising paragraph by paragraph equals normalising the flattened word list |
| Normalizer.NormalizeBlocksFlat | src/routes/api/vision/+server.ts:64-65 | normalising block by block equals normalising the flattened word list |
| Normalizer.SplitExample | src/routes/api/vision/+server.ts:77-86 | "12" in the box (0,0),(20,0),(20,10),(0,10) yields "1" unshifted and then "2" shifted right by 10 |
| Normalizer.ZerosExample | src/routes/api/vision/+server.ts:79-89 | the words "0" and "00" yield no detection |
| GridMapper.Margin | src/routes/api/vision/+server.ts:101 | the margin is one fiftieth (2%) of the page width |
| GridMapper.CellWidth | src/routes/api/vision/+server.ts:102-104 | two margins and nine cell widths add up to the page width |
| GridMapper.CellHeight | src/routes/api/vision/+server.ts:103-105 | two margins (taken from the width) and nine cell heights add up to the page height |
| GridMapper.CenterX | src/routes/api/vision/+server.ts:121 | the centroid's x: the x-coordinates summed from first to last, divided by 4 whatever the vertex count |
| GridMapper.CenterY | src/routes/api/vision/+server.ts:122 | the centroid's y: the y-coordinates summed from first to last, divided by 4 whatever the vertex count |
| GridMapper.CenterOfFour | src/routes/api/vision/+server.ts:121-122 | for a 4-vertex box the centre computed by the two reductions is the mean of the vertices |
| GridMapper.Target | src/routes/api/vision/+server.ts:125-137 | a chosen cell always has row and column in [0, 9) |
| GridMapper.EmptyGrid | src/routes/api/vision/+server.ts:115 | the initial grid is 9 rows of 9 cells, each "" |
| GridMapper.Place | src/routes/api/vision/+server.ts:137-144 | one detection changes only its target cell, which becomes its text; with no target the grid is unchanged; the result is still 9x9 |
| GridMapper.GridOf | src/routes/api/vision/+server.ts:115-145 | the grid after any detection sequence is 9 rows of 9 cells |
| GridMapper.PlaceDetection | src/routes/api/vision/+server.ts:118-144 | the loop body writes the detection's text to `Target`'s cell in the array and leaves every other cell as it was |
| GridMapper.MapToGrid | src/routes/api/vision/+server.ts:101-145 | the mapping loop computes the margin and cell sizes once, then fills a newly allocated 9x9 array whose every cell equals the fold `GridOf` over the detections |
| GridMapper.UnwrittenCellIsEmpty | src/routes/api/vision/+server.ts:115-145 | a cell that no detection maps to is "", so an empty detection list gives an all-empty grid |
| GridMapper.LastWriteWins | src/routes/api/vision/+server.ts:137-141 | a cell holds the text of the last detection that maps to it |
| GridMapper.CellsAreDigits | src/routes/api/vision/+server.ts:115-141 | if every detection's text is one character in 1..9, then every cell is "" or one such character |
| GridMapper.TargetRegion | src/routes/api/vision/+server.ts:101-137 | with positive cell sizes a detection goes to (row, col) exactly when both are in [0, 9) and its centroid lies in `[m + col*cellW, m + (col+1)*cellW) x [m + row*cellH, m + (row+1)*cellH)`, with m = 0.02 * width |
| GridMapper.MarginExample | src/routes/api/vision/+server.ts:101-128 | a 1000x1000 page has margin 20 and cells 960/9 wide and high, and a detection centred at (106, 106) goes to cell (0, 0) |
| GridMapper.CornerExample | src/routes/api/vision/+server.ts:125-143 | on a 1000x1000 page a detection centred at (0, 0) gets row -1 and column -1 and is dropped |
| VisualGrid.CreateVisualGrid | src/routes/api/vision/+server.ts:9-11 | the rendering starts with the header "\nVisual Grid:\n" |
| VisualGrid.Join | src/routes/api/vision/+server.ts:10 | the parts in order with the separator between each two neighbours, "" for no parts, as JavaScript's `join` |
| VisualGrid.RowLines | src/routes/api/vision/+server.ts:10 | one line per grid row, that row's cells joined with single spaces |
| VisualGrid.SplitJoin | src/routes/api/vision/+server.ts:10 | joining non-empty lists of strings with a one-character separator that none contains, and splitting on it again, gives the list back |
| VisualGrid.VisualGridRoundTrip | src/routes/api/vision/+server.ts:9-11 | the header followed by the rows (cells joined by " ", rows joined by "\n") parses back to the grid when the grid has at least one row, every row has at least one cell, and no cell contains a space or a line break; the 9x9 grids the mapper builds meet all three |
| Pipeline.ReconstructedGrid | src/routes/api/vision/+server.ts:64-145 | the grid the handler builds: the page's words normalised in traversal order, then folded onto the empty 9x9 grid |
| Pipeline.ReconstructedCells | src/routes/api/vision/+server.ts:64-145 | the reconstructed grid is 9x9 and every cell is "" or a single digit 1..9 |
| Pipeline.ReconstructedVisualRoundTrip | src/routes/api/vision/+server.ts:9-11 | the visual rendering of any reconstructed grid parses back to that grid |
| Pipeline.Reconstruct | src/routes/api/vision/+server.ts:64-145 | normalising and then mapping yields a newly allocated 9x9 array equal to `ReconstructedGrid`, whose every cell is "" or one digit 1..9 |

## Left out

- HTTP handling in `POST` is not modelled: form-data parsing, the Blob check, base64 encoding, the JSON responses and the 400/500 error paths (lines 13-23, 35-42, 149-153). The page, its width and its height are parameters instead.
- The OCR call and client construction (line 26-30 and src/lib/server/vision.ts) belong to an external network service. The handler imports `getVisionClient`, but vision.ts exports only `visionClient`; that mismatch lies outside the model.
- All logging is left out, since it does not affect the result: the diagnostic traversal (lines 50-61), the per-detection messages and the final `console.log(createVisualGrid(grid))`. `createVisualGrid` itself is modelled.
- src/lib/processImage.ts (a browser fetch wrapper) and svelte.config.js (deployment) are not part of this model.
- IEEE floating point is not modelled. `0.02`, the divisions and the centroids are exact reals, so rounding near a cell boundary can differ from the source.
- A zero cell size is reachable in the source only for the height, when the height is 4% of the width. A width of 0 is refused at line 40 before anything is divided. The source's quotient is then infinite or NaN, which fails the bounds test at line 137. `Target` models that case directly as "dropped". The model takes any width and height, so it treats a width of 0 the same way, although the handler never gets there. A negative cell size is modelled by real division, as the source computes it.
- Character width: at line 77 the source reads the first two vertices' x without a default. The model reads an absent x there as 0, as the other coordinates are read. That matches the source when the field is `null`. When it is `undefined`, the source's character width is NaN, so every split digit of that word gets x = NaN, including the digit at index 0, since NaN * 0 is NaN. Those digits still appear among the normaliser's detections, and line 137 then drops them all. The model may place them in the grid instead.
- Characters are Dafny `char`s, so `text.length` and `split('')` count characters rather than UTF-16 code units. They agree for the digits and ASCII the grid uses.
- The source pushes every detection into one shared array. The model has each loop level return its detections and the caller append them, which gives the same sequence.
