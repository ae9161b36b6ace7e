/**
 * The parts of the OCR engine's document-text response that the grid
 * reconstruction reads, as plain data, and the word-by-word traversal
 * (blocks, then paragraphs, then words) that reconstruction walks.
 * Every field the engine may omit is an Option; an omitted list is read
 * as the empty list.
 */
module Ocr {
  import opened Options

  /** A bounding-box vertex as reported: either coordinate may be absent. */
  datatype Vertex = Vertex(x: Option<real>, y: Option<real>)

  datatype BoundingPoly = BoundingPoly(vertices: Option<seq<Vertex>>)

  /** One recognised symbol; its text may be absent. */
  datatype Symbol = Symbol(text: Option<string>)

  datatype Word = Word(symbols: Option<seq<Symbol>>, boundingBox: Option<BoundingPoly>)

  datatype Paragraph = Paragraph(words: Option<seq<Word>>)

  datatype Block = Block(paragraphs: Option<seq<Paragraph>>)

  datatype Page = Page(blocks: Option<seq<Block>>)

  /** A vertex whose coordinates have been defaulted. */
  datatype Point = Point(x: real, y: real)

  /** A recognised character together with its estimated bounding box. */
  datatype Detection = Detection(text: string, vertices: seq<Point>)

  /** A coordinate as read by the source: an absent one reads as 0. */
  function OrZero(c: Option<real>): real {
    match c
    case Some(v) => v
    case None => 0.0
  }

  /** A list as the traversal reads it: an absent one is the empty list. */
  function OrEmpty<T>(s: Option<seq<T>>): seq<T> {
    match s
    case Some(xs) => xs
    case None => []
  }

  /** The text one symbol contributes to its word: "" when the text is absent. */
  function SymbolText(s: Symbol): string {
    match s.text
    case Some(t) => t
    case None => ""
  }

  /**
   * The texts of the symbols concatenated in order, with no separator. The
   * result is empty exactly when every symbol contributes "".
   */
  function SymbolsText(ss: seq<Symbol>): (r: string)
    ensures r == "" <==> forall i :: 0 <= i < |ss| ==> SymbolText(ss[i]) == ""
    decreases |ss|
  {
    if ss == [] then ""
    else SymbolsText(ss[..|ss| - 1]) + SymbolText(ss[|ss| - 1])
  }

  /** When every symbol is one character, the joined text spells the symbols in order. */
  lemma {:induction false} SymbolsTextOfChars(ss: seq<Symbol>)
    requires forall i :: 0 <= i < |ss| ==> |SymbolText(ss[i])| == 1
    ensures |SymbolsText(ss)| == |ss|
    ensures forall i :: 0 <= i < |ss| ==> SymbolsText(ss)[i] == SymbolText(ss[i])[0]
    decreases |ss|
  {
    if ss != [] {
      var init := ss[..|ss| - 1];
      assert forall i :: 0 <= i < |init| ==> init[i] == ss[i];
      SymbolsTextOfChars(init);
    }
  }

  /**
   * A word's text: its symbols' texts joined, or "" when it has no symbol
   * list. It is empty exactly when there is no symbol list or every symbol
   * contributes "".
   */
  function WordText(w: Word): (r: string)
    ensures r == "" <==>
      w.symbols.None? || forall i :: 0 <= i < |w.symbols.value| ==> SymbolText(w.symbols.value[i]) == ""
  {
    match w.symbols
    case Some(ss) => SymbolsText(ss)
    case None => ""
  }

  /** A word's vertex list: present only when both the box and its vertex list are. */
  function WordVertices(w: Word): (r: Option<seq<Vertex>>)
    ensures r.Some? <==> w.boundingBox.Some? && w.boundingBox.value.vertices.Some?
    ensures r.Some? ==> r.value == w.boundingBox.value.vertices.value
  {
    match w.boundingBox
    case Some(box) => box.vertices
    case None => None
  }

  /** The words of a sequence of paragraphs, paragraph by paragraph. */
  function ParagraphsWords(ps: seq<Paragraph>): seq<Word>
    decreases |ps|
  {
    if ps == [] then []
    else ParagraphsWords(ps[..|ps| - 1]) + OrEmpty(ps[|ps| - 1].words)
  }

  /** The words of a sequence of blocks, block by block. */
  function BlocksWords(bs: seq<Block>): seq<Word>
    decreases |bs|
  {
    if bs == [] then []
    else BlocksWords(bs[..|bs| - 1]) + ParagraphsWords(OrEmpty(bs[|bs| - 1].paragraphs))
  }

  /** Every word of the page in traversal order. */
  function PageWords(p: Page): seq<Word> {
    BlocksWords(OrEmpty(p.blocks))
  }
}
