/**
 * The detection normaliser: it turns the OCR words of a page into
 * single-character detections in '1'..'9'. A word with several characters
 * is split into one detection per digit, and each digit's box is the word's
 * box shifted right by the digit's index times the word's mean character
 * width.
 */
module Normalizer {
  import opened Options
  import opened Ocr

  predicate IsDigit19(c: char) {
    '1' <= c <= '9'
  }

  /** The regular expression /^[1-9]$/: exactly one character, in '1'..'9'. */
  predicate Matches19(s: string) {
    |s| == 1 && IsDigit19(s[0])
  }

  /** A word the normaliser looks at: non-empty text and exactly 4 vertices. */
  predicate Usable(w: Word) {
    WordText(w) != "" && WordVertices(w).Some? && |WordVertices(w).value| == 4
  }

  /**
   * The box with absent coordinates read as 0 and every x shifted right by
   * `dx`: the same number of vertices, each moved horizontally only.
   */
  function Translate(vs: seq<Vertex>, dx: real): (r: seq<Point>)
    ensures |r| == |vs|
    ensures forall j :: 0 <= j < |vs| ==> r[j].x == OrZero(vs[j].x) + dx && r[j].y == OrZero(vs[j].y)
  {
    seq(|vs|, j requires 0 <= j < |vs| => Point(OrZero(vs[j].x) + dx, OrZero(vs[j].y)))
  }

  /**
   * Estimated width of one character of `text`: the characters share the
   * distance from the first vertex's x to the second's equally.
   */
  function CharWidth(text: string, vs: seq<Vertex>): (r: real)
    requires |text| > 0 && |vs| >= 2
    ensures r * (|text| as real) == OrZero(vs[1].x) - OrZero(vs[0].x)
  {
    (OrZero(vs[1].x) - OrZero(vs[0].x)) / (|text| as real)
  }

  /** How far right of the token's start the character at `index` sits: `index` character widths. */
  function Offset(charWidth: real, index: nat): real {
    charWidth * index as real
  }

  /** The detections of a multi-character token coming from its first `n` characters. */
  function SplitDetections(text: string, vs: seq<Vertex>, cw: real, n: nat): (r: seq<Detection>)
    requires n <= |text|
    ensures |r| <= n
    ensures forall k :: 0 <= k < |r| ==> Matches19(r[k].text) && |r[k].vertices| == |vs|
    decreases n
  {
    if n == 0 then []
    else
      SplitDetections(text, vs, cw, n - 1) +
      (if IsDigit19(text[n - 1])
       then [Detection([text[n - 1]], Translate(vs, Offset(cw, n - 1)))]
       else [])
  }

  /** What one word contributes to the normaliser's output; WordTexts and WordGeometry say what that is. */
  function WordDetections(w: Word): seq<Detection>
  {
    if !Usable(w) then []
    else
      var text, vs := WordText(w), WordVertices(w).value;
      if |text| > 1 then SplitDetections(text, vs, CharWidth(text, vs), |text|)
      else if Matches19(text) then [Detection(text, Translate(vs, 0.0))]
      else []
  }

  /** The normaliser's output for a sequence of words, word by word. */
  function NormalizeWords(ws: seq<Word>): seq<Detection>
    decreases |ws|
  {
    if ws == [] then []
    else NormalizeWords(ws[..|ws| - 1]) + WordDetections(ws[|ws| - 1])
  }

  /** The split of one multi-character token, one character at a time. */
  method SplitToken(text: string, vertices: seq<Vertex>, charWidth: real) returns (dets: seq<Detection>)
    ensures dets == SplitDetections(text, vertices, charWidth, |text|)
  {
    dets := [];
    for index := 0 to |text|
      invariant dets == SplitDetections(text, vertices, charWidth, index)
    {
      var digit := text[index];
      assert Matches19([digit]) == IsDigit19(text[index]);
      if Matches19([digit]) {
        var offsetX := Offset(charWidth, index);
        dets := dets + [Detection([digit], Translate(vertices, offsetX))];
      }
      assert SplitDetections(text, vertices, charWidth, index + 1) ==
        SplitDetections(text, vertices, charWidth, index) +
        (if IsDigit19(text[index]) then [Detection([text[index]], Translate(vertices, Offset(charWidth, index)))] else []);
    }
  }

  /** The body of the normalisation loop for one word. */
  method NormalizeWord(word: Word) returns (dets: seq<Detection>)
    ensures dets == WordDetections(word)
  {
    dets := [];
    var text := WordText(word);
    var vertices := WordVertices(word);
    if text != "" && vertices.Some? && |vertices.value| == 4 {
      var vs := vertices.value;
      if |text| > 1 {
        var charWidth := CharWidth(text, vs);
        dets := SplitToken(text, vs, charWidth);
      } else if Matches19(text) {
        dets := [Detection(text, Translate(vs, 0.0))];
      }
    }
  }

  /** The normaliser's output for the paragraphs `ps`, paragraph by paragraph. */
  function NormalizeParagraphs(ps: seq<Paragraph>): seq<Detection>
    decreases |ps|
  {
    if ps == [] then []
    else NormalizeParagraphs(ps[..|ps| - 1]) + NormalizeWords(OrEmpty(ps[|ps| - 1].words))
  }

  /** The normaliser's output for the blocks `bs`, block by block. */
  function NormalizeBlocks(bs: seq<Block>): seq<Detection>
    decreases |bs|
  {
    if bs == [] then []
    else NormalizeBlocks(bs[..|bs| - 1]) + NormalizeParagraphs(OrEmpty(bs[|bs| - 1].paragraphs))
  }

  /** The innermost normalisation loop: the words of one paragraph. */
  method NormalizeParagraph(paragraph: Paragraph) returns (dets: seq<Detection>)
    ensures dets == NormalizeWords(OrEmpty(paragraph.words))
  {
    dets := [];
    var words := OrEmpty(paragraph.words);
    for i := 0 to |words|
      invariant dets == NormalizeWords(words[..i])
    {
      var found := NormalizeWord(words[i]);
      dets := dets + found;
      assert words[..i + 1][..i] == words[..i];
    }
    assert words[..|words|] == words;
  }

  /** The middle normalisation loop: the paragraphs of one block. */
  method NormalizeBlock(block: Block) returns (dets: seq<Detection>)
    ensures dets == NormalizeParagraphs(OrEmpty(block.paragraphs))
  {
    dets := [];
    var paragraphs := OrEmpty(block.paragraphs);
    for p := 0 to |paragraphs|
      invariant dets == NormalizeParagraphs(paragraphs[..p])
    {
      var found := NormalizeParagraph(paragraphs[p]);
      dets := dets + found;
      assert paragraphs[..p + 1][..p] == paragraphs[..p];
    }
    assert paragraphs[..|paragraphs|] == paragraphs;
  }

  /** The normalisation loop over every block, paragraph and word of a page. */
  method Normalize(page: Page) returns (dets: seq<Detection>)
    ensures dets == NormalizeWords(PageWords(page))
    ensures forall k :: 0 <= k < |dets| ==> Matches19(dets[k].text) && |dets[k].vertices| == 4
  {
    dets := [];
    var blocks := OrEmpty(page.blocks);
    for b := 0 to |blocks|
      invariant dets == NormalizeBlocks(blocks[..b])
    {
      var found := NormalizeBlock(blocks[b]);
      dets := dets + found;
      assert blocks[..b + 1][..b] == blocks[..b];
    }
    assert blocks[..|blocks|] == blocks;
    NormalizeBlocksFlat(blocks);
    NormalizeWordsAreDigits(PageWords(page));
  }

  /** Normalising paragraph by paragraph is normalising their words in order. */
  lemma {:induction false} NormalizeParagraphsFlat(ps: seq<Paragraph>)
    ensures NormalizeParagraphs(ps) == NormalizeWords(ParagraphsWords(ps))
    decreases |ps|
  {
    if ps != [] {
      var init := ps[..|ps| - 1];
      NormalizeParagraphsFlat(init);
      NormalizeWordsAppend(ParagraphsWords(init), OrEmpty(ps[|ps| - 1].words));
    }
  }

  /** Normalising block by block is normalising the page's words in order. */
  lemma {:induction false} NormalizeBlocksFlat(bs: seq<Block>)
    ensures NormalizeBlocks(bs) == NormalizeWords(BlocksWords(bs))
    decreases |bs|
  {
    if bs != [] {
      var init, last := bs[..|bs| - 1], OrEmpty(bs[|bs| - 1].paragraphs);
      NormalizeBlocksFlat(init);
      NormalizeParagraphsFlat(last);
      NormalizeWordsAppend(BlocksWords(init), ParagraphsWords(last));
    }
  }

  /** Every detection of a word is one character in '1'..'9' with a 4-vertex box. */
  lemma WordDetectionsAreDigits(w: Word)
    ensures forall k :: 0 <= k < |WordDetections(w)| ==>
      Matches19(WordDetections(w)[k].text) && |WordDetections(w)[k].vertices| == 4
  {
  }

  /** Every detection of the normaliser is one character in '1'..'9' with a 4-vertex box. */
  lemma {:induction false} NormalizeWordsAreDigits(ws: seq<Word>)
    ensures forall k :: 0 <= k < |NormalizeWords(ws)| ==>
      Matches19(NormalizeWords(ws)[k].text) && |NormalizeWords(ws)[k].vertices| == 4
    decreases |ws|
  {
    if ws != [] {
      NormalizeWordsAreDigits(ws[..|ws| - 1]);
      WordDetectionsAreDigits(ws[|ws| - 1]);
    }
  }

  /** Positions of the '1'..'9' characters among the first `n` characters of `s`. */
  function DigitPositions(s: string, n: nat): (ps: seq<nat>)
    requires n <= |s|
    ensures forall k :: 0 <= k < |ps| ==> ps[k] < n
    decreases n
  {
    if n == 0 then []
    else DigitPositions(s, n - 1) + (if IsDigit19(s[n - 1]) then [n - 1] else [])
  }

  /** The '1'..'9' characters of `s`, in order. */
  function Digits19(s: string): string
    decreases |s|
  {
    if s == [] then ""
    else Digits19(s[..|s| - 1]) + (if IsDigit19(s[|s| - 1]) then [s[|s| - 1]] else "")
  }

  /** The texts of a sequence of detections, concatenated. */
  function Texts(ds: seq<Detection>): string
    decreases |ds|
  {
    if ds == [] then "" else Texts(ds[..|ds| - 1]) + ds[|ds| - 1].text
  }

  /** DigitPositions lists exactly the '1'..'9' positions below `n`, in increasing order. */
  lemma {:induction false} DigitPositionsExact(s: string, n: nat)
    requires n <= |s|
    ensures forall k :: 0 <= k < |DigitPositions(s, n)| ==> IsDigit19(s[DigitPositions(s, n)[k]])
    ensures forall k, l :: 0 <= k < l < |DigitPositions(s, n)| ==> DigitPositions(s, n)[k] < DigitPositions(s, n)[l]
    ensures forall i :: 0 <= i < n && IsDigit19(s[i]) ==> i in DigitPositions(s, n)
    decreases n
  {
    if n > 0 {
      DigitPositionsExact(s, n - 1);
      assert DigitPositions(s, n) == DigitPositions(s, n - 1) + (if IsDigit19(s[n - 1]) then [n - 1] else []);
    }
  }

  /** The k-th detection of a split token is the k-th digit, its box shifted by its position. */
  lemma {:induction false} SplitDetectionsAt(text: string, vs: seq<Vertex>, cw: real, n: nat)
    requires n <= |text|
    ensures |SplitDetections(text, vs, cw, n)| == |DigitPositions(text, n)|
    ensures forall k :: 0 <= k < |DigitPositions(text, n)| ==>
      SplitDetections(text, vs, cw, n)[k] ==
      Detection([text[DigitPositions(text, n)[k]]], Translate(vs, Offset(cw, DigitPositions(text, n)[k])))
    decreases n
  {
    if n > 0 {
      SplitDetectionsAt(text, vs, cw, n - 1);
      var ds, ps := SplitDetections(text, vs, cw, n), DigitPositions(text, n);
      var prev, prevPs := SplitDetections(text, vs, cw, n - 1), DigitPositions(text, n - 1);
      assert ds == prev + (if IsDigit19(text[n - 1]) then [Detection([text[n - 1]], Translate(vs, Offset(cw, n - 1)))] else []);
      assert ps == prevPs + (if IsDigit19(text[n - 1]) then [n - 1] else []);
      forall k | 0 <= k < |ps|
        ensures ds[k] == Detection([text[ps[k]]], Translate(vs, Offset(cw, ps[k])))
      {
        if k < |prevPs| {
          assert ds[k] == prev[k];
          assert ps[k] == prevPs[k];
          assert prev[k] == Detection([text[prevPs[k]]], Translate(vs, Offset(cw, prevPs[k])));
        } else {
          assert IsDigit19(text[n - 1]);
          assert ps[k] == n - 1;
          assert ds[k] == Detection([text[n - 1]], Translate(vs, Offset(cw, n - 1)));
        }
      }
    }
  }

  /** A split token yields exactly its '1'..'9' characters, in order. */
  lemma {:induction false} SplitDetectionsTexts(text: string, vs: seq<Vertex>, cw: real, n: nat)
    requires n <= |text|
    ensures Texts(SplitDetections(text, vs, cw, n)) == Digits19(text[..n])
    decreases n
  {
    if n > 0 {
      SplitDetectionsTexts(text, vs, cw, n - 1);
      var ds := SplitDetections(text, vs, cw, n);
      var prev := SplitDetections(text, vs, cw, n - 1);
      assert text[..n][..n - 1] == text[..n - 1];
      assert text[..n][n - 1] == text[n - 1];
      if IsDigit19(text[n - 1]) {
        assert ds[..|ds| - 1] == prev;
      } else {
        assert ds == prev;
      }
    }
  }

  /** The length of Texts counts single-character detections. */
  lemma {:induction false} TextsLength(ds: seq<Detection>)
    requires forall k :: 0 <= k < |ds| ==> |ds[k].text| == 1
    ensures |Texts(ds)| == |ds|
    decreases |ds|
  {
    if ds != [] {
      TextsLength(ds[..|ds| - 1]);
    }
  }

  /**
   * A word yields, in order, exactly the '1'..'9' characters of its text when
   * it is usable, and nothing otherwise; so it yields one detection per such
   * character.
   */
  lemma WordTexts(w: Word)
    ensures Texts(WordDetections(w)) == (if Usable(w) then Digits19(WordText(w)) else "")
    ensures |WordDetections(w)| == (if Usable(w) then |Digits19(WordText(w))| else 0)
  {
    var ds := WordDetections(w);
    if Usable(w) {
      var text, vs := WordText(w), WordVertices(w).value;
      if |text| > 1 {
        SplitDetectionsTexts(text, vs, CharWidth(text, vs), |text|);
        assert text[..|text|] == text;
      } else {
        assert text[..0] == [];
        assert Digits19(text) == Digits19([]) + (if IsDigit19(text[0]) then [text[0]] else "");
        if Matches19(text) {
          assert ds[..0] == [];
        }
      }
    }
    TextsLength(ds);
  }

  /**
   * The geometry of a usable word's detections: the k-th one is the k-th
   * '1'..'9' character of the text, at position p, with every vertex moved
   * right by p times the character width and its y unchanged.
   */
  lemma WordGeometry(w: Word)
    requires Usable(w)
    ensures var text, vs := WordText(w), WordVertices(w).value;
      var ps := DigitPositions(text, |text|);
      |WordDetections(w)| == |ps| &&
      forall k :: 0 <= k < |ps| ==>
        WordDetections(w)[k] == Detection([text[ps[k]]], Translate(vs, Offset(CharWidth(text, vs), ps[k])))
  {
    var text, vs := WordText(w), WordVertices(w).value;
    if |text| > 1 {
      SplitDetectionsAt(text, vs, CharWidth(text, vs), |text|);
    } else {
      assert DigitPositions(text, 0) == [];
      assert DigitPositions(text, 1) == (if IsDigit19(text[0]) then [0] else []);
      assert Offset(CharWidth(text, vs), 0) == 0.0;
      assert text == [text[0]];
    }
  }

  /** Normalising concatenated word lists concatenates the outputs: order is kept. */
  lemma {:induction false} NormalizeWordsAppend(a: seq<Word>, b: seq<Word>)
    ensures NormalizeWords(a + b) == NormalizeWords(a) + NormalizeWords(b)
    decreases |b|
  {
    if b == [] {
      assert a + b == a;
    } else {
      var b', last := b[..|b| - 1], b[|b| - 1];
      assert b == b' + [last];
      NormalizeWordsAppend(a, b');
      NormalizeWordsAppendLast(a, b', last);
      NormalizeWordsSnoc(b', last);
      ConcatAssoc(NormalizeWords(a), NormalizeWords(b'), WordDetections(last));
    }
  }

  lemma NormalizeWordsAppendLast(a: seq<Word>, b: seq<Word>, w: Word)
    ensures NormalizeWords(a + (b + [w])) == NormalizeWords(a + b) + WordDetections(w)
  {
    ConcatAssoc(a, b, [w]);
    NormalizeWordsSnoc(a + b, w);
  }

  lemma ConcatAssoc<T>(x: seq<T>, y: seq<T>, z: seq<T>)
    ensures (x + y) + z == x + (y + z)
  {
  }

  /** Normalising one more word appends that word's detections. */
  lemma NormalizeWordsSnoc(ws: seq<Word>, w: Word)
    ensures NormalizeWords(ws + [w]) == NormalizeWords(ws) + WordDetections(w)
  {
    assert (ws + [w])[..|ws|] == ws;
  }

  /** The token "12" in a 20-pixel-wide box gives "1" unshifted and "2" shifted by 10. */
  lemma SplitExample()
    ensures var box := [Vertex(Some(0.0), Some(0.0)), Vertex(Some(20.0), Some(0.0)),
                        Vertex(Some(20.0), Some(10.0)), Vertex(Some(0.0), Some(10.0))];
      WordDetections(Word(Some([Symbol(Some("12"))]), Some(BoundingPoly(Some(box))))) ==
      [Detection("1", [Point(0.0, 0.0), Point(20.0, 0.0), Point(20.0, 10.0), Point(0.0, 10.0)]),
       Detection("2", [Point(10.0, 0.0), Point(30.0, 0.0), Point(30.0, 10.0), Point(10.0, 10.0)])]
  {
    var box := [Vertex(Some(0.0), Some(0.0)), Vertex(Some(20.0), Some(0.0)),
                Vertex(Some(20.0), Some(10.0)), Vertex(Some(0.0), Some(10.0))];
    var w := Word(Some([Symbol(Some("12"))]), Some(BoundingPoly(Some(box))));
    assert [Symbol(Some("12"))][..0] == [];
    assert WordText(w) == "12";
    assert CharWidth("12", box) == 10.0;
    assert Translate(box, 0.0) == [Point(0.0, 0.0), Point(20.0, 0.0), Point(20.0, 10.0), Point(0.0, 10.0)];
    assert Translate(box, 10.0) == [Point(10.0, 0.0), Point(30.0, 0.0), Point(30.0, 10.0), Point(10.0, 10.0)];
  }

  /** A token made only of zeros yields nothing. */
  lemma ZerosExample()
    ensures var box := [Vertex(Some(0.0), Some(0.0)), Vertex(Some(20.0), Some(0.0)),
                        Vertex(Some(20.0), Some(10.0)), Vertex(Some(0.0), Some(10.0))];
      WordDetections(Word(Some([Symbol(Some("0"))]), Some(BoundingPoly(Some(box))))) == [] &&
      WordDetections(Word(Some([Symbol(Some("0")), Symbol(Some("0"))]), Some(BoundingPoly(Some(box))))) == []
  {
    var zz := [Symbol(Some("0")), Symbol(Some("0"))];
    assert zz[..1][..0] == [];
    assert SymbolsText(zz) == "00";
    var box := [Vertex(Some(0.0), Some(0.0)), Vertex(Some(20.0), Some(0.0)),
                Vertex(Some(20.0), Some(10.0)), Vertex(Some(0.0), Some(10.0))];
    assert SplitDetections("00", box, CharWidth("00", box), 2) == [];
    assert [Symbol(Some("0"))][..0] == [];
  }
}
