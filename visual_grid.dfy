/**
 * The text rendering of a grid: a header line, then one line per row with
 * the row's cells separated by single spaces. ParseVisualGrid reads such a
 * text back, which shows the rendering loses nothing for grids whose cells
 * contain neither a space nor a line break.
 */
module VisualGrid {
  import opened Options

  const Header: string := "\nVisual Grid:\n"

  /** The parts in order with `sep` between each two neighbours; "" for no parts. */
  function Join(parts: seq<string>, sep: string): string
    decreases |parts|
  {
    if |parts| == 0 then ""
    else if |parts| == 1 then parts[0]
    else parts[0] + sep + Join(parts[1..], sep)
  }

  /**
   * The pieces of `s` between occurrences of the one-character separator
   * `sep`, in order. There is always at least one piece: "" splits into [""].
   */
  function Split(s: string, sep: char): (parts: seq<string>)
    ensures |parts| > 0
    decreases |s|
  {
    if |s| == 0 then [""]
    else
      var rest := Split(s[1..], sep);
      if s[0] == sep then [""] + rest
      else [[s[0]] + rest[0]] + rest[1..]
  }

  /** Each row's cells joined with single spaces. */
  function RowLines(grid: seq<seq<string>>): (lines: seq<string>)
    ensures |lines| == |grid|
    ensures forall i :: 0 <= i < |grid| ==> lines[i] == Join(grid[i], " ")
  {
    seq(|grid|, i requires 0 <= i < |grid| => Join(grid[i], " "))
  }

  /** The grid as text: the header, then one line per row, the lines separated by line breaks. */
  function CreateVisualGrid(grid: seq<seq<string>>): (s: string)
    ensures |s| >= |Header| && s[..|Header|] == Header
  {
    Header + Join(RowLines(grid), "\n")
  }

  /** Reads a rendered grid back: None when the header is missing. */
  function ParseVisualGrid(s: string): Option<seq<seq<string>>> {
    if |s| < |Header| || s[..|Header|] != Header then None
    else
      var lines := Split(s[|Header|..], '\n');
      Some(seq(|lines|, i requires 0 <= i < |lines| => Split(lines[i], ' ')))
  }

  /** A string without the separator splits into itself. */
  lemma {:induction false} SplitWithoutSeparator(s: string, sep: char)
    requires sep !in s
    ensures Split(s, sep) == [s]
    decreases |s|
  {
    if |s| > 0 {
      SplitWithoutSeparator(s[1..], sep);
      assert [s[0]] + s[1..] == s;
    }
  }

  /** Splitting at the first separator peels off the part before it. */
  lemma {:induction false} SplitAtSeparator(a: string, sep: char, b: string)
    requires sep !in a
    ensures Split(a + [sep] + b, sep) == [a] + Split(b, sep)
    decreases |a|
  {
    var s := a + [sep] + b;
    if |a| == 0 {
      assert s[1..] == b;
    } else {
      assert s[1..] == a[1..] + [sep] + b;
      SplitAtSeparator(a[1..], sep, b);
      assert [a[0]] + a[1..] == a;
    }
  }

  /** Joining with a one-character separator and splitting again is the identity. */
  lemma {:induction false} SplitJoin(parts: seq<string>, sep: char)
    requires |parts| > 0
    requires forall i :: 0 <= i < |parts| ==> sep !in parts[i]
    ensures Split(Join(parts, [sep]), sep) == parts
    decreases |parts|
  {
    if |parts| == 1 {
      SplitWithoutSeparator(parts[0], sep);
    } else {
      SplitJoin(parts[1..], sep);
      SplitAtSeparator(parts[0], sep, Join(parts[1..], [sep]));
      assert [parts[0]] + parts[1..] == parts;
    }
  }

  /** A character in none of the parts nor in the separator is not in their join. */
  lemma {:induction false} JoinAvoids(parts: seq<string>, sep: string, c: char)
    requires c !in sep
    requires forall i :: 0 <= i < |parts| ==> c !in parts[i]
    ensures c !in Join(parts, sep)
    decreases |parts|
  {
    if |parts| > 1 {
      JoinAvoids(parts[1..], sep, c);
    }
  }

  /**
   * Rendering then parsing gives the grid back, for a non-empty grid of
   * non-empty rows whose cells contain no space and no line break.
   */
  lemma VisualGridRoundTrip(grid: seq<seq<string>>)
    requires |grid| > 0
    requires forall i :: 0 <= i < |grid| ==> |grid[i]| > 0
    requires forall i, j :: 0 <= i < |grid| && 0 <= j < |grid[i]| ==> ' ' !in grid[i][j] && '\n' !in grid[i][j]
    ensures ParseVisualGrid(CreateVisualGrid(grid)) == Some(grid)
  {
    var lines := RowLines(grid);
    forall i | 0 <= i < |grid|
      ensures '\n' !in lines[i] && Split(lines[i], ' ') == grid[i]
    {
      JoinAvoids(grid[i], " ", '\n');
      SplitJoin(grid[i], ' ');
    }
    SplitJoin(lines, '\n');
    var s := CreateVisualGrid(grid);
    assert s[|Header|..] == Join(lines, "\n");
    assert Split(s[|Header|..], '\n') == lines;
    var parsed := seq(|lines|, i requires 0 <= i < |lines| => Split(lines[i], ' '));
    assert parsed == grid;
  }
}
