/**
 * The six-line text layout of a cube (src/app.py:441-504): the U face on two
 * lines, then the L, F, R and B faces side by side on two lines, then the D
 * face on two lines.
 *
 *   U0 U1
 *   U2 U3
 *   L0 L1 F0 F1 R0 R1 B0 B1
 *   L2 L3 F2 F3 R2 R3 B2 B3
 *   D0 D1
 *   D2 D3
 */
module Layout {
  import opened Results
  import opened Colours
  import opened Facelets
  import opened Packing

  const NUM_LINES: nat := 6

  /** The sticker shown at each column of each line. */
  const LAYOUT: seq<seq<nat>> := [
    [0, 1],
    [2, 3],
    [16, 17, 4, 5, 8, 9, 12, 13],
    [18, 19, 6, 7, 10, 11, 14, 15],
    [20, 21],
    [22, 23]
  ]

  /** The line each sticker is shown on. */
  const ROW: seq<nat> := [0, 0, 1, 1, 2, 2, 3, 3, 2, 2, 3, 3, 2, 2, 3, 3, 2, 2, 3, 3, 4, 4, 5, 5]

  /** The column each sticker is shown in. */
  const COL: seq<nat> := [0, 1, 0, 1, 2, 3, 2, 3, 4, 5, 4, 5, 6, 7, 6, 7, 0, 1, 0, 1, 0, 1, 0, 1]

  /** ROW and COL locate every sticker in the layout, and every cell of the layout shows the sticker located there. */
  lemma LayoutCells()
    ensures |LAYOUT| == NUM_LINES && |ROW| == NUM_STICKERS && |COL| == NUM_STICKERS
    ensures forall i :: 0 <= i < NUM_STICKERS ==>
      ROW[i] < NUM_LINES && COL[i] < |LAYOUT[ROW[i]]| && LAYOUT[ROW[i]][COL[i]] == i
    ensures forall r, c :: 0 <= r < NUM_LINES && 0 <= c < |LAYOUT[r]| ==>
      LAYOUT[r][c] < NUM_STICKERS && ROW[LAYOUT[r][c]] == r && COL[LAYOUT[r][c]] == c
  {
    forall i | 0 <= i < NUM_STICKERS
      ensures ROW[i] < NUM_LINES && COL[i] < |LAYOUT[ROW[i]]| && LAYOUT[ROW[i]][COL[i]] == i
    {
      if i < 8 {
      } else if i < 16 {
      } else {
      }
    }
    forall r, c | 0 <= r < NUM_LINES && 0 <= c < |LAYOUT[r]|
      ensures LAYOUT[r][c] < NUM_STICKERS && ROW[LAYOUT[r][c]] == r && COL[LAYOUT[r][c]] == c
    {
      if r < 2 {
      } else if r == 2 {
      } else if r == 3 {
      } else {
      }
    }
  }

  /** Line r of the layout of `s`. */
  function LayoutLine(s: string, r: nat): (line: string)
    requires |s| == NUM_STICKERS && r < NUM_LINES
    ensures |line| == |LAYOUT[r]|
  {
    LayoutCells();
    seq(|LAYOUT[r]|, c requires 0 <= c < |LAYOUT[r]| => s[LAYOUT[r][c]])
  }

  /** Lines joined with a newline between consecutive ones. */
  function Join(lines: seq<string>): string
    decreases |lines|
  {
    if lines == [] then []
    else if |lines| == 1 then lines[0]
    else lines[0] + "\n" + Join(lines[1..])
  }

  /** `_generate_file_content_from_state`: the six lines of the layout joined by newlines. */
  function Generate(s: string): string
    requires |s| == NUM_STICKERS
  {
    Join(LayoutLines(s))
  }

  /** The six lines of the layout of `s`. */
  function LayoutLines(s: string): (lines: seq<string>)
    requires |s| == NUM_STICKERS
    ensures |lines| == NUM_LINES
  {
    seq(NUM_LINES, r requires 0 <= r < NUM_LINES => LayoutLine(s, r))
  }

  /** The characters `str.isspace` accepts, which `str.strip()` removes from both ends. */
  predicate IsSpace(ch: char)
  {
    || ('\t' <= ch <= '\r')                   // tab, newline, vertical tab, form feed, carriage return
    || ('\U{1c}' <= ch <= '\U{1f}')           // file, group, record and unit separators
    || ch == ' ' || ch == '\U{85}' || ch == '\U{a0}' || ch == '\U{1680}'
    || ('\U{2000}' <= ch <= '\U{200a}')
    || ch == '\U{2028}' || ch == '\U{2029}' || ch == '\U{202f}' || ch == '\U{205f}' || ch == '\U{3000}'
  }

  function StripLeft(s: string): (t: string)
    ensures t == [] || !IsSpace(t[0])
    ensures |t| <= |s| && t == s[|s| - |t|..]
  {
    if s != [] && IsSpace(s[0]) then StripLeft(s[1..]) else s
  }

  function StripRight(s: string): (t: string)
    ensures t == [] || !IsSpace(t[|t| - 1])
    ensures |t| <= |s| && t == s[..|t|]
  {
    if s != [] && IsSpace(s[|s| - 1]) then StripRight(s[..|s| - 1]) else s
  }

  /** `str.strip()`. */
  function Strip(s: string): string
  {
    StripRight(StripLeft(s))
  }

  /** `str.split('\n')`: the pieces between newlines, one more than there are newlines. */
  function Split(s: string): (pieces: seq<string>)
    ensures |pieces| >= 1
    ensures forall k :: 0 <= k < |pieces| ==> '\n' !in pieces[k]
  {
    if s == [] then [""]
    else
      var rest := Split(s[1..]);
      if s[0] == '\n' then [""] + rest else [[s[0]] + rest[0]] + rest[1..]
  }

  /** Splitting joined newline-free lines gives the lines back. */
  lemma {:induction false} SplitJoin(lines: seq<string>)
    requires |lines| >= 1
    requires forall k :: 0 <= k < |lines| ==> '\n' !in lines[k]
    ensures Split(Join(lines)) == lines
    decreases |lines|
  {
    if |lines| == 1 {
      SplitNoNewline(lines[0]);
    } else {
      SplitJoin(lines[1..]);
      SplitAfterNewline(lines[0], Join(lines[1..]));
    }
  }

  lemma {:induction false} SplitNoNewline(a: string)
    requires '\n' !in a
    ensures Split(a) == [a]
  {
    if a != [] {
      assert a == [a[0]] + a[1..];
      assert '\n' !in a[1..];
      SplitNoNewline(a[1..]);
    }
  }

  lemma {:induction false} SplitAfterNewline(a: string, b: string)
    requires '\n' !in a
    ensures Split(a + "\n" + b) == [a] + Split(b)
  {
    if a == [] {
      assert a + "\n" + b == "\n" + b;
      assert ("\n" + b)[0] == '\n';
      assert ("\n" + b)[1..] == b;
    } else {
      assert (a + "\n" + b)[0] == a[0] != '\n';
      assert (a + "\n" + b)[1..] == a[1..] + "\n" + b;
      assert '\n' !in a[1..];
      SplitAfterNewline(a[1..], b);
      assert [a[0]] + a[1..] == a;
    }
  }

  /** The errors of `_parse_file_content_to_state`. */
  datatype ParseError =
    | WrongLineCount(found: nat)           // ValueError: not exactly 6 lines
    | LineTooShort                         // IndexError from `lines[r][c]`
    | InvalidColorChar(ch: char)           // ValueError naming the first bad character
    | InvalidColorCount(colour: char, found: nat)  // ValueError naming the first colour not present 4 times

  function Lines(content: string): seq<string>
  {
    Split(Strip(content))
  }

  /** Every line is long enough for the columns the layout reads from it. */
  predicate LongEnough(lines: seq<string>)
    requires |lines| == NUM_LINES
  {
    forall r :: 0 <= r < NUM_LINES ==> |lines[r]| >= |LAYOUT[r]|
  }

  /** The 24 stickers, in sticker order, each read from the cell the layout shows it in. */
  function Placed(lines: seq<string>): (s: string)
    requires |lines| == NUM_LINES && LongEnough(lines)
    ensures |s| == NUM_STICKERS
  {
    [lines[0][0], lines[0][1], lines[1][0], lines[1][1],
     lines[2][2], lines[2][3], lines[3][2], lines[3][3],
     lines[2][4], lines[2][5], lines[3][4], lines[3][5],
     lines[2][6], lines[2][7], lines[3][6], lines[3][7],
     lines[2][0], lines[2][1], lines[3][0], lines[3][1],
     lines[4][0], lines[4][1], lines[5][0], lines[5][1]]
  }

  /** The index of the first character that is not a colour letter. */
  function FirstInvalid(s: string): (k: nat)
    requires !AllColourLetters(s)
    ensures k < |s| && !IsColourLetter(s[k]) && AllColourLetters(s[..k])
  {
    if !IsColourLetter(s[0]) then 0
    else
      assert !AllColourLetters(s[1..]) by {
        var j :| 0 <= j < |s| && !IsColourLetter(s[j]);
        assert s[1..][j - 1] == s[j];
      }
      var k := FirstInvalid(s[1..]);
      assert s[..k + 1] == [s[0]] + s[1..][..k];
      k + 1
  }

  /** Every colour letter occurs exactly four times. */
  predicate FourOfEach(s: string)
  {
    forall k :: 0 <= k < NUM_COLOURS ==> multiset(s)[LETTERS[k]] == 4
  }

  /** The position in W, Y, R, O, B, G order of the first colour not occurring four times. */
  function FirstMiscounted(s: string): (k: nat)
    requires !FourOfEach(s)
    ensures k < NUM_COLOURS && multiset(s)[LETTERS[k]] != 4
    ensures forall j :: 0 <= j < k ==> multiset(s)[LETTERS[j]] == 4
  {
    FirstMiscountedFrom(s, 0)
  }

  function FirstMiscountedFrom(s: string, from: nat): (k: nat)
    requires from <= NUM_COLOURS
    requires exists j :: from <= j < NUM_COLOURS && multiset(s)[LETTERS[j]] != 4
    ensures from <= k < NUM_COLOURS && multiset(s)[LETTERS[k]] != 4
    ensures forall j :: from <= j < k ==> multiset(s)[LETTERS[j]] == 4
    decreases NUM_COLOURS - from
  {
    if multiset(s)[LETTERS[from]] != 4 then from else FirstMiscountedFrom(s, from + 1)
  }

  /** What `_parse_file_content_to_state` returns or raises for a file content. */
  function ParseResult(content: string): Result<string, ParseError>
  {
    var lines := Lines(content);
    if |lines| != NUM_LINES then Failure(WrongLineCount(|lines|))
    else if !LongEnough(lines) then Failure(LineTooShort)
    else CheckStickers(Placed(lines))
  }

  /** The two validations of the filled stickers: every character first, then every colour's count. */
  function CheckStickers(s: string): Result<string, ParseError>
  {
    if !AllColourLetters(s) then Failure(InvalidColorChar(s[FirstInvalid(s)]))
    else if !FourOfEach(s) then
      var k := FirstMiscounted(s);
      Failure(InvalidColorCount(LETTERS[k], multiset(s)[LETTERS[k]]))
    else Success(s)
  }

  /** The 24 assignments of `parsed_state` from the cells of the six lines. */
  method FillStickers(lines: seq<string>) returns (s: string)
    requires |lines| == NUM_LINES && LongEnough(lines)
    ensures s == Placed(lines)
  {
    var parsed := seq(NUM_STICKERS, _ => ' ');
    // U face
    parsed := parsed[0 := lines[0][0]];
    parsed := parsed[1 := lines[0][1]];
    parsed := parsed[2 := lines[1][0]];
    parsed := parsed[3 := lines[1][1]];
    // middle faces, L-F-R-B
    parsed := parsed[16 := lines[2][0]];
    parsed := parsed[17 := lines[2][1]];
    parsed := parsed[4 := lines[2][2]];
    parsed := parsed[5 := lines[2][3]];
    parsed := parsed[8 := lines[2][4]];
    parsed := parsed[9 := lines[2][5]];
    parsed := parsed[12 := lines[2][6]];
    parsed := parsed[13 := lines[2][7]];
    parsed := parsed[18 := lines[3][0]];
    parsed := parsed[19 := lines[3][1]];
    parsed := parsed[6 := lines[3][2]];
    parsed := parsed[7 := lines[3][3]];
    parsed := parsed[10 := lines[3][4]];
    parsed := parsed[11 := lines[3][5]];
    parsed := parsed[14 := lines[3][6]];
    parsed := parsed[15 := lines[3][7]];
    // D face
    parsed := parsed[20 := lines[4][0]];
    parsed := parsed[21 := lines[4][1]];
    parsed := parsed[22 := lines[5][0]];
    parsed := parsed[23 := lines[5][1]];
    s := parsed;
    forall i | 0 <= i < NUM_STICKERS
      ensures s[i] == Placed(lines)[i]
    {
    }
  }

  /**
   * `_parse_file_content_to_state`: strips and splits the content, fills the
   * 24 stickers from the layout's cells, then checks every character and
   * every colour's count.
   */
  method ParseFileContent(content: string) returns (r: Result<string, ParseError>)
    ensures r == ParseResult(content)
    ensures r.Success? ==> |r.value| == NUM_STICKERS && AllColourLetters(r.value) && FourOfEach(r.value)
  {
    var lines := Split(Strip(content));
    if |lines| != NUM_LINES {
      return Failure(WrongLineCount(|lines|));
    }
    if !LongEnough(lines) {
      // the first `lines[r][c]` past the end of a line raises IndexError
      return Failure(LineTooShort);
    }
    var s := FillStickers(lines);
    r := ValidateStickers(s);
  }

  /**
   * The validation loops of `_parse_file_content_to_state`: the first
   * character that is not a colour letter is reported, then the first colour,
   * in W, Y, R, O, B, G order, that does not occur exactly four times.
   */
  method ValidateStickers(s: string) returns (r: Result<string, ParseError>)
    ensures r == CheckStickers(s)
    ensures r.Success? ==> r.value == s && AllColourLetters(s) && FourOfEach(s)
  {
    for i := 0 to |s|
      invariant AllColourLetters(s[..i])
    {
      if !IsColourLetter(s[i]) {
        FirstInvalidUnique(s, i);
        return Failure(InvalidColorChar(s[i]));
      }
      assert s[..i + 1] == s[..i] + [s[i]];
    }
    assert s[..|s|] == s;

    for k := 0 to NUM_COLOURS
      invariant forall j :: 0 <= j < k ==> multiset(s)[LETTERS[j]] == 4
    {
      var count := multiset(s)[LETTERS[k]];
      if count != 4 {
        FirstMiscountedUnique(s, k);
        return Failure(InvalidColorCount(LETTERS[k], count));
      }
    }
    return Success(s);
  }

  lemma FirstInvalidUnique(s: string, i: nat)
    requires i < |s| && !IsColourLetter(s[i]) && AllColourLetters(s[..i])
    ensures FirstInvalid(s) == i
  {
  }

  lemma FirstMiscountedUnique(s: string, k: nat)
    requires k < NUM_COLOURS && multiset(s)[LETTERS[k]] != 4
    requires forall j :: 0 <= j < k ==> multiset(s)[LETTERS[j]] == 4
    ensures FirstMiscounted(s) == k
  {
  }

  /** A string of 24 colour letters with four of each colour. */
  predicate ValidState(s: string)
  {
    |s| == NUM_STICKERS && AllColourLetters(s) && FourOfEach(s)
  }

  /** Parsing a generated file gives back the 24 stickers of a valid state. */
  lemma ParseGenerate(s: string)
    requires ValidState(s)
    ensures ParseResult(Generate(s)) == Success(s)
  {
    GeneratedLines(s);
    PlacedLayout(s);
  }

  /** Stripping and splitting a generated file gives back its six lines. */
  lemma GeneratedLines(s: string)
    requires |s| == NUM_STICKERS && AllColourLetters(s)
    ensures Lines(Generate(s)) == LayoutLines(s)
  {
    GeneratedStripped(s);
    LayoutColours(s);
    SplitJoin(LayoutLines(s));
  }

  /** A generated file has no white space at either end. */
  lemma GeneratedStripped(s: string)
    requires |s| == NUM_STICKERS && AllColourLetters(s)
    ensures Strip(Generate(s)) == Generate(s)
  {
    var lines := LayoutLines(s);
    LayoutColours(s);
    JoinEnds(lines);
    assert |lines[5]| == 2;
    StripColours(Join(lines));
  }

  /** Every cell of the layout of colour letters holds a colour letter, never a newline. */
  lemma LayoutColours(s: string)
    requires |s| == NUM_STICKERS && AllColourLetters(s)
    ensures forall k :: 0 <= k < NUM_LINES ==> LayoutLines(s)[k] != [] && '\n' !in LayoutLines(s)[k]
    ensures IsColourLetter(LayoutLines(s)[0][0]) && IsColourLetter(LayoutLines(s)[5][1])
  {
    var lines := LayoutLines(s);
    LayoutCells();
    forall k | 0 <= k < NUM_LINES
      ensures lines[k] != [] && '\n' !in lines[k]
    {
      forall c | 0 <= c < |lines[k]|
        ensures lines[k][c] != '\n'
      {
        assert IsColourLetter(s[LAYOUT[k][c]]);
      }
    }
    assert lines[0][0] == s[0] && lines[5][1] == s[23];
  }

  /** Reading the layout's cells of the layout of `s` gives `s` back. */
  lemma PlacedLayout(s: string)
    requires |s| == NUM_STICKERS
    ensures LongEnough(LayoutLines(s)) && Placed(LayoutLines(s)) == s
  {
    LayoutCells();
  }

  /** A joined text starts with the first line's first character and ends with the last line's last character. */
  lemma {:induction false} JoinEnds(lines: seq<string>)
    requires |lines| >= 1 && forall k :: 0 <= k < |lines| ==> lines[k] != []
    ensures Join(lines) != []
    ensures Join(lines)[0] == lines[0][0]
    ensures Join(lines)[|Join(lines)| - 1] == lines[|lines| - 1][|lines[|lines| - 1]| - 1]
    decreases |lines|
  {
    if |lines| > 1 {
      JoinEnds(lines[1..]);
    }
  }

  /** No colour letter is white space. */
  lemma ColourNotSpace(ch: char)
    requires IsColourLetter(ch)
    ensures !IsSpace(ch)
  {
    assert ch == 'W' || ch == 'Y' || ch == 'R' || ch == 'O' || ch == 'B' || ch == 'G';
  }

  /** Stripping a text that starts and ends with colour letters changes nothing. */
  lemma StripColours(content: string)
    requires content != [] && IsColourLetter(content[0]) && IsColourLetter(content[|content| - 1])
    ensures Strip(content) == content
  {
    ColourNotSpace(content[0]);
    ColourNotSpace(content[|content| - 1]);
    assert StripLeft(content) == content;
    assert StripRight(content) == content;
  }
}
