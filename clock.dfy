/** The seven-segment clock face (src/clock.rs): a literal table maps each
    digit and row to a segment shape, each shape renders as padded spans, and
    a time string renders as five lines of spans.

    A span is a run of blank cells: `Raw` cells are plain, `Styled` cells are
    painted in a background colour, which makes them the lit part of a glyph.
    All the text the source renders is spaces, so a span is its width and
    its style. */
module Clock {
  import opened Palette

  datatype Span = Raw(width: nat) | Styled(width: nat, bg: Color)

  datatype Segment = Full | Left | Center | Right | Sides | Empty

  /** `Character::Num` holds the `u32` digit value. */
  datatype Character = Num(n: nat) | Colon | Empty

  // ---------------------------------------------------------------------
  // Widths and lit cells of a row of spans
  // ---------------------------------------------------------------------

  /** The number of terminal cells a row of spans occupies. */
  function Width(spans: seq<Span>): nat
  {
    if spans == [] then 0 else spans[0].width + Width(spans[1..])
  }

  lemma WidthCons(sp: Span, rest: seq<Span>)
    ensures Width([sp] + rest) == sp.width + Width(rest)
  {
    assert ([sp] + rest)[1..] == rest;
  }

  lemma {:induction false} WidthAppend(a: seq<Span>, b: seq<Span>)
    ensures Width(a + b) == Width(a) + Width(b)
    decreases |a|
  {
    if a == [] {
      assert a + b == b;
    } else {
      assert a + b == [a[0]] + (a[1..] + b);
      assert a == [a[0]] + a[1..];
      WidthCons(a[0], a[1..] + b);
      WidthCons(a[0], a[1..]);
      WidthAppend(a[1..], b);
    }
  }

  /** The cells of a row of spans, left to right: true where a cell is lit. */
  function Cells(spans: seq<Span>): (cells: seq<bool>)
    ensures |cells| == Width(spans)
  {
    if spans == [] then []
    else seq(spans[0].width, _ => spans[0].Styled?) + Cells(spans[1..])
  }

  lemma CellsCons(sp: Span, rest: seq<Span>)
    ensures Cells([sp] + rest) == seq(sp.width, _ => sp.Styled?) + Cells(rest)
  {
    assert ([sp] + rest)[1..] == rest;
  }

  // ---------------------------------------------------------------------
  // Segments
  // ---------------------------------------------------------------------

  /** `Segment::fmt`: the full bar is six cells, every block two, and the
      empty segment six plain cells. */
  function SegmentSpan(s: Segment, color: Color): (sp: Span)
    ensures sp.Styled? <==> s != Segment.Empty
    ensures sp.Styled? ==> sp.bg == color
    ensures sp.width == if s == Full || s == Segment.Empty then 6 else 2
  {
    match s
    case Full => Styled(6, color)
    case Left => Styled(2, color)
    case Center => Styled(2, color)
    case Right => Styled(2, color)
    case Sides => Styled(2, color)
    case Empty => Raw(6)
  }

  // ---------------------------------------------------------------------
  // The glyph tables
  // ---------------------------------------------------------------------

  /** The colon's five rows: a block on rows 1 and 3. */
  const COLON: seq<Segment> := [Segment.Empty, Center, Segment.Empty, Center, Segment.Empty]

  /** Five rows per digit, digit `n` at indices `5 * n` to `5 * n + 4`: the
      50 entries of the source's table, one digit per line. */
  const NUMBERS: seq<Segment> :=
    [Full, Sides, Sides, Sides, Full] +    // 0
    [Right, Right, Right, Right, Right] +  // 1
    [Full, Right, Full, Left, Full] +      // 2
    [Full, Right, Full, Right, Full] +     // 3
    [Sides, Sides, Full, Right, Right] +   // 4
    [Full, Left, Full, Right, Full] +      // 5
    [Full, Left, Full, Sides, Full] +      // 6
    [Full, Right, Right, Right, Right] +   // 7
    [Full, Sides, Full, Sides, Full] +     // 8
    [Full, Sides, Full, Right, Full]       // 9

  /** The five rows of digit `n`. */
  function DigitRows(n: nat): (rows: seq<Segment>)
    requires n <= 9
    ensures |rows| == 5
    ensures forall r :: 0 <= r < 5 ==> rows[r] == NUMBERS[n * 5 + r]
  {
    NUMBERS[n * 5 .. n * 5 + 5]
  }

  /** The zero is a full bar, three rows of sides and a full bar; the one is
      five right blocks. */
  lemma DigitPatterns()
    ensures DigitRows(0) == [Full, Sides, Sides, Sides, Full]
    ensures DigitRows(1) == [Right, Right, Right, Right, Right]
    ensures DigitRows(8) == [Full, Sides, Full, Sides, Full]
  {
  }

  /** The digit table only uses the bar, the left and right blocks and the
      sides: no digit row is a centre block or empty. */
  lemma DigitTableShapes(i: nat)
    requires i < |NUMBERS|
    ensures NUMBERS[i] in {Full, Left, Right, Sides}
  {
  }

  /** The table lookup `n * 5 + row` of a row the renderer asks for (0 to 4)
      is in bounds exactly for the digits 0 to 9. */
  lemma {:induction false} DigitIndexInBounds(n: nat, row: nat)
    requires row < 5
    ensures n * 5 + row < |NUMBERS| <==> n <= 9
  {
  }

  // ---------------------------------------------------------------------
  // Characters
  // ---------------------------------------------------------------------

  /** Whether the table lookup of `Character::fmt` is in bounds: the digit
      table is indexed by `n * 5 + row`, the colon table by `row`. */
  predicate InBounds(c: Character, row: nat)
  {
    match c
    case Num(n) => n * 5 + row < |NUMBERS|
    case Colon => row < |COLON|
    case Empty => true
  }

  /** The width every row of a character renders to. */
  function CharWidth(c: Character): nat
  {
    if c.Num? then 7 else 6
  }

  /** A digit row: the segment padded on the right (bar and left block), on
      both sides (centre and right block) or in between (the two sides). */
  function DigitSpans(segment: Segment, color: Color): (spans: seq<Span>)
    ensures 0 < |spans| <= 4
  {
    match segment
    case Full => [SegmentSpan(segment, color), Raw(1)]
    case Left => [SegmentSpan(segment, color), Raw(5)]
    case Center => [Raw(1), SegmentSpan(segment, color), Raw(2)]
    case Right => [Raw(4), SegmentSpan(segment, color), Raw(1)]
    case Sides => [SegmentSpan(segment, color), Raw(2), SegmentSpan(segment, color), Raw(1)]
    case Empty => [Raw(6)]
  }

  /** A colon row: the centre block between two-cell pads, anything else blank. */
  function ColonSpans(segment: Segment, color: Color): (spans: seq<Span>)
    ensures 0 < |spans| <= 3
  {
    match segment
    case Center => [Raw(2), SegmentSpan(segment, color), Raw(2)]
    case Empty => [Raw(6)]
    case _ => [Raw(6)]
  }

  /** `Character::fmt`: the spans of one row of one character; every lit
      cell is painted in `color`. */
  function Fmt(c: Character, color: Color, row: nat): (spans: seq<Span>)
    requires InBounds(c, row)
    ensures 0 < |spans| <= 4
    ensures forall i :: 0 <= i < |spans| && spans[i].Styled? ==> spans[i].bg == color
  {
    match c
    case Num(n) => DigitSpans(NUMBERS[n * 5 + row], color)
    case Colon => ColonSpans(COLON[row], color)
    case Empty => [Raw(6)]
  }

  /** The shapes the digit table uses all pad to seven cells. */
  lemma DigitSpansWidth(segment: Segment, color: Color)
    requires segment in {Full, Left, Right, Sides}
    ensures Width(DigitSpans(segment, color)) == 7
  {
    WidthCons(Raw(1), []);
    match segment
    case Full =>
      WidthCons(Styled(6, color), [Raw(1)]);
    case Left =>
      WidthCons(Raw(5), []);
      WidthCons(Styled(2, color), [Raw(5)]);
    case Right =>
      WidthCons(Styled(2, color), [Raw(1)]);
      WidthCons(Raw(4), [Styled(2, color), Raw(1)]);
    case Sides =>
      WidthCons(Styled(2, color), [Raw(1)]);
      WidthCons(Raw(2), [Styled(2, color), Raw(1)]);
      WidthCons(Styled(2, color), [Raw(2), Styled(2, color), Raw(1)]);
  }

  /** Every colon row is six cells wide. */
  lemma ColonSpansWidth(segment: Segment, color: Color)
    ensures Width(ColonSpans(segment, color)) == 6
  {
    WidthCons(Raw(6), []);
    if segment == Center {
      WidthCons(Raw(2), []);
      WidthCons(Styled(2, color), [Raw(2)]);
      WidthCons(Raw(2), [Styled(2, color), Raw(2)]);
    }
  }

  /** Every row of a digit is seven cells wide, and every row of the colon or
      of a blank character six. */
  lemma FmtWidth(c: Character, color: Color, row: nat)
    requires InBounds(c, row)
    ensures Width(Fmt(c, color, row)) == CharWidth(c)
  {
    match c
    case Num(n) =>
      DigitTableShapes(n * 5 + row);
      DigitSpansWidth(NUMBERS[n * 5 + row], color);
    case Colon =>
      ColonSpansWidth(COLON[row], color);
    case Empty =>
      WidthCons(Raw(6), []);
  }

  /** The cells a digit row of each shape lights. The four shapes the table
      uses are seven columns wide, the last column being the gap before the
      next character; a centre block is five columns and an empty row six. */
  function ShapeCells(s: Segment): seq<bool>
  {
    var o, x := false, true;
    match s
    case Full => [x, x, x, x, x, x, o]
    case Left => [x, x, o, o, o, o, o]
    case Center => [o, x, x, o, o]
    case Right => [o, o, o, o, x, x, o]
    case Sides => [x, x, o, o, x, x, o]
    case Empty => [o, o, o, o, o, o]
  }

  /** Each digit-row shape lights the cells `ShapeCells` draws. */
  lemma DigitSpansCells(segment: Segment, color: Color)
    ensures Cells(DigitSpans(segment, color)) == ShapeCells(segment)
  {
    if segment == Center || segment == Segment.Empty {
      UnusedShapeCells(segment, color);
    } else {
      TableShapeCells(segment, color);
    }
  }

  /** The cells of the four shapes the digit table uses. */
  lemma TableShapeCells(segment: Segment, color: Color)
    requires segment in {Full, Left, Right, Sides}
    ensures Cells(DigitSpans(segment, color)) == ShapeCells(segment)
  {
    var o, x := false, true;
    if segment == Full || segment == Left {
      CellsCons(Raw(1), []);
      CellsCons(Raw(5), []);
      CellsCons(Styled(6, color), [Raw(1)]);
      CellsCons(Styled(2, color), [Raw(5)]);
      assert seq(1, _ => false) == [o];
      assert seq(6, _ => true) == [x, x, x, x, x, x];
      assert seq(5, _ => false) == [o, o, o, o, o];
      assert seq(2, _ => true) == [x, x];
    } else {
      SplitShapeCells(segment, color);
    }
  }

  /** The cells of the two shapes with a leading blank or a gap inside. */
  lemma SplitShapeCells(segment: Segment, color: Color)
    requires segment == Right || segment == Sides
    ensures Cells(DigitSpans(segment, color)) == ShapeCells(segment)
  {
    var o, x := false, true;
    var c := Styled(2, color);
    CellsCons(Raw(1), []);
    CellsCons(c, [Raw(1)]);
    assert Cells([c, Raw(1)]) == [x, x, o] by {
      assert seq(1, _ => false) == [o];
      assert seq(2, _ => true) == [x, x];
    }
    if segment == Right {
      CellsCons(Raw(4), [c, Raw(1)]);
      assert seq(4, _ => false) == [o, o, o, o];
    } else {
      CellsCons(Raw(2), [c, Raw(1)]);
      CellsCons(c, [Raw(2), c, Raw(1)]);
      assert Cells([Raw(2), c, Raw(1)]) == [o, o, x, x, o] by {
        assert seq(2, _ => false) == [o, o];
      }
      assert seq(2, _ => true) == [x, x];
    }
  }

  /** The cells of the two shapes no digit row uses. */
  lemma UnusedShapeCells(segment: Segment, color: Color)
    requires segment == Center || segment == Segment.Empty
    ensures Cells(DigitSpans(segment, color)) == ShapeCells(segment)
  {
    var o, x := false, true;
    if segment == Center {
      CellsCons(Raw(2), []);
      CellsCons(Styled(2, color), [Raw(2)]);
      CellsCons(Raw(1), [Styled(2, color), Raw(2)]);
      assert seq(1, _ => false) == [o];
      assert seq(2, _ => false) == [o, o];
      assert seq(2, _ => true) == [x, x];
    } else {
      CellsCons(Raw(6), []);
      assert seq(6, _ => false) == [o, o, o, o, o, o];
    }
  }

  /** Every digit row lights exactly the cells of its shape, so the seventh
      column is never lit and neighbouring digits never touch. */
  lemma DigitRowCells(n: nat, color: Color, row: nat)
    requires n * 5 + row < |NUMBERS|
    ensures Cells(Fmt(Num(n), color, row)) == ShapeCells(NUMBERS[n * 5 + row])
    ensures |Cells(Fmt(Num(n), color, row))| == 7 && !Cells(Fmt(Num(n), color, row))[6]
  {
    var segment := NUMBERS[n * 5 + row];
    assert Fmt(Num(n), color, row) == DigitSpans(segment, color);
    DigitSpansCells(segment, color);
    DigitTableShapes(n * 5 + row);
    TableShapeGap(segment);
  }

  /** The four shapes of the digit table are seven cells with the last unlit. */
  lemma TableShapeGap(segment: Segment)
    requires segment in {Full, Left, Right, Sides}
    ensures |ShapeCells(segment)| == 7 && !ShapeCells(segment)[6]
  {
  }

  /** The glyph of each digit 0 to 9: its five rendered rows light the cells
      of the five shapes the table lists for it, top to bottom. */
  lemma DigitGlyph(n: nat, color: Color)
    requires n <= 9
    ensures forall r :: 0 <= r < 5 ==> Cells(Fmt(Num(n), color, r)) == ShapeCells(DigitRows(n)[r])
  {
    forall r | 0 <= r < 5
      ensures Cells(Fmt(Num(n), color, r)) == ShapeCells(DigitRows(n)[r])
    {
      DigitIndexInBounds(n, r);
      DigitRowCells(n, color, r);
    }
  }

  /** The rendered glyph of the one: a lit pair in columns 5 and 6 on all
      five rows. */
  lemma OneGlyph(color: Color)
    ensures forall r :: 0 <= r < 5 ==>
      Cells(Fmt(Num(1), color, r)) == [false, false, false, false, true, true, false]
  {
    DigitPatterns();
    DigitGlyph(1, color);
  }

  /** The colon lights the middle two of its six cells on rows 1 and 3 and
      nothing on rows 0, 2 and 4; a blank character lights nothing. */
  lemma ColonAndBlankRows(color: Color, row: nat)
    requires row < 5
    ensures row == 1 || row == 3 ==> Fmt(Colon, color, row) == [Raw(2), Styled(2, color), Raw(2)]
    ensures row != 1 && row != 3 ==> Fmt(Colon, color, row) == [Raw(6)]
    ensures Fmt(Character.Empty, color, row) == [Raw(6)]
  {
  }

  // ---------------------------------------------------------------------
  // The clock face
  // ---------------------------------------------------------------------

  predicate IsAsciiDigit(ch: char)
  {
    '0' <= ch <= '9'
  }

  /** How `render_clock` reads a character of the time string. */
  function Classify(ch: char): (c: Character)
    ensures c == Colon <==> ch == ':'
    ensures c.Num? <==> IsAsciiDigit(ch)
    ensures c.Num? ==> c.n <= 9 && c.n == ch as int - '0' as int
  {
    if ch == ':' then Colon
    else if IsAsciiDigit(ch) then Num(ch as int - '0' as int)
    else Character.Empty
  }

  /** The number of ASCII digits in `s`. */
  function DigitCount(s: string): nat
  {
    if s == [] then 0
    else DigitCount(s[..|s| - 1]) + (if IsAsciiDigit(s[|s| - 1]) then 1 else 0)
  }

  lemma DigitCountStep(s: string, k: nat)
    requires k < |s|
    ensures DigitCount(s[..k + 1]) == DigitCount(s[..k]) + (if IsAsciiDigit(s[k]) then 1 else 0)
  {
    assert s[..k + 1][..k] == s[..k];
  }

  /** Line `row` of the clock face: the spans of every character of `time`,
      in order. Each digit takes seven cells and every other character six. */
  function RenderRow(time: string, color: Color, row: nat): (line: seq<Span>)
    requires row < 5
    ensures Width(line) == 6 * |time| + DigitCount(time)
  {
    if time == [] then []
    else
      var init := RenderRow(time[..|time| - 1], color, row);
      var last := Fmt(Classify(time[|time| - 1]), color, row);
      FmtWidth(Classify(time[|time| - 1]), color, row);
      WidthAppend(init, last);
      init + last
  }

  /** Rendering one more character appends its spans. */
  lemma RenderRowSnoc(s: string, ch: char, color: Color, row: nat)
    requires row < 5
    ensures RenderRow(s + [ch], color, row) == RenderRow(s, color, row) + Fmt(Classify(ch), color, row)
  {
    assert (s + [ch])[..|s|] == s;
  }

  /** Rendering a concatenation is concatenating the renderings. */
  lemma {:induction false} RenderRowAppend(s: string, t: string, color: Color, row: nat)
    requires row < 5
    ensures RenderRow(s + t, color, row) == RenderRow(s, color, row) + RenderRow(t, color, row)
    decreases |t|
  {
    if t == [] {
      assert s + t == s;
    } else {
      var t', ch := t[..|t| - 1], t[|t| - 1];
      assert t == t' + [ch];
      RenderRowAppend(s, t', color, row);
      AppendAssoc(s, t', [ch]);
      RenderRowSnoc(s + t', ch, color, row);
      RenderRowSnoc(t', ch, color, row);
      AppendAssoc(RenderRow(s, color, row), RenderRow(t', color, row), Fmt(Classify(ch), color, row));
    }
  }

  /** Concatenation is associative. */
  lemma AppendAssoc<T>(a: seq<T>, b: seq<T>, c: seq<T>)
    ensures (a + b) + c == a + (b + c)
  {
  }

  /** `render_clock`'s loops: five lines, line `row` made of the spans of
      every character of `time` at that row. */
  method RenderClock(time: string, color: Color) returns (lines: seq<seq<Span>>)
    ensures |lines| == 5
    ensures forall row :: 0 <= row < 5 ==> lines[row] == RenderRow(time, color, row)
    ensures forall row :: 0 <= row < 5 ==> Width(lines[row]) == 6 * |time| + DigitCount(time)
  {
    lines := [];
    for row := 0 to 5
      invariant |lines| == row
      invariant forall r :: 0 <= r < row ==> lines[r] == RenderRow(time, color, r)
    {
      var lineSpans := [];
      for i := 0 to |time|
        invariant lineSpans == RenderRow(time[..i], color, row)
      {
        assert time[..i + 1][..i] == time[..i];
        lineSpans := lineSpans + Fmt(Classify(time[i]), color, row);
      }
      assert time[..|time|] == time;
      lines := lines + [lineSpans];
    }
  }

  /** A string of the form "HH:MM:SS": six ASCII digits and two colons. */
  predicate IsTimeString(s: string)
  {
    |s| == 8 && s[2] == ':' && s[5] == ':' &&
    IsAsciiDigit(s[0]) && IsAsciiDigit(s[1]) && IsAsciiDigit(s[3]) &&
    IsAsciiDigit(s[4]) && IsAsciiDigit(s[6]) && IsAsciiDigit(s[7])
  }

  /** Every line of the clock face of a time string is 6 * 7 + 2 * 6 = 54
      cells wide. */
  lemma TimeLineWidth(time: string, color: Color, row: nat)
    requires IsTimeString(time) && row < 5
    ensures Width(RenderRow(time, color, row)) == 54
  {
    assert time[..0] == [];
    DigitCountStep(time, 0);
    DigitCountStep(time, 1);
    DigitCountStep(time, 2);
    assert DigitCount(time[..3]) == 2;
    DigitCountStep(time, 3);
    DigitCountStep(time, 4);
    DigitCountStep(time, 5);
    assert DigitCount(time[..6]) == 4;
    DigitCountStep(time, 6);
    DigitCountStep(time, 7);
    assert time[..8] == time;
  }
}
