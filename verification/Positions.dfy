/** Conversion between byte offsets and (line, UTF-16 column) positions, both counted as in section
    "Position" of LSP 3.17, with CRLF as one line break. Text is a sequence of characters. */
module Positions {
  import opened Decimal

  function Utf8(c: char): (n: nat)
    ensures 1 <= n <= 4
  {
    var v := c as int;
    if v < 0x80 then 1 else if v < 0x800 then 2 else if v < 0x10000 then 3 else 4
  }

  function Utf16(c: char): (n: nat)
    ensures 1 <= n <= 2
  {
    if c as int < 0x10000 then 1 else 2
  }

  /** How many code points are below those that need more than `n` bytes: one byte carries 7 bits, and `n` of
      them carry 5n + 1. */
  function Capacity(n: nat): nat { if n == 1 then 128 else Power2(5 * n + 1) }

  function Power2(n: nat): nat { if n == 0 then 1 else 2 * Power2(n - 1) }

  /** The shortest encodings: the fewest bytes that can carry the code point, and two UTF-16 units if and only if
      it does not fit 16 bits. */
  lemma EncodingsAreShortest(c: char)
    ensures c as int < Capacity(Utf8(c)) && forall n: nat :: 0 < n < Utf8(c) ==> Capacity(n) <= c as int
    ensures Utf16(c) == 2 <==> c as int >= Power2(16)
  {
    PowersAre();
  }

  lemma PowersAre()
    ensures Capacity(1) == 0x80 && Capacity(2) == 0x800 && Capacity(3) == 0x10000 && Capacity(4) == 0x200000 && Power2(16) == 0x10000
  {
    assert Power2(4) == 16 && Power2(8) == 256 && Power2(11) == 0x800 && Power2(12) == 0x1000;
    assert Power2(16) == 0x10000 && Power2(20) == 0x100000 && Power2(21) == 0x200000;
  }

  function Bytes(s: string): nat { if s == "" then 0 else Bytes(s[..|s| - 1]) + Utf8(s[|s| - 1]) }

  function Units(s: string): nat { if s == "" then 0 else Units(s[..|s| - 1]) + Utf16(s[|s| - 1]) }

  function Breaks(s: string): nat { if s == "" then 0 else Breaks(s[..|s| - 1]) + if s[|s| - 1] == '\n' then 1 else 0 }

  /** The byte offset of character `k`. */
  function Offset(text: string, k: nat): nat
    requires k <= |text|
  {
    Bytes(text[..k])
  }

  /** Between the two characters of a CRLF. */
  predicate Inside(text: string, k: nat) { 0 < k < |text| && text[k - 1] == '\r' && text[k] == '\n' }

  /** The first character of the line `k` is on. */
  function LineStart(text: string, k: nat): (start: nat)
    requires k <= |text|
    ensures start <= k
    ensures forall i :: start <= i < k ==> text[i] != '\n'
    ensures start > 0 ==> text[start - 1] == '\n'
  {
    if k == 0 || text[k - 1] == '\n' then k else LineStart(text, k - 1)
  }

  /** Lines are counted from 1 by line feeds. */
  function Line(text: string, k: nat): nat
    requires k <= |text|
  {
    1 + Breaks(text[..k])
  }

  /** Columns are counted from 1 by the UTF-16 units before them on the line, the CR of a CRLF not
      counted. */
  function Column(text: string, k: nat): nat
    requires k <= |text|
  {
    1 + Units(text[LineStart(text, k)..if Inside(text, k) then k - 1 else k])
  }

  /** The position (line, column) is that of character `k`, and `k` is not inside a CRLF. */
  ghost predicate At(text: string, k: nat, line: nat, column: nat) {
    k <= |text| && !Inside(text, k) && Line(text, k) == line && Column(text, k) == column
  }

  // ----- prefixes -----

  lemma StepPrefix(text: string, k: nat)
    requires k < |text|
    ensures Offset(text, k + 1) == Offset(text, k) + Utf8(text[k])
    ensures Line(text, k + 1) == Line(text, k) + if text[k] == '\n' then 1 else 0
  {
    assert text[..k + 1][..k] == text[..k];
  }

  lemma {:induction false} OffsetIncreases(text: string, i: nat, j: nat)
    requires i < j <= |text|
    ensures Offset(text, i) < Offset(text, j)
  {
    StepPrefix(text, j - 1);
    if i < j - 1 { OffsetIncreases(text, i, j - 1); }
  }

  lemma {:induction false} LineGrows(text: string, i: nat, j: nat)
    requires i <= j <= |text|
    ensures Line(text, i) <= Line(text, j)
    ensures Line(text, i) == Line(text, j) <==> forall p :: i <= p < j ==> text[p] != '\n'
  {
    if i < j {
      LineGrows(text, i, j - 1);
      StepPrefix(text, j - 1);
    }
  }

  lemma {:induction false} UnitsIncrease(text: string, a: nat, i: nat, j: nat)
    requires a <= i < j <= |text|
    ensures Units(text[a..i]) < Units(text[a..j])
  {
    assert text[a..j][..j - 1 - a] == text[a..j - 1];
    if i < j - 1 { UnitsIncrease(text, a, i, j - 1); }
  }

  /** On one line, the line starts agree. */
  lemma SameLine(text: string, i: nat, j: nat)
    requires i <= j <= |text| && Line(text, i) == Line(text, j)
    ensures LineStart(text, i) == LineStart(text, j)
  {
    LineGrows(text, i, j);
    var a, b := LineStart(text, i), LineStart(text, j);
    assert b <= i;
  }

  /** Different characters have different positions, apart from those inside a CRLF. */
  lemma PositionInjective(text: string, i: nat, j: nat, line: nat, column: nat)
    requires At(text, i, line, column) && At(text, j, line, column)
    ensures i == j
  {
    if i < j {
      SameLine(text, i, j);
      UnitsIncrease(text, LineStart(text, i), i, j);
    } else if j < i {
      SameLine(text, j, i);
      UnitsIncrease(text, LineStart(text, j), j, i);
    }
  }

  // ----- offset to position -----

  /** The character a byte offset belongs to: the first at or after it. */
  function CharAt(text: string, offset: nat): (k: nat)
    ensures k <= |text|
    ensures k > 0 ==> Offset(text, k - 1) < offset
    ensures k < |text| ==> Offset(text, k) >= offset
  {
    CharFrom(text, offset, 0)
  }

  function CharFrom(text: string, offset: nat, i: nat): (k: nat)
    requires i <= |text| && (i > 0 ==> Offset(text, i - 1) < offset)
    ensures i <= k <= |text|
    ensures k > 0 ==> Offset(text, k - 1) < offset
    ensures k < |text| ==> Offset(text, k) >= offset
    decreases |text| - i
  {
    if i == |text| || Offset(text, i) >= offset then i else CharFrom(text, offset, i + 1)
  }

  lemma CharAtIs(text: string, offset: nat, k: nat)
    requires k <= |text| && (k > 0 ==> Offset(text, k - 1) < offset) && (k < |text| ==> Offset(text, k) >= offset)
    ensures CharAt(text, offset) == k
  {
    var j := CharAt(text, offset);
    if j < k && j < k - 1 { OffsetIncreases(text, j, k - 1); }
    if k < j && k < j - 1 { OffsetIncreases(text, k, j - 1); }
  }

  lemma CharAtBoundary(text: string, k: nat)
    requires k <= |text|
    ensures CharAt(text, Offset(text, k)) == k
  {
    if k > 0 { OffsetIncreases(text, k - 1, k); }
    CharAtIs(text, Offset(text, k), k);
  }

  lemma ColumnStep(text: string, k: nat)
    requires k < |text|
    ensures Column(text, k + 1) == if text[k] == '\n' then 1
                                   else if text[k] == '\r' && k + 1 < |text| && text[k + 1] == '\n' then Column(text, k)
                                   else Column(text, k) + Utf16(text[k])
  {
    var start := LineStart(text, k);
    if text[k] != '\n' {
      assert LineStart(text, k + 1) == start && !Inside(text, k);
      assert text[start..k + 1][..k - start] == text[start..k];
    }
  }

  /** `offset_to_line_col`. */
  method OffsetToLineCol(text: string, offset: nat) returns (line: nat, column: nat)
    ensures line == Line(text, CharAt(text, offset)) && column == Column(text, CharAt(text, offset))
  {
    line, column := 1, 1;
    var k, i := 0, 0;
    while k < |text|
      invariant k <= |text| && i == Offset(text, k)
      invariant line == Line(text, k) && column == Column(text, k)
      invariant k > 0 ==> Offset(text, k - 1) < offset
    {
      if i >= offset { break; }
      var c := text[k];
      StepPrefix(text, k);
      ColumnStep(text, k);
      if c == '\n' {
        line, column := line + 1, 1;
      } else if c != '\r' || k + 1 == |text| || text[k + 1] != '\n' {
        column := column + Utf16(c);
      }
      i, k := i + Utf8(c), k + 1;
    }
    CharAtIs(text, offset, k);
  }

  // ----- position to offset -----

  /** The characters of one line that have positions of their own: from its start up to its end,
      which is before a CRLF or LF or at the end of the text. */
  ghost predicate LineSpan(text: string, start: nat, end: nat) {
    && start <= end <= |text| && LineStart(text, start) == start
    && (forall i :: start <= i < end ==> text[i] != '\n')
    && (end < |text| ==> text[end] == '\n' || Inside(text, end + 1))
    && !Inside(text, end) && (end == |text| || text[end] == '\n' || end + 1 < |text|)
  }

  lemma SpanColumns(text: string, start: nat, end: nat, k: nat)
    requires LineSpan(text, start, end) && start <= k <= end
    ensures Line(text, k) == Line(text, start) && Column(text, k) == 1 + Units(text[start..k]) && !Inside(text, k)
  {
    LineGrows(text, start, k);
    SameLine(text, start, k);
  }

  /** Whatever is on the line and not inside a CRLF is in its span. */
  lemma SpanComplete(text: string, start: nat, end: nat, k: nat)
    requires LineSpan(text, start, end) && k <= |text| && !Inside(text, k) && Line(text, k) == Line(text, start)
    ensures start <= k <= end
  {
    if k < start {
      LineGrows(text, k, start);
    } else {
      LineGrows(text, start, k);
    }
  }

  /** The end of the line that starts at `start`, as `line_col_to_offset` finds it. */
  method LineEnd(text: string, start: nat) returns (end: nat)
    requires start <= |text| && LineStart(text, start) == start
    ensures LineSpan(text, start, end)
  {
    end := start;
    while end < |text| && text[end] != '\n'
      invariant start <= end <= |text| && forall i :: start <= i < end ==> text[i] != '\n'
    {
      end := end + 1;
    }
    if end < |text| && end > start && text[end - 1] == '\r' {
      end := end - 1;
    }
  }

  /** The part of `line_col_to_offset` that walks the columns of the line. */
  method ColumnToOffset(text: string, start: nat, end: nat, target: nat) returns (r: Option<nat>)
    requires LineSpan(text, start, end)
    ensures r.Some? ==> exists k :: start <= k <= end && 1 + Units(text[start..k]) == target && r.value == Offset(text, k)
    ensures r.None? ==> forall k :: start <= k <= end ==> 1 + Units(text[start..k]) != target
  {
    var column, k := 1, start;
    assert text[start..start] == "";
    while k < end
      invariant start <= k <= end && column == 1 + Units(text[start..k])
      invariant forall j :: start <= j < k ==> 1 + Units(text[start..j]) < target
    {
      if column >= target {
        if column == target { return Some(Offset(text, k)); }
        forall j | k <= j <= end ensures 1 + Units(text[start..j]) != target {
          if k < j { UnitsIncrease(text, start, k, j); }
        }
        return None;
      }
      assert text[start..k + 1][..k - start] == text[start..k];
      column, k := column + Utf16(text[k]), k + 1;
    }
    r := if column == target then Some(Offset(text, end)) else None;
  }

  /** `line_col_to_offset`: the offset of the character at the position, and nothing when there is
      none, be it a zero, a column past the end of its line or one inside a surrogate pair. */
  method LineColToOffset(text: string, line: nat, column: nat) returns (r: Option<nat>)
    ensures r.Some? ==> exists k :: At(text, k, line, column) && r.value == Offset(text, k)
    ensures r.None? ==> forall k :: !At(text, k, line, column)
  {
    if line == 0 || column == 0 { return None; }
    var current, start, k := 1, 0, 0;
    while k < |text|
      invariant k <= |text| && current == Line(text, k) <= line && start == LineStart(text, k)
      invariant current == line ==> start == k
    {
      if current == line {
        var end := LineEnd(text, start);
        r := ColumnToOffset(text, start, end, column);
        forall j | start <= j <= end ensures Line(text, j) == line && Column(text, j) == 1 + Units(text[start..j]) && !Inside(text, j) {
          SpanColumns(text, start, end, j);
        }
        forall j: nat | At(text, j, line, column) ensures start <= j <= end { SpanComplete(text, start, end, j); }
        return;
      }
      StepPrefix(text, k);
      if text[k] == '\n' {
        current, start := current + 1, k + 1;
      }
      k := k + 1;
    }
    if current == line {
      assert text[start..start] == "";
      assert LineSpan(text, start, start);
      forall j: nat | At(text, j, line, column) ensures j == start { SpanComplete(text, start, start, j); }
      return if column == 1 then Some(Offset(text, start)) else None;
    }
    forall j: nat | j <= |text| ensures Line(text, j) != line { LineGrows(text, j, |text|); }
    return None;
  }

  // ----- the two are inverse -----

  /** From an offset at a character, not inside a CRLF, to a position and back. */
  method OffsetRoundTrip(text: string, k: nat) returns (r: Option<nat>)
    requires k <= |text| && !Inside(text, k)
    ensures r == Some(Offset(text, k))
  {
    CharAtBoundary(text, k);
    var line, column := OffsetToLineCol(text, Offset(text, k));
    assert At(text, k, line, column);
    r := LineColToOffset(text, line, column);
    ghost var j :| At(text, j, line, column) && r.value == Offset(text, j);
    PositionInjective(text, k, j, line, column);
  }

  /** From an accepted position to an offset and back. */
  method PositionRoundTrip(text: string, line: nat, column: nat) returns (r: Option<(nat, nat)>)
    ensures r == if exists k :: At(text, k, line, column) then Some((line, column)) else None
  {
    var offset := LineColToOffset(text, line, column);
    if offset.None? { return None; }
    var backLine, backColumn := OffsetToLineCol(text, offset.value);
    ghost var k :| At(text, k, line, column) && offset.value == Offset(text, k);
    CharAtBoundary(text, k);
    r := Some((backLine, backColumn));
  }

  /** A column between the two halves of a surrogate pair is on no character. */
  lemma SurrogateHalvesHaveNoPosition(text: string, k: nat, j: nat)
    requires k < |text| && Utf16(text[k]) == 2 && !Inside(text, k)
    ensures !At(text, j, Line(text, k), Column(text, k) + 1)
  {
    if j <= |text| && !Inside(text, j) && Line(text, j) == Line(text, k) {
      if j < k {
        SameLine(text, j, k);
        UnitsIncrease(text, LineStart(text, k), j, k);
      } else if k < j {
        SameLine(text, k, j);
        ColumnStep(text, k);
        StepPrefix(text, k);
        LineGrows(text, k, j);
        SameLine(text, k, k + 1);
        if k + 1 < j { UnitsIncrease(text, LineStart(text, k), k + 1, j); }
      }
    }
  }

  /** A column past the end of its line is on no character, whatever text follows. */
  lemma PastTheEndHasNoPosition(text: string, start: nat, end: nat, column: nat, j: nat)
    requires LineSpan(text, start, end) && column > Column(text, end)
    ensures !At(text, j, Line(text, start), column)
  {
    if j <= |text| && !Inside(text, j) && Line(text, j) == Line(text, start) {
      SpanComplete(text, start, end, j);
      SpanColumns(text, start, end, j);
      SpanColumns(text, start, end, end);
      if j < end { UnitsIncrease(text, start, j, end); }
    }
  }
}
