/** Reading a whole diff from its raw lines, with the sections that delete a file. Such a section must
    hold the complete old file; its lines keep their carriage returns. */
module PatchRead {
  import opened Decimal
  import opened Text
  import opened Patch
  import opened PatchParse
  import opened PatchPrint

  /** `split_inclusive('\n')`: the lines with their newlines. */
  function Raws(text: string): seq<string> {
    if text == "" then [] else
    var i := FirstBreak(text);
    if i == |text| then [text] else [text[..i + 1]] + Raws(text[i + 1..])
  }

  function Bare(raw: string): string { if raw != "" && raw[|raw| - 1] == '\n' then raw[..|raw| - 1] else raw }

  /** `diff_line` */
  function DiffLine(raw: string): string { if raw != "" && raw[|raw| - 1] == '\n' then StripCr(raw[..|raw| - 1]) else raw }

  function DiffLines(raws: seq<string>): (r: seq<string>)
    ensures |r| == |raws| && forall i :: 0 <= i < |raws| ==> r[i] == DiffLine(raws[i])
  {
    seq(|raws|, i requires 0 <= i < |raws| => DiffLine(raws[i]))
  }

  // ----- what the reader of a deletion sees in a line -----

  datatype Shape = Shape(
    ends: bool,                     // the header of the next file
    blank: bool,
    header: Option<(nat, nat)>,     // the start and the count of a hunk whose new range is empty
    marker: bool,                   // that the newline is missing
    removed: Option<string>         // the text of a removed line
  )

  const GIT_HEADER := "diff --git "
  const EMPTY_RANGE := "0,0"

  function StartAndCount(range: string): Option<(nat, nat)> {
    var (a, b) := match SplitOnce(range, ",") case None => (range, "1") case Some((a, b)) => (a, b);
    var start, count := ParseUnsigned(a, U64_LIMIT), ParseUnsigned(b, U64_LIMIT);
    if start.Some? && count.Some? then Some((start.value, count.value)) else None
  }

  function DeletionHeader(line: string): Option<(nat, nat)> {
    if !(HUNK_MARK <= line) then None else
    match SplitOnce(line[|HUNK_MARK|..], " +")
    case None => None
    case Some((was, rest)) =>
      match SplitOnce(rest, " @@")
      case None => None
      case Some((now, _)) => if now == EMPTY_RANGE then StartAndCount(was) else None
  }

  function ShapeOf(raw: string): Shape {
    var line := DiffLine(raw);
    Shape("--- " <= line || GIT_HEADER <= line, line == "", DeletionHeader(line), line == NO_NEWLINE,
          if "-" <= Bare(raw) then Some(Bare(raw)[1..]) else None)
  }

  function Shapes(raws: seq<string>): (r: seq<Shape>)
    ensures |r| == |raws| && forall i :: 0 <= i < |raws| ==> r[i] == ShapeOf(raws[i])
  {
    Mapped(ShapeOf, raws)
  }

  function Mapped<A, B>(f: A -> B, s: seq<A>): (r: seq<B>)
    ensures |r| == |s| && forall i :: 0 <= i < |s| ==> r[i] == f(s[i])
  {
    seq(|s|, i requires 0 <= i < |s| => f(s[i]))
  }

  lemma {:induction false} MappedConcat<A, B>(f: A -> B, a: seq<A>, b: seq<A>)
    ensures Mapped(f, a + b) == Mapped(f, a) + Mapped(f, b)
  {
    forall i | 0 <= i < |a| + |b| ensures Mapped(f, a + b)[i] == (Mapped(f, a) + Mapped(f, b))[i] {
      assert (a + b)[i] == if i < |a| then a[i] else b[i - |a|];
    }
  }

  // ----- deletions -----

  predicate AllRemoved(lines: seq<Line>) { forall i :: 0 <= i < |lines| ==> lines[i].tag == Removed }

  predicate InOrder(start: nat, count: nat, hunks: seq<Hunk>, consumed: nat) {
    if count == 0 then start == 0 && hunks == [] else start == consumed + 1
  }

  function Total(hunks: seq<Hunk>): nat { if hunks == [] then 0 else Total(hunks[..|hunks| - 1]) + |hunks[|hunks| - 1].lines| }

  /** The hunks cover an old file from its first line on without a gap, or are one empty hunk. */
  predicate CoverFile(hunks: seq<Hunk>) {
    hunks != [] ==>
      var front, h := hunks[..|hunks| - 1], hunks[|hunks| - 1];
      AllRemoved(h.lines) && CoverFile(front) && InOrder(h.oldStart, |h.lines|, front, Total(front))
  }

  lemma {:induction false} CoverSnoc(hunks: seq<Hunk>, h: Hunk)
    requires CoverFile(hunks) && AllRemoved(h.lines) && InOrder(h.oldStart, |h.lines|, hunks, Total(hunks))
    ensures CoverFile(hunks + [h]) && Total(hunks + [h]) == Total(hunks) + |h.lines|
  {
    assert (hunks + [h])[..|hunks|] == hunks;
  }

  predicate AreRemoved(shapes: seq<Shape>, from: nat, count: nat) {
    from + count <= |shapes| && forall i :: from <= i < from + count ==> shapes[i].removed.Some?
  }

  function RemovedLines(shapes: seq<Shape>, from: nat, count: nat): (lines: seq<Line>)
    requires AreRemoved(shapes, from, count)
    ensures |lines| == count && AllRemoved(lines) && forall i :: 0 <= i < count ==> lines[i].text == shapes[from + i].removed.value
  {
    seq(count, i requires 0 <= i < count => Line(Removed, shapes[from + i].removed.value))
  }

  /** Whether the marker for a missing newline is there. */
  predicate Marked(shapes: seq<Shape>, i: nat) { i < |shapes| && shapes[i].marker }

  /** A hunk, whether the marker follows it, and where both end. */
  datatype Next = Next(hunk: Hunk, marked: bool, end: nat)

  /** The hunk whose header is at `i`, if it goes on where the others ended. */
  function NextHunk(shapes: seq<Shape>, i: nat, hunks: seq<Hunk>, consumed: nat): (r: Option<Next>)
    requires i < |shapes|
    ensures r.Some? ==>
              && i < r.value.end <= |shapes| && AllRemoved(r.value.hunk.lines)
              && InOrder(r.value.hunk.oldStart, |r.value.hunk.lines|, hunks, consumed)
  {
    if shapes[i].header.None? then None else
    var (start, count) := shapes[i].header.value;
    if !InOrder(start, count, hunks, consumed) || !AreRemoved(shapes, i + 1, count) then None else
    var marked := Marked(shapes, i + 1 + count);
    if marked && count == 0 then None
    else Some(Next(Hunk(start, RemovedLines(shapes, i + 1, count), false), marked, i + 1 + count + if marked then 1 else 0))
  }

  /** The hunks of a deletion, whether the old text ends without a newline, and how many lines of the
      diff are left. */
  datatype Deletion = Deletion(hunks: seq<Hunk>, withoutNewline: bool, left: nat)

  /** The hunks of a deletion, after those read so far. */
  function ReadDeletion(shapes: seq<Shape>, hunks: seq<Hunk>, consumed: nat, without: bool): (r: Option<Deletion>)
    ensures r.Some? ==> r.value.left <= |shapes|
    decreases |shapes|
  {
    if shapes == [] || shapes[0].ends then
      if |hunks| <= 1 || forall i :: 0 <= i < |hunks| ==> hunks[i].lines != [] then Some(Deletion(hunks, without, |shapes|)) else None
    else if shapes[0].blank then ReadDeletion(shapes[1..], hunks, consumed, without)
    else
      var next := if without then None else NextHunk(shapes, 0, hunks, consumed);
      if next.None? then None else
      ReadDeletion(shapes[next.value.end..], hunks + [next.value.hunk], consumed + |next.value.hunk.lines|, next.value.marked)
  }

  /** Whatever deletion is accepted, its hunks remove a whole file in order. */
  lemma {:induction false} DeletionCoversFile(shapes: seq<Shape>, hunks: seq<Hunk>, without: bool)
    requires CoverFile(hunks)
    ensures var r := ReadDeletion(shapes, hunks, Total(hunks), without); r.Some? ==> CoverFile(r.value.hunks)
    decreases |shapes|
  {
    if shapes != [] && !shapes[0].ends {
      if shapes[0].blank {
        DeletionCoversFile(shapes[1..], hunks, without);
      } else if !without {
        var next := NextHunk(shapes, 0, hunks, Total(hunks));
        if next.Some? {
          CoverSnoc(hunks, next.value.hunk);
          DeletionCoversFile(shapes[next.value.end..], hunks + [next.value.hunk], next.value.marked);
        }
      }
    }
  }

  /** The text that the hunks remove, as `validate` puts it together. */
  function Preimage(hunks: seq<Hunk>, without: bool): string {
    var text := RemovedText(hunks);
    if without && text != "" then text[..|text| - 1] else text
  }

  function RemovedText(hunks: seq<Hunk>): string {
    if hunks == [] then "" else RemovedText(hunks[..|hunks| - 1]) + TextOf(Old(hunks[|hunks| - 1].lines))
  }

  // ----- printing a deletion -----

  /** The lines of a text without their newlines, carriage returns kept. */
  function Bares(text: string): seq<string> {
    if text == "" then [] else
    var i := FirstBreak(text);
    if i == |text| then [text] else [text[..i]] + Bares(text[i + 1..])
  }

  function RemovedRaws(lines: seq<string>): (r: seq<string>)
    ensures |r| == |lines| && forall i :: 0 <= i < |lines| ==> r[i] == "-" + lines[i] + "\n"
  {
    seq(|lines|, i requires 0 <= i < |lines| => "-" + lines[i] + "\n")
  }

  function RemovedOf(lines: seq<string>): (r: seq<Line>)
    ensures |r| == |lines| && forall i :: 0 <= i < |lines| ==> r[i] == Line(Removed, lines[i])
  {
    seq(|lines|, i requires 0 <= i < |lines| => Line(Removed, lines[i]))
  }

  function BlankRaws(n: nat): (r: seq<string>)
    ensures |r| == n && forall i :: 0 <= i < n ==> r[i] == "\n"
  {
    seq(n, _ => "\n")
  }

  /** One hunk of a deletion: its lines, whether a count of 1 is left out, the heading after the ranges and how
      many blank lines come before it. */
  datatype Piece = Piece(lines: seq<string>, short: bool, heading: string, blanks: nat)

  function StartOf(consumed: nat, p: Piece): nat { if p.lines == [] then 0 else consumed + 1 }

  function PieceHeader(consumed: nat, p: Piece): string {
    HUNK_MARK + Range(StartOf(consumed, p), |p.lines|, p.short) + " +" + EMPTY_RANGE + " @@" + p.heading
  }

  function PrintPiece(consumed: nat, p: Piece): seq<string> {
    BlankRaws(p.blanks) + ([PieceHeader(consumed, p) + "\n"] + RemovedRaws(p.lines))
  }

  function PrintPieces(consumed: nat, pieces: seq<Piece>): seq<string>
    decreases |pieces|
  {
    if pieces == [] then [] else PrintPiece(consumed, pieces[0]) + PrintPieces(consumed + |pieces[0].lines|, pieces[1..])
  }

  function MarkIf(unended: bool): seq<string> { if unended then [NO_NEWLINE + "\n"] else [] }

  /** The hunks of a deletion, the marker of a file that does not end with a newline, and blank lines. */
  function PrintDeletion(pieces: seq<Piece>, unended: bool, blanks: nat): seq<string> {
    PrintPieces(0, pieces) + (MarkIf(unended) + BlankRaws(blanks))
  }

  function HunkOf(consumed: nat, p: Piece): Hunk { Hunk(StartOf(consumed, p), RemovedOf(p.lines), false) }

  function HunksOf(consumed: nat, pieces: seq<Piece>): seq<Hunk>
    decreases |pieces|
  {
    if pieces == [] then [] else [HunkOf(consumed, pieces[0])] + HunksOf(consumed + |pieces[0].lines|, pieces[1..])
  }

  function DeletedLines(pieces: seq<Piece>): seq<string> { if pieces == [] then [] else pieces[0].lines + DeletedLines(pieces[1..]) }

  /** The text of the file that is deleted. */
  function DeletedText(pieces: seq<Piece>, unended: bool): string {
    var text := TextOf(DeletedLines(pieces));
    if unended && text != "" then text[..|text| - 1] else text
  }

  predicate PrintablePieces(pieces: seq<Piece>, unended: bool) {
    && |DeletedLines(pieces)| < U64_LIMIT - 1 && (unended ==> pieces != [] && pieces[|pieces| - 1].lines != [])
    && (|pieces| == 1 || forall i :: 0 <= i < |pieces| ==> pieces[i].lines != [])
    && forall i :: 0 <= i < |pieces| ==> EndsPlain(pieces[i].heading)
  }

  predicate EndsPlain(heading: string) { heading != "" ==> heading[|heading| - 1] != '\r' }

  // ----- the shapes of the lines printed -----

  lemma {:induction false} RangeOfPiece(start: nat, count: nat, short: bool)
    requires start < U64_LIMIT && count < U64_LIMIT
    ensures StartAndCount(Range(start, count, short)) == Some((start, count)) && ' ' !in Range(start, count, short)
  {
    ParseUnsignedOfPrint(start, U64_LIMIT);
    ParseUnsignedOfPrint(count, U64_LIMIT);
    if short && count == 1 {
      SplitOnceNone(Print(start), ",");
      OneIs();
    } else {
      SplitOnceAt(Print(start), ",", Print(count));
    }
  }

  lemma {:induction false} OneIs()
    ensures ParseUnsigned("1", U64_LIMIT) == Some(1)
  {
    assert Print(1) == "1";
    ParseUnsignedOfPrint(1, U64_LIMIT);
  }

  lemma {:induction false} HeaderOfPiece(range: string, heading: string, start: nat, count: nat)
    requires StartAndCount(range) == Some((start, count)) && ' ' !in range
    ensures DeletionHeader(HUNK_MARK + range + " +" + EMPTY_RANGE + " @@" + heading) == Some((start, count))
  {
    AfterMark(range, EMPTY_RANGE, heading);
    SplitOnceAt(range, " +", EMPTY_RANGE + " @@" + heading);
    SplitOnceAt(EMPTY_RANGE, " @@", heading);
  }

  lemma {:induction false} HeaderShape(header: string, start: nat, count: nat)
    requires HUNK_MARK <= header && header[|header| - 1] != '\r' && DeletionHeader(header) == Some((start, count))
    ensures var s := ShapeOf(header + "\n"); !s.ends && !s.blank && !s.marker && s.header == Some((start, count))
  {
    assert (header + "\n")[..|header|] == header;
    assert DiffLine(header + "\n") == header;
    assert header[0] == HUNK_MARK[0] && NO_NEWLINE[0] != HUNK_MARK[0];
  }

  lemma {:induction false} PieceHeaderShape(consumed: nat, p: Piece)
    requires consumed + |p.lines| < U64_LIMIT - 1 && EndsPlain(p.heading)
    ensures var s := ShapeOf(PieceHeader(consumed, p) + "\n");
            !s.ends && !s.blank && !s.marker && s.header == Some((StartOf(consumed, p), |p.lines|))
  {
    var start, range := StartOf(consumed, p), Range(StartOf(consumed, p), |p.lines|, p.short);
    RangeOfPiece(start, |p.lines|, p.short);
    HeaderOfPiece(range, p.heading, start, |p.lines|);
    AfterMark(range, EMPTY_RANGE, p.heading);
    LastOfHeader(HUNK_MARK + range + " +" + EMPTY_RANGE, p.heading);
    HeaderShape(PieceHeader(consumed, p), start, |p.lines|);
  }

  lemma {:induction false} LastOfHeader(front: string, heading: string)
    requires EndsPlain(heading)
    ensures var header := front + " @@" + heading; header[|header| - 1] != '\r'
  {
  }

  lemma {:induction false} RemovedShape(line: string)
    ensures ShapeOf("-" + line + "\n").removed == Some(line)
  {
    assert Bare("-" + line + "\n") == "-" + line;
  }

  lemma {:induction false} BlankShape()
    ensures var s := ShapeOf("\n"); !s.ends && s.blank && !s.marker
  {
    assert "\n"[..0] == "";
  }

  lemma {:induction false} MarkerShape()
    ensures ShapeOf(NO_NEWLINE + "\n").marker
  {
    assert (NO_NEWLINE + "\n")[..|NO_NEWLINE|] == NO_NEWLINE;
    assert NO_NEWLINE[|NO_NEWLINE| - 1] == 'e';
  }

  lemma {:induction false} EndShape(raw: string)
    ensures ShapeOf(raw).ends ==> !ShapeOf(raw).marker
  {
    var line := DiffLine(raw);
    if ShapeOf(raw).ends { assert line[0] == '-' || line[0] == 'd'; }
  }

  predicate Ends(after: seq<string>) { after == [] || ShapeOf(after[0]).ends }

  lemma {:induction false} ShapesConcat(a: seq<string>, b: seq<string>)
    ensures Shapes(a + b) == Shapes(a) + Shapes(b)
  {
    MappedConcat(ShapeOf, a, b);
  }

  predicate IsBlank(s: Shape) { !s.ends && s.blank && !s.marker }

  predicate AreBlank(shapes: seq<Shape>) { forall i :: 0 <= i < |shapes| ==> IsBlank(shapes[i]) }

  predicate Unmarked(shapes: seq<Shape>) { shapes != [] ==> !shapes[0].marker }

  predicate IsMark(shapes: seq<Shape>, unended: bool) { if unended then |shapes| == 1 && shapes[0].marker else shapes == [] }

  /** The shapes of a piece: blank lines, the header, the removed lines. */
  datatype Chunk = Chunk(blanks: seq<Shape>, first: Shape, lines: seq<Shape>) {
    function All(): seq<Shape> { blanks + ([first] + lines) }
  }

  predicate IsPiece(c: Chunk, consumed: nat, p: Piece) {
    && AreBlank(c.blanks) && IsHeader(c.first, StartOf(consumed, p), |p.lines|)
    && |c.lines| == |p.lines| && forall i :: 0 <= i < |p.lines| ==> c.lines[i].removed == Some(p.lines[i])
  }

  predicate IsHeader(s: Shape, start: nat, count: nat) { !s.ends && !s.blank && !s.marker && s.header == Some((start, count)) }

  predicate ArePieces(chunks: seq<Chunk>, consumed: nat, pieces: seq<Piece>)
    decreases |pieces|
  {
    && |chunks| == |pieces|
    && (pieces != [] ==> IsPiece(chunks[0], consumed, pieces[0]) && ArePieces(chunks[1..], consumed + |pieces[0].lines|, pieces[1..]))
  }

  function Joined(chunks: seq<Chunk>): seq<Shape> { if chunks == [] then [] else chunks[0].All() + Joined(chunks[1..]) }

  lemma {:induction false} PieceChunk(consumed: nat, p: Piece) returns (c: Chunk)
    requires consumed + |p.lines| < U64_LIMIT - 1 && EndsPlain(p.heading)
    ensures IsPiece(c, consumed, p) && c.All() == Shapes(PrintPiece(consumed, p))
  {
    var header := PieceHeader(consumed, p) + "\n";
    c := Chunk(Shapes(BlankRaws(p.blanks)), ShapeOf(header), Shapes(RemovedRaws(p.lines)));
    BlankShapes(p.blanks);
    PieceHeaderShape(consumed, p);
    RemovedShapes(p.lines);
    ShapesConcat(BlankRaws(p.blanks), [header] + RemovedRaws(p.lines));
    ShapesConcat([header], RemovedRaws(p.lines));
    OneShape(header);
  }

  lemma {:induction false} OneShape(raw: string)
    ensures Shapes([raw]) == [ShapeOf(raw)]
  {
  }

  lemma {:induction false} RemovedShapes(lines: seq<string>)
    ensures forall i :: 0 <= i < |lines| ==> Shapes(RemovedRaws(lines))[i].removed == Some(lines[i])
  {
    forall i | 0 <= i < |lines| ensures Shapes(RemovedRaws(lines))[i].removed == Some(lines[i]) { RemovedShape(lines[i]); }
  }

  /** The chunks are the shapes of the printed pieces. */
  ghost predicate Chunked(chunks: seq<Chunk>, consumed: nat, pieces: seq<Piece>) {
    ArePieces(chunks, consumed, pieces) && Joined(chunks) == Shapes(PrintPieces(consumed, pieces))
  }

  lemma {:induction false} PieceChunks(consumed: nat, pieces: seq<Piece>) returns (chunks: seq<Chunk>)
    requires consumed + |DeletedLines(pieces)| < U64_LIMIT - 1 && forall i :: 0 <= i < |pieces| ==> EndsPlain(pieces[i].heading)
    ensures Chunked(chunks, consumed, pieces)
    decreases |pieces|
  {
    if pieces == [] {
      chunks := [];
    } else {
      var c := PieceChunk(consumed, pieces[0]);
      var rest := PieceChunks(consumed + |pieces[0].lines|, pieces[1..]);
      chunks := [c] + rest;
      ChunkedCons(c, rest, consumed, pieces);
    }
  }

  lemma {:induction false} ChunkedCons(c: Chunk, rest: seq<Chunk>, consumed: nat, pieces: seq<Piece>)
    requires pieces != [] && IsPiece(c, consumed, pieces[0]) && c.All() == Shapes(PrintPiece(consumed, pieces[0]))
    requires Chunked(rest, consumed + |pieces[0].lines|, pieces[1..])
    ensures Chunked([c] + rest, consumed, pieces)
  {
    ChunkCons(c, rest, PrintPiece(consumed, pieces[0]), PrintPieces(consumed + |pieces[0].lines|, pieces[1..]));
    PiecesCons(c, rest, consumed, pieces);
  }

  lemma {:induction false} ChunkCons(c: Chunk, rest: seq<Chunk>, a: seq<string>, b: seq<string>)
    requires c.All() == Shapes(a) && Joined(rest) == Shapes(b)
    ensures Joined([c] + rest) == Shapes(a + b)
  {
    assert ([c] + rest)[1..] == rest;
    ShapesConcat(a, b);
  }

  lemma {:induction false} PiecesCons(c: Chunk, rest: seq<Chunk>, consumed: nat, pieces: seq<Piece>)
    requires pieces != [] && IsPiece(c, consumed, pieces[0]) && ArePieces(rest, consumed + |pieces[0].lines|, pieces[1..])
    ensures ArePieces([c] + rest, consumed, pieces)
  {
    assert ([c] + rest)[1..] == rest;
  }

  lemma {:induction false} BlankShapes(n: nat)
    ensures AreBlank(Shapes(BlankRaws(n)))
  {
    BlankShape();
  }

  lemma {:induction false} MarkShapes(unended: bool)
    ensures IsMark(Shapes(MarkIf(unended)), unended)
  {
    MarkerShape();
  }

  // ----- reading it back -----

  lemma {:induction false} BlanksSkipped(blanks: seq<Shape>, more: seq<Shape>, hunks: seq<Hunk>, consumed: nat, without: bool)
    requires AreBlank(blanks)
    ensures ReadDeletion(blanks + more, hunks, consumed, without) == ReadDeletion(more, hunks, consumed, without)
  {
    if blanks == [] {
      assert blanks + more == more;
    } else {
      BlanksSkipped(blanks[1..], more, hunks, consumed, without);
      assert (blanks + more)[1..] == blanks[1..] + more && (blanks + more)[0] == blanks[0];
    }
  }

  /** The shapes of removed lines, perhaps a marker, and what is no marker. */
  predicate LineShapes(shapes: seq<Shape>, lines: seq<string>, marked: bool, left: nat) {
    && |shapes| == |lines| + (if marked then 1 else 0) + left
    && (forall i :: 0 <= i < |lines| ==> shapes[i].removed == Some(lines[i]))
    && (marked ==> shapes[|lines|].marker)
    && (left > 0 ==> !shapes[|shapes| - left].marker)
  }

  /** The hunk at a header, with its lines and perhaps a marker. */
  lemma {:induction false} LineShapesRead(first: Shape, more: seq<Shape>, start: nat, lines: seq<string>, marked: bool, left: nat,
                                          hunks: seq<Hunk>, consumed: nat)
    requires first.header == Some((start, |lines|)) && InOrder(start, |lines|, hunks, consumed)
    requires LineShapes(more, lines, marked, left) && (marked ==> lines != [])
    ensures NextHunk([first] + more, 0, hunks, consumed) == Some(Next(Hunk(start, RemovedOf(lines), false), marked, 1 + |more| - left))
  {
    var shapes := [first] + more;
    assert forall i :: 0 <= i < |more| ==> shapes[1 + i] == more[i];
    assert AreRemoved(shapes, 1, |lines|);
    SameRemoved(RemovedLines(shapes, 1, |lines|), lines);
  }

  lemma {:induction false} SameRemoved(removed: seq<Line>, lines: seq<string>)
    requires |removed| == |lines| && AllRemoved(removed) && forall i :: 0 <= i < |lines| ==> removed[i].text == lines[i]
    ensures removed == RemovedOf(lines)
  {
  }

  /** What a reader has when it has read so far. */
  datatype Progress = Progress(hunks: seq<Hunk>, consumed: nat, marked: bool)

  ghost predicate Leads(shapes: seq<Shape>, from: Progress, rest: seq<Shape>, to: Progress) {
    ReadDeletion(shapes, from.hunks, from.consumed, from.marked) == ReadDeletion(rest, to.hunks, to.consumed, to.marked)
  }

  lemma {:induction false} LeadsOn(a: seq<Shape>, x: Progress, b: seq<Shape>, y: Progress, c: seq<Shape>, z: Progress)
    requires Leads(a, x, b, y) && Leads(b, y, c, z)
    ensures Leads(a, x, c, z)
  {
  }

  function After(from: Progress, p: Piece, marked: bool): Progress {
    Progress(from.hunks + [HunkOf(from.consumed, p)], from.consumed + |p.lines|, marked)
  }

  lemma {:induction false} HunkTaken(first: Shape, more: seq<Shape>, p: Piece, marked: bool, after: seq<Shape>, from: Progress)
    requires IsHeader(first, StartOf(from.consumed, p), |p.lines|) && (p.lines == [] ==> from.hunks == [] && !marked) && !from.marked
    requires LineShapes(more, p.lines, marked, |after|) && more[|more| - |after|..] == after
    ensures Leads([first] + more, from, after, After(from, p, marked))
  {
    LineShapesRead(first, more, StartOf(from.consumed, p), p.lines, marked, |after|, from.hunks, from.consumed);
    assert ([first] + more)[1 + |more| - |after|..] == more[|more| - |after|..];
  }

  /** After a piece, and the marker if it is the last, the reader has its hunk. */
  lemma {:induction false} PieceReads(c: Chunk, mark: seq<Shape>, after: seq<Shape>, p: Piece, marked: bool, from: Progress)
    requires IsPiece(c, from.consumed, p) && IsMark(mark, marked) && Unmarked(after) && (p.lines == [] ==> from.hunks == [] && !marked)
    requires !from.marked
    ensures Leads(c.All() + (mark + after), from, after, After(from, p, marked))
  {
    var body := [c.first] + (c.lines + (mark + after));
    ChunkBlanks(c, mark + after, body, from);
    ChunkLines(c, mark, after, body, p, marked, from);
    LeadsOn(c.All() + (mark + after), from, body, from, after, After(from, p, marked));
  }

  lemma {:induction false} ChunkBlanks(c: Chunk, tail: seq<Shape>, body: seq<Shape>, from: Progress)
    requires AreBlank(c.blanks) && body == [c.first] + (c.lines + tail)
    ensures Leads(c.All() + tail, from, body, from)
  {
    FiveParts(c.blanks, [c.first], c.lines, tail);
    BlanksSkipped(c.blanks, body, from.hunks, from.consumed, from.marked);
  }

  lemma {:induction false} ChunkLines(c: Chunk, mark: seq<Shape>, after: seq<Shape>, body: seq<Shape>, p: Piece, marked: bool, from: Progress)
    requires IsPiece(c, from.consumed, p) && IsMark(mark, marked) && Unmarked(after) && (p.lines == [] ==> from.hunks == [] && !marked)
    requires !from.marked && body == [c.first] + (c.lines + (mark + after))
    ensures Leads(body, from, after, After(from, p, marked))
  {
    PieceLines(c.lines, mark, after, p.lines, marked);
    HunkTaken(c.first, c.lines + (mark + after), p, marked, after, from);
  }

  lemma {:induction false} ThreeParts(a: seq<Shape>, b: seq<Shape>, c: seq<Shape>)
    ensures a + b + c == a + ([] + (b + c))
  {
  }

  lemma {:induction false} FiveParts(a: seq<Shape>, b: seq<Shape>, c: seq<Shape>, d: seq<Shape>)
    ensures a + (b + c) + d == a + (b + (c + d))
  {
  }

  lemma {:induction false} PieceLines(shapes: seq<Shape>, mark: seq<Shape>, after: seq<Shape>, lines: seq<string>, marked: bool)
    requires |shapes| == |lines| && (forall i :: 0 <= i < |lines| ==> shapes[i].removed == Some(lines[i]))
    requires IsMark(mark, marked) && Unmarked(after)
    ensures LineShapes(shapes + (mark + after), lines, marked, |after|)
    ensures var all := shapes + (mark + after); all[|all| - |after|..] == after
  {
  }

  /** The reader's progress over several pieces. */
  function AfterAll(from: Progress, pieces: seq<Piece>, marked: bool): Progress {
    Progress(from.hunks + HunksOf(from.consumed, pieces), from.consumed + |DeletedLines(pieces)|, marked)
  }

  lemma {:induction false} AfterFirst(from: Progress, pieces: seq<Piece>, marked: bool)
    requires pieces != []
    ensures AfterAll(After(from, pieces[0], false), pieces[1..], marked) == AfterAll(from, pieces, marked)
  {
    HunksRegroup(from.hunks, HunkOf(from.consumed, pieces[0]), HunksOf(from.consumed + |pieces[0].lines|, pieces[1..]));
  }

  /** The pieces from some point on, with the marker after the last. */
  lemma {:induction false} PiecesRead(chunks: seq<Chunk>, pieces: seq<Piece>, unended: bool, mark: seq<Shape>, after: seq<Shape>, from: Progress)
    requires pieces != [] && ArePieces(chunks, from.consumed, pieces) && IsMark(mark, unended) && Unmarked(after) && !from.marked
    requires unended ==> pieces[|pieces| - 1].lines != []
    requires (from.hunks == [] && |pieces| == 1) || forall i :: 0 <= i < |pieces| ==> pieces[i].lines != []
    ensures Leads(Joined(chunks) + (mark + after), from, after, AfterAll(from, pieces, unended))
    decreases |pieces|
  {
    var p, rest := pieces[0], pieces[1..];
    if rest == [] {
      NoPieces(from, pieces, unended);
      OneChunk(chunks);
      PieceReads(chunks[0], mark, after, p, unended, from);
    } else {
      var others, next := Joined(chunks[1..]) + (mark + after), After(from, p, false);
      assert rest[|rest| - 1] == pieces[|pieces| - 1];
      RestUnmarked(chunks[1..], next.consumed, rest, mark + after);
      ThreeParts(chunks[0].All(), Joined(chunks[1..]), mark + after);
      PieceReads(chunks[0], [], others, p, false, from);
      PiecesRead(chunks[1..], rest, unended, mark, after, next);
      AfterFirst(from, pieces, unended);
      LeadsOn(Joined(chunks) + (mark + after), from, others, next, after, AfterAll(from, pieces, unended));
    }
  }

  lemma {:induction false} OneChunk(chunks: seq<Chunk>)
    requires |chunks| == 1
    ensures Joined(chunks) == chunks[0].All()
  {
    assert chunks[1..] == [];
  }

  lemma {:induction false} NoPieces(from: Progress, pieces: seq<Piece>, marked: bool)
    requires |pieces| == 1
    ensures AfterAll(from, pieces, marked) == After(from, pieces[0], marked)
  {
    assert pieces[1..] == [] && HunksOf(from.consumed, pieces) == [HunkOf(from.consumed, pieces[0])];
    assert DeletedLines(pieces) == pieces[0].lines;
  }

  lemma {:induction false} RestUnmarked(chunks: seq<Chunk>, consumed: nat, pieces: seq<Piece>, more: seq<Shape>)
    requires pieces != [] && ArePieces(chunks, consumed, pieces)
    ensures Unmarked(Joined(chunks) + more)
  {
    var c := chunks[0];
    assert (Joined(chunks) + more)[0] == c.All()[0] == if c.blanks == [] then c.first else c.blanks[0];
  }

  lemma {:induction false} HunksRegroup(a: seq<Hunk>, b: Hunk, c: seq<Hunk>)
    ensures a + [b] + c == a + ([b] + c)
  {
  }

  /** Reading a printed deletion gives its hunks back. */
  lemma {:induction false} DeletionReads(pieces: seq<Piece>, unended: bool, blanks: nat, after: seq<string>)
    requires PrintablePieces(pieces, unended) && Ends(after)
    ensures ReadDeletion(Shapes(PrintDeletion(pieces, unended, blanks) + after), [], 0, false)
            == Some(Deletion(HunksOf(0, pieces), unended, |after|))
  {
    var chunks := PieceChunks(0, pieces);
    MarkShapes(unended);
    BlankShapes(blanks);
    if after != [] { EndShape(after[0]); }
    DeletionShapes(pieces, unended, blanks, after);
    ChunksRead(chunks, pieces, unended, Shapes(MarkIf(unended)), Shapes(BlankRaws(blanks)), Shapes(after));
  }

  lemma {:induction false} DeletionShapes(pieces: seq<Piece>, unended: bool, blanks: nat, after: seq<string>)
    ensures Shapes(PrintDeletion(pieces, unended, blanks) + after)
            == Shapes(PrintPieces(0, pieces)) + (Shapes(MarkIf(unended)) + (Shapes(BlankRaws(blanks)) + Shapes(after)))
  {
    var front, mark, gap := PrintPieces(0, pieces), MarkIf(unended), BlankRaws(blanks);
    ShapesConcat(front + (mark + gap), after);
    ShapesConcat(front, mark + gap);
    ShapesConcat(mark, gap);
    FiveParts(Shapes(front), Shapes(mark), Shapes(gap), Shapes(after));
  }

  lemma {:induction false} ChunksRead(chunks: seq<Chunk>, pieces: seq<Piece>, unended: bool, mark: seq<Shape>, gap: seq<Shape>, rest: seq<Shape>)
    requires PrintablePieces(pieces, unended) && ArePieces(chunks, 0, pieces) && IsMark(mark, unended) && AreBlank(gap)
    requires rest == [] || (rest[0].ends && !rest[0].marker)
    ensures ReadDeletion(Joined(chunks) + (mark + (gap + rest)), [], 0, false) == Some(Deletion(HunksOf(0, pieces), unended, |rest|))
  {
    if pieces == [] {
      assert Joined(chunks) + (mark + (gap + rest)) == gap + rest;
    } else {
      PiecesRead(chunks, pieces, unended, mark, gap + rest, Progress([], 0, false));
      assert [] + HunksOf(0, pieces) == HunksOf(0, pieces);
    }
    BlanksSkipped(gap, rest, HunksOf(0, pieces), |DeletedLines(pieces)|, unended);
    HunksNotEmpty(0, pieces);
    AtTheEnd(rest, HunksOf(0, pieces), |DeletedLines(pieces)|, unended);
  }

  lemma {:induction false} AtTheEnd(shapes: seq<Shape>, hunks: seq<Hunk>, consumed: nat, without: bool)
    requires (shapes == [] || shapes[0].ends) && (|hunks| <= 1 || forall i :: 0 <= i < |hunks| ==> hunks[i].lines != [])
    ensures ReadDeletion(shapes, hunks, consumed, without) == Some(Deletion(hunks, without, |shapes|))
  {
  }

  lemma {:induction false} HunksNotEmpty(consumed: nat, pieces: seq<Piece>)
    ensures |HunksOf(consumed, pieces)| == |pieces|
    ensures (forall i :: 0 <= i < |pieces| ==> pieces[i].lines != []) ==> forall i :: 0 <= i < |pieces| ==> HunksOf(consumed, pieces)[i].lines != []
    decreases |pieces|
  {
    if pieces != [] { HunksNotEmpty(consumed + |pieces[0].lines|, pieces[1..]); }
  }

  // ----- the text deleted -----

  lemma {:induction false} BaresJoin(text: string)
    ensures TextOf(Bares(text)) == text + if NoNewline(text) then "\n" else ""
    ensures Bares(text) == [] <==> text == ""
    decreases |text|
  {
    if text != "" {
      var i := FirstBreak(text);
      if i == |text| {
        TextCons(text, []);
      } else {
        BaresJoin(text[i + 1..]);
        TextCons(text[..i], Bares(text[i + 1..]));
        Cut(text, i);
        FirstOf(text, text[..i], text[i + 1..], if NoNewline(text[i + 1..]) then "\n" else "");
      }
    }
  }

  lemma {:induction false} TextCons(line: string, lines: seq<string>)
    ensures TextOf([line] + lines) == line + "\n" + TextOf(lines) && TextOf([]) == ""
  {
    assert ([line] + lines)[1..] == lines;
  }

  lemma {:induction false} Cut(text: string, i: nat)
    requires i < |text| && text[i] == '\n'
    ensures text[..i] + "\n" + text[i + 1..] == text
  {
  }

  lemma {:induction false} FirstOf(text: string, line: string, rest: string, end: string)
    requires line + "\n" + rest == text
    ensures line + "\n" + (rest + end) == text + end && NoNewline(text) == NoNewline(rest)
  {
  }

  lemma {:induction false} OldOfRemoved(lines: seq<string>)
    ensures Old(RemovedOf(lines)) == lines
    decreases |lines|
  {
    if lines != [] {
      OldOfRemoved(lines[1..]);
      assert RemovedOf(lines)[1..] == RemovedOf(lines[1..]);
      assert [lines[0]] + lines[1..] == lines;
    }
  }

  lemma {:induction false} TextConcat(a: seq<string>, b: seq<string>)
    ensures TextOf(a + b) == TextOf(a) + TextOf(b)
    decreases |a|
  {
    if a == [] {
      assert a + b == b;
    } else {
      TextConcat(a[1..], b);
      assert (a + b)[1..] == a[1..] + b;
    }
  }

  lemma {:induction false} RemovedSnoc(hunks: seq<Hunk>, h: Hunk)
    ensures RemovedText(hunks + [h]) == RemovedText(hunks) + TextOf(Old(h.lines))
  {
    assert (hunks + [h])[..|hunks|] == hunks;
  }

  lemma {:induction false} HunksSnoc(h: Hunk, front: seq<Hunk>, last: Hunk, hunks: seq<Hunk>)
    requires hunks != [] && front == hunks[..|hunks| - 1] && last == hunks[|hunks| - 1]
    ensures [h] + hunks == [h] + front + [last] && hunks == front + [last]
  {
  }

  lemma {:induction false} RemovedCons(h: Hunk, hunks: seq<Hunk>)
    ensures RemovedText([h] + hunks) == TextOf(Old(h.lines)) + RemovedText(hunks)
    decreases |hunks|
  {
    if hunks == [] {
      RemovedSnoc([], h);
      assert [h] + hunks == [] + [h];
    } else {
      var front, last := hunks[..|hunks| - 1], hunks[|hunks| - 1];
      RemovedCons(h, front);
      RemovedSnoc([h] + front, last);
      RemovedSnoc(front, last);
      HunksSnoc(h, front, last, hunks);
    }
  }

  lemma {:induction false} RemovedIsText(consumed: nat, pieces: seq<Piece>)
    ensures RemovedText(HunksOf(consumed, pieces)) == TextOf(DeletedLines(pieces))
    decreases |pieces|
  {
    if pieces != [] {
      RemovedIsText(consumed + |pieces[0].lines|, pieces[1..]);
      RemovedCons(HunkOf(consumed, pieces[0]), HunksOf(consumed + |pieces[0].lines|, pieces[1..]));
      OldOfRemoved(pieces[0].lines);
      TextConcat(pieces[0].lines, DeletedLines(pieces[1..]));
    }
  }

  /** Printing the deletion of a text in any number of pieces and reading it back gives exactly that text, with
      its carriage returns and with or without a newline at its end: `validate` lets the file go only if
      it still has this text. */
  lemma {:induction false} DeletionRoundTrip(pieces: seq<Piece>, unended: bool, blanks: nat, after: seq<string>)
    requires PrintablePieces(pieces, unended) && Ends(after)
    ensures var d := ReadDeletion(Shapes(PrintDeletion(pieces, unended, blanks) + after), [], 0, false);
            d.Some? && d.value.left == |after| && Preimage(d.value.hunks, d.value.withoutNewline) == DeletedText(pieces, unended)
  {
    DeletionReads(pieces, unended, blanks, after);
    RemovedIsText(0, pieces);
  }

  /** Every text can be deleted, in one piece. */
  lemma {:induction false} AnyTextIsDeleted(text: string, short: bool, heading: string) returns (pieces: seq<Piece>)
    requires |Bares(text)| < U64_LIMIT - 1 && EndsPlain(heading)
    ensures PrintablePieces(pieces, NoNewline(text)) && DeletedText(pieces, NoNewline(text)) == text
  {
    pieces := [Piece(Bares(text), short, heading, 0)];
    assert DeletedLines(pieces) == Bares(text);
    BaresJoin(text);
  }

  // ----- the whole diff -----

  /** What the outer loop sees in a line. */
  datatype Row =
    | OldFile(path: Option<string>)
    | NewFile(path: Option<string>)
    | HunkHeader(start: Option<nat>, counts: Option<(nat, nat)>)
    | Other

  function RowOf(line: string): Row {
    if "--- " <= line then OldFile(DiffPath(line[4..]))
    else if "+++ " <= line then NewFile(DiffPath(line[4..]))
    else if "@@ " <= line then HunkHeader(OldStart(line), HunkCounts(line))
    else Other
  }

  datatype Cell = Cell(line: string, row: Row, shape: Shape)

  function CellOf(raw: string): Cell { Cell(DiffLine(raw), RowOf(DiffLine(raw)), ShapeOf(raw)) }

  function Cells(raws: seq<string>): (r: seq<Cell>)
    ensures |r| == |raws| && forall i :: 0 <= i < |raws| ==> r[i] == CellOf(raws[i])
  {
    seq(|raws|, i requires 0 <= i < |raws| => CellOf(raws[i]))
  }

  function LinesOf(cells: seq<Cell>): (r: seq<string>)
    ensures |r| == |cells| && forall i :: 0 <= i < |cells| ==> r[i] == cells[i].line
  {
    seq(|cells|, i requires 0 <= i < |cells| => cells[i].line)
  }

  function ShapesOf(cells: seq<Cell>): (r: seq<Shape>)
    ensures |r| == |cells| && forall i :: 0 <= i < |cells| ==> r[i] == cells[i].shape
  {
    seq(|cells|, i requires 0 <= i < |cells| => cells[i].shape)
  }

  const NO_BODY := Body(0, 0, [], false)

  /** The section whose two header lines are at `i`, with the hunks of a deletion, and where it ends. */
  function FileAt(cells: seq<Cell>, i: nat): (r: Option<(FilePatch, nat)>)
    requires i + 2 <= |cells| && cells[i].row.OldFile? && cells[i + 1].row.NewFile?
    ensures r.Some? ==> i < r.value.1 <= |cells|
  {
    var source, target := cells[i].row.path, cells[i + 1].row.path;
    if target.Some? then Some((FilePatch(source, target, [], false), i + 2)) else
    match ReadDeletion(ShapesOf(cells[i + 2..]), [], 0, false)
    case None => None
    case Some(Deletion(hunks, without, left)) => Some((FilePatch(source, None, hunks, without), |cells| - left))
  }

  /** What is read from the remaining lines, after the file sections read so far. */
  function ReadCells(cells: seq<Cell>, files: seq<FilePatch>): Parsed
    decreases |cells|
  {
    if cells == [] then (if files == [] then NoFile else Files(files)) else
    match cells[0].row
    case OldFile(_) =>
      if |cells| == 1 || !cells[1].row.NewFile? then NoPlusLine else
      var file := FileAt(cells, 0);
      if file.None? then BadDeletion else ReadCells(cells[file.value.1..], files + [file.value.0])
    case HunkHeader(start, counts) =>
      if files == [] then StrayHunk else
      if start.None? then BadHeader else
      var (body, more) := ReadBody(LinesOf(cells[1..]), counts, NO_BODY);
      ReadCells(cells[|cells| - |more|..], AddHunk(files, Hunk(start.value, body.lines, body.noNewline)))
    case _ => ReadCells(cells[1..], files)
  }

  lemma {:induction false} LinesTail(cells: seq<Cell>, n: nat)
    requires n <= |cells|
    ensures LinesOf(cells)[n..] == LinesOf(cells[n..])
  {
  }

  predicate Classified(cells: seq<Cell>) { forall i :: 0 <= i < |cells| ==> cells[i].row == RowOf(cells[i].line) }

  lemma {:induction false} CellsHunk(cells: seq<Cell>, files: seq<FilePatch>, start: nat, counts: Option<(nat, nat)>, body: Body, more: seq<string>)
    requires cells != [] && files != [] && cells[0].row == HunkHeader(Some(start), counts)
    requires ReadBody(LinesOf(cells[1..]), counts, NO_BODY) == (body, more)
    ensures ReadCells(cells, files) == ReadCells(cells[|cells| - |more|..], AddHunk(files, Hunk(start, body.lines, body.noNewline)))
  {
  }

  /** In a diff that deletes no file only the lines count, not how each of them ends. */
  lemma {:induction false} LinesDecide(cells: seq<Cell>, other: seq<Cell>, files: seq<FilePatch>)
    requires Classified(cells) && Classified(other) && LinesOf(cells) == LinesOf(other)
    requires forall i :: 0 <= i < |cells| ==> cells[i].row != NewFile(None)
    ensures ReadCells(cells, files) == ReadCells(other, files)
    decreases |cells|
  {
    if cells != [] {
      SameRows(cells, other);
      match cells[0].row
      case OldFile(_) =>
        if |cells| > 1 && cells[1].row.NewFile? {
          TailsAlike(cells, other, 2);
          LinesDecide(cells[2..], other[2..], files + [FileAt(cells, 0).value.0]);
        }
      case HunkHeader(start, counts) =>
        if files != [] && start.Some? {
          var end, files' := HunkAlike(cells, other, files, start.value, counts);
          LinesDecide(cells[end..], other[end..], files');
        }
      case _ =>
        TailsAlike(cells, other, 1);
        LinesDecide(cells[1..], other[1..], files);
    }
  }

  /** Both readings go on after the hunk at the same line and with the same files. */
  lemma {:induction false} HunkAlike(cells: seq<Cell>, other: seq<Cell>, files: seq<FilePatch>, start: nat, counts: Option<(nat, nat)>)
    returns (end: nat, files': seq<FilePatch>)
    requires Classified(cells) && Classified(other) && LinesOf(cells) == LinesOf(other) && |cells| == |other|
    requires cells != [] && files != [] && cells[0].row == other[0].row == HunkHeader(Some(start), counts)
    ensures 0 < end <= |cells| && Classified(cells[end..]) && Classified(other[end..]) && LinesOf(cells[end..]) == LinesOf(other[end..])
    ensures ReadCells(cells, files) == ReadCells(cells[end..], files') && ReadCells(other, files) == ReadCells(other[end..], files')
  {
    TailsAlike(cells, other, 1);
    var (body, more) := ReadBody(LinesOf(cells[1..]), counts, NO_BODY);
    end, files' := |cells| - |more|, AddHunk(files, Hunk(start, body.lines, body.noNewline));
    TailsAlike(cells, other, end);
    CellsHunk(cells, files, start, counts, body, more);
    CellsHunk(other, files, start, counts, body, more);
  }

  lemma {:induction false} SameRows(cells: seq<Cell>, other: seq<Cell>)
    requires Classified(cells) && Classified(other) && LinesOf(cells) == LinesOf(other)
    ensures |cells| == |other| && forall i :: 0 <= i < |cells| ==> cells[i].row == other[i].row
  {
    assert |LinesOf(cells)| == |LinesOf(other)|;
    forall i | 0 <= i < |cells| ensures cells[i].row == other[i].row {
      assert LinesOf(cells)[i] == LinesOf(other)[i];
    }
  }

  lemma {:induction false} TailsAlike(cells: seq<Cell>, other: seq<Cell>, n: nat)
    requires Classified(cells) && Classified(other) && LinesOf(cells) == LinesOf(other) && n <= |cells| == |other|
    ensures Classified(cells[n..]) && Classified(other[n..]) && LinesOf(cells[n..]) == LinesOf(other[n..])
  {
    LinesTail(cells, n);
    LinesTail(other, n);
  }

  lemma {:induction false} PlusIsNewFile(line: string)
    requires "+++ " <= line
    ensures RowOf(line) == NewFile(DiffPath(line[4..]))
  {
    assert line[0] == '+';
  }

  lemma {:induction false} AtIsHunk(line: string)
    requires "@@ " <= line
    ensures RowOf(line) == HunkHeader(OldStart(line), HunkCounts(line))
  {
    assert line[0] == '@';
  }

  /** `diff_line` on the lines of a text matches `str::lines`. */
  lemma {:induction false} RawsAreLines(text: string)
    ensures DiffLines(Raws(text)) == Lines(text)
    decreases |text|
  {
    if text != "" {
      var i := FirstBreak(text);
      if i < |text| {
        RawsAreLines(text[i + 1..]);
        assert text[..i + 1][..i] == text[..i];
        assert DiffLines(Raws(text)) == [StripCr(text[..i])] + DiffLines(Raws(text[i + 1..]));
      }
    }
  }

  // ----- the program -----

  /** The loop over the lines of one hunk. */
  method ReadHunkBody(cells: seq<Cell>, from: nat, counts: Option<(nat, nat)>) returns (b: Body, i: nat)
    requires from <= |cells|
    ensures from <= i <= |cells| && ReadBody(LinesOf(cells[from..]), counts, NO_BODY) == (b, LinesOf(cells[i..]))
  {
    b, i := NO_BODY, from;
    while i < |cells| && Continues(counts, b, cells[i].line)
      invariant from <= i <= |cells|
      invariant ReadBody(LinesOf(cells[from..]), counts, NO_BODY) == ReadBody(LinesOf(cells[i..]), counts, b)
    {
      LinesTail(cells[i..], 1);
      assert cells[i..][1..] == cells[i + 1..];
      b, i := Take(b, cells[i].line), i + 1;
    }
  }

  /** A hunk of a deletion: its header, the loop over its removed lines, and the marker after them. */
  method ReadHunkAt(shapes: seq<Shape>, at: nat, hunks: seq<Hunk>, consumed: nat) returns (next: Option<Next>)
    requires at < |shapes|
    ensures next == NextHunk(shapes, at, hunks, consumed)
  {
    if shapes[at].header.None? { return None; }
    var (start, count) := shapes[at].header.value;
    if !InOrder(start, count, hunks, consumed) { return None; }
    var lines: seq<Line> := [];
    for i := 0 to count
      invariant at + 1 + i <= |shapes| && AreRemoved(shapes, at + 1, i) && lines == RemovedLines(shapes, at + 1, i)
    {
      if at + 1 + i == |shapes| || shapes[at + 1 + i].removed.None? { return None; }
      lines := lines + [Line(Removed, shapes[at + 1 + i].removed.value)];
    }
    var end := at + 1 + count;
    var marked := end < |shapes| && shapes[end].marker;
    if marked && count == 0 { return None; }
    next := Some(Next(Hunk(start, lines, false), marked, if marked then end + 1 else end));
  }

  lemma {:induction false} BlankStep(shapes: seq<Shape>, i: nat, hunks: seq<Hunk>, consumed: nat, without: bool)
    requires i < |shapes| && !shapes[i].ends && shapes[i].blank
    ensures ReadDeletion(shapes[i..], hunks, consumed, without) == ReadDeletion(shapes[i + 1..], hunks, consumed, without)
  {
    assert shapes[i..][1..] == shapes[i + 1..] && shapes[i..][0] == shapes[i];
  }

  /** A hunk is the same seen from any line before it. */
  lemma {:induction false} NextHunkFrom(shapes: seq<Shape>, i: nat, hunks: seq<Hunk>, consumed: nat)
    requires i < |shapes|
    ensures var a, b := NextHunk(shapes[i..], 0, hunks, consumed), NextHunk(shapes, i, hunks, consumed);
            (a.None? <==> b.None?) && (b.Some? ==> a.value == b.value.(end := b.value.end - i))
  {
    if shapes[i].header.Some? {
      var (start, count) := shapes[i].header.value;
      assert AreRemoved(shapes[i..], 1, count) <==> AreRemoved(shapes, i + 1, count) by {
        assert forall k :: i <= k < |shapes| ==> shapes[k] == shapes[i..][k - i];
      }
      if AreRemoved(shapes, i + 1, count) { assert RemovedLines(shapes[i..], 1, count) == RemovedLines(shapes, i + 1, count); }
    }
  }

  lemma {:induction false} HunkStep(shapes: seq<Shape>, i: nat, hunks: seq<Hunk>, consumed: nat, next: Next)
    requires i < |shapes| && !shapes[i].ends && !shapes[i].blank
    requires NextHunk(shapes, i, hunks, consumed) == Some(next)
    ensures ReadDeletion(shapes[i..], hunks, consumed, false)
            == ReadDeletion(shapes[next.end..], hunks + [next.hunk], consumed + |next.hunk.lines|, next.marked)
  {
    NextHunkFrom(shapes, i, hunks, consumed);
    assert shapes[i..][next.end - i..] == shapes[next.end..];
  }

  lemma {:induction false} StopStep(shapes: seq<Shape>, i: nat, hunks: seq<Hunk>, consumed: nat, without: bool)
    requires i < |shapes| && !shapes[i].ends && !shapes[i].blank
    requires without || NextHunk(shapes, i, hunks, consumed).None?
    ensures ReadDeletion(shapes[i..], hunks, consumed, without) == None
  {
    NextHunkFrom(shapes, i, hunks, consumed);
  }

  /** `parse_hunks`: the hunks of a deletion, up to the next file. */
  method ParseDeletion(shapes: seq<Shape>) returns (r: Option<Deletion>)
    ensures r == ReadDeletion(shapes, [], 0, false)
  {
    var hunks: seq<Hunk> := [];
    var consumed, without, i := 0, false, 0;
    ghost var want := ReadDeletion(shapes, [], 0, false);
    assert shapes[0..] == shapes;
    while i < |shapes| && !shapes[i].ends
      invariant i <= |shapes|
      invariant want == ReadDeletion(shapes[i..], hunks, consumed, without)
    {
      var ok;
      ok, i, hunks, consumed, without := DeletionRound(shapes, i, hunks, consumed, without);
      if !ok { return None; }
    }
    EndStep(shapes, i, hunks, consumed, without);
    if |hunks| <= 1 || forall k :: 0 <= k < |hunks| ==> hunks[k].lines != [] {
      r := Some(Deletion(hunks, without, |shapes| - i));
    } else {
      r := None;
    }
  }

  /** One round of that loop. */
  method DeletionRound(shapes: seq<Shape>, i: nat, hunks: seq<Hunk>, consumed: nat, without: bool)
    returns (ok: bool, i': nat, hunks': seq<Hunk>, consumed': nat, without': bool)
    requires i < |shapes| && !shapes[i].ends
    ensures i < i' <= |shapes|
    ensures ReadDeletion(shapes[i..], hunks, consumed, without)
            == if ok then ReadDeletion(shapes[i'..], hunks', consumed', without') else None
  {
    if shapes[i].blank {
      BlankStep(shapes, i, hunks, consumed, without);
      return true, i + 1, hunks, consumed, without;
    }
    var next := None;
    if !without { next := ReadHunkAt(shapes, i, hunks, consumed); }
    ok := next.Some?;
    if ok {
      HunkStep(shapes, i, hunks, consumed, next.value);
      hunks', consumed', without', i' := hunks + [next.value.hunk], consumed + |next.value.hunk.lines|, next.value.marked, next.value.end;
    } else {
      StopStep(shapes, i, hunks, consumed, without);
      hunks', consumed', without', i' := hunks, consumed, without, i + 1;
    }
  }

  lemma {:induction false} EndStep(shapes: seq<Shape>, i: nat, hunks: seq<Hunk>, consumed: nat, without: bool)
    requires i <= |shapes| && (i < |shapes| ==> shapes[i].ends)
    ensures ReadDeletion(shapes[i..], hunks, consumed, without)
            == if |hunks| <= 1 || forall k :: 0 <= k < |hunks| ==> hunks[k].lines != [] then Some(Deletion(hunks, without, |shapes| - i)) else None
  {
  }

  // Each of the following is one round of the loop of `parse`.

  lemma {:induction false} OtherStep(cells: seq<Cell>, i: nat, files: seq<FilePatch>)
    requires i < |cells| && (cells[i].row.Other? || cells[i].row.NewFile?)
    ensures ReadCells(cells[i..], files) == ReadCells(cells[i + 1..], files)
  {
    assert cells[i..][1..] == cells[i + 1..] && cells[i..][0] == cells[i];
  }

  lemma {:induction false} HunkLinesStep(cells: seq<Cell>, i: nat, files: seq<FilePatch>, body: Body, end: nat)
    requires i < end <= |cells| && files != [] && cells[i].row.HunkHeader? && cells[i].row.start.Some?
    requires ReadBody(LinesOf(cells[i + 1..]), cells[i].row.counts, NO_BODY) == (body, LinesOf(cells[end..]))
    ensures ReadCells(cells[i..], files) == ReadCells(cells[end..], AddHunk(files, Hunk(cells[i].row.start.value, body.lines, body.noNewline)))
  {
    var rest, more := cells[i..], LinesOf(cells[end..]);
    assert rest[1..] == cells[i + 1..] && rest[0] == cells[i];
    assert rest[|rest| - |more|..] == cells[end..];
    CellsHunk(rest, files, cells[i].row.start.value, cells[i].row.counts, body, more);
  }

  lemma {:induction false} BadStep(cells: seq<Cell>, i: nat, files: seq<FilePatch>)
    requires i < |cells|
    ensures cells[i].row.OldFile? && (i + 1 == |cells| || !cells[i + 1].row.NewFile?) ==> ReadCells(cells[i..], files) == NoPlusLine
    ensures cells[i].row.HunkHeader? && files == [] ==> ReadCells(cells[i..], files) == StrayHunk
    ensures cells[i].row.HunkHeader? && files != [] && cells[i].row.start.None? ==> ReadCells(cells[i..], files) == BadHeader
  {
    assert cells[i..][0] == cells[i] && (i + 1 < |cells| ==> cells[i..][1] == cells[i + 1]);
  }

  lemma {:induction false} FileFrom(cells: seq<Cell>, i: nat)
    requires i + 2 <= |cells| && cells[i].row.OldFile? && cells[i + 1].row.NewFile?
    ensures var a, b := FileAt(cells[i..], 0), FileAt(cells, i);
            (a.None? <==> b.None?) && (b.Some? ==> a.value == (b.value.0, b.value.1 - i))
  {
    assert cells[i..][2..] == cells[i + 2..] && cells[i..][0] == cells[i] && cells[i..][1] == cells[i + 1];
  }

  lemma {:induction false} FileStep(cells: seq<Cell>, i: nat, files: seq<FilePatch>)
    requires i + 2 <= |cells| && cells[i].row.OldFile? && cells[i + 1].row.NewFile?
    ensures var file := FileAt(cells, i);
            ReadCells(cells[i..], files) == if file.None? then BadDeletion else ReadCells(cells[file.value.1..], files + [file.value.0])
  {
    FileFrom(cells, i);
    var file := FileAt(cells, i);
    if file.Some? { assert cells[i..][file.value.1 - i..] == cells[file.value.1..]; }
  }

  /** The two header lines of a section, and the hunks of a deletion. */
  method ParseFile(cells: seq<Cell>, i: nat) returns (file: Option<(FilePatch, nat)>)
    requires i + 2 <= |cells| && cells[i].row.OldFile? && cells[i + 1].row.NewFile?
    ensures file == FileAt(cells, i)
  {
    var source, target := cells[i].row.path, cells[i + 1].row.path;
    if target.Some? { return Some((FilePatch(source, target, [], false), i + 2)); }
    var d := ParseDeletion(ShapesOf(cells[i + 2..]));
    if d.None? { return None; }
    file := Some((FilePatch(source, None, d.value.hunks, d.value.withoutNewline), |cells| - d.value.left));
  }

  /** One round of the loop over the lines of a diff, unless it ends the parse with an error. */
  method ParseRound(cells: seq<Cell>, i: nat, files: seq<FilePatch>) returns (error: Option<Parsed>, i': nat, files': seq<FilePatch>)
    requires i < |cells|
    ensures i < i' <= |cells|
    ensures ReadCells(cells[i..], files) == if error.Some? then error.value else ReadCells(cells[i'..], files')
  {
    error, i', files' := None, i + 1, files;
    BadStep(cells, i, files);
    match cells[i].row
    case OldFile(_) =>
      if i + 1 == |cells| || !cells[i + 1].row.NewFile? { return Some(NoPlusLine), i + 1, files; }
      FileStep(cells, i, files);
      var file := ParseFile(cells, i);
      if file.None? { return Some(BadDeletion), i + 1, files; }
      files', i' := files + [file.value.0], file.value.1;
    case HunkHeader(start, counts) =>
      if files == [] { return Some(StrayHunk), i + 1, files; }
      if start.None? { return Some(BadHeader), i + 1, files; }
      var body;
      body, i' := ReadHunkBody(cells, i + 1, counts);
      HunkLinesStep(cells, i, files, body, i');
      files' := AddHunk(files, Hunk(start.value, body.lines, body.noNewline));
    case _ =>
      OtherStep(cells, i, files);
  }

  /** `parse`. */
  method ParseDiff(text: string) returns (r: Parsed)
    ensures r == ReadCells(Cells(Raws(text)), [])
  {
    var cells := Cells(Raws(text));
    var files: seq<FilePatch> := [];
    var i := 0;
    ghost var want := ReadCells(cells, []);
    assert cells[0..] == cells;
    while i < |cells|
      invariant i <= |cells| && want == ReadCells(cells[i..], files)
    {
      var error;
      error, i, files := ParseRound(cells, i, files);
      if error.Some? { return error.value; }
    }
    r := if files == [] then NoFile else Files(files);
  }
}
