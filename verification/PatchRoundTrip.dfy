/** Printing a whole diff, whose sections change, create or delete files in any order, and reading it
    back from its text. */
module PatchRoundTrip {
  import opened Decimal
  import opened Text
  import opened Patch
  import opened PatchParse
  import opened PatchPrint
  import opened PatchRead

  /** A section of a diff and how it is printed: the lines before it (`diff --git`, `index`), the forms of its
      paths, and for a deletion the pieces and the blank lines after them. */
  datatype Section =
    | Change(before: seq<string>, sourceForm: PathForm, source: Option<string>, targetForm: PathForm, target: string, hunks: seq<Numbered>)
    | Delete(before: seq<string>, sourceForm: PathForm, gone: string, targetForm: PathForm, pieces: seq<Piece>, unended: bool, blanks: nat)
  {
    /** The paths of its two files; a deletion has no second. */
    function Source(): Option<string> { if Change? then source else Some(gone) }
    function Target(): Option<string> { if Change? then Some(target) else None }

    function SourceText(): string { FileText(sourceForm, Source()) }
    function TargetText(): string { FileText(targetForm, Target()) }
  }

  /** The lines with their newlines. */
  function Ended(lines: seq<string>): (r: seq<string>)
    ensures |r| == |lines| && forall i :: 0 <= i < |lines| ==> r[i] == lines[i] + "\n"
  {
    seq(|lines|, i requires 0 <= i < |lines| => lines[i] + "\n")
  }

  function FileLines(source: string, target: string): seq<string> { ["--- " + source, "+++ " + target] }

  /** The lines after those of its files. */
  function Rest(f: Section): seq<string> {
    match f
    case Change(_, _, _, _, _, hunks) => Ended(PrintHunks(hunks))
    case Delete(_, _, _, _, pieces, unended, blanks) => PrintDeletion(pieces, unended, blanks)
  }

  function PrintSection(f: Section): seq<string> {
    Ended(f.before) + (Ended(FileLines(f.SourceText(), f.TargetText())) + Rest(f))
  }

  function PrintDiff(files: seq<Section>): seq<string> {
    if files == [] then [] else PrintSection(files[0]) + PrintDiff(files[1..])
  }

  /** The section as the parser knows it. */
  function Plain(f: Section): FilePatch {
    match f
    case Change(_, _, source, _, target, hunks) => FilePatch(source, Some(target), Hunks(hunks), false)
    case Delete(_, _, gone, _, pieces, unended, _) => FilePatch(Some(gone), None, HunksOf(0, pieces), unended)
  }

  function Plains(files: seq<Section>): seq<FilePatch> {
    if files == [] then [] else [Plain(files[0])] + Plains(files[1..])
  }

  // ----- what can be printed -----

  /** No newline inside and no carriage return at the end, which the reader would drop. */
  predicate OneLine(s: string) { '\n' !in s && (s != "" ==> s[|s| - 1] != '\r') }

  predicate OneLines(lines: seq<string>) { forall i :: 0 <= i < |lines| ==> OneLine(lines[i]) }

  predicate PrintableHunks(hunks: seq<Numbered>) { forall i :: 0 <= i < |hunks| ==> PrintableHunk(hunks[i].hunk) }

  /** Lines that the parser passes over. */
  predicate PassedOver(lines: seq<string>) { forall i :: 0 <= i < |lines| ==> RowOf(lines[i]).Other? || RowOf(lines[i]).NewFile? }

  predicate Printable(f: Section) {
    && PassedOver(f.before) && OneLines(f.before) && (f.before != [] ==> GIT_HEADER <= f.before[0])
    && PrintableFile(f.sourceForm, f.Source()) && PrintableFile(f.targetForm, f.Target())
    && OneLine(f.SourceText()) && OneLine(f.TargetText())
    && match f
       case Change(_, _, _, _, _, hunks) => PrintableHunks(hunks) && OneLines(PrintHunks(hunks))
       case Delete(_, _, _, _, pieces, unended, _) => PrintablePieces(pieces, unended) && PlainPieces(pieces)
  }

  /** No newline inside a line or a heading. */
  predicate PlainPieces(pieces: seq<Piece>) {
    forall i :: 0 <= i < |pieces| ==> '\n' !in pieces[i].heading && forall k :: 0 <= k < |pieces[i].lines| ==> '\n' !in pieces[i].lines[k]
  }

  predicate AllPrintable(files: seq<Section>) { forall i :: 0 <= i < |files| ==> Printable(files[i]) }

  // ----- cells -----

  lemma {:induction false} CellsAfter(a: seq<string>, b: seq<string>)
    ensures |Cells(a + b)| == |a| + |b| && Cells(a + b)[|a|..] == Cells(b)
  {
    assert forall i :: 0 <= i < |b| ==> (a + b)[|a| + i] == b[i];
  }

  lemma {:induction false} EndedLine(line: string)
    requires OneLine(line)
    ensures DiffLine(line + "\n") == line
  {
    assert (line + "\n")[..|line|] == line;
  }

  lemma {:induction false} EndedConcat(a: seq<string>, b: seq<string>)
    ensures Ended(a + b) == Ended(a) + Ended(b)
  {
  }

  /** The lines the hunk reader sees. */
  lemma {:induction false} LinesOfEnded(lines: seq<string>, after: seq<string>)
    requires OneLines(lines)
    ensures LinesOf(Cells(Ended(lines) + after)) == lines + DiffLines(after)
  {
    var raws := Ended(lines) + after;
    forall i | 0 <= i < |raws| ensures LinesOf(Cells(raws))[i] == (lines + DiffLines(after))[i] {
      if i < |lines| { EndedLine(lines[i]); }
    }
  }

  lemma {:induction false} ShapesOfCells(raws: seq<string>)
    ensures ShapesOf(Cells(raws)) == Shapes(raws)
  {
  }

  lemma {:induction false} EndIsNoMarker(after: seq<string>)
    requires Ends(after)
    ensures DiffLines(after) != [] ==> !Marker(DiffLines(after)[0])
  {
    if after != [] {
      var line := DiffLine(after[0]);
      assert line[0] == '-' || line[0] == 'd';
    }
  }

  // ----- hunks -----

  lemma {:induction false} AddHunkTo(done: seq<FilePatch>, f: FilePatch, h: Hunk)
    ensures AddHunk(done + [f], h) == done + [f.(hunks := f.hunks + [h])]
  {
  }

  /** One hunk, if the line after it is not taken for a marker. */
  lemma {:induction false} HunkReads(n: Numbered, after: seq<string>, done: seq<FilePatch>, f: FilePatch)
    requires PrintableHunk(n.hunk) && OneLines(PrintHunk(n)) && (after != [] ==> !Marker(DiffLine(after[0])))
    ensures ReadCells(Cells(Ended(PrintHunk(n)) + after), done + [f])
            == ReadCells(Cells(after), done + [f.(hunks := f.hunks + [n.hunk])])
  {
    HeaderCell(n, after);
    HunkBodyReads(n, after);
    HunkGoesOn(Ended(PrintHunk(n)), after, n.hunk, Some((|Old(n.hunk.lines)|, |New(n.hunk.lines)|)), done, f);
  }

  lemma {:induction false} HunkGoesOn(raws: seq<string>, after: seq<string>, h: Hunk, counts: Option<(nat, nat)>,
                                      done: seq<FilePatch>, f: FilePatch)
    requires raws != [] && Cells(raws + after)[0].row == HunkHeader(Some(h.oldStart), counts)
    requires ReadBody(LinesOf(Cells(raws + after)[1..]), counts, NO_BODY) == (BodyOf(h), DiffLines(after))
    ensures ReadCells(Cells(raws + after), done + [f]) == ReadCells(Cells(after), done + [f.(hunks := f.hunks + [h])])
  {
    CellsHunk(Cells(raws + after), done + [f], h.oldStart, counts, BodyOf(h), DiffLines(after));
    CellsAfter(raws, after);
    AddHunkTo(done, f, h);
  }

  function BodyOf(h: Hunk): Body { Body(|Old(h.lines)|, |New(h.lines)|, h.lines, h.newEndsWithoutNewline) }

  lemma {:induction false} HunkBodyReads(n: Numbered, after: seq<string>)
    requires PrintableHunk(n.hunk) && OneLines(PrintHunk(n)) && (after != [] ==> !Marker(DiffLine(after[0])))
    ensures ReadBody(LinesOf(Cells(Ended(PrintHunk(n)) + after)[1..]), Some((|Old(n.hunk.lines)|, |New(n.hunk.lines)|)), NO_BODY)
            == (BodyOf(n.hunk), DiffLines(after))
  {
    LinesOfBody(n, after);
    WholeBodyReads(n.hunk, n.style.stripped, DiffLines(after));
  }

  lemma {:induction false} WholeBodyReads(h: Hunk, stripped: bool, after: seq<string>)
    requires PrintableHunk(h) && (after != [] ==> !Marker(after[0]))
    ensures ReadBody(PrintBody(h.lines, h.newEndsWithoutNewline, stripped) + after, Some((|Old(h.lines)|, |New(h.lines)|)), NO_BODY)
            == (BodyOf(h), after)
  {
    BodyReads(h.lines, h.newEndsWithoutNewline, stripped, after, NO_BODY);
    NothingAdded(h.lines);
  }

  lemma {:induction false} HeaderCell(n: Numbered, after: seq<string>)
    requires PrintableHunk(n.hunk) && OneLines(PrintHunk(n))
    ensures Cells(Ended(PrintHunk(n)) + after)[0].row
            == HunkHeader(Some(n.hunk.oldStart), Some((|Old(n.hunk.lines)|, |New(n.hunk.lines)|)))
  {
    HeaderReads(n);
    assert PrintHunk(n)[0] == PrintHeader(n);
    EndedLine(PrintHeader(n));
    AtIsHunk(PrintHeader(n));
  }

  lemma {:induction false} LinesOfBody(n: Numbered, after: seq<string>)
    requires OneLines(PrintHunk(n))
    ensures LinesOf(Cells(Ended(PrintHunk(n)) + after)[1..])
            == PatchPrint.BodyLines(n) + DiffLines(after)
  {
    LinesAfterFirst(PrintHeader(n), PatchPrint.BodyLines(n), after);
  }

  lemma {:induction false} LinesAfterFirst(first: string, more: seq<string>, after: seq<string>)
    requires OneLines([first] + more)
    ensures LinesOf(Cells(Ended([first] + more) + after)[1..]) == more + DiffLines(after)
  {
    LinesOfEnded([first] + more, after);
    LinesTail(Cells(Ended([first] + more) + after), 1);
    WithoutFirst(first, more, DiffLines(after));
  }

  lemma {:induction false} WithoutFirst(first: string, more: seq<string>, after: seq<string>)
    ensures ([first] + more + after)[1..] == more + after
  {
  }

  lemma {:induction false} HunksStart(hunks: seq<Numbered>, after: seq<string>)
    requires PrintableHunks(hunks) && OneLines(PrintHunks(hunks)) && Ends(after)
    ensures var raws := Ended(PrintHunks(hunks)) + after; raws != [] ==> !Marker(DiffLine(raws[0]))
  {
    if hunks == [] {
      EndIsNoMarker(after);
    } else {
      HeaderReads(hunks[0]);
      assert PrintHunks(hunks)[0] == PrintHeader(hunks[0]);
      EndedLine(PrintHeader(hunks[0]));
      assert PrintHeader(hunks[0])[0] == "@@ "[0];
    }
  }

  lemma {:induction false} HunksRead(hunks: seq<Numbered>, after: seq<string>, done: seq<FilePatch>, f: FilePatch)
    requires PrintableHunks(hunks) && OneLines(PrintHunks(hunks)) && Ends(after)
    ensures ReadCells(Cells(Ended(PrintHunks(hunks)) + after), done + [f])
            == ReadCells(Cells(after), done + [f.(hunks := f.hunks + Hunks(hunks))])
    decreases |hunks|
  {
    if hunks == [] {
      NothingAdded(after);
      NothingAdded(f.hunks);
    } else {
      var first, more := PrintHunk(hunks[0]), PrintHunks(hunks[1..]);
      OneLinesParts(first, more);
      HunksStart(hunks[1..], after);
      EndedConcat(first, more);
      PatchPrint.Regroup3(Ended(first), Ended(more), after);
      HunkReads(hunks[0], Ended(more) + after, done, f);
      HunksRead(hunks[1..], after, done, f.(hunks := f.hunks + [hunks[0].hunk]));
      PatchPrint.Regroup3(f.hunks, [hunks[0].hunk], Hunks(hunks[1..]));
    }
  }

  lemma {:induction false} OneLinesParts(a: seq<string>, b: seq<string>)
    requires OneLines(a + b)
    ensures OneLines(a) && OneLines(b)
  {
    assert forall i :: 0 <= i < |a| ==> (a + b)[i] == a[i];
    assert forall i :: 0 <= i < |b| ==> (a + b)[|a| + i] == b[i];
  }

  // ----- sections -----

  /** The two lines of a section's files. */
  lemma {:induction false} FileCells(source: string, target: string, more: seq<string>)
    requires OneLine(source) && OneLine(target)
    ensures var cells := Cells(Ended(FileLines(source, target)) + more);
            && |cells| == |more| + 2 && cells[0].row == OldFile(DiffPath(source)) && cells[1].row == NewFile(DiffPath(target))
            && cells[2..] == Cells(more)
  {
    var raws := Ended(FileLines(source, target)) + more;
    FileLineRow(source);
    TargetLineRow(target);
    CellsAfter(Ended(FileLines(source, target)), more);
  }

  lemma {:induction false} FileLineRow(path: string)
    requires OneLine(path)
    ensures OneLine("--- " + path) && CellOf("--- " + path + "\n").row == OldFile(DiffPath(path)) && ShapeOf("--- " + path + "\n").ends
  {
    EndedLine("--- " + path);
    assert ("--- " + path)[4..] == path;
    assert ("--- " + path)[..4] == "--- ";
  }

  lemma {:induction false} TargetLineRow(path: string)
    requires OneLine(path)
    ensures OneLine("+++ " + path) && CellOf("+++ " + path + "\n").row == NewFile(DiffPath(path))
  {
    EndedLine("+++ " + path);
    assert ("+++ " + path)[4..] == path;
    assert ("+++ " + path)[..4] == "+++ ";
    PlusIsNewFile("+++ " + path);
  }

  /** The lines before a section are passed over. */
  lemma {:induction false} BeforeReads(lines: seq<string>, more: seq<string>, done: seq<FilePatch>)
    requires PassedOver(lines) && OneLines(lines)
    ensures AlikeRead(Ended(lines) + more, more, done)
    decreases |lines|
  {
    if lines == [] {
      NothingAdded(more);
    } else {
      BeforeReads(lines[1..], more, done);
      LinePassed(lines[0], Ended(lines[1..]) + more, done);
      EndedCons(lines, more);
      AlikeOn(Ended(lines) + more, Ended(lines[1..]) + more, more, done);
    }
  }

  ghost predicate AlikeRead(a: seq<string>, b: seq<string>, done: seq<FilePatch>) { ReadCells(Cells(a), done) == ReadCells(Cells(b), done) }

  lemma {:induction false} AlikeOn(a: seq<string>, b: seq<string>, c: seq<string>, done: seq<FilePatch>)
    requires AlikeRead(a, b, done) && AlikeRead(b, c, done)
    ensures AlikeRead(a, c, done)
  {
  }

  lemma {:induction false} EndedCons(lines: seq<string>, more: seq<string>)
    requires lines != []
    ensures Ended(lines) + more == [lines[0] + "\n"] + (Ended(lines[1..]) + more)
  {
  }

  lemma {:induction false} LinePassed(line: string, more: seq<string>, done: seq<FilePatch>)
    requires OneLine(line) && (RowOf(line).Other? || RowOf(line).NewFile?)
    ensures AlikeRead([line + "\n"] + more, more, done)
  {
    var cells := Cells([line + "\n"] + more);
    EndedLine(line);
    CellsAfter([line + "\n"], more);
    assert cells[0] == CellOf(line + "\n") && cells[0..] == cells;
    OtherStep(cells, 0, done);
  }

  /** The section without the lines before it. */
  function Core(f: Section): seq<string> { Ended(FileLines(f.SourceText(), f.TargetText())) + Rest(f) }

  /** The two file lines of a printed section. */
  lemma {:induction false} CoreCells(f: Section, after: seq<string>)
    requires Printable(f)
    ensures var cells := Cells(Core(f) + after);
            && |cells| >= 2 && cells[0].row == OldFile(f.Source()) && cells[1].row == NewFile(f.Target())
            && cells[2..] == Cells(Rest(f) + after)
  {
    PathReads(f.sourceForm, f.Source());
    PathReads(f.targetForm, f.Target());
    FileCells(f.SourceText(), f.TargetText(), Rest(f) + after);
    PatchPrint.Regroup3(Ended(FileLines(f.SourceText(), f.TargetText())), Rest(f), after);
  }

  lemma {:induction false} ChangeReads(f: Section, after: seq<string>, done: seq<FilePatch>)
    requires f.Change? && Printable(f) && Ends(after)
    ensures ReadCells(Cells(Core(f) + after), done) == ReadCells(Cells(after), done + [Plain(f)])
  {
    var file := FilePatch(f.source, Some(f.target), [], false);
    CoreCells(f, after);
    ChangeStarts(Cells(Core(f) + after), file, done);
    HunksRead(f.hunks, after, done, file);
    NothingAdded(Hunks(f.hunks));
  }

  lemma {:induction false} ChangeStarts(cells: seq<Cell>, file: FilePatch, done: seq<FilePatch>)
    requires |cells| >= 2 && cells[0].row == OldFile(file.source) && cells[1].row == NewFile(file.target)
    requires file.target.Some? && file.hunks == [] && !file.oldEndsWithoutNewline
    ensures ReadCells(cells, done) == ReadCells(cells[2..], done + [file])
  {
    assert cells[0..] == cells && FileAt(cells, 0) == Some((file, 2));
    PatchRead.FileStep(cells, 0, done);
  }

  lemma {:induction false} DeleteReads(f: Section, after: seq<string>, done: seq<FilePatch>)
    requires f.Delete? && Printable(f) && Ends(after)
    ensures ReadCells(Cells(Core(f) + after), done) == ReadCells(Cells(after), done + [Plain(f)])
  {
    CoreCells(f, after);
    DeletionReads(f.pieces, f.unended, f.blanks, after);
    DeletionGoesOn(Core(f), Rest(f) + after, after, Plain(f), done);
  }

  lemma {:induction false} DeletionGoesOn(raws: seq<string>, more: seq<string>, after: seq<string>, f: FilePatch, done: seq<FilePatch>)
    requires var cells := Cells(raws + after);
             |cells| >= 2 && cells[0].row == OldFile(f.source) && cells[1].row == NewFile(None) && cells[2..] == Cells(more)
    requires f.target == None && ReadDeletion(Shapes(more), [], 0, false) == Some(Deletion(f.hunks, f.oldEndsWithoutNewline, |after|))
    ensures ReadCells(Cells(raws + after), done) == ReadCells(Cells(after), done + [f])
  {
    var cells := Cells(raws + after);
    ShapesOfCells(more);
    CellsAfter(raws, after);
    DeletionAt(cells, f, |after|);
    PatchRead.FileStep(cells, 0, done);
    assert cells[0..] == cells;
  }

  lemma {:induction false} DeletionAt(cells: seq<Cell>, f: FilePatch, left: nat)
    requires |cells| >= 2 && cells[0].row == OldFile(f.source) && cells[1].row == NewFile(None) && f.target == None
    requires ReadDeletion(ShapesOf(cells[2..]), [], 0, false) == Some(Deletion(f.hunks, f.oldEndsWithoutNewline, left))
    ensures left <= |cells| && FileAt(cells, 0) == Some((f, |cells| - left))
  {
  }

  lemma {:induction false} SectionReads(f: Section, after: seq<string>, done: seq<FilePatch>)
    requires Printable(f) && Ends(after)
    ensures ReadCells(Cells(PrintSection(f) + after), done) == ReadCells(Cells(after), done + [Plain(f)])
  {
    PatchPrint.Regroup3(Ended(f.before), Core(f), after);
    BeforeReads(f.before, Core(f) + after, done);
    if f.Change? { ChangeReads(f, after, done); } else { DeleteReads(f, after, done); }
  }

  lemma {:induction false} DiffStarts(files: seq<Section>)
    requires AllPrintable(files)
    ensures Ends(PrintDiff(files))
  {
    if files != [] {
      var f := files[0];
      if f.before == [] {
        FileLineRow(f.SourceText());
        assert PrintDiff(files)[0] == "--- " + f.SourceText() + "\n";
      } else {
        EndedLine(f.before[0]);
        assert PrintDiff(files)[0] == f.before[0] + "\n";
      }
    }
  }

  lemma {:induction false} SectionsRead(files: seq<Section>, done: seq<FilePatch>)
    requires AllPrintable(files) && done + Plains(files) != []
    ensures ReadCells(Cells(PrintDiff(files)), done) == Files(done + Plains(files))
    decreases |files|
  {
    if files == [] {
      NothingAdded(done);
    } else {
      DiffStarts(files[1..]);
      SectionReads(files[0], PrintDiff(files[1..]), done);
      PatchPrint.Regroup3(done, [Plain(files[0])], Plains(files[1..]));
      SectionsRead(files[1..], done + [Plain(files[0])]);
    }
  }

  // ----- as text -----

  function Glue(raws: seq<string>): string { if raws == [] then "" else raws[0] + Glue(raws[1..]) }

  predicate IsRaw(raw: string) { raw != "" && raw[|raw| - 1] == '\n' && '\n' !in raw[..|raw| - 1] }

  predicate AreRaws(raws: seq<string>) { forall i :: 0 <= i < |raws| ==> IsRaw(raws[i]) }

  lemma {:induction false} RawsOfGlue(raws: seq<string>)
    requires AreRaws(raws)
    ensures Raws(Glue(raws)) == raws
    decreases |raws|
  {
    if raws != [] {
      RawsOfGlue(raws[1..]);
      RawFirst(raws[0], Glue(raws[1..]));
    }
  }

  lemma {:induction false} RawFirst(raw: string, rest: string)
    requires IsRaw(raw)
    ensures Raws(raw + rest) == [raw] + Raws(rest)
  {
    var line, text := raw[..|raw| - 1], raw + rest;
    assert raw == line + "\n";
    FirstBreakIs(line, rest);
    assert text[..|raw|] == raw && text[|raw|..] == rest;
  }

  lemma {:induction false} EndedAreRaws(lines: seq<string>)
    requires forall i :: 0 <= i < |lines| ==> '\n' !in lines[i]
    ensures AreRaws(Ended(lines))
  {
    forall i | 0 <= i < |lines| ensures IsRaw(Ended(lines)[i]) { EndedIsRaw(lines[i]); }
  }

  lemma {:induction false} EndedIsRaw(line: string)
    requires '\n' !in line
    ensures IsRaw(line + "\n")
  {
    assert (line + "\n")[..|line|] == line;
  }

  lemma {:induction false} PieceAreRaws(consumed: nat, p: Piece)
    requires '\n' !in p.heading && forall k :: 0 <= k < |p.lines| ==> '\n' !in p.lines[k]
    ensures AreRaws(PrintPiece(consumed, p))
  {
    HeaderPlain(Range(StartOf(consumed, p), |p.lines|, p.short), p.heading);
    EndedIsRaw(PieceHeader(consumed, p));
    BlanksAreRaws(p.blanks);
    RemovedAreRaws(p.lines);
    RawsConcat([PieceHeader(consumed, p) + "\n"], RemovedRaws(p.lines));
    RawsConcat(BlankRaws(p.blanks), [PieceHeader(consumed, p) + "\n"] + RemovedRaws(p.lines));
  }

  lemma {:induction false} RemovedAreRaws(lines: seq<string>)
    requires forall k :: 0 <= k < |lines| ==> '\n' !in lines[k]
    ensures AreRaws(RemovedRaws(lines))
  {
    forall i | 0 <= i < |lines| ensures IsRaw(RemovedRaws(lines)[i]) { EndedIsRaw("-" + lines[i]); }
  }

  lemma {:induction false} BlanksAreRaws(n: nat)
    ensures AreRaws(BlankRaws(n))
  {
    assert "\n"[..0] == "";
  }

  lemma {:induction false} HeaderPlain(range: string, heading: string)
    requires '\n' !in heading && '\n' !in range
    ensures '\n' !in HUNK_MARK + range + " +" + EMPTY_RANGE + " @@" + heading
  {
  }

  lemma {:induction false} PiecesAreRaws(consumed: nat, pieces: seq<Piece>)
    requires PlainPieces(pieces)
    ensures AreRaws(PrintPieces(consumed, pieces))
    decreases |pieces|
  {
    if pieces != [] {
      PieceAreRaws(consumed, pieces[0]);
      PiecesAreRaws(consumed + |pieces[0].lines|, pieces[1..]);
      RawsConcat(PrintPiece(consumed, pieces[0]), PrintPieces(consumed + |pieces[0].lines|, pieces[1..]));
    }
  }

  lemma {:induction false} RawsConcat(a: seq<string>, b: seq<string>)
    requires AreRaws(a) && AreRaws(b)
    ensures AreRaws(a + b)
  {
  }

  lemma {:induction false} DeletionAreRaws(pieces: seq<Piece>, unended: bool, blanks: nat)
    requires PlainPieces(pieces)
    ensures AreRaws(PrintDeletion(pieces, unended, blanks))
  {
    PiecesAreRaws(0, pieces);
    EndedIsRaw(NO_NEWLINE);
    BlanksAreRaws(blanks);
    assert AreRaws(MarkIf(unended));
    RawsConcat(MarkIf(unended), BlankRaws(blanks));
    RawsConcat(PrintPieces(0, pieces), MarkIf(unended) + BlankRaws(blanks));
  }

  lemma {:induction false} NamesAreRaws(source: string, target: string)
    requires OneLine(source) && OneLine(target)
    ensures AreRaws(Ended(FileLines(source, target)))
  {
    FileLineRow(source);
    TargetLineRow(target);
    EndedAreRaws(FileLines(source, target));
  }

  lemma {:induction false} SectionAreRaws(f: Section)
    requires Printable(f)
    ensures AreRaws(PrintSection(f))
  {
    var names := Ended(FileLines(f.SourceText(), f.TargetText()));
    EndedAreRaws(f.before);
    NamesAreRaws(f.SourceText(), f.TargetText());
    match f {
      case Change(_, _, _, _, _, hunks) => EndedAreRaws(PrintHunks(hunks));
      case Delete(_, _, _, _, pieces, unended, blanks) => DeletionAreRaws(pieces, unended, blanks);
    }
    RawsConcat(names, Rest(f));
    RawsConcat(Ended(f.before), names + Rest(f));
  }

  lemma {:induction false} DiffAreRaws(files: seq<Section>)
    requires AllPrintable(files)
    ensures AreRaws(PrintDiff(files))
    decreases |files|
  {
    if files != [] {
      SectionAreRaws(files[0]);
      DiffAreRaws(files[1..]);
      RawsConcat(PrintSection(files[0]), PrintDiff(files[1..]));
    }
  }

  // ----- main result -----

  /** Reading the text of a printed diff gives back its sections, whatever their order, the text before the
      first of them and the forms they are printed in: of a changed or new file the paths, where each
      hunk starts, every tagged line, also one that looks like a header, and whether the new text ends
      without a newline; of a deleted file its whole text, with its carriage returns. */
  lemma {:induction false} DiffTextRoundTrip(preamble: seq<string>, files: seq<Section>)
    requires PassedOver(preamble) && OneLines(preamble) && files != [] && AllPrintable(files)
    ensures ReadCells(Cells(Raws(Glue(Ended(preamble) + PrintDiff(files)))), []) == Files(Plains(files))
    ensures |Plains(files)| == |files| && forall i :: 0 <= i < |files| ==> Says(Plains(files)[i], files[i])
  {
    DiffReads(preamble, files);
    PlainsAt(files);
    forall i | 0 <= i < |files| ensures Says(Plains(files)[i], files[i]) { PlainSays(files[i]); }
  }

  /** What was read is what the section is about. */
  predicate Says(got: FilePatch, f: Section) {
    && got.source == f.Source() && got.target == f.Target()
    && if f.Change? then got.hunks == Hunks(f.hunks) else Preimage(got.hunks, got.oldEndsWithoutNewline) == DeletedText(f.pieces, f.unended)
  }

  lemma {:induction false} PlainSays(f: Section)
    ensures Says(Plain(f), f)
  {
    if f.Delete? { RemovedIsText(0, f.pieces); }
  }

  lemma {:induction false} DiffReads(preamble: seq<string>, files: seq<Section>)
    requires PassedOver(preamble) && OneLines(preamble) && files != [] && AllPrintable(files)
    ensures ReadCells(Cells(Raws(Glue(Ended(preamble) + PrintDiff(files)))), []) == Files(Plains(files))
  {
    EndedAreRaws(preamble);
    DiffAreRaws(files);
    RawsConcat(Ended(preamble), PrintDiff(files));
    RawsOfGlue(Ended(preamble) + PrintDiff(files));
    BeforeReads(preamble, PrintDiff(files), []);
    SectionsRead(files, []);
    NothingAdded(Plains(files));
  }

  lemma {:induction false} PlainsAt(files: seq<Section>)
    ensures |Plains(files)| == |files| && forall i :: 0 <= i < |files| ==> Plains(files)[i] == Plain(files[i])
    decreases |files|
  {
    if files != [] { PlainsAt(files[1..]); }
  }

  /** From a diff and a file to the new file: reading the diff and applying the hunks of its one section, which
      name stretches of the file at their true lines, replaces exactly these. */
  method ApplyDiff(preamble: seq<string>, f: Section, text: string) returns (r: Option<string>)
    requires PassedOver(preamble) && OneLines(preamble) && Printable(f) && f.Change? && Exact(Lines(text), Hunks(f.hunks), 0)
    ensures r == Some(Render(Replaced(Lines(text), Hunks(f.hunks), 0), EndsWithout(Lines(text), Hunks(f.hunks), NoNewline(text))))
  {
    OneSection(preamble, f);
    var parsed := ParseDiff(Glue(Ended(preamble) + PrintDiff([f])));
    ghost var ats, failed;
    r, ats, failed := ApplyText(text, parsed.files[0].hunks);
  }

  lemma {:induction false} OneSection(preamble: seq<string>, f: Section)
    requires PassedOver(preamble) && OneLines(preamble) && Printable(f) && f.Change?
    ensures var parsed := ReadCells(Cells(Raws(Glue(Ended(preamble) + PrintDiff([f])))), []);
            parsed.Files? && |parsed.files| == 1 && parsed.files[0].hunks == Hunks(f.hunks)
  {
    DiffTextRoundTrip(preamble, [f]);
    assert Says(Plains([f])[0], f);
  }
}
