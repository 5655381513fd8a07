/** Printing the hunks of a unified diff, and reading their headers, bodies and paths back. */
module PatchPrint {
  import opened Decimal
  import opened Text
  import opened Patch
  import opened PatchParse

  function TagText(tag: Tag): string { match tag case Context => " " case Removed => "-" case Added => "+" }

  /** A line of a body; an editor may have stripped the space of an empty context line. */
  function LineText(l: Line, stripped: bool): string {
    if stripped && l == Line(Context, "") then "" else TagText(l.tag) + l.text
  }

  /** The body of a hunk; the marker follows the last line of the new side. */
  function PrintBody(lines: seq<Line>, noNewline: bool, stripped: bool): seq<string> {
    if lines == [] then [] else
    [LineText(lines[0], stripped)]
    + MarkAfter(lines, noNewline)
    + PrintBody(lines[1..], noNewline, stripped)
  }

  function MarkAfter(lines: seq<Line>, noNewline: bool): seq<string>
    requires lines != []
  {
    if noNewline && lines[0].tag != Removed && New(lines[1..]) == [] then [NO_NEWLINE] else []
  }

  /** What is left to the printer: to leave out a count of 1 on either side, a heading after the ranges, and
      to strip empty context lines. */
  datatype Style = Style(shortOld: bool, shortNew: bool, heading: string, stripped: bool)

  /** A hunk and the line its new side is said to start at. */
  datatype Numbered = Numbered(hunk: Hunk, newStart: nat, style: Style)

  function Range(start: nat, count: nat, short: bool): string {
    if short && count == 1 then Print(start) else Print(start) + "," + Print(count)
  }

  function PrintHeader(n: Numbered): string {
    HUNK_MARK + Range(n.hunk.oldStart, |Old(n.hunk.lines)|, n.style.shortOld)
    + " +" + Range(n.newStart, |New(n.hunk.lines)|, n.style.shortNew) + " @@" + n.style.heading
  }

  function BodyLines(n: Numbered): seq<string> { PrintBody(n.hunk.lines, n.hunk.newEndsWithoutNewline, n.style.stripped) }

  function PrintHunk(n: Numbered): seq<string> { [PrintHeader(n)] + BodyLines(n) }

  function PrintHunks(hunks: seq<Numbered>): seq<string> {
    if hunks == [] then [] else PrintHunk(hunks[0]) + PrintHunks(hunks[1..])
  }

  const DEV_NULL := "/dev/null"

  /** How a path is written: with `a/`, `b/` or neither before it, and with blanks around it and a tab and a
      timestamp after it. */
  datatype PathForm = PathForm(lead: string, prefix: string, pad: string, stamp: Option<string>)

  function PathText(form: PathForm, path: string): string {
    form.lead + (form.prefix + path) + form.pad + match form.stamp case None => "" case Some(x) => "\t" + x
  }

  /** A missing path is `/dev/null`. */
  function FileText(form: PathForm, path: Option<string>): string {
    match path case None => PathText(form.(prefix := ""), DEV_NULL) case Some(p) => PathText(form, p)
  }

  function Hunks(hunks: seq<Numbered>): seq<Hunk> {
    if hunks == [] then [] else [hunks[0].hunk] + Hunks(hunks[1..])
  }

  // ----- what can be printed -----

  predicate Blank(s: string) { '\t' !in s && forall i :: 0 <= i < |s| ==> IsSpace(s[i]) }

  /** What survives being written: no tab inside, no blank at the end, and without a prefix also none at the
      start and nothing that looks like a prefix or a missing file. */
  predicate PrintablePath(form: PathForm, p: string) {
    && Blank(form.lead) && Blank(form.pad) && (form.prefix == "a/" || form.prefix == "b/" || form.prefix == "")
    && '\t' !in p && (p != "" ==> !IsSpace(p[|p| - 1]))
    && (form.prefix == "" ==> p != DEV_NULL && !("a/" <= p) && !("b/" <= p) && (p != "" ==> !IsSpace(p[0])))
  }

  predicate PrintableFile(form: PathForm, path: Option<string>) {
    match path case None => Blank(form.lead) && Blank(form.pad) case Some(p) => PrintablePath(form, p)
  }

  predicate PrintableHunk(h: Hunk) {
    && h.oldStart < U64_LIMIT && |Old(h.lines)| < U64_LIMIT && |New(h.lines)| < U64_LIMIT
    && (h.newEndsWithoutNewline ==> New(h.lines) != [])
  }

  // ----- headers -----

  lemma RangeReads(start: nat, count: nat, short: bool)
    requires count < U64_LIMIT
    ensures Count(Range(start, count, short)) == Some(count) && ' ' !in Range(start, count, short)
  {
    if short && count == 1 {
      SplitOnceNone(Print(start), ",");
    } else {
      CountReads(start, "", count, "");
      assert Print(start) + "," + ("" + Print(count) + "") == Print(start) + "," + Print(count);
    }
  }

  /** A count may have blanks around it. */
  lemma CountReads(start: nat, lead: string, count: nat, pad: string)
    requires count < U64_LIMIT && Blank(lead) && Blank(pad)
    ensures Count(Print(start) + "," + (lead + Print(count) + pad)) == Some(count)
  {
    SplitOnceAt(Print(start), ",", lead + Print(count) + pad);
    TrimPadded(lead, Print(count), pad);
    ParseUnsignedOfPrint(count, U64_LIMIT);
  }

  lemma CountsRead(was: string, now: string, heading: string, a: nat, b: nat)
    requires ' ' !in was && ' ' !in now && Count(was) == Some(a) && Count(now) == Some(b)
    ensures HunkCounts(HUNK_MARK + was + " +" + now + " @@" + heading) == Some((a, b))
  {
    var header := HUNK_MARK + was + " +" + now + " @@" + heading;
    AfterMark(was, now, heading);
    SplitOnceAt(was, " +", now + " @@" + heading);
    SplitOnceAt(now, " @@", heading);
  }

  lemma AfterMark(was: string, now: string, heading: string)
    ensures var header := HUNK_MARK + was + " +" + now + " @@" + heading;
            HUNK_MARK <= header && header[|HUNK_MARK|..] == was + " +" + (now + " @@" + heading)
  {
    Regroup5(HUNK_MARK, was, " +", now, " @@", heading);
    MarkCut(was + " +" + (now + " @@" + heading));
  }

  lemma MarkCut(rest: string)
    ensures HUNK_MARK <= HUNK_MARK + rest && (HUNK_MARK + rest)[|HUNK_MARK|..] == rest
  {
  }

  lemma Regroup5(a: string, b: string, c: string, d: string, e: string, f: string)
    ensures a + b + c + d + e + f == a + (b + c + (d + e + f))
  {
  }

  lemma HeaderReads(n: Numbered)
    requires PrintableHunk(n.hunk)
    ensures "@@ " <= PrintHeader(n) && !("--- " <= PrintHeader(n))
    ensures OldStart(PrintHeader(n)) == Some(n.hunk.oldStart)
    ensures HunkCounts(PrintHeader(n)) == Some((|Old(n.hunk.lines)|, |New(n.hunk.lines)|))
  {
    var start, a, b := n.hunk.oldStart, |Old(n.hunk.lines)|, |New(n.hunk.lines)|;
    var was, now := Range(start, a, n.style.shortOld), Range(n.newStart, b, n.style.shortNew);
    RangeReads(start, a, n.style.shortOld);
    RangeReads(n.newStart, b, n.style.shortNew);
    CountsRead(was, now, n.style.heading, a, b);
    AfterMark(was, now, n.style.heading);
    Regroup5(HUNK_MARK, was, " +", now, " @@", n.style.heading);
    MarkFirst(was + " +" + (now + " @@" + n.style.heading));
    StartOfRange(start, a, n.style.shortOld, now + " @@" + n.style.heading);
  }

  /** The number a range begins with, whatever follows it. */
  lemma StartOfRange(start: nat, count: nat, short: bool, rest: string)
    requires start < U64_LIMIT
    ensures var text := Range(start, count, short) + " +" + rest; ParseUnsigned(text[..DigitRun(text)], U64_LIMIT) == Some(start)
  {
    var more := (if short && count == 1 then "" else "," + Print(count)) + " +" + rest;
    assert Range(start, count, short) + " +" + rest == Print(start) + more by { RangeSplit(Print(start), Print(count), rest); }
    StartReads(Print(start) + more, start, more);
  }

  lemma RangeSplit(a: string, b: string, rest: string)
    ensures a + " +" + rest == a + ("" + " +" + rest) && a + "," + b + " +" + rest == a + ("," + b + " +" + rest)
    ensures ("" + " +" + rest)[0] == ' ' && ("," + b + " +" + rest)[0] == ','
  {
  }

  lemma MarkFirst(more: string)
    ensures "@@ " <= HUNK_MARK + more && !("--- " <= HUNK_MARK + more)
  {
    assert (HUNK_MARK + more)[..3] == "@@ ";
    assert (HUNK_MARK + more)[0] != "--- "[0];
  }

  lemma StartReads(rest: string, start: nat, more: string)
    requires start < U64_LIMIT && rest == Print(start) + more && more != "" && !IsDigit(more[0])
    ensures ParseUnsigned(rest[..DigitRun(rest)], U64_LIMIT) == Some(start)
  {
    DigitRunIs(rest, |Print(start)|);
    assert rest[..|Print(start)|] == Print(start);
    ParseUnsignedOfPrint(start, U64_LIMIT);
  }

  // ----- paths -----

  lemma {:induction false} TrimStartBlank(lead: string, s: string)
    requires Blank(lead) && (s != "" ==> !IsSpace(s[0]))
    ensures TrimStart(lead + s) == s
  {
    if lead != "" {
      assert (lead + s)[1..] == lead[1..] + s && Blank(lead[1..]);
      TrimStartBlank(lead[1..], s);
    }
  }

  lemma {:induction false} TrimEndBlank(s: string, pad: string)
    requires Blank(pad) && (s != "" ==> !IsSpace(s[|s| - 1]))
    ensures TrimEnd(s + pad) == s
  {
    if pad == "" {
      assert s + pad == s;
    } else {
      var all := s + pad;
      assert all[..|all| - 1] == s + pad[..|pad| - 1] && Blank(pad[..|pad| - 1]);
      TrimEndBlank(s, pad[..|pad| - 1]);
    }
  }

  lemma TrimPadded(lead: string, s: string, pad: string)
    requires Blank(lead) && Blank(pad) && (s != "" ==> !IsSpace(s[0]) && !IsSpace(s[|s| - 1]))
    ensures Trim(lead + s + pad) == s
  {
    if s == "" {
      assert lead + s + pad == (lead + pad) + "" && Blank(lead + pad);
      TrimStartBlank(lead + pad, "");
    } else {
      assert lead + s + pad == lead + (s + pad);
      TrimStartBlank(lead, s + pad);
      TrimEndBlank(s, pad);
    }
  }

  lemma BeforeStamp(text: string, stamp: Option<string>)
    requires '\t' !in text
    ensures BeforeTab(text + match stamp case None => "" case Some(x) => "\t" + x) == text
  {
    match stamp
    case None =>
      assert text + "" == text;
      SplitOnceNone(text, "\t");
    case Some(x) =>
      assert text + ("\t" + x) == text + "\t" + x;
      SplitOnceAt(text, "\t", x);
  }

  lemma PathTrimmed(form: PathForm, path: string)
    requires Blank(form.lead) && Blank(form.pad) && '\t' !in form.prefix + path
    requires var name := form.prefix + path; name != "" ==> !IsSpace(name[0]) && !IsSpace(name[|name| - 1])
    ensures Trim(BeforeTab(PathText(form, path))) == form.prefix + path
  {
    BeforeStamp(form.lead + (form.prefix + path) + form.pad, form.stamp);
    TrimPadded(form.lead, form.prefix + path, form.pad);
  }

  /** A path is read back from every form it may have; `/dev/null` is no path. */
  lemma PathReads(form: PathForm, path: Option<string>)
    requires PrintableFile(form, path)
    ensures DiffPath(FileText(form, path)) == path
  {
    match path
    case None => PathTrimmed(form.(prefix := ""), DEV_NULL);
    case Some(p) =>
      var name := form.prefix + p;
      PathTrimmed(form, p);
      if form.prefix == "" {
        assert name == p;
      } else {
        assert name[0] == form.prefix[0] && name[2..] == p && form.prefix <= name;
        assert p != "" ==> name[|name| - 1] == p[|p| - 1];
      }
  }

  // ----- bodies -----

  /** A printed line is taken in as the line it is. */
  lemma TakeLine(b: Body, l: Line, stripped: bool)
    ensures var text := LineText(l, stripped);
            && (text == "" || text[0] in {' ', '-', '+'})
            && Take(b, text) == b.(was := b.was + |Old([l])|, now := b.now + |New([l])|, lines := b.lines + [l])
  {
    var text := TagText(l.tag) + l.text;
    assert text[1..] == l.text;
    assert [l][1..] == [];
    assert !(stripped && l == Line(Context, "")) ==> LineText(l, stripped) == text;
  }

  lemma SidesCons(lines: seq<Line>)
    requires lines != []
    ensures |Old(lines)| == |Old([lines[0]])| + |Old(lines[1..])| && |New(lines)| == |New([lines[0]])| + |New(lines[1..])|
    ensures |Old([lines[0]])| + |New([lines[0]])| > 0
    ensures New([lines[0]]) != [] <==> lines[0].tag != Removed
  {
    assert [lines[0]][1..] == [];
  }

  lemma Regroup4<T>(a: seq<T>, b: seq<T>, c: seq<T>, d: seq<T>)
    ensures a + b + c + d == a + (b + (c + d))
  {
  }

  lemma Regroup3<T>(a: seq<T>, b: seq<T>, c: seq<T>)
    ensures a + b + c == a + (b + c)
  {
  }

  lemma NothingAdded<T>(a: seq<T>)
    ensures [] + a == a && a + [] == a
  {
  }

  /** The body read so far with the first of `lines` added, and whether a marker came after it. */
  function Added1(b: Body, lines: seq<Line>, noNewline: bool): Body
    requires lines != []
  {
    Body(b.was + |Old([lines[0]])|, b.now + |New([lines[0]])|, b.lines + [lines[0]],
         b.noNewline || MarkAfter(lines, noNewline) != [])
  }

  /** Reading the first line of a body, with the marker that may follow it. */
  lemma {:induction false} FirstLineReads(lines: seq<Line>, noNewline: bool, stripped: bool, tail: seq<string>, counts: Option<(nat, nat)>, b: Body)
    requires lines != [] && counts != Some((b.was, b.now))
    ensures ReadBody([LineText(lines[0], stripped)] + (MarkAfter(lines, noNewline) + tail), counts, b)
            == ReadBody(tail, counts, Added1(b, lines, noNewline))
  {
    MarkIs(lines, noNewline);
    LineAndMark(lines[0], stripped, MarkAfter(lines, noNewline), tail, counts, b);
  }

  lemma {:induction false} MarkIs(lines: seq<Line>, noNewline: bool)
    requires lines != []
    ensures var mark := MarkAfter(lines, noNewline); mark == [] || (mark == [NO_NEWLINE] && lines[0].tag != Removed)
  {
  }

  lemma {:induction false} LineAndMark(l: Line, stripped: bool, mark: seq<string>, tail: seq<string>, counts: Option<(nat, nat)>, b: Body)
    requires counts != Some((b.was, b.now)) && (mark == [] || (mark == [NO_NEWLINE] && l.tag != Removed))
    ensures ReadBody([LineText(l, stripped)] + (mark + tail), counts, b)
            == ReadBody(tail, counts, Body(b.was + |Old([l])|, b.now + |New([l])|, b.lines + [l], b.noNewline || mark != []))
  {
    var text := LineText(l, stripped);
    TakeLine(b, l, stripped);
    ReadOne(text, mark + tail, counts, b);
    MarkRead(mark, tail, counts, Body(b.was + |Old([l])|, b.now + |New([l])|, b.lines + [l], b.noNewline), l.tag);
  }

  lemma {:induction false} BodyCons(lines: seq<Line>, noNewline: bool, stripped: bool, after: seq<string>)
    requires lines != []
    ensures PrintBody(lines, noNewline, stripped) + after
            == [LineText(lines[0], stripped)] + (MarkAfter(lines, noNewline) + (PrintBody(lines[1..], noNewline, stripped) + after))
  {
    Regroup4([LineText(lines[0], stripped)], MarkAfter(lines, noNewline), PrintBody(lines[1..], noNewline, stripped), after);
  }

  lemma {:induction false} MarkRead(mark: seq<string>, tail: seq<string>, counts: Option<(nat, nat)>, b: Body, tag: Tag)
    requires b.lines != [] && b.lines[|b.lines| - 1].tag == tag
    requires mark == [] || (mark == [NO_NEWLINE] && tag != Removed)
    ensures ReadBody(mark + tail, counts, b) == ReadBody(tail, counts, b.(noNewline := b.noNewline || mark != []))
  {
    if mark == [] {
      NothingAdded(tail);
      assert b == b.(noNewline := b.noNewline || mark != []);
    } else {
      MarkerRead(tail, counts, b);
    }
  }

  /** After a printed body, guided by its counts, the reader is exactly at the line after it,
      whatever the body's lines look like. */
  lemma {:induction false} BodyReads(lines: seq<Line>, noNewline: bool, stripped: bool, after: seq<string>, b: Body)
    requires after != [] ==> !Marker(after[0])
    ensures var counts := Some((b.was + |Old(lines)|, b.now + |New(lines)|));
            ReadBody(PrintBody(lines, noNewline, stripped) + after, counts, b)
            == (Body(b.was + |Old(lines)|, b.now + |New(lines)|, b.lines + lines, b.noNewline || (noNewline && New(lines) != [])), after)
    decreases |lines|
  {
    var counts := Some((b.was + |Old(lines)|, b.now + |New(lines)|));
    if lines == [] {
      NothingAdded(after);
      NothingAdded(b.lines);
    } else {
      SidesCons(lines);
      BodyCons(lines, noNewline, stripped, after);
      FirstLineReads(lines, noNewline, stripped, PrintBody(lines[1..], noNewline, stripped) + after, counts, b);
      BodyReads(lines[1..], noNewline, stripped, after, Added1(b, lines, noNewline));
      Regroup3(b.lines, [lines[0]], lines[1..]);
      assert [lines[0]] + lines[1..] == lines;
    }
  }

  lemma {:induction false} ReadOne(text: string, more: seq<string>, counts: Option<(nat, nat)>, b: Body)
    requires Continues(counts, b, text)
    ensures ReadBody([text] + more, counts, b) == ReadBody(more, counts, Take(b, text))
  {
    assert ([text] + more)[1..] == more;
  }

  lemma MarkerRead(more: seq<string>, counts: Option<(nat, nat)>, b: Body)
    requires b.lines != [] && b.lines[|b.lines| - 1].tag != Removed
    ensures ReadBody([NO_NEWLINE] + more, counts, b) == ReadBody(more, counts, b.(noNewline := true))
  {
    assert ([NO_NEWLINE] + more)[1..] == more;
  }

  /** Without readable counts the body goes on to the first line that has no tag. */
  lemma {:induction false} UncountedBodyReads(lines: seq<Line>, noNewline: bool, stripped: bool, after: seq<string>, b: Body)
    requires after != [] ==> after[0] != "" && after[0][0] !in {' ', '-', '+', '\\'}
    ensures ReadBody(PrintBody(lines, noNewline, stripped) + after, None, b)
            == (Body(b.was + |Old(lines)|, b.now + |New(lines)|, b.lines + lines, b.noNewline || (noNewline && New(lines) != [])), after)
    decreases |lines|
  {
    if lines == [] {
      NothingAdded(after);
      NothingAdded(b.lines);
    } else {
      SidesCons(lines);
      BodyCons(lines, noNewline, stripped, after);
      FirstLineReads(lines, noNewline, stripped, PrintBody(lines[1..], noNewline, stripped) + after, None, b);
      UncountedBodyReads(lines[1..], noNewline, stripped, after, Added1(b, lines, noNewline));
      Regroup3(b.lines, [lines[0]], lines[1..]);
      assert [lines[0]] + lines[1..] == lines;
    }
  }
}
