/** Applying the hunks of a unified diff: each hunk goes to the nearest place where its old lines
    are found, at or after the end of the hunk before it. */
module Patch {
  import opened Decimal

  datatype Tag = Context | Removed | Added

  datatype Line = Line(tag: Tag, text: string)

  datatype Hunk = Hunk(oldStart: nat, lines: seq<Line>, newEndsWithoutNewline: bool)

  /** The lines a hunk expects to find. */
  function Old(lines: seq<Line>): seq<string> {
    if lines == [] then [] else
    (if lines[0].tag != Added then [lines[0].text] else []) + Old(lines[1..])
  }

  /** The lines it leaves in their place. */
  function New(lines: seq<Line>): seq<string> {
    if lines == [] then [] else
    (if lines[0].tag != Removed then [lines[0].text] else []) + New(lines[1..])
  }

  /** The file while hunks are applied: its lines, how far they have moved, the first line the next
      hunk may touch, and whether the text ends without a newline. */
  datatype Work = Work(lines: seq<string>, shift: int, floor: nat, noNewline: bool)

  predicate Fits(lines: seq<string>, was: seq<string>, floor: nat, at: nat) {
    floor <= at && at + |was| <= |lines| && lines[at..at + |was|] == was
  }

  function Distance(a: nat, b: nat): nat { if a < b then b - a else a - b }

  /** The nearest place that fits, the lower of two equally near. */
  ghost predicate Nearest(lines: seq<string>, was: seq<string>, floor: nat, expected: nat, at: nat) {
    && Fits(lines, was, floor, at)
    && forall b :: Fits(lines, was, floor, b) ==>
                     Distance(at, expected) < Distance(b, expected) || (Distance(at, expected) == Distance(b, expected) && at <= b)
  }

  function Expected(w: Work, h: Hunk): nat {
    var line := (if h.oldStart > 1 then h.oldStart - 1 else 0) + w.shift;
    if line < 0 then 0 else line
  }

  /** Where the hunk lands: with no old lines, at the line it names or the end of the file. */
  ghost predicate Lands(w: Work, h: Hunk, at: nat) {
    var was := Old(h.lines);
    if was == [] then at == (if Expected(w, h) < |w.lines| then Expected(w, h) else |w.lines|)
    else Nearest(w.lines, was, w.floor, Expected(w, h), at)
  }

  function Spliced(w: Work, h: Hunk, at: nat): Work
    requires at + |Old(h.lines)| <= |w.lines|
  {
    var was, now := Old(h.lines), New(h.lines);
    Work(w.lines[..at] + now + w.lines[at + |was|..], w.shift + |now| - |was|, at + |now|,
         if at + |was| == |w.lines| then h.newEndsWithoutNewline else w.noNewline)
  }

  predicate Room(w: Work, h: Hunk, at: nat) { at + |Old(h.lines)| <= |w.lines| }

  /** The hunks land one after the other at `ats`. */
  ghost predicate Placed(w: Work, hunks: seq<Hunk>, ats: seq<nat>)
    decreases |hunks|
  {
    && |ats| == |hunks|
    && (hunks != [] ==> Room(w, hunks[0], ats[0]) && Lands(w, hunks[0], ats[0])
                        && Placed(Spliced(w, hunks[0], ats[0]), hunks[1..], ats[1..]))
  }

  /** The file after them. */
  ghost function After(w: Work, hunks: seq<Hunk>, ats: seq<nat>): Work
    requires Placed(w, hunks, ats)
    decreases |hunks|
  {
    if hunks == [] then w else After(Spliced(w, hunks[0], ats[0]), hunks[1..], ats[1..])
  }

  /** The hunk has no place to go. */
  ghost predicate Homeless(w: Work, h: Hunk) {
    Old(h.lines) != [] && forall at: nat :: !Fits(w.lines, Old(h.lines), w.floor, at)
  }

  /** Where a hunk goes is determined by the file and the hunk. */
  lemma LandsUnique(w: Work, h: Hunk, a: nat, b: nat)
    requires Lands(w, h, a) && Lands(w, h, b)
    ensures a == b
  {
  }

  lemma {:induction false} PlacedUnique(w: Work, hunks: seq<Hunk>, a: seq<nat>, b: seq<nat>)
    requires Placed(w, hunks, a) && Placed(w, hunks, b)
    ensures a == b
    decreases |hunks|
  {
    if hunks != [] {
      LandsUnique(w, hunks[0], a[0], b[0]);
      PlacedUnique(Spliced(w, hunks[0], a[0]), hunks[1..], a[1..], b[1..]);
      assert a == [a[0]] + a[1..] && b == [b[0]] + b[1..];
    }
  }

  lemma {:induction false} PlacedSnoc(w: Work, hunks: seq<Hunk>, ats: seq<nat>, h: Hunk, at: nat)
    requires Placed(w, hunks, ats) && Room(After(w, hunks, ats), h, at) && Lands(After(w, hunks, ats), h, at)
    ensures Placed(w, hunks + [h], ats + [at])
    ensures After(w, hunks + [h], ats + [at]) == Spliced(After(w, hunks, ats), h, at)
    decreases |hunks|
  {
    var all, places := hunks + [h], ats + [at];
    if hunks == [] {
      assert all[1..] == [] && places[1..] == [];
    } else {
      assert all[1..] == hunks[1..] + [h] && places[1..] == ats[1..] + [at];
      PlacedSnoc(Spliced(w, hunks[0], ats[0]), hunks[1..], ats[1..], h, at);
    }
  }

  // ----- the program -----

  method OldLines(lines: seq<Line>) returns (was: seq<string>)
    ensures was == Old(lines)
  {
    was := [];
    var i := |lines|;
    while i > 0
      invariant 0 <= i <= |lines| && was == Old(lines[i..])
    {
      i := i - 1;
      assert lines[i..][1..] == lines[i + 1..];
      if lines[i].tag != Added { was := [lines[i].text] + was; }
    }
  }

  method NewLines(lines: seq<Line>) returns (now: seq<string>)
    ensures now == New(lines)
  {
    now := [];
    var i := |lines|;
    while i > 0
      invariant 0 <= i <= |lines| && now == New(lines[i..])
    {
      i := i - 1;
      assert lines[i..][1..] == lines[i + 1..];
      if lines[i].tag != Removed { now := [lines[i].text] + now; }
    }
  }

  /** The search over all places, `min_by_key` by distance, which keeps the first of equals. */
  method FindNearest(lines: seq<string>, was: seq<string>, floor: nat, expected: nat) returns (r: Option<nat>)
    ensures r.Some? ==> Nearest(lines, was, floor, expected, r.value)
    ensures r.None? ==> forall at: nat :: !Fits(lines, was, floor, at)
  {
    r := None;
    var at := 0;
    while at <= |lines|
      invariant 0 <= at <= |lines| + 1
      invariant r.Some? ==> r.value < at && Fits(lines, was, floor, r.value)
      invariant r.None? ==> forall b: nat :: b < at ==> !Fits(lines, was, floor, b)
      invariant r.Some? ==> forall b: nat :: b < at && Fits(lines, was, floor, b) ==>
                                          || Distance(r.value, expected) < Distance(b, expected)
                                          || (Distance(r.value, expected) == Distance(b, expected) && r.value <= b)
    {
      if Fits(lines, was, floor, at) && (r.None? || Distance(at, expected) < Distance(r.value, expected)) {
        r := Some(at);
      }
      at := at + 1;
    }
  }

  /** Where one hunk goes. */
  method Locate(w: Work, h: Hunk) returns (r: Option<nat>)
    ensures r.Some? ==> Room(w, h, r.value) && Lands(w, h, r.value)
    ensures r.None? ==> Homeless(w, h)
  {
    var was := OldLines(h.lines);
    var expected := Expected(w, h);
    if was == [] {
      r := Some(if expected < |w.lines| then expected else |w.lines|);
    } else {
      r := FindNearest(w.lines, was, w.floor, expected);
    }
  }

  method Splice(w: Work, h: Hunk, at: nat) returns (w': Work)
    requires Room(w, h, at)
    ensures w' == Spliced(w, h, at)
  {
    var was := OldLines(h.lines);
    var now := NewLines(h.lines);
    w' := Work(w.lines[..at] + now + w.lines[at + |was|..], w.shift + |now| - |was|, at + |now|,
               if at + |was| == |w.lines| then h.newEndsWithoutNewline else w.noNewline);
  }

  /** `apply_hunks`, on lines: the file after the hunks, or the first hunk that has no place. */
  method ApplyHunks(lines: seq<string>, noNewline: bool, hunks: seq<Hunk>)
    returns (r: Option<Work>, failed: nat, ghost ats: seq<nat>)
    ensures failed <= |hunks| && Placed(Work(lines, 0, 0, noNewline), hunks[..failed], ats)
    ensures r.Some? ==> failed == |hunks| && r.value == After(Work(lines, 0, 0, noNewline), hunks[..failed], ats)
    ensures r.None? ==> failed < |hunks| && Homeless(After(Work(lines, 0, 0, noNewline), hunks[..failed], ats), hunks[failed])
  {
    var w := Work(lines, 0, 0, noNewline);
    ghost var start := w;
    failed, ats := 0, [];
    while failed < |hunks|
      invariant failed <= |hunks| && Placed(start, hunks[..failed], ats) && w == After(start, hunks[..failed], ats)
    {
      var h := hunks[failed];
      var at := Locate(w, h);
      if at.None? { return None, failed, ats; }
      PlacedSnoc(start, hunks[..failed], ats, h, at.value);
      assert hunks[..failed] + [h] == hunks[..failed + 1];
      w := Splice(w, h, at.value);
      failed, ats := failed + 1, ats + [at.value];
    }
    r := Some(w);
  }

  // ----- what becomes of the file -----

  /** Pieces of text around and between the hunks' sides. */
  function Weave(gaps: seq<seq<string>>, sides: seq<seq<string>>): seq<string>
    requires |gaps| == |sides| + 1
  {
    if sides == [] then gaps[0] else gaps[0] + sides[0] + Weave(gaps[1..], sides[1..])
  }

  function Olds(hunks: seq<Hunk>): (r: seq<seq<string>>)
    ensures |r| == |hunks|
  {
    if hunks == [] then [] else [Old(hunks[0].lines)] + Olds(hunks[1..])
  }

  function News(hunks: seq<Hunk>): (r: seq<seq<string>>)
    ensures |r| == |hunks|
  {
    if hunks == [] then [] else [New(hunks[0].lines)] + News(hunks[1..])
  }

  predicate AllChange(hunks: seq<Hunk>) { forall i :: 0 <= i < |hunks| ==> Old(hunks[i].lines) != [] }

  lemma SplitAt(done: seq<string>, rest: seq<string>, was: seq<string>, at: nat)
    requires Fits(done + rest, was, |done|, at)
    ensures var k := at - |done|;
            && k + |was| <= |rest| && rest == rest[..k] + was + rest[k + |was|..]
            && (done + rest)[..at] == done + rest[..k] && (done + rest)[at + |was|..] == rest[k + |was|..]
  {
    var k := at - |done|;
    assert (done + rest)[at..at + |was|] == rest[k..k + |was|];
  }

  lemma SpliceOne(w: Work, done: seq<string>, rest: seq<string>, h: Hunk, at: nat) returns (gap: seq<string>, rest': seq<string>)
    requires Old(h.lines) != [] && Room(w, h, at) && Lands(w, h, at) && w.lines == done + rest && w.floor == |done|
    ensures rest == gap + Old(h.lines) + rest'
    ensures Spliced(w, h, at).lines == done + gap + New(h.lines) + rest'
    ensures Spliced(w, h, at).floor == |done + gap + New(h.lines)|
  {
    SplitAt(done, rest, Old(h.lines), at);
    gap, rest' := rest[..at - |done|], rest[at - |done| + |Old(h.lines)|..];
  }

  lemma WeaveCons(gap: seq<string>, gaps: seq<seq<string>>, side: seq<string>, sides: seq<seq<string>>)
    requires |gaps| == |sides| + 1
    ensures Weave([gap] + gaps, [side] + sides) == gap + side + Weave(gaps, sides)
  {
    assert ([gap] + gaps)[1..] == gaps && ([side] + sides)[1..] == sides;
  }

  /** Hunks with old lines each replace one stretch of what the earlier ones left alone: the file is
      a weave of gaps and old sides, the outcome the weave of the same gaps and the new sides. So no
      hunk rewrites inserted text, and every other line survives, in order. */
  lemma {:induction false} HunksReplaceInOrder(w: Work, done: seq<string>, rest: seq<string>, hunks: seq<Hunk>, ats: seq<nat>)
    returns (gaps: seq<seq<string>>)
    requires AllChange(hunks) && Placed(w, hunks, ats) && w.lines == done + rest && w.floor == |done|
    ensures |gaps| == |hunks| + 1 && rest == Weave(gaps, Olds(hunks))
    ensures After(w, hunks, ats).lines == done + Weave(gaps, News(hunks))
    decreases |hunks|
  {
    if hunks == [] {
      gaps := [rest];
    } else {
      var h, at := hunks[0], ats[0];
      var gap, rest' := SpliceOne(w, done, rest, h, at);
      var done' := done + gap + New(h.lines);
      var more := HunksReplaceInOrder(Spliced(w, h, at), done', rest', hunks[1..], ats[1..]);
      gaps := [gap] + more;
      WeaveCons(gap, more, Old(h.lines), Olds(hunks[1..]));
      WeaveCons(gap, more, New(h.lines), News(hunks[1..]));
      Associative(done, gap, New(h.lines), Weave(more, News(hunks[1..])));
    }
  }

  lemma Associative(a: seq<string>, b: seq<string>, c: seq<string>, d: seq<string>)
    ensures (a + b + c) + d == a + (b + c + d)
  {
  }

  // ----- hunks at the lines they name -----

  /** The line after the stretch a hunk names, when its old lines are at its true line. */
  function End(h: Hunk): int { h.oldStart - 1 + |Old(h.lines)| }

  /** The hunk names the stretch of `base`, not before line `from`, where its old lines are. */
  predicate Names(base: seq<string>, h: Hunk, from: nat) {
    Old(h.lines) != [] && from < h.oldStart && End(h) <= |base| && base[h.oldStart - 1..End(h)] == Old(h.lines)
  }

  /** The hunks name disjoint stretches of `base`, in order, from line `from` on. */
  ghost predicate Exact(base: seq<string>, hunks: seq<Hunk>, from: nat)
    decreases |hunks|
  {
    hunks != [] ==> Names(base, hunks[0], from) && Exact(base, hunks[1..], End(hunks[0]))
  }

  /** `base` from line `from` on, with each named stretch replaced. */
  ghost function Replaced(base: seq<string>, hunks: seq<Hunk>, from: nat): seq<string>
    requires from <= |base| && Exact(base, hunks, from)
    decreases |hunks|
  {
    if hunks == [] then base[from..] else
    base[from..hunks[0].oldStart - 1] + New(hunks[0].lines) + Replaced(base, hunks[1..], End(hunks[0]))
  }

  /** Whether the outcome ends without a newline: the last hunk decides if it reaches the end. */
  ghost function EndsWithout(base: seq<string>, hunks: seq<Hunk>, noNewline: bool): bool
    decreases |hunks|
  {
    if hunks == [] then noNewline else
    EndsWithout(base, hunks[1..], if End(hunks[0]) == |base| then hunks[0].newEndsWithoutNewline else noNewline)
  }

  /** The text of a file whose first lines are done, seen as the base from line `from` on. */
  lemma Behind(base: seq<string>, done: seq<string>, from: nat, i: nat, j: nat)
    requires from <= i <= j <= |base|
    ensures var lines, shift := done + base[from..], |done| - from;
            && i + shift >= 0 && j + shift <= |lines| == |base| + shift
            && lines[i + shift..j + shift] == base[i..j]
            && lines[..i + shift] == done + base[from..i] && lines[j + shift..] == base[j..]
  {
    var lines, shift := done + base[from..], |done| - from;
    assert lines[i + shift..j + shift] == base[i..j];
    assert lines[..i + shift] == done + base[from..i];
    assert lines[j + shift..] == base[j..];
  }

  /** A hunk at its true line, after earlier hunks have shifted the text, lands exactly there. */
  lemma ExactLands(base: seq<string>, w: Work, done: seq<string>, from: nat, h: Hunk)
    requires from <= |base| && w.lines == done + base[from..] && w.floor == |done| == from + w.shift && Names(base, h, from)
    ensures var at := h.oldStart - 1 + w.shift; at >= 0 && Room(w, h, at) && Lands(w, h, at)
  {
    Behind(base, done, from, h.oldStart - 1, End(h));
    var at := h.oldStart - 1 + w.shift;
    assert Fits(w.lines, Old(h.lines), w.floor, at) && Expected(w, h) == at;
  }

  /** Splicing it in there replaces the stretch it names, and the rest of the base comes after. */
  lemma ExactSplice(base: seq<string>, w: Work, done: seq<string>, from: nat, h: Hunk)
    requires from <= |base| && w.lines == done + base[from..] && w.floor == |done| == from + w.shift && Names(base, h, from)
    requires h.oldStart - 1 + w.shift >= 0 && Room(w, h, h.oldStart - 1 + w.shift)
    ensures var done', w' := done + base[from..h.oldStart - 1] + New(h.lines), Spliced(w, h, h.oldStart - 1 + w.shift);
            && w'.lines == done' + base[End(h)..] && w'.floor == |done'| == End(h) + w'.shift
            && w'.noNewline == (if End(h) == |base| then h.newEndsWithoutNewline else w.noNewline)
  {
    Behind(base, done, from, h.oldStart - 1, End(h));
  }

  lemma ReplacedCons(base: seq<string>, hunks: seq<Hunk>, from: nat, done: seq<string>, done': seq<string>)
    requires from <= |base| && hunks != [] && Exact(base, hunks, from)
    requires done' == done + base[from..hunks[0].oldStart - 1] + New(hunks[0].lines)
    ensures done + Replaced(base, hunks, from) == done' + Replaced(base, hunks[1..], End(hunks[0]))
  {
    Associative(done, base[from..hunks[0].oldStart - 1], New(hunks[0].lines), Replaced(base, hunks[1..], End(hunks[0])));
  }

  lemma PlacedCons(w: Work, hunks: seq<Hunk>, at: nat, more: seq<nat>)
    requires hunks != [] && Room(w, hunks[0], at) && Lands(w, hunks[0], at) && Placed(Spliced(w, hunks[0], at), hunks[1..], more)
    ensures Placed(w, hunks, [at] + more)
    ensures After(w, hunks, [at] + more) == After(Spliced(w, hunks[0], at), hunks[1..], more)
  {
    assert ([at] + more)[1..] == more;
  }

  /** Hunks that name disjoint stretches at their true lines are applied exactly there. */
  lemma {:induction false} ExactApplication(base: seq<string>, w: Work, done: seq<string>, from: nat, hunks: seq<Hunk>)
    returns (ats: seq<nat>)
    requires from <= |base| && w.lines == done + base[from..] && w.floor == |done| == from + w.shift
    requires Exact(base, hunks, from)
    ensures Placed(w, hunks, ats)
    ensures After(w, hunks, ats).lines == done + Replaced(base, hunks, from)
    ensures After(w, hunks, ats).noNewline == EndsWithout(base, hunks, w.noNewline)
    decreases |hunks|
  {
    if hunks == [] {
      ats := [];
    } else {
      var at, w', done' := ExactStep(base, w, done, from, hunks[0]);
      var more := ExactApplication(base, w', done', End(hunks[0]), hunks[1..]);
      ats := [at] + more;
      PlacedCons(w, hunks, at, more);
      ReplacedCons(base, hunks, from, done, done');
    }
  }

  lemma ExactStep(base: seq<string>, w: Work, done: seq<string>, from: nat, h: Hunk) returns (at: nat, w': Work, done': seq<string>)
    requires from <= |base| && w.lines == done + base[from..] && w.floor == |done| == from + w.shift && Names(base, h, from)
    ensures Room(w, h, at) && Lands(w, h, at) && w' == Spliced(w, h, at) && done' == done + base[from..h.oldStart - 1] + New(h.lines)
    ensures w'.lines == done' + base[End(h)..] && w'.floor == |done'| == End(h) + w'.shift
    ensures w'.noNewline == (if End(h) == |base| then h.newEndsWithoutNewline else w.noNewline)
  {
    ExactLands(base, w, done, from, h);
    ExactSplice(base, w, done, from, h);
    at, done' := h.oldStart - 1 + w.shift, done + base[from..h.oldStart - 1] + New(h.lines);
    w' := Spliced(w, h, at);
  }

  /** If the hunks can all be placed, none of them is without a place. */
  lemma {:induction false} PlacedNotHomeless(w: Work, hunks: seq<Hunk>, all: seq<nat>, n: nat, ats: seq<nat>)
    requires Placed(w, hunks, all) && n < |hunks| && Placed(w, hunks[..n], ats)
    ensures !Homeless(After(w, hunks[..n], ats), hunks[n])
    decreases |hunks|
  {
    if n == 0 {
      assert hunks[..0] == [];
    } else {
      LandsUnique(w, hunks[0], all[0], ats[0]);
      assert hunks[..n][1..] == hunks[1..][..n - 1];
      PlacedNotHomeless(Spliced(w, hunks[0], ats[0]), hunks[1..], all[1..], n - 1, ats[1..]);
    }
  }

  // ----- text and lines -----

  function FirstBreak(s: string): (i: nat)
    ensures i <= |s| && (i < |s| ==> s[i] == '\n') && forall j :: 0 <= j < i ==> s[j] != '\n'
  {
    if s == "" || s[0] == '\n' then 0 else
    var i := FirstBreak(s[1..]);
    assert forall j :: 0 <= j < |s| - 1 ==> s[1..][j] == s[j + 1];
    i + 1
  }

  /** A line without the CR of its CRLF. */
  function StripCr(line: string): string { if line != "" && line[|line| - 1] == '\r' then line[..|line| - 1] else line }

  /** `str::lines`. */
  function Lines(text: string): seq<string> {
    if text == "" then [] else
    var i := FirstBreak(text);
    if i == |text| then [text] else [StripCr(text[..i])] + Lines(text[i + 1..])
  }

  function Join(lines: seq<string>): string {
    if lines == [] then "" else if |lines| == 1 then lines[0] else lines[0] + "\n" + Join(lines[1..])
  }

  /** The lines, each with its newline. */
  function TextOf(lines: seq<string>): string { if lines == [] then "" else lines[0] + "\n" + TextOf(lines[1..]) }

  /** The text of the lines, as it is put together at the end. */
  function Render(lines: seq<string>, noNewline: bool): string {
    Join(lines) + if lines != [] && !noNewline then "\n" else ""
  }

  predicate NoNewline(text: string) { text != "" && text[|text| - 1] != '\n' }

  /** The number of CRLFs. */
  function Crlfs(text: string): nat {
    if text == "" then 0 else
    var i := FirstBreak(text);
    if i == |text| then 0 else (if i > 0 && text[i - 1] == '\r' then 1 else 0) + Crlfs(text[i + 1..])
  }

  lemma {:induction false} FirstBreakIs(line: string, rest: string)
    requires '\n' !in line
    ensures FirstBreak(line + "\n" + rest) == |line|
  {
    var all := line + "\n" + rest;
    if line != "" {
      FirstBreakIs(line[1..], rest);
      assert all[1..] == line[1..] + "\n" + rest && all[0] == line[0];
    }
  }

  lemma FirstLine(line: string, rest: string)
    requires '\n' !in line
    ensures var text := line + "\n" + rest;
            && Lines(text) == [StripCr(line)] + Lines(rest) && NoNewline(text) == NoNewline(rest)
            && Crlfs(text) == |line| - |StripCr(line)| + Crlfs(rest)
  {
    var text := line + "\n" + rest;
    FirstBreakIs(line, rest);
    assert text[..|line|] == line && text[|line| + 1..] == rest;
  }

  lemma RenderCons(line: string, rest: seq<string>, noNewline: bool)
    requires rest == [] ==> !noNewline
    ensures Render([line] + rest, noNewline) == line + "\n" + Render(rest, noNewline)
  {
    assert ([line] + rest)[1..] == rest;
  }

  lemma LinesNone(text: string)
    ensures Lines(text) == [] <==> text == ""
  {
  }

  lemma FirstLineCut(text: string) returns (line: string, rest: string)
    requires FirstBreak(text) < |text|
    ensures '\n' !in line && text == line + "\n" + rest
  {
    var i := FirstBreak(text);
    line, rest := text[..i], text[i + 1..];
  }

  lemma {:induction false} RenderLines(text: string)
    ensures |Render(Lines(text), NoNewline(text))| == |text| - Crlfs(text)
    ensures Crlfs(text) == 0 ==> Render(Lines(text), NoNewline(text)) == text
    decreases |text|
  {
    if FirstBreak(text) < |text| {
      var line, rest := FirstLineCut(text);
      RenderLines(rest);
      FirstLine(line, rest);
      LinesNone(rest);
      RenderCons(StripCr(line), Lines(rest), NoNewline(rest));
    }
  }

  /** Splitting and putting together again changes a text exactly when it has CRLFs. */
  lemma TextSurvivesUnlessCrlf(text: string)
    ensures Render(Lines(text), NoNewline(text)) == text <==> Crlfs(text) == 0
  {
    RenderLines(text);
  }

  /** `apply_hunks`. Hunks that name disjoint stretches at their true lines replace exactly these;
      without hunks, and without CRLFs, the text comes back as it was. */
  method ApplyText(text: string, hunks: seq<Hunk>) returns (r: Option<string>, ghost ats: seq<nat>, ghost failed: nat)
    ensures failed <= |hunks| && Placed(Work(Lines(text), 0, 0, NoNewline(text)), hunks[..failed], ats)
    ensures var w := After(Work(Lines(text), 0, 0, NoNewline(text)), hunks[..failed], ats);
            && (r.Some? ==> failed == |hunks| && r.value == Render(w.lines, w.noNewline))
            && (r.None? ==> failed < |hunks| && Homeless(w, hunks[failed]))
    ensures Exact(Lines(text), hunks, 0) ==>
              r == Some(Render(Replaced(Lines(text), hunks, 0), EndsWithout(Lines(text), hunks, NoNewline(text))))
    ensures hunks == [] && Crlfs(text) == 0 ==> r == Some(text)
  {
    var w, n;
    w, n, ats := ApplyHunks(Lines(text), NoNewline(text), hunks);
    failed := n;
    r := if w.Some? then Some(Render(w.value.lines, w.value.noNewline)) else None;
    ExactOutcome(text, hunks, failed, ats);
    assert hunks[..|hunks|] == hunks;
    if hunks == [] { RenderLines(text); }
  }

  lemma ExactOutcome(text: string, hunks: seq<Hunk>, failed: nat, ats: seq<nat>)
    requires failed <= |hunks| && Placed(Work(Lines(text), 0, 0, NoNewline(text)), hunks[..failed], ats)
    ensures var w := Work(Lines(text), 0, 0, NoNewline(text));
            Exact(Lines(text), hunks, 0) ==>
              && (failed < |hunks| ==> !Homeless(After(w, hunks[..failed], ats), hunks[failed]))
              && (failed == |hunks| ==> After(w, hunks[..failed], ats).lines == Replaced(Lines(text), hunks, 0)
                                        && After(w, hunks[..failed], ats).noNewline == EndsWithout(Lines(text), hunks, NoNewline(text)))
  {
    var base := Lines(text);
    var w := Work(base, 0, 0, NoNewline(text));
    if Exact(base, hunks, 0) {
      assert [] + base[0..] == base;
      var all := ExactApplication(base, w, [], 0, hunks);
      if failed < |hunks| {
        PlacedNotHomeless(w, hunks, all, failed, ats);
      } else {
        assert hunks[..failed] == hunks;
        PlacedUnique(w, hunks, all, ats);
        assert [] + Replaced(base, hunks, 0) == Replaced(base, hunks, 0);
      }
    }
  }
}
