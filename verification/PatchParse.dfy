/** Reading a unified diff: file sections of `---` and `+++` lines, and hunks whose header counts
    say where each ends. */
module PatchParse {
  import opened Decimal
  import opened Text
  import opened Patch

  /** A file's section; `source` is missing for a file that the diff creates, `target` for one that
      it deletes. */
  datatype FilePatch = FilePatch(source: Option<string>, target: Option<string>, hunks: seq<Hunk>, oldEndsWithoutNewline: bool)

  datatype Parsed =
    | Files(files: seq<FilePatch>)
    | NoPlusLine        // a `--- ` line not followed by a `+++ ` line
    | StrayHunk         // a hunk before any file
    | BadHeader         // an `@@ ` line without an old start
    | NoFile            // nothing to read
    | BadDeletion       // a section for `/dev/null` whose hunks are not those of a whole file

  predicate IsSpace(c: char) {
    var v := c as int;
    || 9 <= v <= 13 || v == 0x20 || v == 0x85 || v == 0xA0 || v == 0x1680 || 0x2000 <= v <= 0x200A || v == 0x2028
    || v == 0x2029 || v == 0x202F || v == 0x205F || v == 0x3000
  }

  function TrimStart(s: string): string { if s != "" && IsSpace(s[0]) then TrimStart(s[1..]) else s }

  function TrimEnd(s: string): string { if s != "" && IsSpace(s[|s| - 1]) then TrimEnd(s[..|s| - 1]) else s }

  function Trim(s: string): string { TrimEnd(TrimStart(s)) }

  function BeforeTab(s: string): string { match SplitOnce(s, "\t") case None => s case Some((a, _)) => a }

  /** `a/src/x.rs` is `src/x.rs`; `/dev/null` is nothing. */
  function DiffPath(raw: string): Option<string> {
    var path := Trim(BeforeTab(raw));
    if path == "/dev/null" then None
    else if "a/" <= path || "b/" <= path then Some(path[2..]) else Some(path)
  }

  function Count(range: string): Option<nat> {
    match SplitOnce(range, ",") case None => Some(1) case Some((_, count)) => ParseUnsigned(Trim(count), U64_LIMIT)
  }

  const HUNK_MARK := "@@ -"

  /** How many old and new lines the header says the hunk has. */
  function HunkCounts(header: string): Option<(nat, nat)> {
    if !(HUNK_MARK <= header) then None else
    match SplitOnce(header[|HUNK_MARK|..], " +")
    case None => None
    case Some((was, rest)) =>
      var now := match SplitOnce(rest, " @@") case None => rest case Some((now, _)) => now;
      if Count(was).Some? && Count(now).Some? then Some((Count(was).value, Count(now).value)) else None
  }

  /** The line the hunk says its old lines start at. */
  function OldStart(header: string): Option<nat> {
    if !(HUNK_MARK <= header) then None else
    var rest := header[|HUNK_MARK|..];
    ParseUnsigned(rest[..DigitRun(rest)], U64_LIMIT)
  }

  // ----- the hunk body -----

  datatype Body = Body(was: nat, now: nat, lines: seq<Line>, noNewline: bool)

  const NO_NEWLINE := "\\ No newline at end of file"

  predicate Marker(line: string) { line != "" && line[0] == '\\' }

  /** Whether the body goes on with `line`. */
  predicate Continues(counts: Option<(nat, nat)>, b: Body, line: string) {
    && !(counts == Some((b.was, b.now)) && !Marker(line))
    && (line == "" || line[0] in {' ', '-', '+', '\\'})
  }

  /** The body with `line` taken in: an empty line is a context line whose space was stripped, a
      marker is about the line before it. */
  function Take(b: Body, line: string): Body
    requires line == "" || line[0] in {' ', '-', '+', '\\'}
  {
    if line == "" then b.(was := b.was + 1, now := b.now + 1, lines := b.lines + [Line(Context, "")])
    else if line[0] == ' ' then b.(was := b.was + 1, now := b.now + 1, lines := b.lines + [Line(Context, line[1..])])
    else if line[0] == '-' then b.(was := b.was + 1, lines := b.lines + [Line(Removed, line[1..])])
    else if line[0] == '+' then b.(now := b.now + 1, lines := b.lines + [Line(Added, line[1..])])
    else if b.lines != [] && b.lines[|b.lines| - 1].tag != Removed then b.(noNewline := true)
    else b
  }

  /** The body and the lines after it. */
  function ReadBody(rest: seq<string>, counts: Option<(nat, nat)>, b: Body): (r: (Body, seq<string>))
    ensures |r.1| <= |rest|
  {
    if rest == [] || !Continues(counts, b, rest[0]) then (b, rest)
    else ReadBody(rest[1..], counts, Take(b, rest[0]))
  }

  function AddHunk(files: seq<FilePatch>, h: Hunk): seq<FilePatch>
    requires files != []
  {
    var last := files[|files| - 1];
    files[..|files| - 1] + [last.(hunks := last.hunks + [h])]
  }
}
