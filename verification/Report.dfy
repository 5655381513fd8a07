/** The line in which the exec shim reports how a command ended, and its reader. */
module Report {
  import opened Decimal
  import opened Text

  datatype Usage = Usage(userMs: nat, sysMs: nat, maxRssKb: nat)

  const I32_LIMIT: int := 0x8000_0000

  predicate IsI32(n: int) { -I32_LIMIT <= n < I32_LIMIT }

  predicate IsUsage(u: Usage) { u.userMs < U64_LIMIT && u.sysMs < U64_LIMIT && u.maxRssKb < U64_LIMIT }

  function PrintInt(n: int): string { if n < 0 then "-" + Print(-n) else Print(n) }

  /** `str::parse` for `i32`. */
  function ParseI32(s: string): Option<int> {
    if s != "" && s[0] == '-' then
      var digits := s[1..];
      if digits != "" && AllDigits(digits) && Value(digits) <= I32_LIMIT then Some(0 - Value(digits)) else None
    else match ParseUnsigned(s, I32_LIMIT) case None => None case Some(n) => Some(n)
  }

  lemma ParseI32OfPrint(n: int)
    ensures ParseI32(PrintInt(n)) == if IsI32(n) then Some(n) else None
  {
    if n < 0 {
      ValueOfPrint(-n);
      assert PrintInt(n)[1..] == Print(-n);
    } else {
      ParseUnsignedOfPrint(n, I32_LIMIT);
    }
  }

  const STATUS := "status"
  const USER := "user_ms"
  const SYS := "sys_ms"
  const RSS := "max_rss_kb"

  /** `format_report`. */
  function Format(status: int, u: Usage): string {
    Fields4(STATUS + "=" + PrintInt(status), USER + "=" + Print(u.userMs), SYS + "=" + Print(u.sysMs), RSS + "=" + Print(u.maxRssKb))
    + "\n"
  }

  /** The line itself. */
  lemma FormatIs(status: int, u: Usage)
    ensures Format(status, u) == "status=" + PrintInt(status) + " user_ms=" + Print(u.userMs) + " sys_ms=" + Print(u.sysMs)
                                 + " max_rss_kb=" + Print(u.maxRssKb) + "\n"
  {
    FormatParts(PrintInt(status), Print(u.userMs), Print(u.sysMs), Print(u.maxRssKb));
  }

  lemma FormatParts(a: string, b: string, c: string, d: string)
    ensures Fields4(STATUS + "=" + a, USER + "=" + b, SYS + "=" + c, RSS + "=" + d) + "\n"
            == "status=" + a + " user_ms=" + b + " sys_ms=" + c + " max_rss_kb=" + d + "\n"
  {
    assert STATUS + "=" + a == "status=" + a;
    assert " " + (USER + "=" + b) == " user_ms=" + b;
    assert " " + (SYS + "=" + c) == " sys_ms=" + c;
    assert " " + (RSS + "=" + d) == " max_rss_kb=" + d;
    Chain(STATUS + "=" + a, USER + "=" + b, SYS + "=" + c, RSS + "=" + d);
    ChainTo("status=" + a, " user_ms=", b, " sys_ms=", c, " max_rss_kb=", d);
  }

  lemma Chain(a: string, b: string, c: string, d: string)
    ensures Fields4(a, b, c, d) == a + (" " + b) + (" " + c) + (" " + d)
  {
  }

  lemma ChainTo(a: string, kb: string, b: string, kc: string, c: string, kd: string, d: string)
    ensures a + (kb + b) + (kc + c) + (kd + d) == a + kb + b + kc + c + kd + d
  {
  }

  function Fields4(a: string, b: string, c: string, d: string): string { a + " " + (b + " " + (c + " " + d)) }

  // ----- what a line says -----

  function Key(field: string): string { match SplitOnce(field, "=") case None => "" case Some((k, _)) => k }

  function ValueText(field: string): string { match SplitOnce(field, "=") case None => "" case Some((_, v)) => v }

  /** A field has a key, and the value of a known key is a number in range. */
  predicate Readable(field: string) {
    && SplitOnce(field, "=").Some?
    && (Key(field) == STATUS ==> ParseI32(ValueText(field)).Some?)
    && (Key(field) in {USER, SYS, RSS} ==> ParseUnsigned(ValueText(field), U64_LIMIT).Some?)
  }

  /** The value of the last field with the key. */
  function LastOf(fields: seq<string>, key: string): Option<string> {
    if fields == [] then None else
    var f := fields[|fields| - 1];
    if SplitOnce(f, "=").Some? && Key(f) == key then Some(ValueText(f)) else LastOf(fields[..|fields| - 1], key)
  }

  function Number(fields: seq<string>, key: string): Option<nat> {
    match LastOf(fields, key) case None => None case Some(v) => ParseUnsigned(v, U64_LIMIT)
  }

  function Status(fields: seq<string>): Option<int> {
    match LastOf(fields, STATUS) case None => None case Some(v) => ParseI32(v)
  }

  /** A report: its fields are all readable, and the last of each kind is taken. */
  function Meaning(fields: seq<string>): Option<(int, Usage)> {
    if exists i :: 0 <= i < |fields| && !Readable(fields[i]) then None else
    var st, us, sy, rs := Status(fields), Number(fields, USER), Number(fields, SYS), Number(fields, RSS);
    if st.Some? && us.Some? && sy.Some? && rs.Some? then Some((st.value, Usage(us.value, sy.value, rs.value))) else None
  }

  predicate Terminated(text: string) { text != "" && text[|text| - 1] == '\n' }

  function Parsed(text: string): Option<(int, Usage)> {
    if Terminated(text) then Meaning(Split(text[..|text| - 1], " ")) else None
  }

  /** What the fields read so far say. */
  datatype Found = Found(status: Option<int>, user: Option<nat>, sys: Option<nat>, rss: Option<nat>)

  function Gathered(fields: seq<string>): Found {
    Found(Status(fields), Number(fields, USER), Number(fields, SYS), Number(fields, RSS))
  }

  /** One field of the loop; a value that cannot be read ends the reading. */
  function TakeField(found: Found, key: string, value: string): Option<Found> {
    if key == STATUS then (if ParseI32(value).Some? then Some(found.(status := ParseI32(value))) else None)
    else if key == USER || key == SYS || key == RSS then
      var number := ParseUnsigned(value, U64_LIMIT);
      if number.None? then None
      else Some(if key == USER then found.(user := number) else if key == SYS then found.(sys := number) else found.(rss := number))
    else Some(found)
  }

  /** `parse_report`. */
  method ParseReport(text: string) returns (r: Option<(int, Usage)>)
    ensures r == Parsed(text)
  {
    if !Terminated(text) { return None; }
    var fields := Split(text[..|text| - 1], " ");
    var found := Found(None, None, None, None);
    for i := 0 to |fields|
      invariant (forall k :: 0 <= k < i ==> Readable(fields[k])) && found == Gathered(fields[..i])
    {
      var parts := SplitOnce(fields[i], "=");
      if parts.None? { return None; }
      FieldTaken(fields, i);
      var next := TakeField(found, parts.value.0, parts.value.1);
      if next.None? { return None; }
      found := next.value;
    }
    assert fields[..|fields|] == fields;
    r := match found
         case Found(Some(st), Some(us), Some(sy), Some(rs)) => Some((st, Usage(us, sy, rs)))
         case _ => None;
  }

  lemma LastOfNext(fields: seq<string>, i: nat, key: string)
    requires i < |fields| && SplitOnce(fields[i], "=").Some?
    ensures LastOf(fields[..i + 1], key) == if Key(fields[i]) == key then Some(ValueText(fields[i])) else LastOf(fields[..i], key)
  {
    assert fields[..i + 1][..i] == fields[..i];
  }

  lemma KeysDiffer()
    ensures STATUS != USER && STATUS != SYS && STATUS != RSS && USER != SYS && USER != RSS && SYS != RSS
  {
    assert |STATUS| == 6 && |USER| == 7 && |RSS| == 10 && |SYS| == 6;
    assert STATUS[1] == 't' && SYS[1] == 'y';
  }

  lemma FieldTaken(fields: seq<string>, i: nat)
    requires i < |fields| && SplitOnce(fields[i], "=").Some?
    ensures TakeField(Gathered(fields[..i]), Key(fields[i]), ValueText(fields[i]))
            == if Readable(fields[i]) then Some(Gathered(fields[..i + 1])) else None
  {
    KeysDiffer();
    LastOfNext(fields, i, STATUS);
    LastOfNext(fields, i, USER);
    LastOfNext(fields, i, SYS);
    LastOfNext(fields, i, RSS);
  }

  // ----- reading back -----

  lemma SplitCons(a: string, rest: string)
    requires ' ' !in a
    ensures Split(a + " " + rest, " ") == [a] + Split(rest, " ")
  {
    SplitOnceAt(a, " ", rest);
  }

  lemma SplitFields(a: string, b: string, c: string, d: string)
    requires ' ' !in a && ' ' !in b && ' ' !in c && ' ' !in d
    ensures Split(Fields4(a, b, c, d), " ") == [a, b, c, d]
  {
    SplitCons(a, b + " " + (c + " " + d));
    SplitCons(b, c + " " + d);
    SplitCons(c, d);
    SplitOnceNone(d, " ");
  }

  /** Four fields with different keys give four values. */
  lemma LastOfFour(k: seq<string>, v: seq<string>, fields: seq<string>)
    requires |k| == |v| == |fields| == 4 && forall i :: 0 <= i < 4 ==> SplitOnce(fields[i], "=") == Some((k[i], v[i]))
    requires forall i, j :: 0 <= i < j < 4 ==> k[i] != k[j]
    ensures forall i :: 0 <= i < 4 ==> LastOf(fields, k[i]) == Some(v[i])
  {
    forall i | 0 <= i < 4 ensures LastOf(fields, k[i]) == Some(v[i]) {
      assert fields[..4] == fields;
      assert forall j :: 0 <= j < 4 ==> Says(fields[j], k[j], v[j]);
      LastOfAt(k, v, fields, i, 4);
    }
  }

  predicate Says(field: string, key: string, value: string) {
    SplitOnce(field, "=").Some? && Key(field) == key && ValueText(field) == value
  }

  lemma {:induction false} LastOfAt(k: seq<string>, v: seq<string>, fields: seq<string>, i: nat, n: nat)
    requires i < n <= |fields| == |k| == |v| && forall j :: 0 <= j < n ==> Says(fields[j], k[j], v[j])
    requires forall j :: 0 <= j < |k| && j != i ==> k[j] != k[i]
    ensures LastOf(fields[..n], k[i]) == Some(v[i])
    decreases n
  {
    assert Says(fields[n - 1], k[n - 1], v[n - 1]);
    LastOfNext(fields, n - 1, k[i]);
    if i < n - 1 { LastOfAt(k, v, fields, i, n - 1); }
  }

  predicate Plain(s: string) { forall i :: 0 <= i < |s| ==> s[i] != ' ' && s[i] != '=' && s[i] != '\n' }

  lemma FieldsPlain(status: int, u: Usage)
    ensures Plain(STATUS) && Plain(USER) && Plain(SYS) && Plain(RSS)
    ensures Plain(PrintInt(status)) && Plain(Print(u.userMs)) && Plain(Print(u.sysMs)) && Plain(Print(u.maxRssKb))
  {
  }

  /** A line of four plain fields is split into them. */
  lemma FourFieldsRead(k: seq<string>, v: seq<string>) returns (fields: seq<string>)
    requires |k| == |v| == 4 && forall i :: 0 <= i < 4 ==> Plain(k[i]) && Plain(v[i])
    requires forall i, j :: 0 <= i < j < 4 ==> k[i] != k[j]
    ensures fields == [k[0] + "=" + v[0], k[1] + "=" + v[1], k[2] + "=" + v[2], k[3] + "=" + v[3]]
    ensures Split(Fields4(fields[0], fields[1], fields[2], fields[3]), " ") == fields
    ensures forall i :: 0 <= i < 4 ==> SplitOnce(fields[i], "=") == Some((k[i], v[i])) && LastOf(fields, k[i]) == Some(v[i])
  {
    fields := [k[0] + "=" + v[0], k[1] + "=" + v[1], k[2] + "=" + v[2], k[3] + "=" + v[3]];
    forall i | 0 <= i < 4 ensures SplitOnce(fields[i], "=") == Some((k[i], v[i])) { SplitOnceAt(k[i], "=", v[i]); }
    SplitFields(fields[0], fields[1], fields[2], fields[3]);
    LastOfFour(k, v, fields);
  }

  /** Reading a report gives back what was written. */
  lemma ReportRoundTrip(status: int, u: Usage)
    requires IsI32(status) && IsUsage(u)
    ensures Parsed(Format(status, u)) == Some((status, u))
  {
    FieldsPlain(status, u);
    KeysDiffer();
    var k, v := [STATUS, USER, SYS, RSS], [PrintInt(status), Print(u.userMs), Print(u.sysMs), Print(u.maxRssKb)];
    var fields := FourFieldsRead(k, v);
    assert Format(status, u)[..|Format(status, u)| - 1] == Fields4(fields[0], fields[1], fields[2], fields[3]);
    NumbersRead(status, u);
    MeaningOfFour(fields, status, u);
  }

  lemma NumbersRead(status: int, u: Usage)
    requires IsI32(status) && IsUsage(u)
    ensures ParseI32(PrintInt(status)) == Some(status) && ParseUnsigned(Print(u.userMs), U64_LIMIT) == Some(u.userMs)
    ensures ParseUnsigned(Print(u.sysMs), U64_LIMIT) == Some(u.sysMs) && ParseUnsigned(Print(u.maxRssKb), U64_LIMIT) == Some(u.maxRssKb)
  {
    ParseI32OfPrint(status);
    ParseUnsignedOfPrint(u.userMs, U64_LIMIT);
    ParseUnsignedOfPrint(u.sysMs, U64_LIMIT);
    ParseUnsignedOfPrint(u.maxRssKb, U64_LIMIT);
  }

  lemma MeaningOfFour(fields: seq<string>, status: int, u: Usage)
    requires |fields| == 4 && forall i :: 0 <= i < 4 ==> SplitOnce(fields[i], "=").Some?
    requires Key(fields[0]) == STATUS && Key(fields[1]) == USER && Key(fields[2]) == SYS && Key(fields[3]) == RSS
    requires forall i :: 0 <= i < 4 ==> LastOf(fields, Key(fields[i])) == Some(ValueText(fields[i]))
    requires ParseI32(ValueText(fields[0])) == Some(status) && ParseUnsigned(ValueText(fields[1]), U64_LIMIT) == Some(u.userMs)
    requires ParseUnsigned(ValueText(fields[2]), U64_LIMIT) == Some(u.sysMs) && ParseUnsigned(ValueText(fields[3]), U64_LIMIT) == Some(u.maxRssKb)
    ensures Meaning(fields) == Some((status, u))
  {
    AllReadable(fields, status, u);
    LastNumber(fields, fields[1], u.userMs);
    LastNumber(fields, fields[2], u.sysMs);
    LastNumber(fields, fields[3], u.maxRssKb);
    MeaningOf(fields, status, u);
  }

  lemma AllReadable(fields: seq<string>, status: int, u: Usage)
    requires |fields| == 4 && forall i :: 0 <= i < 4 ==> SplitOnce(fields[i], "=").Some?
    requires Key(fields[0]) == STATUS && Key(fields[1]) == USER && Key(fields[2]) == SYS && Key(fields[3]) == RSS
    requires ParseI32(ValueText(fields[0])) == Some(status) && ParseUnsigned(ValueText(fields[1]), U64_LIMIT) == Some(u.userMs)
    requires ParseUnsigned(ValueText(fields[2]), U64_LIMIT) == Some(u.sysMs) && ParseUnsigned(ValueText(fields[3]), U64_LIMIT) == Some(u.maxRssKb)
    ensures forall i :: 0 <= i < 4 ==> Readable(fields[i])
  {
    StatusReadable(fields[0], status);
    NumberReadable(fields[1], u.userMs);
    NumberReadable(fields[2], u.sysMs);
    NumberReadable(fields[3], u.maxRssKb);
  }

  lemma LastNumber(fields: seq<string>, field: string, n: nat)
    requires LastOf(fields, Key(field)) == Some(ValueText(field)) && ParseUnsigned(ValueText(field), U64_LIMIT) == Some(n)
    ensures Number(fields, Key(field)) == Some(n)
  {
  }

  lemma MeaningOf(fields: seq<string>, status: int, u: Usage)
    requires forall i :: 0 <= i < |fields| ==> Readable(fields[i])
    requires Status(fields) == Some(status) && Number(fields, USER) == Some(u.userMs)
    requires Number(fields, SYS) == Some(u.sysMs) && Number(fields, RSS) == Some(u.maxRssKb)
    ensures Meaning(fields) == Some((status, u))
  {
  }

  lemma StatusReadable(field: string, status: int)
    requires SplitOnce(field, "=").Some? && Key(field) == STATUS && ParseI32(ValueText(field)) == Some(status)
    ensures Readable(field)
  {
    KeysDiffer();
  }

  lemma NumberReadable(field: string, n: nat)
    requires SplitOnce(field, "=").Some? && Key(field) in {USER, SYS, RSS} && ParseUnsigned(ValueText(field), U64_LIMIT) == Some(n)
    ensures Readable(field)
  {
    KeysDiffer();
  }

  /** No proper prefix of a report is a report. */
  lemma PrefixRejected(status: int, u: Usage, n: nat)
    requires n < |Format(status, u)|
    ensures Parsed(Format(status, u)[..n]) == None
  {
    FieldsPlain(status, u);
    var a, b := STATUS + "=" + PrintInt(status), USER + "=" + Print(u.userMs);
    var c, d := SYS + "=" + Print(u.sysMs), RSS + "=" + Print(u.maxRssKb);
    OneLine(a, b, c, d);
    PrefixUnterminated(Fields4(a, b, c, d), n);
  }

  lemma OneLine(a: string, b: string, c: string, d: string)
    requires '\n' !in a && '\n' !in b && '\n' !in c && '\n' !in d
    ensures '\n' !in Fields4(a, b, c, d)
  {
  }

  lemma PrefixUnterminated(line: string, n: nat)
    requires '\n' !in line && n <= |line|
    ensures !Terminated((line + "\n")[..n])
  {
    assert (line + "\n")[..n] == line[..n];
  }

  // ----- how the command ended -----

  /** The exit code in a raw wait status; a signal leaves none. */
  function Code(raw: int): Option<nat> { if raw % 128 == 0 then Some(raw / 256 % 256) else None }

  const WRITE_FAILED := "exec shim failed to write process report (disk full or write error)"

  datatype Outcome = Outcome(code: Option<nat>, usage: Option<Usage>, error: Option<string>)

  /** `outcome`. */
  function OutcomeOf(report: Option<(int, Usage)>, started: Option<(int, Usage)>, shim: bool, timedOut: bool): Outcome {
    match (report, started)
    case (Some((raw, usage)), _) => Outcome(Code(raw), Some(usage), None)
    case (None, None) => Outcome(None, None, None)
    case (None, Some((raw, usage))) =>
      if Code(raw) == Some(74) && shim && !timedOut then Outcome(Some(74), Some(usage), Some(WRITE_FAILED))
      else Outcome(Code(raw), if shim && timedOut then None else Some(usage), None)
  }

  /** A raw status is made of the exit code, a flag for a core dump and the signal. The code is the exit code
      of a command that ended by itself, and there is none for one that a signal ended. */
  lemma CodeExactly(high: int, code: nat, core: bool, signal: nat)
    requires code < 256 && signal < 128
    ensures Code(65536 * high + 256 * code + (if core then 128 else 0) + signal) == if signal == 0 then Some(code) else None
  {
    var flag := if core then 1 else 0;
    Digits128(512 * high + 2 * code + flag, signal);
    Digits256(256 * high + code, 128 * flag + signal);
    Digits256(high, code);
  }

  lemma Digits128(q: int, r: nat)
    requires r < 128
    ensures (128 * q + r) % 128 == r
  {
  }

  lemma Digits256(q: int, r: nat)
    requires r < 256
    ensures (256 * q + r) / 256 == q && (256 * q + r) % 256 == r
  {
  }

  /** The outcome, with and without a report. Without one, the usage is that of the process that was
      started, unless that was the shim, killed on a timeout; and the shim's own exit code 74 is an error
      of its own. */
  lemma OutcomeExactly(report: Option<(int, Usage)>, started: Option<(int, Usage)>, shim: bool, timedOut: bool)
    ensures var o := OutcomeOf(report, started, shim, timedOut);
            && (report.Some? ==> o == Outcome(Code(report.value.0), Some(report.value.1), None))
            && (report.None? && started.None? ==> o == Outcome(None, None, None))
            && (report.None? && started.Some? ==>
                  && o.code == Code(started.value.0)
                  && (o.error.Some? <==> shim && !timedOut && o.code == Some(74))
                  && o.usage == if shim && timedOut then None else Some(started.value.1))
  {
  }

  /** However much of its report the shim has written, the outcome is the report's when the report
      is whole, and otherwise what it would be without one. */
  lemma TornReportIsNoReport(status: int, u: Usage, n: nat, started: Option<(int, Usage)>, shim: bool, timedOut: bool)
    requires IsI32(status) && IsUsage(u) && n <= |Format(status, u)|
    ensures OutcomeOf(Parsed(Format(status, u)[..n]), started, shim, timedOut)
            == if n == |Format(status, u)| then Outcome(Code(status), Some(u), None)
               else OutcomeOf(None, started, shim, timedOut)
  {
    if n == |Format(status, u)| {
      assert Format(status, u)[..n] == Format(status, u);
      ReportRoundTrip(status, u);
    } else {
      PrefixRejected(status, u, n);
    }
  }
}
