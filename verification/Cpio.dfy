/** The cpio archive of a package's files, in the newc format, and a reader for it. */
module Cpio {
  import opened Decimal
  import opened Bytes

  // ----- hexadecimal fields -----

  function HexDigit(d: nat): (b: Byte)
    requires d < 16
    ensures 48 <= b < 58 || 65 <= b < 71
  {
    if d < 10 then 48 + d else 55 + d
  }

  function HexDigitValue(b: Byte): Option<nat> {
    if 48 <= b < 58 then Some(b - 48) else if 65 <= b < 71 then Some(b - 55) else None
  }

  function Hex(n: nat): (s: Data)
    ensures |s| > 0
  {
    if n < 16 then [HexDigit(n)] else Hex(n / 16) + [HexDigit(n % 16)]
  }

  /** `f"{n:08X}"` */
  function Hex8(n: nat): Data {
    var s := Hex(n);
    (if |s| < 8 then seq(8 - |s|, _ => 48) else []) + s
  }

  function HexValue(s: Data): Option<nat> {
    if s == [] then Some(0) else
    var front, d := HexValue(s[..|s| - 1]), HexDigitValue(s[|s| - 1]);
    if front.Some? && d.Some? then Some(16 * front.value + d.value) else None
  }

  lemma {:induction false} HexValueOfHex(zeros: Data, n: nat)
    requires forall i :: 0 <= i < |zeros| ==> zeros[i] == 48
    ensures HexValue(zeros + Hex(n)) == Some(n)
    decreases n, |zeros|
  {
    var s := zeros + Hex(n);
    if n < 16 {
      assert s[..|s| - 1] == zeros;
      HexValueOfZeros(zeros);
    } else {
      assert s[..|s| - 1] == zeros + Hex(n / 16);
      HexValueOfHex(zeros, n / 16);
    }
  }

  lemma {:induction false} HexValueOfZeros(zeros: Data)
    requires forall i :: 0 <= i < |zeros| ==> zeros[i] == 48
    ensures HexValue(zeros) == Some(0)
  {
    if zeros != [] { HexValueOfZeros(zeros[..|zeros| - 1]); }
  }

  function Pow16(k: nat): (r: nat)
    ensures r > 0
  {
    if k == 0 then 1 else 16 * Pow16(k - 1)
  }

  lemma {:induction false} HexLength(n: nat, k: nat)
    requires k > 0
    ensures |Hex(n)| <= k <==> n < Pow16(k)
    decreases k
  {
    if k == 1 {
      assert Pow16(1) == 16 * Pow16(0);
    } else if n >= 16 {
      HexLength(n / 16, k - 1);
    } else {
      assert Pow16(k) >= 16;
    }
  }

  /** A number fits its field exactly when it is below 2^32, and is then read back. */
  lemma Hex8Reads(n: nat)
    ensures |Hex8(n)| == 8 <==> n < LIMIT32
    ensures HexValue(Hex8(n)) == Some(n)
  {
    assert Pow16(8) == LIMIT32 by {
      assert Pow16(1) == 16 && Pow16(2) == 256 && Pow16(4) == 0x1_0000;
    }
    HexLength(n, 8);
    var s := Hex(n);
    HexValueOfHex(if |s| < 8 then seq(8 - |s|, _ => 48) else [], n);
  }

  function Fields(ns: seq<nat>): Data { if ns == [] then [] else Hex8(ns[0]) + Fields(ns[1..]) }

  /** `n` fields from the start, and what follows. */
  function ReadFields(s: Data, n: nat): Option<(seq<nat>, Data)> {
    if n == 0 then Some(([], s)) else
    if |s| < 8 then None else
    var first, more := HexValue(s[..8]), ReadFields(s[8..], n - 1);
    if first.Some? && more.Some? then Some(([first.value] + more.value.0, more.value.1)) else None
  }

  lemma FieldReads(n: nat, ns: seq<nat>, more: Data, rest: Data)
    requires n < LIMIT32 && ReadFields(more, |ns|) == Some((ns, rest))
    ensures ReadFields(Hex8(n) + more, |ns| + 1) == Some(([n] + ns, rest))
  {
    Hex8Reads(n);
    var s := Hex8(n) + more;
    assert s[..8] == Hex8(n) && s[8..] == more;
  }

  lemma {:induction false} FieldsRead(ns: seq<nat>, rest: Data)
    requires forall i :: 0 <= i < |ns| ==> ns[i] < LIMIT32
    ensures |Fields(ns)| == 8 * |ns| && ReadFields(Fields(ns) + rest, |ns|) == Some((ns, rest))
    decreases |ns|
  {
    if ns == [] {
      assert [] + rest == rest;
    } else {
      Hex8Reads(ns[0]);
      FieldsRead(ns[1..], rest);
      FieldReads(ns[0], ns[1..], Fields(ns[1..]) + rest, rest);
      assert Hex8(ns[0]) + (Fields(ns[1..]) + rest) == Fields(ns) + rest;
      assert [ns[0]] + ns[1..] == ns;
    }
  }

  /** The header has its fixed length exactly when every number fits its field. */
  lemma {:induction false} FieldsWidth(ns: seq<nat>)
    ensures |Fields(ns)| >= 8 * |ns|
    ensures |Fields(ns)| == 8 * |ns| <==> forall i :: 0 <= i < |ns| ==> ns[i] < LIMIT32
  {
    if ns != [] {
      Hex8Reads(ns[0]);
      FieldsWidth(ns[1..]);
      assert |Hex8(ns[0])| >= 8;
    }
  }

  // ----- entries -----

  const MAGIC: Data := [48, 55, 48, 55, 48, 49]                             // 070701
  const TRAILER: Data := [84, 82, 65, 73, 76, 69, 82, 33, 33, 33]           // TRAILER!!!
  const HERE: Data := [46, 47]                                              // ./

  /** The numbers in an entry's header, in their order. */
  const FIELDS: seq<string> :=
    ["ino", "mode", "uid", "gid", "nlink", "mtime", "filesize", "devmajor", "devminor", "rdevmajor", "rdevminor", "namesize", "check"]

  datatype File = File(path: Data, data: Data, mode: nat, mtime: nat)

  /** What a reader finds out about an entry. */
  datatype Found = Found(name: Data, data: Data, ino: nat, mode: nat, uid: nat, gid: nat, nlink: nat, mtime: nat,
                         devices: seq<nat>, check: nat)

  function StripSlashes(path: Data): Data { if path != [] && path[0] == 47 then StripSlashes(path[1..]) else path }

  function RelPath(path: Data): (r: Data)
    ensures HERE <= r
  {
    if HERE <= path then path else HERE + StripSlashes(path)
  }

  predicate AllSlashes(s: Data) { forall i :: 0 <= i < |s| ==> s[i] == 47 }

  /** A path that does not begin with `./` is put below it, without the slashes it begins with. */
  lemma {:induction false} RelPathIs(path: Data) returns (n: nat)
    ensures n <= |path| && AllSlashes(path[..n])
    ensures HERE <= path ==> n == 0 && RelPath(path) == path
    ensures !(HERE <= path) ==> RelPath(path) == [46, 47] + path[n..] && (n < |path| ==> path[n] != 47)
  {
    if HERE <= path { n := 0; } else { n := SlashesStripped(path); }
  }

  lemma {:induction false} SlashesStripped(path: Data) returns (n: nat)
    ensures n <= |path| && AllSlashes(path[..n]) && StripSlashes(path) == path[n..] && (n < |path| ==> path[n] != 47)
  {
    n := 0;
    if path != [] && path[0] == 47 {
      var m := SlashesStripped(path[1..]);
      n := m + 1;
      assert path[..n] == [path[0]] + path[1..][..m] && path[n..] == path[1..][m..];
    }
  }

  function HeaderFields(ino: nat, mode: nat, mtime: nat, filesize: nat, namesize: nat): (ns: seq<nat>)
    ensures |ns| == 13
  {
    [ino, mode, 0, 0, 1, mtime, filesize, 0, 0, 0, 0, namesize, 0]
  }

  /** An entry with its name and data, each followed by zeros up to a multiple of four. */
  function Record(ns: seq<nat>, name: Data, data: Data): Data {
    var header := MAGIC + Fields(ns);
    header + (name + [0]) + Zeros(Pad4(|header| + |name| + 1)) + data + Zeros(Pad4(|data|))
  }

  /** `make_cpio_entry` */
  function Entry(f: File, ino: nat): Data {
    var name := RelPath(f.path);
    Record(HeaderFields(ino, f.mode, f.mtime, |f.data|, |name| + 1), name, f.data)
  }

  /** `make_cpio_trailer` */
  function TrailerEntry(name: Data): Data { Record(HeaderFields(0, 0, 0, 0, |name| + 1), name, []) }

  /** The archive: the files from inode `ino` on, then the trailer. */
  function Archive(files: seq<File>, ino: nat): Data {
    if files == [] then TrailerEntry(TRAILER) else Entry(files[0], ino) + Archive(files[1..], ino + 1)
  }

  predicate Fits(f: File) {
    f.mode < LIMIT32 && f.mtime < LIMIT32 && |f.data| < LIMIT32 && |RelPath(f.path)| + 1 < LIMIT32
  }

  // ----- the reader -----

  /** `n` bytes and zeros up to a multiple of four, where `before` bytes came first. */
  function ReadPadded(s: Data, n: nat, before: nat): Option<(Data, Data)> {
    var pad := Pad4(before + n);
    if |s| < n + pad || (exists i :: n <= i < n + pad && s[i] != 0) then None else Some((s[..n], s[n + pad..]))
  }

  /** The first entry and what follows it. */
  function ReadEntry(s: Data): (r: Option<(Found, Data)>)
    ensures r.Some? ==> |r.value.1| < |s|
  {
    if !(MAGIC <= s) then None else
    match ReadFields(s[6..], |FIELDS|)
    case None => None
    case Some((ns, rest)) =>
      ReadFieldsShape(s[6..], |FIELDS|);
      if ns[11] == 0 then None else
      match ReadPadded(rest, ns[11], 110)
      case None => None
      case Some((name, rest)) =>
        if name[|name| - 1] != 0 then None else
        match ReadPadded(rest, ns[6], 0)
        case None => None
        case Some((data, rest)) =>
          Some((Found(name[..|name| - 1], data, ns[0], ns[1], ns[2], ns[3], ns[4], ns[5], ns[7..11], ns[12]), rest))
  }

  lemma {:induction false} ReadFieldsShape(s: Data, n: nat)
    ensures var r := ReadFields(s, n); r.Some? ==> |r.value.0| == n && |r.value.1| == |s| - 8 * n
  {
    if n > 0 && |s| >= 8 { ReadFieldsShape(s[8..], n - 1); }
  }

  /** The entries up to the trailer, after which nothing may follow. */
  function ReadArchive(s: Data): Option<seq<Found>>
    decreases |s|
  {
    match ReadEntry(s)
    case None => None
    case Some((e, rest)) =>
      if e.name == TRAILER then (if rest == [] then Some([]) else None) else
      match ReadArchive(rest)
      case None => None
      case Some(es) => Some([e] + es)
  }

  // ----- reading back -----

  lemma PaddedReads(s: Data, before: nat, rest: Data)
    ensures ReadPadded(s + Zeros(Pad4(before + |s|)) + rest, |s|, before) == Some((s, rest))
  {
    var zeros := Zeros(Pad4(before + |s|));
    assert (s + zeros + rest)[..|s|] == s && (s + zeros + rest)[|s| + |zeros|..] == rest;
    assert forall i :: |s| <= i < |s| + |zeros| ==> (s + zeros + rest)[i] == zeros[i - |s|] == 0;
  }

  lemma Regroup(m: Data, h: Data, n: Data, z: Data, d: Data, y: Data, rest: Data)
    ensures m + h + n + z + d + y + rest == m + (h + (n + z + (d + y + rest)))
  {
    var tail := d + y + rest;
    assert m + h + n + z + d + y + rest == m + h + n + z + tail;
    assert m + h + n + z + tail == m + h + (n + z + tail);
  }

  /** Reading an entry, given what its parts read as. */
  lemma EntryStep(fields: Data, ns: seq<nat>, named: Data, namePart: Data, data: Data, dataPart: Data, rest: Data)
    requires |ns| == |FIELDS| && ReadFields(fields + namePart, |FIELDS|) == Some((ns, namePart))
    requires ns[11] == |named| > 0 && ns[6] == |data| && named[|named| - 1] == 0
    requires ReadPadded(namePart, |named|, 110) == Some((named, dataPart)) && ReadPadded(dataPart, |data|, 0) == Some((data, rest))
    ensures ReadEntry(MAGIC + (fields + namePart))
            == Some((Found(named[..|named| - 1], data, ns[0], ns[1], ns[2], ns[3], ns[4], ns[5], ns[7..11], ns[12]), rest))
  {
    var s := MAGIC + (fields + namePart);
    assert s[..6] == MAGIC && s[6..] == fields + namePart;
  }

  lemma RecordSize(ns: seq<nat>, name: Data, data: Data)
    requires |ns| == 13 && forall i :: 0 <= i < 13 ==> ns[i] < LIMIT32
    ensures |MAGIC + Fields(ns)| == 110 && |Record(ns, name, data)| % 4 == 0
  {
    FieldsRead(ns, []);
  }

  lemma RecordReads(ns: seq<nat>, name: Data, data: Data, rest: Data)
    requires |ns| == 13 && forall i :: 0 <= i < 13 ==> ns[i] < LIMIT32
    requires ns[11] == |name| + 1 && ns[6] == |data|
    ensures ReadEntry(Record(ns, name, data) + rest)
            == Some((Found(name, data, ns[0], ns[1], ns[2], ns[3], ns[4], ns[5], ns[7..11], ns[12]), rest))
  {
    RecordSize(ns, name, data);
    var named := name + [0];
    var zeros := Zeros(Pad4(110 + |named|));
    var dataPart := data + Zeros(Pad4(|data|)) + rest;
    var namePart := named + zeros + dataPart;
    FieldsRead(ns, namePart);
    PaddedReads(named, 110, dataPart);
    PaddedReads(data, 0, rest);
    EntryStep(Fields(ns), ns, named, namePart, data, dataPart, rest);
    Regroup(MAGIC, Fields(ns), named, zeros, data, Zeros(Pad4(|data|)), rest);
    assert named[..|named| - 1] == name;
  }

  /** What an entry's file is found as. */
  function FoundFile(f: File, ino: nat): Found { Found(RelPath(f.path), f.data, ino, f.mode, 0, 0, 1, f.mtime, [0, 0, 0, 0], 0) }

  function FoundFiles(files: seq<File>, ino: nat): seq<Found> {
    if files == [] then [] else [FoundFile(files[0], ino)] + FoundFiles(files[1..], ino + 1)
  }

  lemma EntryReads(f: File, ino: nat, rest: Data)
    requires Fits(f) && ino < LIMIT32
    ensures ReadEntry(Entry(f, ino) + rest) == Some((FoundFile(f, ino), rest))
  {
    var name := RelPath(f.path);
    var ns := HeaderFields(ino, f.mode, f.mtime, |f.data|, |name| + 1);
    NoDevices(ino, f.mode, f.mtime, |f.data|, |name| + 1);
    RecordReads(ns, name, f.data, rest);
  }

  lemma {:induction false} NoDevices(ino: nat, mode: nat, mtime: nat, filesize: nat, namesize: nat)
    ensures HeaderFields(ino, mode, mtime, filesize, namesize)[7..11] == [0, 0, 0, 0]
  {
  }

  lemma TrailerReads(name: Data)
    requires name == TRAILER
    ensures ReadArchive(TrailerEntry(name)) == Some([])
  {
    RecordReads(HeaderFields(0, 0, 0, 0, |name| + 1), name, [], []);
    NothingAfter(TrailerEntry(name));
  }

  lemma NothingAfter(s: Data)
    ensures s + [] == s
  {
  }

  /** Reading an archive gives back its files, whatever their names and contents. */
  lemma {:induction false} ArchiveRoundTrip(files: seq<File>, ino: nat)
    requires ino + |files| <= LIMIT32 && forall i :: 0 <= i < |files| ==> Fits(files[i])
    ensures ReadArchive(Archive(files, ino)) == Some(FoundFiles(files, ino))
    decreases |files|
  {
    if files == [] {
      TrailerReads(TRAILER);
    } else {
      ArchiveRoundTrip(files[1..], ino + 1);
      EntryReads(files[0], ino, Archive(files[1..], ino + 1));
      NotTheTrailer(RelPath(files[0].path));
      EntryBefore(Entry(files[0], ino), FoundFile(files[0], ino), Archive(files[1..], ino + 1), FoundFiles(files[1..], ino + 1));
    }
  }

  lemma EntryBefore(entry: Data, e: Found, rest: Data, es: seq<Found>)
    requires ReadEntry(entry + rest) == Some((e, rest)) && e.name != TRAILER && ReadArchive(rest) == Some(es)
    ensures ReadArchive(entry + rest) == Some([e] + es)
  {
  }

  /** Every entry, and so the whole archive, is a multiple of four bytes long. */
  lemma {:induction false} ArchiveAligned(files: seq<File>, ino: nat)
    requires ino + |files| <= LIMIT32 && forall i :: 0 <= i < |files| ==> Fits(files[i])
    ensures |Archive(files, ino)| % 4 == 0 && (files != [] ==> |Entry(files[0], ino)| % 4 == 0)
    decreases |files|
  {
    if files == [] {
      TrailerAligned(TRAILER);
    } else {
      ArchiveAligned(files[1..], ino + 1);
      EntryAligned(files[0], ino);
      AlignedSum(|Entry(files[0], ino)|, |Archive(files[1..], ino + 1)|);
    }
  }

  lemma EntryAligned(f: File, ino: nat)
    requires Fits(f) && ino < LIMIT32
    ensures |Entry(f, ino)| % 4 == 0
  {
    RecordSize(HeaderFields(ino, f.mode, f.mtime, |f.data|, |RelPath(f.path)| + 1), RelPath(f.path), f.data);
  }

  lemma TrailerAligned(name: Data)
    requires |name| + 1 < LIMIT32
    ensures |TrailerEntry(name)| % 4 == 0
  {
    RecordSize(HeaderFields(0, 0, 0, 0, |name| + 1), name, []);
  }

  lemma AlignedSum(a: nat, b: nat)
    requires a % 4 == 0 && b % 4 == 0
    ensures (a + b) % 4 == 0
  {
  }

  lemma NotTheTrailer(name: Data)
    requires HERE <= name
    ensures name != TRAILER
  {
    assert name[0] == HERE[0];
  }

  /** The loop that fills the archive. */
  method BuildArchive(files: seq<File>) returns (buf: Data)
    requires 1 + |files| <= LIMIT32 && forall i :: 0 <= i < |files| ==> Fits(files[i])
    ensures |buf| % 4 == 0 && ReadArchive(buf) == Some(FoundFiles(files, 1))
    ensures Framed(buf)
  {
    buf := [];
    var ino := 1;
    for i := 0 to |files|
      invariant ino == i + 1 && buf + Archive(files[i..], ino) == Archive(files, 1)
    {
      ArchiveFrom(buf, files, i, ino);
      buf, ino := buf + Entry(files[i], ino), ino + 1;
    }
    buf := buf + TrailerEntry(TRAILER);
    ArchiveEnds(files, 1);
    ArchiveRoundTrip(files, 1);
    ArchiveAligned(files, 1);
  }

  /** It begins with the magic number, and its last bytes are the trailer's name, a zero and the padding. */
  predicate Framed(s: Data) {
    && |s| >= 124 && s[..6] == [48, 55, 48, 55, 48, 49]
    && s[|s| - 14..] == [84, 82, 65, 73, 76, 69, 82, 33, 33, 33, 0, 0, 0, 0]
  }

  lemma {:induction false} ArchiveEnds(files: seq<File>, ino: nat)
    ensures Framed(Archive(files, ino))
    decreases |files|
  {
    if files == [] {
      TrailerEnds();
    } else {
      ArchiveEnds(files[1..], ino + 1);
      EntryStarts(files[0], ino);
      FramedAfter(Entry(files[0], ino), Archive(files[1..], ino + 1));
    }
  }

  lemma {:induction false} FramedAfter(entry: Data, rest: Data)
    requires MAGIC <= entry && Framed(rest)
    ensures Framed(entry + rest)
  {
    var s := entry + rest;
    assert s[..6] == entry[..6] && s[|s| - 14..] == rest[|rest| - 14..];
  }

  lemma {:induction false} EntryStarts(f: File, ino: nat)
    ensures MAGIC <= Entry(f, ino)
  {
  }

  lemma {:induction false} TrailerEnds()
    ensures Framed(TrailerEntry(TRAILER))
  {
    var ns := HeaderFields(0, 0, 0, 0, 11);
    FieldsRead(ns, []);
    TrailerParts(MAGIC + Fields(ns), TRAILER);
  }

  lemma {:induction false} TrailerParts(header: Data, name: Data)
    requires MAGIC <= header && |header| == 110 && name == TRAILER
    ensures Framed(header + (name + [0]) + Zeros(Pad4(|header| + |name| + 1)) + [] + Zeros(Pad4(0)))
  {
    assert Zeros(Pad4(121)) == [0, 0, 0] && Zeros(Pad4(0)) == [];
    var s := header + (name + [0]) + [0, 0, 0] + [] + [];
    assert s[..6] == header[..6];
    assert s[|s| - 14..] == name + [0] + [0, 0, 0];
  }

  lemma ArchiveFrom(buf: Data, files: seq<File>, i: nat, ino: nat)
    requires i < |files|
    ensures buf + Archive(files[i..], ino) == buf + Entry(files[i], ino) + Archive(files[i + 1..], ino + 1)
  {
    assert files[i..][1..] == files[i + 1..];
    Regroup3(buf, Entry(files[i], ino), Archive(files[i + 1..], ino + 1));
  }

  lemma Regroup3(a: Data, b: Data, c: Data)
    ensures a + b + c == a + (b + c)
  {
  }
}
