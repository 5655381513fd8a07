/** The header structure of an RPM package, an index of tags over a data store, and a reader for it. */
module RpmHeader {
  import opened Decimal
  import opened Bytes

  datatype Value =
    | Str(s: Data) | Strs(ss: seq<Data>) | I18n(s: Data)
    | Int16s(ns: seq<int>) | Int32s(ns: seq<int>) | Bin(bytes: Data)

  datatype Item = Item(tag: int, value: Value)

  /** What the builder holds for an item. */
  datatype Entry = Entry(tag: int, typ: nat, data: Data, count: nat)

  const INT16: nat := 3
  const INT32: nat := 4
  const INT64: nat := 5
  const STRING: nat := 6
  const BIN: nat := 7
  const STRING_ARRAY: nat := 8
  const I18NSTRING: nat := 9

  function Terminated(ss: seq<Data>): Data { if ss == [] then [] else ss[0] + [0] + Terminated(ss[1..]) }

  function Pack16s(ns: seq<int>): Data
    requires forall i :: 0 <= i < |ns| ==> 0 <= ns[i] < LIMIT16
  {
    if ns == [] then [] else Pack16(ns[0]) + Pack16s(ns[1..])
  }

  /** Numbers are cut to 32 bits first. */
  function Pack32s(ns: seq<int>): Data { if ns == [] then [] else Pack32(ns[0] % LIMIT32) + Pack32s(ns[1..]) }

  /** 16-bit numbers are not cut; the program fails on one that does not fit. */
  predicate Packable(v: Value) { v.Int16s? ==> forall i :: 0 <= i < |v.ns| ==> 0 <= v.ns[i] < LIMIT16 }

  /** What `add_string`, `add_string_array` and so on put on the list. */
  function EntryOf(item: Item): Entry
    requires Packable(item.value)
  {
    match item.value
    case Str(s) => Entry(item.tag, STRING, s + [0], 1)
    case Strs(ss) => Entry(item.tag, STRING_ARRAY, Terminated(ss), |ss|)
    case I18n(s) => Entry(item.tag, I18NSTRING, s + [0], 1)
    case Int16s(ns) => Entry(item.tag, INT16, Pack16s(ns), |ns|)
    case Int32s(ns) => Entry(item.tag, INT32, Pack32s(ns), |ns|)
    case Bin(bytes) => Entry(item.tag, BIN, bytes, |bytes|)
  }

  // ----- the layout -----

  /** The alignment of a type's data. */
  function Align(typ: nat): (k: nat)
    ensures k in {1, 2, 4, 8}
  {
    if typ == INT16 then 2 else if typ == INT32 then 4 else if typ == INT64 then 8 else 1
  }

  /** The data store, and where an entry added to it begins. */
  function Store(es: seq<Entry>): Data {
    if es == [] then [] else
    var front, e := es[..|es| - 1], es[|es| - 1];
    Store(front) + Zeros(Pad(|Store(front)|, Align(e.typ))) + e.data
  }

  function Offset(es: seq<Entry>, i: nat): nat
    requires i < |es|
  {
    |Store(es[..i])| + Pad(|Store(es[..i])|, Align(es[i].typ))
  }

  /** An index entry: where the data of a tag is, its type and how many values there are. */
  datatype Record = Record(tag: int, typ: nat, at: nat, count: nat)

  function RecordOf(es: seq<Entry>, i: nat): Record
    requires i < |es|
  {
    Record(es[i].tag, es[i].typ, Offset(es, i), es[i].count)
  }

  predicate RecordFits(r: Record) { 0 <= r.tag < LIMIT32 && r.typ < LIMIT32 && r.at < LIMIT32 && r.count < LIMIT32 }

  function Packed(r: Record): (s: Data)
    requires RecordFits(r)
    ensures |s| == 16
  {
    Pack32(r.tag) + Pack32(r.typ) + Pack32(r.at) + Pack32(r.count)
  }

  function Records(es: seq<Entry>): (rs: seq<Record>)
    ensures |rs| == |es| && forall i :: 0 <= i < |es| ==> rs[i] == RecordOf(es, i)
  {
    seq(|es|, i requires 0 <= i < |es| => RecordOf(es, i))
  }

  predicate AllFit(rs: seq<Record>) { forall i :: 0 <= i < |rs| ==> RecordFits(rs[i]) }

  /** Every number that is packed fits 32 bits. */
  predicate Fits(es: seq<Entry>) { |es| < LIMIT32 && |Store(es)| < LIMIT32 && AllFit(Records(es)) }

  function Index(rs: seq<Record>): (s: Data)
    requires AllFit(rs)
    ensures |s| == 16 * |rs|
  {
    if rs == [] then [] else Index(rs[..|rs| - 1]) + Packed(rs[|rs| - 1])
  }

  const MAGIC: Data := [0x8e, 0xad, 0xe8, 0x01, 0, 0, 0, 0]

  function Header(es: seq<Entry>): Data
    requires Fits(es)
  {
    MAGIC + Pack32(|es|) + Pack32(|Store(es)|) + Index(Records(es)) + Store(es)
  }

  lemma StoreSnoc(es: seq<Entry>, n: nat)
    requires n < |es|
    ensures Store(es[..n + 1]) == Store(es[..n]) + Zeros(Pad(|Store(es[..n])|, Align(es[n].typ))) + es[n].data
    ensures |Store(es[..n + 1])| == Offset(es, n) + |es[n].data|
  {
    assert es[..n + 1][..n] == es[..n];
  }

  lemma {:induction false} StorePrefix(es: seq<Entry>, m: nat, n: nat)
    requires m <= n <= |es|
    ensures |Store(es[..m])| <= |Store(es[..n])| && Store(es[..n])[..|Store(es[..m])|] == Store(es[..m])
    decreases n - m
  {
    if m < n {
      StorePrefix(es, m, n - 1);
      StoreSnoc(es, n - 1);
      var before := Store(es[..n - 1]);
      PrefixOfLonger(before, Zeros(Pad(|before|, Align(es[n - 1].typ))), es[n - 1].data, |Store(es[..m])|);
    }
  }

  lemma PrefixOfLonger(a: Data, b: Data, c: Data, k: nat)
    requires k <= |a|
    ensures (a + b + c)[..k] == a[..k]
  {
  }

  lemma Part(whole: Data, done: Data, at: nat, data: Data)
    requires |done| <= |whole| && whole[..|done|] == done && at + |data| == |done| && done[at..] == data
    ensures at + |data| <= |whole| && whole[at..at + |data|] == data
  {
    assert whole[at..at + |data|] == whole[..|done|][at..];
  }

  lemma OffsetAligned(es: seq<Entry>, i: nat)
    requires i < |es|
    ensures Aligned(Offset(es, i), Align(es[i].typ))
  {
  }

  /** What the data of a type (3, 4 and 5 are numbers of 16, 32 and 64 bits) is a multiple of. */
  function Width(typ: nat): nat { match typ case 3 => 2 case 4 => 4 case 5 => 8 case _ => 1 }

  /** Where the data before entry `i` ends. */
  function EndBefore(es: seq<Entry>, i: nat): nat
    requires i < |es|
  {
    if i == 0 then 0 else Offset(es, i - 1) + |es[i - 1].data|
  }

  /** Each entry's data is where its offset says and inside the store, at the first multiple of its width
      after the data before it, with zeros between. */
  lemma InPlace(es: seq<Entry>, i: nat)
    requires i < |es|
    ensures var at := Offset(es, i);
            && Aligned(at, Align(es[i].typ)) && at + |es[i].data| <= |Store(es)|
            && Store(es)[at..at + |es[i].data|] == es[i].data
            && (es[i].typ == 3 ==> at % 2 == 0) && (es[i].typ == 4 ==> at % 4 == 0) && (es[i].typ == 5 ==> at % 8 == 0)
            && EndBefore(es, i) <= at < EndBefore(es, i) + Width(es[i].typ)
            && forall k :: EndBefore(es, i) <= k < at ==> Store(es)[k] == 0
  {
    Padded(es, i);
    OffsetAligned(es, i);
    StoreSnoc(es, i);
    StorePrefix(es, i + 1, |es|);
    assert es[..|es|] == es;
    Part(Store(es), Store(es[..i + 1]), Offset(es, i), es[i].data);
  }

  lemma Padded(es: seq<Entry>, i: nat)
    requires i < |es|
    ensures var at := Offset(es, i);
            && |Store(es[..i])| == EndBefore(es, i) <= at < EndBefore(es, i) + Width(es[i].typ) && at <= |Store(es)|
            && forall k :: EndBefore(es, i) <= k < at ==> Store(es)[k] == 0
  {
    if i > 0 { StoreSnoc(es, i - 1); } else { assert es[..0] == []; }
    StoreSnoc(es, i);
    StorePrefix(es, i + 1, |es|);
    assert es[..|es|] == es;
    var before, done := Store(es[..i]), Store(es[..i + 1]);
    forall k | |before| <= k < Offset(es, i) ensures Store(es)[k] == 0 {
      assert Store(es)[k] == Store(es)[..|done|][k] == done[k];
      ZeroBetween(before, Pad(|before|, Align(es[i].typ)), es[i].data, k);
    }
  }

  lemma ZeroBetween(before: Data, n: nat, data: Data, k: nat)
    requires |before| <= k < |before| + n
    ensures (before + Zeros(n) + data)[k] == 0
  {
    assert Zeros(n)[k - |before|] == 0;
  }

  /** No two entries share a byte of the store. */
  lemma Disjoint(es: seq<Entry>, i: nat, j: nat)
    requires i < j < |es|
    ensures Offset(es, i) + |es[i].data| <= Offset(es, j)
  {
    StoreSnoc(es, i);
    StorePrefix(es, i + 1, j);
  }

  // ----- the reader -----

  /** The bytes before the first zero, and those after it. */
  function ReadString(s: Data): (r: Option<(Data, Data)>)
  {
    if s == [] then None
    else if s[0] == 0 then Some(([], s[1..]))
    else match ReadString(s[1..])
         case None => None
         case Some((a, b)) => Some(([s[0]] + a, b))
  }

  function ReadStrings(s: Data, n: nat): Option<seq<Data>>
    decreases n
  {
    if n == 0 then Some([]) else
    match ReadString(s)
    case None => None
    case Some((a, rest)) =>
      match ReadStrings(rest, n - 1)
      case None => None
      case Some(more) => Some([a] + more)
  }

  function Read16s(s: Data, n: nat): Option<seq<int>> {
    if n == 0 then Some([]) else if |s| < 2 then None else
    match Read16s(s[2..], n - 1)
    case None => None
    case Some(more) => Some([Unpack16(s[..2])] + more)
  }

  function Read32s(s: Data, n: nat): Option<seq<int>> {
    if n == 0 then Some([]) else if |s| < 4 then None else
    match Read32s(s[4..], n - 1)
    case None => None
    case Some(more) => Some([Unpack32(s[..4])] + more)
  }

  /** The value of a type and count that the store holds from an offset on. */
  function ReadValue(typ: nat, count: nat, s: Data): Option<Value> {
    if typ == INT16 then (match Read16s(s, count) case None => None case Some(ns) => Some(Int16s(ns)))
    else if typ == INT32 then (match Read32s(s, count) case None => None case Some(ns) => Some(Int32s(ns)))
    else if typ == STRING_ARRAY then (match ReadStrings(s, count) case None => None case Some(ss) => Some(Strs(ss)))
    else if typ == BIN then (if |s| < count then None else Some(Bin(s[..count])))
    else if (typ == STRING || typ == I18NSTRING) && count == 1 then
      match ReadString(s)
      case None => None
      case Some((a, _)) => Some(if typ == STRING then Str(a) else I18n(a))
    else None
  }

  function Unpacked(x: Data): Record
    requires |x| == 16
  {
    Record(Unpack32(x[..4]), Unpack32(x[4..8]), Unpack32(x[8..12]), Unpack32(x[12..]))
  }

  /** The entries of an index. */
  function ReadIndex(index: Data): seq<Record> {
    if |index| < 16 then [] else ReadIndex(index[..|index| - 16]) + [Unpacked(index[|index| - 16..])]
  }

  /** The item of an index entry, which must be aligned for its type. */
  function ReadItem(r: Record, store: Data): Option<Item> {
    if r.at > |store| || !Aligned(r.at, Align(r.typ)) then None else
    match ReadValue(r.typ, r.count, store[r.at..])
    case None => None
    case Some(v) => Some(Item(r.tag, v))
  }

  function ReadItems(rs: seq<Record>, store: Data): Option<seq<Item>> {
    if exists i :: 0 <= i < |rs| && ReadItem(rs[i], store).None? then None
    else Some(seq(|rs|, i requires 0 <= i < |rs| => ReadItem(rs[i], store).value))
  }

  function Decode(s: Data): Option<seq<Item>> {
    if |s| < 16 || s[..8] != MAGIC then None else
    var n, size := Unpack32(s[8..12]), Unpack32(s[12..16]);
    if |s| != 16 + 16 * n + size then None else
    ReadItems(ReadIndex(s[16..16 + 16 * n]), s[16 + 16 * n..])
  }

  // ----- reading back -----

  predicate NulFree(s: Data) { 0 !in s }

  /** Strings end at the first zero, so they must not hold one. */
  predicate Clean(v: Value) {
    && ((v.Str? || v.I18n?) ==> NulFree(v.s))
    && (v.Strs? ==> forall i :: 0 <= i < |v.ss| ==> NulFree(v.ss[i]))
  }

  predicate AllPackable(items: seq<Item>) { forall i :: 0 <= i < |items| ==> Packable(items[i].value) }

  predicate AllClean(items: seq<Item>) { forall i :: 0 <= i < |items| ==> Clean(items[i].value) }

  function Cut(ns: seq<int>): (r: seq<int>)
    ensures |r| == |ns| && forall i :: 0 <= i < |ns| ==> r[i] == ns[i] % LIMIT32
  {
    seq(|ns|, i requires 0 <= i < |ns| => ns[i] % LIMIT32)
  }

  /** A value as it is after the cut to 32 bits. */
  function Normal(v: Value): Value { if v.Int32s? then Int32s(Cut(v.ns)) else v }

  lemma {:induction false} StringReads(s: Data, rest: Data)
    requires NulFree(s)
    ensures ReadString(s + [0] + rest) == Some((s, rest))
  {
    var all := s + [0] + rest;
    if s == [] {
      assert all[1..] == rest;
    } else {
      StringReads(s[1..], rest);
      assert all[1..] == s[1..] + [0] + rest;
      assert [s[0]] + s[1..] == s;
    }
  }

  lemma {:induction false} StringsRead(ss: seq<Data>, rest: Data)
    requires forall i :: 0 <= i < |ss| ==> NulFree(ss[i])
    ensures ReadStrings(Terminated(ss) + rest, |ss|) == Some(ss)
    decreases |ss|
  {
    if ss != [] {
      assert [ss[0]] + ss[1..] == ss;
      StringsRead(ss[1..], rest);
      Regroup(ss[0] + [0], Terminated(ss[1..]), rest);
      StringBefore(ss[0], Terminated(ss[1..]) + rest, ss[1..]);
    }
  }

  lemma Regroup(a: Data, b: Data, c: Data)
    ensures a + b + c == a + (b + c)
  {
  }

  lemma StringBefore(s: Data, more: Data, ss: seq<Data>)
    requires NulFree(s) && ReadStrings(more, |ss|) == Some(ss)
    ensures ReadStrings(s + [0] + more, |ss| + 1) == Some([s] + ss)
  {
    StringReads(s, more);
  }

  lemma {:induction false} Int16sRead(ns: seq<int>, rest: Data)
    requires forall i :: 0 <= i < |ns| ==> 0 <= ns[i] < LIMIT16
    ensures Read16s(Pack16s(ns) + rest, |ns|) == Some(ns)
    decreases |ns|
  {
    if ns != [] {
      assert [ns[0]] + ns[1..] == ns;
      Int16sRead(ns[1..], rest);
      Regroup(Pack16(ns[0]), Pack16s(ns[1..]), rest);
      Int16Before(ns[0], Pack16s(ns[1..]) + rest, ns[1..]);
    }
  }

  lemma Int16Before(n: int, more: Data, ns: seq<int>)
    requires 0 <= n < LIMIT16 && Read16s(more, |ns|) == Some(ns)
    ensures Read16s(Pack16(n) + more, |ns| + 1) == Some([n] + ns)
  {
    var all := Pack16(n) + more;
    assert all[..2] == Pack16(n) && all[2..] == more;
    Unpack16OfPack(n);
  }

  lemma {:induction false} Int32sRead(ns: seq<int>, rest: Data)
    ensures Read32s(Pack32s(ns) + rest, |ns|) == Some(Cut(ns))
    decreases |ns|
  {
    if ns != [] {
      assert [ns[0] % LIMIT32] + Cut(ns[1..]) == Cut(ns);
      Int32sRead(ns[1..], rest);
      Regroup(Pack32(ns[0] % LIMIT32), Pack32s(ns[1..]), rest);
      Int32Before(ns[0] % LIMIT32, Pack32s(ns[1..]) + rest, Cut(ns[1..]));
    }
  }

  lemma Int32Before(n: int, more: Data, ns: seq<int>)
    requires 0 <= n < LIMIT32 && Read32s(more, |ns|) == Some(ns)
    ensures Read32s(Pack32(n) + more, |ns| + 1) == Some([n] + ns)
  {
    var all := Pack32(n) + more;
    assert all[..4] == Pack32(n) && all[4..] == more;
    Unpack32OfPack(n);
  }

  lemma ValueReads(item: Item, rest: Data)
    requires Packable(item.value) && Clean(item.value)
    ensures var e := EntryOf(item); ReadValue(e.typ, e.count, e.data + rest) == Some(Normal(item.value))
  {
    match item.value
    case Str(s) => StringReads(s, rest);
    case I18n(s) => StringReads(s, rest);
    case Strs(ss) => StringsRead(ss, rest);
    case Int16s(ns) => Int16sRead(ns, rest);
    case Int32s(ns) => Int32sRead(ns, rest);
    case Bin(bytes) => assert (bytes + rest)[..|bytes|] == bytes;
  }

  function Entries(items: seq<Item>): (es: seq<Entry>)
    requires AllPackable(items)
    ensures |es| == |items| && forall i :: 0 <= i < |items| ==> es[i] == EntryOf(items[i])
  {
    seq(|items|, i requires 0 <= i < |items| => EntryOf(items[i]))
  }

  function Normals(items: seq<Item>): (r: seq<Item>)
    ensures |r| == |items| && forall i :: 0 <= i < |items| ==> r[i] == Item(items[i].tag, Normal(items[i].value))
  {
    seq(|items|, i requires 0 <= i < |items| => Item(items[i].tag, Normal(items[i].value)))
  }

  lemma UnpackedOfPacked(r: Record)
    requires RecordFits(r)
    ensures Unpacked(Packed(r)) == r
  {
    var x := Packed(r);
    assert x[..4] == Pack32(r.tag) && x[4..8] == Pack32(r.typ) && x[8..12] == Pack32(r.at) && x[12..] == Pack32(r.count);
    Unpack32OfPack(r.tag);
    Unpack32OfPack(r.typ);
    Unpack32OfPack(r.at);
    Unpack32OfPack(r.count);
  }

  lemma IndexSnoc(index: Data, r: Record)
    requires RecordFits(r)
    ensures ReadIndex(index + Packed(r)) == ReadIndex(index) + [r]
  {
    var all := index + Packed(r);
    assert all[..|all| - 16] == index && all[|all| - 16..] == Packed(r);
    UnpackedOfPacked(r);
  }

  lemma {:induction false} IndexReads(rs: seq<Record>)
    requires AllFit(rs)
    ensures ReadIndex(Index(rs)) == rs
  {
    if rs != [] {
      var front, r := rs[..|rs| - 1], rs[|rs| - 1];
      assert front + [r] == rs;
      IndexReads(front);
      IndexSnoc(Index(front), r);
    }
  }

  lemma Tail(store: Data, at: nat, data: Data)
    requires at + |data| <= |store| && store[at..at + |data|] == data
    ensures store[at..] == data + store[at + |data|..]
  {
  }

  lemma ItemReads(items: seq<Item>, i: nat)
    requires i < |items| && AllPackable(items) && AllClean(items)
    ensures var es := Entries(items);
            ReadItem(RecordOf(es, i), Store(es)) == Some(Item(items[i].tag, Normal(items[i].value)))
  {
    var es := Entries(items);
    var store, at, data := Store(es), Offset(es, i), es[i].data;
    InPlace(es, i);
    ValueReads(items[i], store[at + |data|..]);
    Tail(store, at, data);
  }

  lemma DecodeParts(n: Data, size: Data, index: Data, store: Data)
    requires |n| == 4 && |size| == 4 && |index| == 16 * Unpack32(n) && |store| == Unpack32(size)
    ensures Decode(MAGIC + n + size + index + store) == ReadItems(ReadIndex(index), store)
  {
    var s := MAGIC + n + size + index + store;
    assert s[..8] == MAGIC && s[8..12] == n && s[12..16] == size;
    assert s[16..16 + |index|] == index && s[16 + |index|..] == store;
  }

  lemma HeaderReads(es: seq<Entry>)
    requires Fits(es)
    ensures Decode(Header(es)) == ReadItems(ReadIndex(Index(Records(es))), Store(es))
  {
    Unpack32OfPack(|es|);
    Unpack32OfPack(|Store(es)|);
    DecodeParts(Pack32(|es|), Pack32(|Store(es)|), Index(Records(es)), Store(es));
  }

  lemma ItemsRead(rs: seq<Record>, store: Data, items: seq<Item>)
    requires |rs| == |items| && forall i :: 0 <= i < |rs| ==> ReadItem(rs[i], store) == Some(items[i])
    ensures ReadItems(rs, store) == Some(items)
  {
    assert ReadItems(rs, store).value == items;
  }

  /** Reading a header gives back its items in the order of the index, 32-bit numbers as they were cut. */
  lemma HeaderRoundTrip(items: seq<Item>)
    requires AllPackable(items) && AllClean(items) && Fits(Entries(items))
    ensures Decode(Header(Entries(items))) == Some(Normals(items))
  {
    var es := Entries(items);
    HeaderReads(es);
    var rs := Records(es);
    IndexReads(rs);
    forall i | 0 <= i < |rs| ensures ReadItem(rs[i], Store(es)) == Some(Normals(items)[i]) { ItemReads(items, i); }
    ItemsRead(rs, Store(es), Normals(items));
  }

  // ----- sorting -----

  predicate Sorted(es: seq<Entry>) { forall i, j :: 0 <= i < j < |es| ==> es[i].tag <= es[j].tag }

  /** Where an entry with the tag goes: after all that are not greater. */
  function Slot(tag: int, es: seq<Entry>): (i: nat)
    requires Sorted(es)
    ensures i <= |es|
    ensures forall k :: 0 <= k < i ==> es[k].tag <= tag
    ensures forall k :: i <= k < |es| ==> tag < es[k].tag
  {
    if es == [] || es[|es| - 1].tag <= tag then |es| else Slot(tag, es[..|es| - 1])
  }

  function PutAt<T>(s: seq<T>, i: nat, x: T): seq<T>
    requires i <= |s|
  {
    s[..i] + [x] + s[i..]
  }

  /** The stable sort by tag. */
  function SortByTag(es: seq<Entry>): (r: seq<Entry>)
    ensures Sorted(r) && |r| == |es|
  {
    if es == [] then [] else
    var front, e := SortByTag(es[..|es| - 1]), es[|es| - 1];
    PutAt(front, Slot(e.tag, front), e)
  }

  /** The entries with a tag, in their order. */
  function WithTag(es: seq<Entry>, tag: int): seq<Entry> {
    if es == [] then [] else (if es[0].tag == tag then [es[0]] else []) + WithTag(es[1..], tag)
  }

  lemma {:induction false} WithTagConcat(a: seq<Entry>, b: seq<Entry>, tag: int)
    ensures WithTag(a + b, tag) == WithTag(a, tag) + WithTag(b, tag)
    decreases |a|
  {
    if a == [] {
      assert a + b == b;
    } else {
      WithTagConcat(a[1..], b, tag);
      assert (a + b)[1..] == a[1..] + b;
    }
  }

  lemma {:induction false} WithoutTag(es: seq<Entry>, tag: int)
    requires forall k :: 0 <= k < |es| ==> es[k].tag != tag
    ensures WithTag(es, tag) == []
    decreases |es|
  {
    if es != [] { WithoutTag(es[1..], tag); }
  }

  /** The sort keeps entries of one tag in the order they were added. */
  lemma {:induction false} SortIsStable(es: seq<Entry>, tag: int)
    ensures WithTag(SortByTag(es), tag) == WithTag(es, tag)
    decreases |es|
  {
    if es != [] {
      var before, e := es[..|es| - 1], es[|es| - 1];
      var front := SortByTag(before);
      assert before + [e] == es;
      SortIsStable(before, tag);
      SortSnoc(before, e);
      WithTagConcat(before, [e], tag);
      PutIsLast(front, Slot(e.tag, front), e, tag);
    }
  }

  lemma {:induction false} PutIsLast(es: seq<Entry>, i: nat, e: Entry, tag: int)
    requires i <= |es| && forall k :: i <= k < |es| ==> e.tag < es[k].tag
    ensures WithTag(PutAt(es, i, e), tag) == WithTag(es, tag) + WithTag([e], tag)
  {
    var a, b := es[..i], es[i..];
    assert es == a + b;
    WithTagConcat(a, b, tag);
    WithTagConcat(a + [e], b, tag);
    WithTagConcat(a, [e], tag);
    if e.tag == tag { WithoutTag(b, tag); }
    NothingOfOther(e, tag);
  }

  lemma {:induction false} NothingOfOther(e: Entry, tag: int)
    ensures WithTag([e], tag) == if e.tag == tag then [e] else []
  {
    assert [e][1..] == [];
  }

  lemma PutAtCounts<T>(s: seq<T>, i: nat, x: T)
    requires i <= |s|
    ensures multiset(PutAt(s, i, x)) == multiset(s) + multiset{x}
  {
    assert s == s[..i] + s[i..];
  }

  lemma EntriesPut(items: seq<Item>, i: nat, x: Item)
    requires i <= |items| && AllPackable(items) && Packable(x.value)
    ensures AllPackable(PutAt(items, i, x)) && Entries(PutAt(items, i, x)) == PutAt(Entries(items), i, EntryOf(x))
  {
  }

  /** Sorting the entries of items gives the entries of a rearrangement of them. */
  lemma {:induction false} SortedItems(items: seq<Item>) returns (sorted: seq<Item>)
    requires AllPackable(items)
    ensures AllPackable(sorted) && Entries(sorted) == SortByTag(Entries(items))
    ensures multiset(sorted) == multiset(items)
    decreases |items|
  {
    if items == [] {
      sorted := [];
    } else {
      var front, x := items[..|items| - 1], items[|items| - 1];
      assert front + [x] == items;
      var rest := SortedItems(front);
      sorted := PutSorted(front, rest, x);
    }
  }

  lemma {:induction false} PutSorted(front: seq<Item>, rest: seq<Item>, x: Item) returns (sorted: seq<Item>)
    requires AllPackable(front) && AllPackable(rest) && Packable(x.value)
    requires Entries(rest) == SortByTag(Entries(front)) && multiset(rest) == multiset(front)
    ensures AllPackable(front + [x]) && AllPackable(sorted) && Entries(sorted) == SortByTag(Entries(front + [x]))
    ensures multiset(sorted) == multiset(front + [x])
  {
    var i := Slot(x.tag, Entries(rest));
    sorted := PutAt(rest, i, x);
    EntriesSnoc(front, x);
    SortSnoc(Entries(front), EntryOf(x));
    EntriesPut(rest, i, x);
    PutAtCounts(rest, i, x);
  }

  lemma EntriesSnoc(items: seq<Item>, x: Item)
    requires AllPackable(items) && Packable(x.value)
    ensures AllPackable(items + [x]) && Entries(items + [x]) == Entries(items) + [EntryOf(x)]
  {
  }

  lemma {:induction false} SortSnoc(es: seq<Entry>, e: Entry)
    ensures SortByTag(es + [e]) == PutAt(SortByTag(es), Slot(e.tag, SortByTag(es)), e)
  {
    assert (es + [e])[..|es|] == es;
  }

  lemma CleanStays(items: seq<Item>, sorted: seq<Item>)
    requires multiset(sorted) == multiset(items) && AllClean(items)
    ensures AllClean(sorted)
  {
    forall i | 0 <= i < |sorted| ensures Clean(sorted[i].value) {
      assert sorted[i] in multiset(items);
    }
  }

  // ----- the bytes -----

  /** The four bytes from `at` on, the most significant first. */
  function NumberAt(s: Data, at: nat): int
    requires at + 4 <= |s|
  {
    s[at] as int * 0x100_0000 + s[at + 1] as int * 0x1_0000 + s[at + 2] as int * 0x100 + s[at + 3] as int
  }

  function TypeCode(v: Value): nat {
    match v case Int16s(_) => 3 case Int32s(_) => 4 case Str(_) => 6 case Bin(_) => 7 case Strs(_) => 8 case I18n(_) => 9
  }

  function ValueCount(v: Value): nat {
    match v case Int16s(ns) => |ns| case Int32s(ns) => |ns| case Bin(bytes) => |bytes| case Strs(ss) => |ss| case _ => 1
  }

  /** How many bytes the strings take, each with its zero. */
  function SizeOfAll(ss: seq<Data>): nat { if ss == [] then 0 else |ss[0]| + 1 + SizeOfAll(ss[1..]) }

  function SizeOf(v: Value): nat {
    match v
    case Int16s(ns) => 2 * |ns|
    case Int32s(ns) => 4 * |ns|
    case Bin(bytes) => |bytes|
    case Strs(ss) => SizeOfAll(ss)
    case Str(s) => |s| + 1
    case I18n(s) => |s| + 1
  }

  /** The offset in index entry `i`. */
  function OffsetAt(s: Data, i: nat): int
    requires 32 + 16 * i <= |s|
  {
    NumberAt(s, 24 + 16 * i)
  }

  /** Index entry `i` is that of item `i`, whose data begins at the first multiple of its width after the
      data before it, with zeros between. */
  predicate PlacedAt(s: Data, items: seq<Item>, i: nat)
    requires i < |items| && 16 + 16 * |items| <= |s|
  {
    var v, entry, store := items[i].value, 16 + 16 * i, 16 + 16 * |items|;
    var at, end := OffsetAt(s, i), if i == 0 then 0 else OffsetAt(s, i - 1) + SizeOf(items[i - 1].value);
    && NumberAt(s, entry) == items[i].tag && NumberAt(s, entry + 4) == TypeCode(v) && NumberAt(s, entry + 12) == ValueCount(v)
    && end <= at < end + Width(TypeCode(v)) && (v.Int16s? ==> at % 2 == 0) && (v.Int32s? ==> at % 4 == 0)
    && store + at + SizeOf(v) <= |s| && forall k :: store + end <= k < store + at ==> s[k] == 0
  }

  /** The header structure, byte for byte up to the values themselves: the magic, the number of entries and
      the size of the store, the index, the store. */
  predicate LaidOut(s: Data, items: seq<Item>) {
    && 16 + 16 * |items| <= |s| && s[..8] == [0x8e, 0xad, 0xe8, 0x01, 0, 0, 0, 0]
    && NumberAt(s, 8) == |items| && |s| == 16 + 16 * |items| + NumberAt(s, 12)
    && forall i: nat :: i < |items| ==> PlacedAt(s, items, i)
  }

  lemma NumberIs(s: Data, at: nat, n: nat)
    requires at + 4 <= |s| && n < LIMIT32 && s[at..at + 4] == Pack32(n)
    ensures NumberAt(s, at) == n
  {
    Unpack32OfPack(n);
    assert s[at..at + 4][0] == s[at] && s[at..at + 4][1] == s[at + 1] && s[at..at + 4][2] == s[at + 2] && s[at..at + 4][3] == s[at + 3];
  }

  lemma {:induction false} IndexAt(rs: seq<Record>, i: nat)
    requires i < |rs| && AllFit(rs)
    ensures Index(rs)[16 * i..16 * i + 16] == Packed(rs[i])
    decreases |rs|
  {
    var front := rs[..|rs| - 1];
    if i < |front| {
      IndexAt(front, i);
      assert Index(rs)[16 * i..16 * i + 16] == Index(front)[16 * i..16 * i + 16];
    }
  }

  lemma Inside(s: Data, at: nat, n: nat, i: nat, j: nat)
    requires at + n <= |s| && i <= j <= n
    ensures s[at + i..at + j] == s[at..at + n][i..j]
  {
    var x, y := s[at + i..at + j], s[at..at + n][i..j];
    forall k | 0 <= k < j - i ensures x[k] == y[k] {
      assert s[at..at + n][i + k] == s[at + i + k];
    }
  }

  /** The numbers of an index entry in the whole header. */
  lemma RecordAt(s: Data, at: nat, r: Record)
    requires at + 16 <= |s| && RecordFits(r) && s[at..at + 16] == Packed(r)
    ensures NumberAt(s, at) == r.tag && NumberAt(s, at + 4) == r.typ && NumberAt(s, at + 8) == r.at && NumberAt(s, at + 12) == r.count
  {
    var x := Packed(r);
    assert x[..4] == Pack32(r.tag) && x[4..8] == Pack32(r.typ) && x[8..12] == Pack32(r.at) && x[12..16] == Pack32(r.count);
    Inside(s, at, 16, 0, 4);
    Inside(s, at, 16, 4, 8);
    Inside(s, at, 16, 8, 12);
    Inside(s, at, 16, 12, 16);
    NumberIs(s, at, r.tag);
    NumberIs(s, at + 4, r.typ);
    NumberIs(s, at + 8, r.at);
    NumberIs(s, at + 12, r.count);
  }

  lemma HeaderParts(es: seq<Entry>)
    requires Fits(es)
    ensures var s := Header(es);
            && |s| == 16 + 16 * |es| + |Store(es)| && s[..8] == MAGIC && NumberAt(s, 8) == |es| && NumberAt(s, 12) == |Store(es)|
            && s[16..16 + 16 * |es|] == Index(Records(es)) && s[16 + 16 * |es|..] == Store(es)
  {
    var s, n, size := Header(es), Pack32(|es|), Pack32(|Store(es)|);
    FiveParts(MAGIC, n, size, Index(Records(es)), Store(es));
    NumberIs(s, 8, |es|);
    NumberIs(s, 12, |Store(es)|);
  }

  lemma {:induction false} IndexIn(s: Data, rs: seq<Record>, i: nat)
    requires AllFit(rs) && i < |rs| && 16 + 16 * |rs| <= |s| && s[16..16 + 16 * |rs|] == Index(rs)
    ensures 16 + 16 * i + 16 <= |s| && s[16 + 16 * i..16 + 16 * i + 16] == Packed(rs[i])
  {
    IndexAt(rs, i);
    Middle(s, Index(rs), 16 * i, Packed(rs[i]));
  }

  lemma Middle(s: Data, index: Data, at: nat, part: Data)
    requires 16 + |index| <= |s| && s[16..16 + |index|] == index && at + 16 <= |index| && index[at..at + 16] == part
    ensures s[16 + at..16 + at + 16] == part
  {
    Inside(s, 16, |index|, at, at + 16);
  }

  lemma FiveParts(magic: Data, n: Data, size: Data, index: Data, store: Data)
    requires |magic| == 8 && |n| == 4 && |size| == 4
    ensures var s := magic + n + size + index + store;
            && |s| == 16 + |index| + |store| && s[..8] == magic && s[8..12] == n && s[12..16] == size
            && s[16..16 + |index|] == index && s[16 + |index|..] == store
  {
  }

  lemma {:induction false} SizeOfTerminated(ss: seq<Data>)
    ensures |Terminated(ss)| == SizeOfAll(ss)
  {
    if ss != [] { SizeOfTerminated(ss[1..]); }
  }

  lemma {:induction false} SizeOf16s(ns: seq<int>)
    requires forall i :: 0 <= i < |ns| ==> 0 <= ns[i] < LIMIT16
    ensures |Pack16s(ns)| == 2 * |ns|
  {
    if ns != [] { SizeOf16s(ns[1..]); }
  }

  lemma {:induction false} SizeOf32s(ns: seq<int>)
    ensures |Pack32s(ns)| == 4 * |ns|
  {
    if ns != [] { SizeOf32s(ns[1..]); }
  }

  lemma EntryIs(item: Item)
    requires Packable(item.value)
    ensures var e := EntryOf(item);
            e.tag == item.tag && e.typ == TypeCode(item.value) && e.count == ValueCount(item.value) && |e.data| == SizeOf(item.value)
  {
    match item.value
    case Strs(ss) => SizeOfTerminated(ss);
    case Int16s(ns) => SizeOf16s(ns);
    case Int32s(ns) => SizeOf32s(ns);
    case _ =>
  }

  lemma ItemPlaced(items: seq<Item>, i: nat)
    requires AllPackable(items) && Fits(Entries(items)) && i < |items|
    ensures 16 + 16 * |items| <= |Header(Entries(items))| && PlacedAt(Header(Entries(items)), items, i)
  {
    var es, s := Entries(items), Header(Entries(items));
    IndexNumbers(items, i);
    if i > 0 { IndexNumbers(items, i - 1); }
    InPlace(es, i);
    HeaderParts(es);
    ZerosIn(s, 16 + 16 * |items|, Store(es), EndBefore(es, i), Offset(es, i));
  }

  lemma IndexNumbers(items: seq<Item>, i: nat)
    requires AllPackable(items) && Fits(Entries(items)) && i < |items|
    ensures var es, s, entry := Entries(items), Header(Entries(items)), 16 + 16 * i;
            && entry + 16 <= |s| && OffsetAt(s, i) == Offset(es, i) && |es[i].data| == SizeOf(items[i].value)
            && es[i].typ == NumberAt(s, entry + 4) == TypeCode(items[i].value)
            && NumberAt(s, entry) == items[i].tag && NumberAt(s, entry + 12) == ValueCount(items[i].value)
  {
    HeaderNumbers(Entries(items), i);
    EntryIs(items[i]);
  }

  lemma HeaderNumbers(es: seq<Entry>, i: nat)
    requires Fits(es) && i < |es|
    ensures var s, entry, r := Header(es), 16 + 16 * i, RecordOf(es, i);
            && entry + 16 <= |s| && NumberAt(s, entry) == r.tag && NumberAt(s, entry + 4) == r.typ
            && NumberAt(s, entry + 8) == r.at && NumberAt(s, entry + 12) == r.count
  {
    HeaderParts(es);
    IndexIn(Header(es), Records(es), i);
    RecordAt(Header(es), 16 + 16 * i, Records(es)[i]);
  }

  lemma ZerosIn(s: Data, from: nat, store: Data, i: nat, j: nat)
    requires from <= |s| && s[from..] == store && i <= j <= |store| && forall k :: i <= k < j ==> store[k] == 0
    ensures forall k :: from + i <= k < from + j ==> s[k] == 0
  {
    forall k | from + i <= k < from + j ensures s[k] == 0 {
      assert s[k] == s[from..][k - from] == store[k - from];
    }
  }

  /** Every header that is built is laid out like that. */
  lemma HeaderIsLaidOut(items: seq<Item>)
    requires AllPackable(items) && Fits(Entries(items))
    ensures LaidOut(Header(Entries(items)), items)
  {
    HeaderParts(Entries(items));
    forall i: nat | i < |items| ensures PlacedAt(Header(Entries(items)), items, i) { ItemPlaced(items, i); }
  }

  // ----- the program -----

  lemma IndexNext(rs: seq<Record>, i: nat)
    requires i < |rs| && AllFit(rs[..i]) && RecordFits(rs[i])
    ensures AllFit(rs[..i + 1]) && Index(rs[..i + 1]) == Index(rs[..i]) + Packed(rs[i])
  {
    assert rs[..i + 1][..i] == rs[..i];
  }

  class Builder {
    var entries: seq<Entry>
    ghost var items: seq<Item>

    /** The entries are those of the items added. */
    ghost predicate Valid()
      reads this
    {
      AllPackable(items) && entries == Entries(items)
    }

    constructor ()
      ensures Valid() && items == []
    {
      entries, items := [], [];
    }

    /** `add_string` and the others; only 16-bit numbers can fail. */
    method Add(item: Item) returns (ok: bool)
      requires Valid()
      modifies this
      ensures Valid() && items == old(items) + if ok then [item] else []
      ensures !ok <==> item.value.Int16s? && exists i :: 0 <= i < |item.value.ns| && !(0 <= item.value.ns[i] < LIMIT16)
    {
      ok := Packable(item.value);
      if ok {
        entries, items := entries + [EntryOf(item)], items + [item];
        assert entries == Entries(items);
      }
    }

    /** `build`: the items added, now in ascending order of their tags, can be read back from what it
        returns; it fails when a number does not fit 32 bits. */
    method Build() returns (r: Option<Data>)
      requires Valid()
      modifies this
      ensures Valid() && multiset(items) == multiset(old(items))
      ensures forall i, j :: 0 <= i < j < |items| ==> items[i].tag <= items[j].tag
      ensures r.Some? <==> Fits(entries)
      ensures forall tag :: WithTag(entries, tag) == WithTag(old(entries), tag)
      ensures r.Some? && AllClean(old(items)) ==> Decode(r.value) == Some(Normals(items))
      ensures r.Some? ==> LaidOut(r.value, items)
    {
      forall tag ensures WithTag(SortByTag(entries), tag) == WithTag(entries, tag) { SortIsStable(entries, tag); }
      entries := SortByTag(entries);
      ghost var sorted := BuiltHeaderReads(items);
      items := sorted;
      r := LayOut(entries);
      if r.Some? { HeaderIsLaidOut(items); }
    }
  }

  /** The loop of `build` over the sorted entries. */
  method LayOut(es: seq<Entry>) returns (r: Option<Data>)
    ensures r == if Fits(es) then Some(Header(es)) else None
  {
    var index: Data, data: Data := [], [];
    var i := 0;
    assert es[..0] == [];
    while i < |es|
      invariant i <= |es| && data == Store(es[..i]) && AllFit(Records(es)[..i]) && index == Index(Records(es)[..i])
    {
      StoreSnoc(es, i);
      data := data + Zeros(Pad(|data|, Align(es[i].typ)));
      var x := Record(es[i].tag, es[i].typ, |data|, es[i].count);
      data := data + es[i].data;
      assert x == Records(es)[i];
      if !RecordFits(x) { return None; }
      IndexNext(Records(es), i);
      index := index + Packed(x);
      i := i + 1;
    }
    assert es[..i] == es && Records(es)[..i] == Records(es);
    if |es| >= LIMIT32 || |data| >= LIMIT32 { return None; }
    r := Some(MAGIC + Pack32(|es|) + Pack32(|data|) + index + data);
  }

  /** What is built from any items can be read: the same items, in ascending order of their tags,
      strictly when no tag is used twice. */
  lemma BuiltHeaderReads(items: seq<Item>) returns (sorted: seq<Item>)
    requires AllPackable(items)
    ensures AllPackable(sorted) && Entries(sorted) == SortByTag(Entries(items)) && multiset(sorted) == multiset(items)
    ensures AllClean(items) && Fits(Entries(sorted)) ==> Decode(Header(Entries(sorted))) == Some(Normals(sorted))
    ensures forall i, j :: 0 <= i < j < |sorted| ==> sorted[i].tag <= sorted[j].tag
    ensures (forall i, j :: 0 <= i < j < |items| ==> items[i].tag != items[j].tag) ==>
              forall i, j :: 0 <= i < j < |sorted| ==> sorted[i].tag < sorted[j].tag
  {
    sorted := SortedItems(items);
    if AllClean(items) && Fits(Entries(sorted)) {
      CleanStays(items, sorted);
      HeaderRoundTrip(sorted);
    }
    TagsAscend(sorted);
    if forall i, j :: 0 <= i < j < |items| ==> items[i].tag != items[j].tag {
      TagsStayDistinct(items, sorted);
    }
  }

  lemma TagsAscend(items: seq<Item>)
    requires AllPackable(items) && Sorted(Entries(items))
    ensures forall i, j :: 0 <= i < j < |items| ==> items[i].tag <= items[j].tag
  {
    assert forall i :: 0 <= i < |items| ==> Entries(items)[i].tag == items[i].tag;
  }

  lemma TagsStayDistinct(items: seq<Item>, sorted: seq<Item>)
    requires multiset(sorted) == multiset(items)
    requires forall i, j :: 0 <= i < j < |items| ==> items[i].tag != items[j].tag
    ensures forall i, j :: 0 <= i < j < |sorted| ==> sorted[i].tag != sorted[j].tag
  {
    forall i, j | 0 <= i < j < |sorted| ensures sorted[i].tag != sorted[j].tag {
      if sorted[i].tag == sorted[j].tag {
        assert sorted[i] in multiset(items) && sorted[j] in multiset(items);
        var a :| 0 <= a < |items| && items[a] == sorted[i];
        var b :| 0 <= b < |items| && items[b] == sorted[j];
        assert a == b;
        Twice(sorted, i, j);
        Once(items, a);
        assert false;
      }
    }
  }

  lemma Twice(s: seq<Item>, i: nat, j: nat)
    requires i < j < |s| && s[i] == s[j]
    ensures multiset(s)[s[i]] >= 2
  {
    var front := s[..j];
    assert s == front + [s[j]] + s[j + 1..];
    assert front[i] == s[i] && s[i] in multiset(front);
  }

  lemma Once(s: seq<Item>, a: nat)
    requires a < |s| && forall i, j :: 0 <= i < j < |s| ==> s[i].tag != s[j].tag
    ensures multiset(s)[s[a]] == 1
  {
    assert s == s[..a] + [s[a]] + s[a + 1..];
    assert s[a] !in multiset(s[..a]) && s[a] !in multiset(s[a + 1..]);
  }
}
