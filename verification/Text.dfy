/** Splitting text at a separator. */
module Text {
  import opened Decimal

  /** `str::split_once`: the parts before and after the first `sep`. */
  function SplitOnce(s: string, sep: string): (r: Option<(string, string)>)
    ensures r.Some? ==> s == r.value.0 + sep + r.value.1
  {
    if sep <= s then Some(("", s[|sep|..]))
    else if s == "" then None
    else match SplitOnce(s[1..], sep)
         case None => None
         case Some((a, b)) => assert s == [s[0]] + s[1..]; Some(([s[0]] + a, b))
  }

  lemma {:induction false} SplitOnceAt(a: string, sep: string, b: string)
    requires sep != "" && sep[0] !in a
    ensures SplitOnce(a + sep + b, sep) == Some((a, b))
  {
    if a == "" {
      assert a + sep + b == sep + b;
    } else {
      SplitOnceAt(a[1..], sep, b);
      SplitOnceLater(a[0], a[1..], sep, b);
      assert [a[0]] + a[1..] == a;
    }
  }

  lemma SplitOnceLater(c: char, a: string, sep: string, b: string)
    requires sep != "" && sep[0] != c && SplitOnce(a + sep + b, sep) == Some((a, b))
    ensures SplitOnce([c] + a + sep + b, sep) == Some(([c] + a, b))
  {
    var s := [c] + a + sep + b;
    assert s[1..] == a + sep + b && s[0] == c;
  }

  lemma {:induction false} SplitOnceNone(s: string, sep: string)
    requires sep != "" && sep[0] !in s
    ensures SplitOnce(s, sep) == None
  {
    if s != "" { SplitOnceNone(s[1..], sep); }
  }

  /** `str::split`: never empty, `""` gives one empty part. */
  function Split(s: string, sep: string): seq<string>
    requires sep != ""
    decreases |s|
  {
    match SplitOnce(s, sep)
    case None => [s]
    case Some((a, b)) => [a] + Split(b, sep)
  }
}
