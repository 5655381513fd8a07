/** Text as identifiers and single characters, and replacing whole words. What counts as an
    identifier character is the parameter `id`. */
module Words {
  predicate AllId(id: char -> bool, s: string) { forall i :: 0 <= i < |s| ==> id(s[i]) }

  predicate IsWord(id: char -> bool, s: string) { s != "" && AllId(id, s) }

  predicate Token(id: char -> bool, s: string) { IsWord(id, s) || (|s| == 1 && !id(s[0])) }

  /** Tokens none of which could be longer. */
  predicate Maximal(id: char -> bool, ts: seq<string>) {
    && (forall i :: 0 <= i < |ts| ==> Token(id, ts[i]))
    && (forall i :: 0 < i < |ts| ==> !(IsWord(id, ts[i - 1]) && IsWord(id, ts[i])))
  }

  function Concat(ts: seq<string>): string { if ts == [] then "" else ts[0] + Concat(ts[1..]) }

  /** The length of the identifier `s` starts with. */
  function Run(id: char -> bool, s: string): (n: nat)
    ensures n <= |s| && AllId(id, s[..n]) && (n < |s| ==> !id(s[n]))
  {
    if s == "" || !id(s[0]) then 0 else
    var n := 1 + Run(id, s[1..]);
    assert forall i :: 0 < i < n ==> s[i] == s[1..][i - 1];
    n
  }

  lemma {:induction false} RunIs(id: char -> bool, s: string, n: nat)
    requires n <= |s| && AllId(id, s[..n]) && (n < |s| ==> !id(s[n]))
    ensures Run(id, s) == n
  {
    if n > 0 {
      assert s[..n][0] == s[0] && s[1..][..n - 1] == s[..n][1..];
      RunIs(id, s[1..], n - 1);
    }
  }

  function TokenLength(id: char -> bool, s: string): (n: nat)
    requires s != ""
    ensures 0 < n <= |s|
  {
    if id(s[0]) then (RunPositive(id, s); Run(id, s)) else 1
  }

  lemma RunPositive(id: char -> bool, s: string)
    requires s != "" && id(s[0])
    ensures Run(id, s) > 0
  {
  }

  /** The tokens of a text, from left to right. */
  function Tokens(id: char -> bool, s: string): seq<string> {
    if s == "" then [] else
    var n := TokenLength(id, s);
    [s[..n]] + Tokens(id, s[n..])
  }

  /** `tokens`. */
  method Tokenize(id: char -> bool, text: string) returns (out: seq<string>)
    ensures Concat(out) == text && Maximal(id, out) && out == Tokens(id, text)
  {
    out := [];
    var i := 0;
    assert text[0..] == text;
    while i < |text|
      invariant i <= |text| && out + Tokens(id, text[i..]) == Tokens(id, text)
    {
      var end := i + 1;
      if id(text[i]) {
        while end < |text| && id(text[end])
          invariant i < end <= |text| && forall j :: i <= j < end ==> id(text[j])
        {
          end := end + 1;
        }
      }
      TokenTaken(id, text, i, end, out);
      out, i := out + [text[i..end]], end;
    }
    assert text[i..] == "" && out == Tokens(id, text);
    TokensAreMaximal(id, text);
  }

  lemma TokenTaken(id: char -> bool, text: string, i: nat, end: nat, out: seq<string>)
    requires i < end <= |text|
    requires if id(text[i]) then (forall j :: i <= j < end ==> id(text[j])) && (end < |text| ==> !id(text[end])) else end == i + 1
    ensures out + Tokens(id, text[i..]) == out + [text[i..end]] + Tokens(id, text[end..])
  {
    var s := text[i..];
    assert s[..end - i] == text[i..end] && s[end - i..] == text[end..];
    if id(text[i]) { RunIs(id, s, end - i); }
    assert Tokens(id, s) == [text[i..end]] + Tokens(id, text[end..]);
  }

  lemma FirstToken(id: char -> bool, s: string)
    requires s != ""
    ensures var n := TokenLength(id, s);
            && Token(id, s[..n]) && (IsWord(id, s[..n]) && n < |s| ==> !id(s[n]))
  {
    var n := TokenLength(id, s);
    assert s[..n][0] == s[0];
  }

  /** The tokens put together are the text, and no token could be longer. */
  lemma {:induction false} TokensAreMaximal(id: char -> bool, s: string)
    ensures Concat(Tokens(id, s)) == s && Maximal(id, Tokens(id, s))
    decreases |s|
  {
    if s != "" {
      var n := TokenLength(id, s);
      var ts := Tokens(id, s[n..]);
      TokensAreMaximal(id, s[n..]);
      FirstToken(id, s);
      CutAt(s, n);
      if ts != [] { assert ts[0][0] == s[n..][0]; }
      MaximalCons(id, s[..n], ts);
    }
  }

  lemma CutAt(s: string, n: nat)
    requires n <= |s|
    ensures s[..n] + s[n..] == s
  {
  }

  lemma MaximalCons(id: char -> bool, t: string, ts: seq<string>)
    requires Maximal(id, ts) && Token(id, t) && (ts != [] && IsWord(id, t) ==> !IsWord(id, ts[0]))
    ensures Maximal(id, [t] + ts)
  {
  }

  /** A text has only one such reading: tokens that could not be longer are the tokens of what they spell. */
  lemma {:induction false} TokensOfConcat(id: char -> bool, ts: seq<string>)
    requires Maximal(id, ts)
    ensures Tokens(id, Concat(ts)) == ts
    decreases |ts|
  {
    if ts != [] {
      var t, s := ts[0], Concat(ts);
      assert Maximal(id, ts[1..]) by {
        assert forall i :: 0 <= i < |ts| - 1 ==> ts[1..][i] == ts[i + 1];
      }
      TokensOfConcat(id, ts[1..]);
      assert s[|t|..] == Concat(ts[1..]) && s[..|t|] == t;
      assert s[0] == t[0];
      if IsWord(id, t) {
        if |t| < |s| {
          assert s[|t|] == ts[1][0];
        }
        RunIs(id, s, |t|);
      }
    }
  }

  // ----- replacing whole words -----

  /** Every token that is `was` becomes `now`. */
  function Renamed(ts: seq<string>, was: string, now: string): (r: seq<string>)
    ensures |r| == |ts|
    ensures forall i :: 0 <= i < |ts| ==> r[i] == if ts[i] == was then now else ts[i]
  {
    if ts == [] then [] else [if ts[0] == was then now else ts[0]] + Renamed(ts[1..], was, now)
  }

  function Occurrences(ts: seq<string>, word: string): nat {
    if ts == [] then 0 else (if ts[0] == word then 1 else 0) + Occurrences(ts[1..], word)
  }

  predicate At(text: string, i: nat, word: string) { i + |word| <= |text| && text[i..i + |word|] == word }

  predicate WholeAt(id: char -> bool, text: string, i: nat, word: string) {
    && At(text, i, word) && !(0 < i && id(text[i - 1])) && !(i + |word| < |text| && id(text[i + |word|]))
  }

  /** A text and how many words were replaced in it. */
  datatype Outcome = Outcome(text: string, count: nat)

  function After(s: string, n: nat, r: Outcome): Outcome { Outcome(s + r.text, n + r.count) }

  lemma AfterAfter(s: string, n: nat, t: string, m: nat, r: Outcome)
    ensures After(s, n, After(t, m, r)) == After(s + t, n + m, r)
  {
    assert s + (t + r.text) == s + t + r.text;
  }

  /** The text from `i` on with the whole words replaced. */
  function Scan(id: char -> bool, text: string, i: nat, was: string, now: string): Outcome
    requires i <= |text| && was != ""
    decreases |text| - i
  {
    if i == |text| then Outcome("", 0)
    else if WholeAt(id, text, i, was) then After(now, 1, Scan(id, text, i + |was|, was, now))
    else After([text[i]], 0, Scan(id, text, i + 1, was, now))
  }

  lemma {:induction false} ScanSkips(id: char -> bool, text: string, i: nat, j: nat, was: string, now: string)
    requires i <= j <= |text| && was != ""
    requires forall k: nat :: i <= k < j ==> !WholeAt(id, text, k, was)
    ensures Scan(id, text, i, was, now) == After(text[i..j], 0, Scan(id, text, j, was, now))
    decreases j - i
  {
    if i < j {
      ScanSkips(id, text, i + 1, j, was, now);
      AfterAfter([text[i]], 0, text[i + 1..j], 0, Scan(id, text, j, was, now));
      assert text[i..j] == [text[i]] + text[i + 1..j];
    } else {
      assert text[i..j] == "";
    }
  }

  lemma NotWholeInside(id: char -> bool, text: string, i: nat, j: nat, word: string)
    requires i <= j <= |text| && AllId(id, text[i..j])
    ensures forall k: nat :: i < k < j ==> !WholeAt(id, text, k, word)
  {
    forall k: nat | i < k < j ensures !WholeAt(id, text, k, word) {
      assert text[i..j][k - 1 - i] == text[k - 1];
    }
  }

  /** `str::find` from `at` on. */
  method Find(text: string, at: nat, word: string) returns (found: bool, start: nat)
    requires at <= |text|
    ensures found ==> at <= start && At(text, start, word) && forall k: nat :: at <= k < start ==> !At(text, k, word)
    ensures !found ==> forall k: nat :: at <= k ==> !At(text, k, word)
  {
    start := at;
    while start + |word| <= |text|
      invariant at <= start && forall k: nat :: at <= k < start ==> !At(text, k, word)
    {
      if text[start..start + |word|] == word { return true, start; }
      start := start + 1;
    }
    found := false;
  }

  /** `replace_word`. The scan for a word replaces exactly the tokens that are that word. */
  method ReplaceWord(id: char -> bool, text: string, was: string, now: string) returns (out: string, n: nat)
    requires was != ""
    ensures IsWord(id, was) ==>
              && out == Concat(Renamed(Tokens(id, text), was, now))
              && n == Occurrences(Tokens(id, text), was)
  {
    out, n := "", 0;
    var at := 0;
    var found, start := Find(text, at, was);
    assert After("", 0, Scan(id, text, 0, was, now)) == Scan(id, text, 0, was, now);
    while found
      invariant at <= |text| && (found ==> at <= start && At(text, start, was))
      invariant forall k: nat :: at <= k && (found ==> k < start) ==> !At(text, k, was)
      invariant IsWord(id, was) ==> Scan(id, text, 0, was, now) == After(out, n, Scan(id, text, at, was, now))
      decreases |text| - at, found
    {
      var end := start + |was|;
      var whole := !(0 < start && id(text[start - 1])) && !(end < |text| && id(text[end]));
      ScanFound(id, text, at, start, was, now, whole);
      AfterAfter(out, n, text[at..start] + (if whole then now else was), if whole then 1 else 0, Scan(id, text, end, was, now));
      out := out + (text[at..start] + if whole then now else was);
      if whole { n := n + 1; }
      at := end;
      found, start := Find(text, at, was);
    }
    ScanEnds(id, text, at, was, now, out, n);
    out := out + text[at..];
  }

  /** With no occurrence left, the rest is taken as it is, and the scan is complete. */
  lemma ScanEnds(id: char -> bool, text: string, at: nat, was: string, now: string, out: string, n: nat)
    requires was != "" && at <= |text| && forall k: nat :: at <= k ==> !At(text, k, was)
    requires IsWord(id, was) ==> Scan(id, text, 0, was, now) == After(out, n, Scan(id, text, at, was, now))
    ensures IsWord(id, was) ==>
              && out + text[at..] == Concat(Renamed(Tokens(id, text), was, now))
              && n == Occurrences(Tokens(id, text), was)
  {
    ScanSkips(id, text, at, |text|, was, now);
    assert text[at..|text|] == text[at..] && text[at..] + "" == text[at..];
    ScanIsRename(id, text, 0, was, now);
    assert text[0..] == text;
  }

  /** Scanning up to and over the first occurrence. */
  lemma ScanFound(id: char -> bool, text: string, at: nat, i: nat, was: string, now: string, whole: bool)
    requires was != "" && at <= i && At(text, i, was) && whole == WholeAt(id, text, i, was)
    requires forall k: nat :: at <= k < i ==> !At(text, k, was)
    ensures IsWord(id, was) ==>
              Scan(id, text, at, was, now)
              == After(text[at..i] + (if whole then now else was), if whole then 1 else 0, Scan(id, text, i + |was|, was, now))
  {
    ScanSkips(id, text, at, i, was, now);
    var rest := Scan(id, text, i + |was|, was, now);
    AfterAfter(text[at..i], 0, if whole then now else was, if whole then 1 else 0, rest);
    if !whole && IsWord(id, was) {
      NotWholeInside(id, text, i, i + |was|, was);
      ScanSkips(id, text, i, i + |was|, was, now);
    }
  }

  /** Scanning from a token's start agrees with renaming tokens. */
  lemma {:induction false} ScanIsRename(id: char -> bool, text: string, i: nat, was: string, now: string)
    requires i <= |text|
    requires 0 < i < |text| ==> !(id(text[i - 1]) && id(text[i]))
    requires was != ""
    ensures IsWord(id, was) ==>
              var ts := Tokens(id, text[i..]);
              Scan(id, text, i, was, now) == Outcome(Concat(Renamed(ts, was, now)), Occurrences(ts, was))
    decreases |text| - i
  {
    if i < |text| && IsWord(id, was) {
      var j := TokenEnd(id, text, i);
      ScanIsRename(id, text, j, was, now);
      RenamedCons(text[i..j], Tokens(id, text[j..]), was, now);
      TokenScanned(id, text, i, j, was, now);
    }
  }

  lemma TokenEnd(id: char -> bool, text: string, i: nat) returns (j: nat)
    requires i < |text|
    ensures i < j <= |text| && Token(id, text[i..j]) && (j < |text| ==> !(id(text[j - 1]) && id(text[j])))
    ensures Tokens(id, text[i..]) == [text[i..j]] + Tokens(id, text[j..])
  {
    var s := text[i..];
    FirstToken(id, s);
    j := i + TokenLength(id, s);
    assert text[i..j] == s[..j - i] && s[j - i..] == text[j..];
    assert j < |text| ==> s[j - i] == text[j];
    assert text[j - 1] == text[i..j][j - 1 - i];
  }

  lemma RenamedCons(t: string, ts: seq<string>, was: string, now: string)
    ensures Concat(Renamed([t] + ts, was, now)) == (if t == was then now else t) + Concat(Renamed(ts, was, now))
    ensures Occurrences([t] + ts, was) == (if t == was then 1 else 0) + Occurrences(ts, was)
  {
    assert ([t] + ts)[1..] == ts;
  }

  /** Scanning over one whole token. */
  /** A word that begins where a token does and is not the token ends inside it. */
  lemma ShorterThanToken(id: char -> bool, text: string, i: nat, j: nat, was: string)
    requires i < j <= |text| && IsWord(id, was) && At(text, i, was) && text[i..j] != was
    requires j < |text| ==> !(id(text[j - 1]) && id(text[j]))
    ensures i + |was| < j
  {
    assert forall k :: 0 <= k < |was| ==> text[i + k] == text[i..i + |was|][k] == was[k];
  }

  lemma TokenScanned(id: char -> bool, text: string, i: nat, j: nat, was: string, now: string)
    requires i < j <= |text| && IsWord(id, was) && Token(id, text[i..j])
    requires 0 < i ==> !(id(text[i - 1]) && id(text[i]))
    requires j < |text| ==> !(id(text[j - 1]) && id(text[j]))
    ensures var hit := text[i..j] == was;
            Scan(id, text, i, was, now) == After(if hit then now else text[i..j], if hit then 1 else 0, Scan(id, text, j, was, now))
  {
    var t := text[i..j];
    assert t[0] == text[i] && t[j - 1 - i] == text[j - 1];
    if t != was {
      if At(text, i, was) {
        ShorterThanToken(id, text, i, j, was);
        assert t[|was|] == text[i + |was|];
      }
      if IsWord(id, t) { NotWholeInside(id, text, i, j, was); }
      ScanSkips(id, text, i, j, was, now);
    }
  }

  lemma {:induction false} OccurrencesRenamed(ts: seq<string>, was: string, now: string)
    requires now !in ts
    ensures Occurrences(Renamed(ts, was, now), now) == Occurrences(ts, was)
    decreases |ts|
  {
    if ts != [] {
      OccurrencesRenamed(ts[1..], was, now);
      var t := if ts[0] == was then now else ts[0];
      assert Renamed(ts, was, now)[1..] == Renamed(ts[1..], was, now);
    }
  }

  /** Renaming an identifier to one the text does not have, and back, is as if nothing happened;
      both ways as many words are replaced. */
  lemma RenameAndBack(id: char -> bool, text: string, was: string, now: string)
    requires IsWord(id, was) && IsWord(id, now) && now !in Tokens(id, text)
    ensures var renamed := Concat(Renamed(Tokens(id, text), was, now));
            && Concat(Renamed(Tokens(id, renamed), now, was)) == text
            && Occurrences(Tokens(id, renamed), now) == Occurrences(Tokens(id, text), was)
  {
    var ts := Tokens(id, text);
    var rs := Renamed(ts, was, now);
    TokensAreMaximal(id, text);
    RenamedMaximal(id, ts, was, now);
    TokensOfConcat(id, rs);
    OccurrencesRenamed(ts, was, now);
    RenamedBack(ts, was, now);
  }

  lemma RenamedMaximal(id: char -> bool, ts: seq<string>, was: string, now: string)
    requires Maximal(id, ts) && IsWord(id, was) && IsWord(id, now)
    ensures Maximal(id, Renamed(ts, was, now))
  {
  }

  lemma RenamedBack(ts: seq<string>, was: string, now: string)
    requires now !in ts
    ensures Renamed(Renamed(ts, was, now), now, was) == ts
  {
  }
}
