/** The three-way merge of a text over its tokens: two edit scripts against one base. */
module Merge {
  import opened Decimal
  import opened Words

  /** The tokens `start..end` of the base become `text`. */
  datatype Edit = Edit(start: nat, end: nat, text: seq<string>)

  type Edits = seq<Edit>

  function SetOf(es: Edits): set<Edit> { set e | e in es }

  predicate InBounds(e: Edit, n: nat) { e.start <= e.end <= n }

  predicate Insertion(e: Edit) { e.start == e.end }

  /** Both edits change one token of the base, or one inserts where the other starts or inside it. */
  ghost predicate Conflict(x: Edit, y: Edit) {
    || (exists k: nat :: Covers(x, k) && Covers(y, k))
    || (Insertion(x) && (Covers(y, x.start) || x.start == y.start))
    || (Insertion(y) && (Covers(x, y.start) || x.start == y.start))
  }

  predicate Covers(e: Edit, k: nat) { e.start <= k < e.end }

  /** No two different edits conflict. */
  ghost predicate Compatible(edits: set<Edit>) {
    forall x, y :: x in edits && y in edits && x != y ==> !Conflict(x, y)
  }

  // ----- what a merge means -----

  /** What the edits put in front of token `k`. */
  ghost function Inserted(edits: set<Edit>, k: nat): seq<string> {
    if exists e :: e in edits && e.start == k then
      var e :| e in edits && e.start == k; e.text
    else []
  }

  ghost predicate Deleted(edits: set<Edit>, k: nat) { exists e :: e in edits && Covers(e, k) }

  /** The base from token `k` on with all edits made at once: each token is kept or not by itself. */
  ghost function AllAtOnce(base: seq<string>, edits: set<Edit>, k: nat): seq<string>
    requires k <= |base|
    decreases |base| - k
  {
    Inserted(edits, k)
    + if k == |base| then [] else (if Deleted(edits, k) then [] else [base[k]]) + AllAtOnce(base, edits, k + 1)
  }

  /** The merge: nothing when two edits conflict, all edits made at once otherwise. */
  ghost function Merged(base: seq<string>, a: Edits, b: Edits): Option<seq<string>> {
    var edits := SetOf(a) + SetOf(b);
    if Compatible(edits) then Some(AllAtOnce(base, edits, 0)) else None
  }

  // ----- edits in order -----

  predicate KeyLe(x: Edit, y: Edit) { x.start < y.start || (x.start == y.start && x.end <= y.end) }

  predicate Sorted(es: Edits) { forall i, j :: 0 <= i < j < |es| ==> KeyLe(es[i], es[j]) }

  predicate Distinct(es: Edits) { forall i, j :: 0 <= i < j < |es| ==> es[i] != es[j] }

  /** The test on neighbours. */
  predicate Refused(x: Edit, y: Edit) { x.end > y.start || (x.start == x.end && x.start == y.start) }

  /** Edits one after the other. */
  predicate Chain(es: Edits, n: nat) {
    && (forall i :: 0 <= i < |es| ==> InBounds(es[i], n))
    && (forall i :: 0 < i < |es| ==> !Refused(es[i - 1], es[i]))
  }

  lemma RefusedIsConflict(x: Edit, y: Edit)
    requires x.start <= x.end && y.start <= y.end && KeyLe(x, y)
    ensures Refused(x, y) <==> Conflict(x, y)
  {
    if Refused(x, y) && !Insertion(x) && !Insertion(y) {
      assert Covers(x, y.start) && Covers(y, y.start);
    }
  }

  /** Neighbours that pass the test keep the whole list apart. */
  lemma {:induction false} ChainApart(es: Edits, n: nat, i: nat, j: nat)
    requires Chain(es, n) && i < j < |es|
    ensures es[i].end <= es[j].start && es[i].start < es[j].start
    decreases j - i
  {
    assert !Refused(es[j - 1], es[j]);
    if i < j - 1 { ChainApart(es, n, i, j - 1); }
  }

  lemma ChainCompatible(es: Edits, n: nat)
    requires Chain(es, n)
    ensures Compatible(SetOf(es)) && Sorted(es) && Distinct(es)
  {
    forall i, j | 0 <= i < j < |es| ensures KeyLe(es[i], es[j]) && es[i] != es[j] && !Conflict(es[i], es[j]) && !Conflict(es[j], es[i]) {
      ChainApart(es, n, i, j);
    }
  }

  /** The test on neighbours refuses exactly when two of the edits conflict. */
  lemma NeighboursSuffice(es: Edits, n: nat)
    requires Sorted(es) && Distinct(es) && forall i :: 0 <= i < |es| ==> InBounds(es[i], n)
    ensures Chain(es, n) <==> Compatible(SetOf(es))
  {
    if Chain(es, n) {
      ChainCompatible(es, n);
    } else {
      var i :| 0 < i < |es| && Refused(es[i - 1], es[i]);
      RefusedIsConflict(es[i - 1], es[i]);
      assert es[i - 1] in SetOf(es) && es[i] in SetOf(es);
    }
  }

  // ----- making edits one after the other -----

  function Splice(s: seq<string>, e: Edit): seq<string>
    requires e.start <= e.end <= |s|
  {
    s[..e.start] + e.text + s[e.end..]
  }

  /** The base from `p` on with a chain of edits made from left to right. */
  function Patched(base: seq<string>, es: Edits, p: nat): seq<string>
    requires p <= |base| && Chain(es, |base|) && (es != [] ==> p <= es[0].start)
    decreases |es|
  {
    if es == [] then base[p..] else
    base[p..es[0].start] + es[0].text + (ChainTail(es, |base|); Patched(base, es[1..], es[0].end))
  }

  lemma ChainTail(es: Edits, n: nat)
    requires es != [] && Chain(es, n)
    ensures Chain(es[1..], n) && (|es| > 1 ==> es[0].end <= es[1].start && es[0].start < es[1].start)
  {
    assert forall i :: 0 <= i < |es| - 1 ==> es[1..][i] == es[i + 1];
    if |es| > 1 { assert !Refused(es[0], es[1]); }
  }

  lemma ChainSuffix(es: Edits, n: nat, i: nat)
    requires i <= |es| && Chain(es, n)
    ensures Chain(es[i..], n)
    ensures 0 < i < |es| ==> es[i - 1].end <= es[i].start
  {
    assert forall k :: 0 <= k < |es| - i ==> es[i..][k] == es[i + k];
    if 0 < i < |es| { assert !Refused(es[i - 1], es[i]); }
  }

  /** Token `k` is untouched, so it can be taken off. */
  lemma PatchedKeeps(base: seq<string>, es: Edits, p: nat)
    requires p < |base| && Chain(es, |base|) && (es != [] ==> p < es[0].start)
    ensures Patched(base, es, p) == [base[p]] + Patched(base, es, p + 1)
  {
    if es == [] {
      assert base[p..] == [base[p]] + base[p + 1..];
    } else {
      assert base[p..es[0].start] == [base[p]] + base[p + 1..es[0].start];
      ChainTail(es, |base|);
      Regroup([base[p]], base[p + 1..es[0].start], es[0].text, Patched(base, es[1..], es[0].end));
    }
  }

  lemma Regroup(a: seq<string>, b: seq<string>, c: seq<string>, d: seq<string>)
    ensures a + b + c + d == a + (b + c + d)
  {
  }

  /** `es` are the edits still to come at token `k`, and the others are over by then. */
  ghost predicate Ahead(edits: set<Edit>, es: Edits, k: nat) {
    && (forall e :: e in es ==> e in edits && e.start >= k)
    && (forall e :: e in edits && e !in es ==> e.start < k && e.end <= k)
  }

  lemma {:induction false} CoveredVanish(base: seq<string>, edits: set<Edit>, e: Edit, k: nat)
    requires e in edits && e.start < k <= e.end <= |base|
    requires forall x :: x in edits && x != e ==> x.end <= e.start || x.start >= e.end
    requires forall x :: x in edits && x != e ==> x.start < e.start || x.start >= e.end
    ensures AllAtOnce(base, edits, k) == AllAtOnce(base, edits, e.end)
    decreases e.end - k
  {
    if k < e.end {
      assert Covers(e, k);
      assert Inserted(edits, k) == [];
      CoveredVanish(base, edits, e, k + 1);
    }
  }

  lemma InsertedIs(edits: set<Edit>, e: Edit)
    requires e in edits && forall x :: x in edits && x != e ==> x.start != e.start
    ensures Inserted(edits, e.start) == e.text
  {
  }

  /** Making all edits at once is making the chain of them from left to right. */
  lemma {:induction false} AllAtOnceIsPatched(base: seq<string>, edits: set<Edit>, es: Edits, k: nat)
    requires k <= |base| && Chain(es, |base|) && Ahead(edits, es, k)
    ensures es != [] ==> k <= es[0].start
    ensures AllAtOnce(base, edits, k) == Patched(base, es, k)
    decreases |base| - k
  {
    if es != [] {
      assert es[0] in es;
      if es[0].start == k {
        PatchedFirst(base, es);
        FirstApart(|base|, edits, es);
        if Insertion(es[0]) {
          AtAnInsertion(base, edits, es);
          if k < |base| {
            AllAtOnceIsPatched(base, edits, es[1..], k + 1);
            PatchedKeeps(base, es[1..], k);
          }
        } else {
          AtADeletion(base, edits, es);
          AllAtOnceIsPatched(base, edits, es[1..], es[0].end);
        }
        return;
      }
    }
    BetweenEdits(base, edits, es, k);
    if k < |base| {
      AllAtOnceIsPatched(base, edits, es, k + 1);
      PatchedKeeps(base, es, k);
    }
  }

  lemma BetweenEdits(base: seq<string>, edits: set<Edit>, es: Edits, k: nat)
    requires k <= |base| && Chain(es, |base|) && Ahead(edits, es, k) && (es != [] ==> k < es[0].start)
    ensures k < |base| ==> Ahead(edits, es, k + 1) && AllAtOnce(base, edits, k) == [base[k]] + AllAtOnce(base, edits, k + 1)
    ensures k == |base| ==> es == [] && AllAtOnce(base, edits, k) == []
  {
    forall e | e in es ensures e.start > k {
      var i :| 0 <= i < |es| && es[i] == e;
      if i > 0 { ChainApart(es, |base|, 0, i); }
    }
    assert Inserted(edits, k) == [] && !Deleted(edits, k);
  }

  /** All other edits are over before the first of `es` or begin after it. */
  lemma FirstApart(n: nat, edits: set<Edit>, es: Edits)
    requires es != [] && Chain(es, n) && Ahead(edits, es, es[0].start)
    ensures forall x :: x in edits && x != es[0] ==> x.start != es[0].start
    ensures forall x :: x in edits && x != es[0] ==> x.end <= es[0].start || x.start >= es[0].end
    ensures forall x :: x in edits && x != es[0] ==> x.start < es[0].start || x.start >= es[0].end
    ensures Ahead(edits, es[1..], if Insertion(es[0]) then es[0].start + 1 else es[0].end)
  {
    forall x | x in es && x != es[0] ensures x in es[1..] && x.start >= es[0].end && x.start > es[0].start {
      var i :| 0 <= i < |es| && es[i] == x;
      ChainApart(es, n, 0, i);
      assert es[1..][i - 1] == x;
    }
    forall x | x in es[1..] ensures x.start >= es[0].end && x.start > es[0].start && x in es {
      var i :| 0 <= i < |es| - 1 && es[1..][i] == x;
      ChainApart(es, n, 0, i + 1);
    }
  }

  lemma AtAnInsertion(base: seq<string>, edits: set<Edit>, es: Edits)
    requires es != [] && Chain(es, |base|) && Ahead(edits, es, es[0].start) && Insertion(es[0])
    ensures var k := es[0].start;
            AllAtOnce(base, edits, k)
            == es[0].text + if k < |base| then [base[k]] + AllAtOnce(base, edits, k + 1) else []
  {
    FirstApart(|base|, edits, es);
    InsertedIs(edits, es[0]);
    assert InBounds(es[0], |base|);
    assert !Deleted(edits, es[0].start);
  }

  lemma AtADeletion(base: seq<string>, edits: set<Edit>, es: Edits)
    requires es != [] && Chain(es, |base|) && Ahead(edits, es, es[0].start) && !Insertion(es[0])
    ensures es[0].end <= |base|
    ensures AllAtOnce(base, edits, es[0].start) == es[0].text + AllAtOnce(base, edits, es[0].end)
  {
    FirstApart(|base|, edits, es);
    assert es[0] in es && InBounds(es[0], |base|);
    DeletionAlone(base, edits, es[0]);
  }

  lemma DeletionAlone(base: seq<string>, edits: set<Edit>, e: Edit)
    requires e in edits && e.start < e.end <= |base|
    requires forall x :: x in edits && x != e ==> x.end <= e.start || x.start >= e.end
    requires forall x :: x in edits && x != e ==> x.start < e.start || x.start >= e.end
    ensures AllAtOnce(base, edits, e.start) == e.text + AllAtOnce(base, edits, e.end)
  {
    var rest := Vanished(base, edits, e);
    InsertedIs(edits, e);
    DeletedHere(base, edits, e, rest);
  }

  lemma Vanished(base: seq<string>, edits: set<Edit>, e: Edit) returns (rest: seq<string>)
    requires e in edits && e.start < e.end <= |base|
    requires forall x :: x in edits && x != e ==> x.end <= e.start || x.start >= e.end
    requires forall x :: x in edits && x != e ==> x.start < e.start || x.start >= e.end
    ensures rest == AllAtOnce(base, edits, e.end) == AllAtOnce(base, edits, e.start + 1)
  {
    rest := AllAtOnce(base, edits, e.end);
    CoveredVanish(base, edits, e, e.start + 1);
  }

  lemma DeletedHere(base: seq<string>, edits: set<Edit>, e: Edit, rest: seq<string>)
    requires e in edits && e.start < e.end <= |base|
    requires Inserted(edits, e.start) == e.text && AllAtOnce(base, edits, e.start + 1) == rest
    ensures AllAtOnce(base, edits, e.start) == e.text + rest
  {
    assert Covers(e, e.start);
    NothingBefore(rest);
  }

  lemma NothingBefore(s: seq<string>)
    ensures [] + s == s
  {
  }

  lemma PatchedFirst(base: seq<string>, es: Edits)
    requires es != [] && Chain(es, |base|)
    ensures Chain(es[1..], |base|) && InBounds(es[0], |base|) && (|es| > 1 ==> es[0].end <= es[1].start && es[0].start < es[1].start)
    ensures Patched(base, es, es[0].start) == es[0].text + Patched(base, es[1..], es[0].end)
    ensures es[0].start == |base| ==> es[1..] == []
  {
    ChainTail(es, |base|);
    if |es| > 1 { assert InBounds(es[1], |base|); }
    assert base[es[0].start..es[0].start] == [];
    NothingBefore(es[0].text);
  }

  // ----- the program -----

  /** Where `e` goes: after everything not greater. */
  function Slot(e: Edit, es: Edits): (i: nat)
    requires Sorted(es)
    ensures i <= |es|
    ensures forall k :: 0 <= k < i ==> KeyLe(es[k], e)
    ensures forall k :: i <= k < |es| ==> KeyLe(e, es[k]) && !KeyLe(es[k], e)
  {
    if es == [] || KeyLe(es[|es| - 1], e) then |es| else Slot(e, es[..|es| - 1])
  }

  /** `sort_by_key`, which is stable. */
  function SortByKey(es: Edits): (r: Edits)
    ensures Sorted(r) && |r| == |es|
  {
    if es == [] then [] else
    var r, e := SortByKey(es[..|es| - 1]), es[|es| - 1];
    var i := Slot(e, r);
    r[..i] + [e] + r[i..]
  }

  lemma InsertKeeps(e: Edit, es: Edits, i: nat)
    requires i <= |es| && Distinct(es) && e !in es
    ensures Distinct(es[..i] + [e] + es[i..]) && SetOf(es[..i] + [e] + es[i..]) == SetOf(es) + {e}
  {
    assert es == es[..i] + es[i..];
  }

  lemma {:induction false} SortedSame(es: Edits)
    requires Distinct(es)
    ensures Distinct(SortByKey(es)) && SetOf(SortByKey(es)) == SetOf(es)
  {
    if es != [] {
      var e, front := es[|es| - 1], es[..|es| - 1];
      SortedSame(front);
      assert es == front + [e];
      assert e !in SetOf(front);
      InsertKeeps(e, SortByKey(front), Slot(e, SortByKey(front)));
    }
  }

  predicate AllInBounds(es: Edits, n: nat) { forall i :: 0 <= i < |es| ==> InBounds(es[i], n) }

  /** The edits of both sides, one that both make only once. */
  method Union(a: Edits, b: Edits, n: nat) returns (edits: Edits)
    requires Distinct(a) && AllInBounds(a, n) && AllInBounds(b, n)
    ensures Distinct(edits) && AllInBounds(edits, n) && SetOf(edits) == SetOf(a) + SetOf(b)
  {
    edits := a;
    for i := 0 to |b|
      invariant Distinct(edits) && AllInBounds(edits, n)
      invariant forall e :: e in edits <==> e in a || e in b[..i]
    {
      assert b[..i + 1] == b[..i] + [b[i]];
      if b[i] !in edits { edits := edits + [b[i]]; }
    }
    assert b[..|b|] == b;
  }

  /** Whether all neighbours pass the test. */
  method NeighboursPass(es: Edits) returns (ok: bool)
    ensures ok <==> forall i :: 0 < i < |es| ==> !Refused(es[i - 1], es[i])
  {
    var i := 1;
    while i < |es|
      invariant 1 <= i && forall k :: 0 < k < i && k < |es| ==> !Refused(es[k - 1], es[k])
    {
      if Refused(es[i - 1], es[i]) { return false; }
      i := i + 1;
    }
    ok := true;
  }

  /** Splicing the edits in from the last to the first makes them all at once. */
  method SpliceAll(base: seq<string>, edits: Edits) returns (out: seq<string>)
    requires Chain(edits, |base|)
    ensures out == AllAtOnce(base, SetOf(edits), 0)
  {
    out := base;
    var i := |edits|;
    ChainSuffix(edits, |base|, i);
    while i > 0
      invariant 0 <= i <= |edits| && SplicedFrom(base, edits, i, out)
    {
      SpliceBack(base, edits, i, out);
      i := i - 1;
      out := Splice(out, edits[i]);
    }
    AllAtOnceIsPatched(base, SetOf(edits), edits, 0);
    assert edits[0..] == edits && base[..0] + Patched(base, edits, 0) == Patched(base, edits, 0);
  }

  /** `out` is the base with the edits from `i` on made. */
  predicate SplicedFrom(base: seq<string>, es: Edits, i: nat, out: seq<string>)
    requires i <= |es|
  {
    var p := if i == 0 then 0 else es[i - 1].end;
    && p <= |base| && Chain(es[i..], |base|) && (i < |es| ==> p <= es[i].start)
    && out == base[..p] + Patched(base, es[i..], p)
  }

  /** `merge_three` over tokens, given the two edit scripts. */
  method MergeEdits(base: seq<string>, a: Edits, b: Edits) returns (r: Option<seq<string>>)
    requires Distinct(a) && AllInBounds(a, |base|) && AllInBounds(b, |base|)
    ensures r == Merged(base, a, b)
  {
    var both := Union(a, b, |base|);
    var edits := SortByKey(both);
    SortedSame(both);
    assert forall i :: 0 <= i < |edits| ==> edits[i] in SetOf(both);
    NeighboursSuffice(edits, |base|);
    var ok := NeighboursPass(edits);
    if !ok { return None; }
    var out := SpliceAll(base, edits);
    r := Some(out);
  }

  lemma SpliceBack(base: seq<string>, es: Edits, i: nat, out: seq<string>)
    requires 0 < i <= |es| && Chain(es, |base|) && SplicedFrom(base, es, i, out)
    ensures es[i - 1].start <= es[i - 1].end <= |out| && SplicedFrom(base, es, i - 1, Splice(out, es[i - 1]))
  {
    var e, p := es[i - 1], if i == 1 then 0 else es[i - 2].end;
    ChainSuffix(es, |base|, i - 1);
    assert InBounds(e, |base|) && p <= e.start;
    assert es[i - 1..][1..] == es[i..] && es[i - 1..][0] == e;
    SpliceOne(base, e, p, Patched(base, es[i..], e.end));
  }

  lemma SpliceOne(base: seq<string>, e: Edit, p: nat, tail: seq<string>)
    requires p <= e.start && InBounds(e, |base|)
    ensures Splice(base[..e.end] + tail, e) == base[..p] + (base[p..e.start] + e.text + tail)
  {
    var out := base[..e.end] + tail;
    assert out[..e.start] == base[..e.start] && out[e.end..] == tail;
    assert base[..e.start] == base[..p] + base[p..e.start];
  }

  // ----- laws -----

  /** A merge is refused exactly when an edit of one side conflicts with a different one of the other. */
  lemma RefusedExactly(base: seq<string>, a: Edits, b: Edits)
    requires Chain(a, |base|) && Chain(b, |base|)
    ensures Merged(base, a, b) == None <==> exists x, y :: x in a && y in b && x != y && Conflict(x, y)
  {
    ChainCompatible(a, |base|);
    ChainCompatible(b, |base|);
    if exists x, y :: x in a && y in b && x != y && Conflict(x, y) {
      var x, y :| x in a && y in b && x != y && Conflict(x, y);
      assert x in SetOf(a) + SetOf(b) && y in SetOf(a) + SetOf(b);
    }
  }

  /** The two sides may be swapped. */
  lemma MergeCommutes(base: seq<string>, a: Edits, b: Edits)
    ensures Merged(base, a, b) == Merged(base, b, a)
  {
    assert SetOf(a) + SetOf(b) == SetOf(b) + SetOf(a);
  }

  /** What a diff promises: a script in order that turns one token list into the other, and is
      empty when there is nothing to do. */
  ghost predicate IsDiff(diff: (seq<string>, seq<string>) -> Edits) {
    forall s, t ::
      && Chain(diff(s, t), |s|) && AllAtOnce(s, SetOf(diff(s, t)), 0) == t
      && (s == t ==> diff(s, t) == [])
  }

  ghost function MergedText(id: char -> bool, diff: (seq<string>, seq<string>) -> Edits, base: string, a: string, b: string)
    : Option<string>
  {
    var s := Tokens(id, base);
    match Merged(s, diff(s, Tokens(id, a)), diff(s, Tokens(id, b)))
    case None => None
    case Some(ts) => Some(Concat(ts))
  }

  /** `merge_three`. */
  method MergeThree(id: char -> bool, diff: (seq<string>, seq<string>) -> Edits, base: string, a: string, b: string)
    returns (r: Option<string>)
    requires IsDiff(diff)
    ensures r == MergedText(id, diff, base, a, b)
  {
    var s := Tokenize(id, base);
    var ta := Tokenize(id, a);
    var tb := Tokenize(id, b);
    ChainCompatible(diff(s, ta), |s|);
    var merged := MergeEdits(s, diff(s, ta), diff(s, tb));
    r := match merged case None => None case Some(ts) => Some(Concat(ts));
  }

  /** Swapping the sides changes nothing; a side that changed nothing, or that made the same
      changes, leaves the other side's text. */
  lemma MergeLaws(id: char -> bool, diff: (seq<string>, seq<string>) -> Edits, base: string, a: string, b: string)
    requires IsDiff(diff)
    ensures MergedText(id, diff, base, a, b) == MergedText(id, diff, base, b, a)
    ensures MergedText(id, diff, base, a, base) == Some(a) && MergedText(id, diff, base, base, a) == Some(a)
    ensures MergedText(id, diff, base, a, a) == Some(a)
  {
    var s, ta, tb := Tokens(id, base), Tokens(id, a), Tokens(id, b);
    MergeCommutes(s, diff(s, ta), diff(s, tb));
    MergeCommutes(s, diff(s, ta), diff(s, s));
    TokensAreMaximal(id, a);
    ChainCompatible(diff(s, ta), |s|);
    assert SetOf(diff(s, s)) == {};
    assert SetOf(diff(s, ta)) + {} == SetOf(diff(s, ta));
    assert SetOf(diff(s, ta)) + SetOf(diff(s, ta)) == SetOf(diff(s, ta));
  }

  /** Replacing everything is a diff. */
  lemma WholeIsDiff()
    ensures IsDiff((s, t) => if s == t then [] else [Edit(0, |s|, t)])
  {
    var diff: (seq<string>, seq<string>) -> Edits := (s, t) => if s == t then [] else [Edit(0, |s|, t)];
    forall s, t ensures Chain(diff(s, t), |s|) && AllAtOnce(s, SetOf(diff(s, t)), 0) == t && (s == t ==> diff(s, t) == []) {
      AllAtOnceIsPatched(s, SetOf(diff(s, t)), diff(s, t), 0);
      if s != t { assert diff(s, t)[1..] == [] && s[0..0] + t + s[|s|..] == t; }
    }
  }
}
