/** The hand-off queue of the warming jobs: which files a job is given next. */
module Warming {
  const SYNCED_FILES: nat := 20

  predicate Distinct(s: seq<string>) { forall i, j :: 0 <= i < j < |s| ==> s[i] != s[j] }

  /** The files of a history of requests, each once, in the order of their last request. */
  function Recent(h: seq<string>): seq<string> {
    if h == [] then [] else if h[0] in h[1..] then Recent(h[1..]) else [h[0]] + Recent(h[1..])
  }

  function Last(n: nat, s: seq<string>): seq<string> { if |s| <= n then s else s[|s| - n..] }

  /** What a queue holds after a history of requests. */
  function Latest(h: seq<string>): seq<string> { Last(SYNCED_FILES, Recent(h)) }

  lemma {:induction false} RecentHolds(h: seq<string>)
    ensures Distinct(Recent(h)) && forall f :: f in Recent(h) <==> f in h
  {
    if h != [] {
      RecentHolds(h[1..]);
      assert h == [h[0]] + h[1..];
    }
  }

  // ----- one more request -----

  /** `retain` with the files other than `f`. */
  function Without(q: seq<string>, f: string): seq<string> {
    if q == [] then [] else (if q[0] == f then [] else [q[0]]) + Without(q[1..], f)
  }

  function Touch(q: seq<string>, f: string): seq<string> { Without(q, f) + [f] }

  lemma {:induction false} WithoutConcat(a: seq<string>, b: seq<string>, f: string)
    ensures Without(a + b, f) == Without(a, f) + Without(b, f)
  {
    if a == [] {
      assert [] + b == b;
    } else {
      assert (a + b)[1..] == a[1..] + b && (a + b)[0] == a[0];
      WithoutConcat(a[1..], b, f);
      Regroup(if a[0] == f then [] else [a[0]], Without(a[1..], f), Without(b, f));
    }
  }

  lemma Regroup(a: seq<string>, b: seq<string>, c: seq<string>)
    ensures a + b + c == a + (b + c)
  {
  }

  lemma {:induction false} WithoutAbsent(q: seq<string>, f: string)
    requires f !in q
    ensures Without(q, f) == q
  {
    if q != [] { WithoutAbsent(q[1..], f); }
  }

  lemma {:induction false} WithoutLength(q: seq<string>, f: string)
    requires Distinct(q)
    ensures |q| - 1 <= |Without(q, f)| <= |q| && (f in q ==> |Without(q, f)| == |q| - 1)
  {
    if q != [] {
      WithoutLength(q[1..], f);
      if q[0] == f { WithoutAbsent(q[1..], f); }
    }
  }

  lemma WithoutCons(x: string, q: seq<string>, f: string)
    ensures Without([x] + q, f) == (if x == f then [] else [x]) + Without(q, f)
  {
    assert ([x] + q)[1..] == q;
  }

  lemma {:induction false} RecentTouch(h: seq<string>, f: string)
    ensures Recent(h + [f]) == Touch(Recent(h), f)
  {
    if h == [] {
      assert [] + [f] == [f] && [f][1..] == [];
    } else {
      assert (h + [f])[1..] == h[1..] + [f] && (h + [f])[0] == h[0];
      RecentTouch(h[1..], f);
      if h[0] !in h[1..] { TouchFirst(h[0], h[1..], f); }
    }
  }

  lemma TouchFirst(x: string, h: seq<string>, f: string)
    requires x !in h
    ensures Touch([x] + Recent(h), f) == (if x == f then [] else [x]) + Touch(Recent(h), f)
  {
    WithoutCons(x, Recent(h), f);
    Regroup(if x == f then [] else [x], Without(Recent(h), f), [f]);
  }

  // ----- cutting early does no harm -----

  /** `part` is what is left of `whole` after cutting from the front at least `n` from the end. */
  predicate Cut(part: seq<string>, whole: seq<string>, n: nat) {
    |part| <= |whole| && part == whole[|whole| - |part|..] && (part == whole || |part| >= n)
  }

  lemma CutTouch(part: seq<string>, whole: seq<string>, n: nat, f: string)
    requires Cut(part, whole, n) && Distinct(whole)
    ensures Cut(Touch(part, f), Touch(whole, f), n)
  {
    var front := whole[..|whole| - |part|];
    assert whole == front + part;
    WithoutConcat(front, part, f);
    WithoutLength(part, f);
    assert Touch(whole, f) == Without(front, f) + Touch(part, f);
    if part == whole { assert front == []; }
  }

  lemma CutLast(part: seq<string>, whole: seq<string>, n: nat)
    requires Cut(part, whole, n)
    ensures Last(n, part) == Last(n, whole)
  {
  }

  lemma CutOne(h: seq<string>, part: seq<string>, f: string, n: nat)
    requires Cut(part, Recent(h), n)
    ensures Cut(Touch(part, f), Recent(h + [f]), n)
  {
    RecentHolds(h);
    CutTouch(part, Recent(h), n, f);
    RecentTouch(h, f);
  }

  lemma {:induction false} CutHistory(h: seq<string>, part: seq<string>, files: seq<string>, n: nat)
    requires Cut(part, Recent(h), n)
    ensures Cut(TouchAll(part, files), Recent(h + files), n)
    decreases |files|
  {
    if files == [] {
      assert h + [] == h;
    } else {
      var f, front := files[|files| - 1], files[..|files| - 1];
      AppendLast(h, files);
      CutHistory(h, part, front, n);
      CutOne(h + front, TouchAll(part, front), f, n);
    }
  }

  lemma AppendLast(h: seq<string>, files: seq<string>)
    requires files != []
    ensures h + files[..|files| - 1] + [files[|files| - 1]] == h + files
  {
  }

  /** The queue after each of the files was moved to its end. */
  function TouchAll(q: seq<string>, files: seq<string>): seq<string> {
    if files == [] then q else Touch(TouchAll(q, files[..|files| - 1]), files[|files| - 1])
  }

  /** Cutting the queue after every call gives what cutting the whole history once would. */
  lemma LatestOnline(h: seq<string>, files: seq<string>)
    ensures Last(SYNCED_FILES, TouchAll(Latest(h), files)) == Latest(h + files)
  {
    CutHistory(h, Latest(h), files, SYNCED_FILES);
    CutLast(TouchAll(Latest(h), files), Recent(h + files), SYNCED_FILES);
  }

  // ----- what is dropped -----

  function SetOf(s: seq<string>): set<string> { set f | f in s }

  lemma {:induction false} DistinctSize(s: seq<string>)
    requires Distinct(s)
    ensures |SetOf(s)| == |s|
  {
    if s != [] {
      DistinctSize(s[1..]);
      assert SetOf(s) == {s[0]} + SetOf(s[1..]) && s[0] !in s[1..];
    }
  }

  /** What comes after a file's last request is what comes after the file in the queue. */
  lemma {:induction false} RecentSplit(a: seq<string>, f: string, b: seq<string>)
    requires f !in b
    ensures exists front :: Recent(a + [f] + b) == front + [f] + Recent(b)
    decreases |a|
  {
    var h := a + [f] + b;
    if a == [] {
      assert h[1..] == b && h[0] == f;
      assert Recent(h) == [] + [f] + Recent(b);
    } else {
      RecentSplit(a[1..], f, b);
      assert h[1..] == a[1..] + [f] + b && h[0] == a[0];
      var front :| Recent(h[1..]) == front + [f] + Recent(b);
      if h[0] !in h[1..] { assert Recent(h) == ([h[0]] + front) + [f] + Recent(b); }
    }
  }

  /** A requested file is in the queue exactly when fewer than 20 others were asked for
      since its last request. */
  lemma KeptExactly(a: seq<string>, f: string, b: seq<string>)
    requires f !in b
    ensures f in Latest(a + [f] + b) <==> |SetOf(b)| < 20
  {
    var h := a + [f] + b;
    RecentSplit(a, f, b);
    var front :| Recent(h) == front + [f] + Recent(b);
    RecentHolds(h);
    RecentHolds(b);
    DistinctSize(Recent(b));
    assert SetOf(Recent(b)) == SetOf(b);
    var r := Recent(h);
    assert r[|front|] == f;
    if |r| > SYNCED_FILES { assert Latest(h) == r[|r| - SYNCED_FILES..]; }
  }

  /** The same seen from any of its requests. */
  lemma {:induction false} DroppedOnlyWhenOvertaken(a: seq<string>, f: string, b: seq<string>)
    ensures f in Latest(a + [f] + b) || |SetOf(b) - {f}| >= SYNCED_FILES
    decreases |b|
  {
    if f in b {
      var i :| 0 <= i < |b| && b[i] == f;
      var a', b' := a + [f] + b[..i], b[i + 1..];
      DroppedOnlyWhenOvertaken(a', f, b');
      assert a' + [f] + b' == a + [f] + b by { assert b == b[..i] + [f] + b'; }
      Subset(SetOf(b') - {f}, SetOf(b) - {f});
    } else {
      KeptExactly(a, f, b);
      assert SetOf(b) - {f} == SetOf(b);
    }
  }

  lemma {:induction false} Subset(a: set<string>, b: set<string>)
    requires a <= b
    ensures |a| <= |b|
    decreases |a|
  {
    if a != {} {
      var x :| x in a;
      Subset(a - {x}, b - {x});
    }
  }

  // ----- the program -----

  type Running = map<string, seq<string>>

  /** Workspaces with a job, each with the files its job takes next. */
  class Jobs {
    var running: Running

    ghost predicate Valid() reads this { forall w :: w in running ==> Latest(running[w]) == running[w] }

    constructor ()
      ensures running == map[] && Valid()
    {
      running := map[];
    }

    /** `enqueue`. */
    method Enqueue(workspace: string, files: seq<string>) returns (start: bool)
      requires Valid()
      modifies this
      ensures Valid() && start == (workspace !in old(running))
      ensures running == AfterEnqueue(old(running), workspace, files)
    {
      if workspace !in running {
        running := running[workspace := []];
        return true;
      }
      var queued := running[workspace];
      for i := 0 to |files|
        invariant queued == TouchAll(running[workspace], files[..i]) && running == old(running)
      {
        assert files[..i + 1][..i] == files[..i];
        queued := Without(queued, files[i]);
        queued := queued + [files[i]];
      }
      assert files[..|files|] == files;
      LatestOnline(running[workspace], files);
      LatestTwice(running[workspace] + files);
      var excess := if |queued| > SYNCED_FILES then |queued| - SYNCED_FILES else 0;
      running := running[workspace := queued[excess..]];
      start := false;
    }

    /** `next_batch`; `None` is no files. */
    method NextBatch(workspace: string) returns (batch: seq<string>)
      requires Valid()
      modifies this
      ensures Valid() && running == AfterNext(old(running), workspace)
      ensures batch == if workspace in old(running) then old(running)[workspace] else []
    {
      if workspace !in running { return []; }
      batch := running[workspace];
      running := running[workspace := []];
      if batch == [] { running := running - {workspace}; }
    }
  }

  /** A request for a workspace with a job adds to the history its queue stands for. */
  function AfterEnqueue(running: Running, workspace: string, files: seq<string>): Running {
    if workspace in running then running[workspace := Latest(running[workspace] + files)] else running[workspace := []]
  }

  function AfterNext(running: Running, workspace: string): Running {
    if workspace !in running then running
    else if running[workspace] == [] then running - {workspace} else running[workspace := []]
  }

  lemma {:induction false} RecentOfDistinct(q: seq<string>)
    requires Distinct(q)
    ensures Recent(q) == q
  {
    if q != [] {
      RecentOfDistinct(q[1..]);
      assert q[0] !in q[1..];
    }
  }

  lemma LatestTwice(h: seq<string>)
    ensures Latest(Latest(h)) == Latest(h)
  {
    RecentHolds(h);
    RecentOfDistinct(Latest(h));
  }
}
