/** Versioned deployment of the guard hook: a complete bundle is staged, renamed to a release
    directory that never changes again, and activated by replacing one symbolic link. The state is
    what the version store and the hook's own directory hold; any primitive may fail, and the
    process may die after any of them. */
module Deploy {
  import opened Decimal

  datatype File = File(bytes: string, exec: bool)

  /** The components of a bundle: the hook's own script and, under `prod_code_guard/`, the modules
      `__init__`, `shell`, `grep_patterns` and so on. */
  datatype Component =
    | Entrypoint | Init | Shell | GrepPatterns | GrepArgs | GrepGuard | SedGuard | ShellLex | ShellPython
    | PythonWriteEval | PythonWriteGuard | Payload | RenameGuard | Dispatch

  /** In the order of the manifest. */
  const COMPONENTS: seq<Component> := [
    Entrypoint, Init, Shell, GrepPatterns, GrepArgs, GrepGuard, SedGuard, ShellLex, ShellPython,
    PythonWriteEval, PythonWriteGuard, Payload, RenameGuard, Dispatch
  ]

  /** The components found in a directory. */
  type Bundle = map<Component, File>

  /** The names used inside the version store. */
  datatype Name =
    | Current
    | Staging(suffix: string)
    | Release(stamp: nat, suffix: string)
    | CurrentTmp(suffix: string)
    | RestoreTmp(suffix: string)
    | Other(name: string)

  datatype Entry = Dir(files: Bundle) | Link(target: Name) | Plain

  /** What is at the hook path; an alias is a symbolic link or anything else that is no file and no
      directory. */
  datatype Hook = Absent | Regular(file: File) | Alias | Folder

  datatype Fs = Fs(
    dest: Hook,
    temps: map<string, File>,        // launcher temp files beside the hook, by suffix
    root: bool,                      // whether the version store exists
    store: map<Name, Entry>
  )

  const LAUNCHER := "#!/usr/bin/env python3\n# prod-code-guard-launcher:v1\n"

  /** The launcher's bytes, as a file that may be executed. */
  predicate IsLauncher(dest: Hook) { dest.Regular? && dest.file.bytes == LAUNCHER && dest.file.exec }

  /** An executable entrypoint and every module, none empty. */
  predicate Complete(files: Bundle) {
    && (forall c: Component :: c in files && files[c].bytes != "")
    && files[Entrypoint].exec
  }

  /** `os.readlink(current)`. */
  function Target(fs: Fs): Option<Name> {
    if Current in fs.store && fs.store[Current].Link? then Some(fs.store[Current].target) else None
  }

  /** What an executable hook runs. */
  datatype Running = Nothing | Script(bytes: string) | Version(files: Bundle) | Broken

  function Runs(fs: Fs): Running {
    if !fs.dest.Regular? || !fs.dest.file.exec then Nothing
    else if fs.dest.file.bytes != LAUNCHER then Script(fs.dest.file.bytes)
    else
      var target := Target(fs);
      if target.Some? && target.value in fs.store && fs.store[target.value].Dir?
      then Version(fs.store[target.value].files) else Broken
  }

  /** A state of the file system, with the releases a launcher may have resolved up to it. */
  datatype Moment = Moment(fs: Fs, pinned: map<Name, Bundle>)

  /** The release a launcher started now would resolve joins the pinned ones. */
  function Pin(pinned: map<Name, Bundle>, fs: Fs): map<Name, Bundle> {
    var target := Target(fs);
    if IsLauncher(fs.dest) && target.Some? && target.value in fs.store && fs.store[target.value].Dir?
    then pinned[target.value := fs.store[target.value].files] else pinned
  }

  /** A launcher finds a release, and every release it may have resolved is there, complete. */
  predicate Good(m: Moment) {
    && (!m.fs.root ==> m.fs.store == map[])
    && (IsLauncher(m.fs.dest) ==> Target(m.fs).Some? && Target(m.fs).value in m.pinned)
    && (m.pinned != map[] ==> IsLauncher(m.fs.dest))
    && forall n :: n in m.pinned ==> n.Release? && n in m.fs.store && m.fs.store[n] == Dir(m.pinned[n]) && Complete(m.pinned[n])
  }

  predicate Sub(a: map<Name, Bundle>, b: map<Name, Bundle>) { forall n :: n in a ==> n in b && b[n] == a[n] }

  predicate GoodAt(hist: seq<Moment>, i: nat)
    requires i < |hist|
  {
    Good(hist[i])
  }

  predicate KeptAt(hist: seq<Moment>, i: nat, j: nat)
    requires i <= j < |hist|
  {
    Sub(hist[i].pinned, hist[j].pinned)
  }

  /** Every moment is good, and no pinned release is ever let go. */
  predicate Trace(hist: seq<Moment>) {
    && (forall i: nat :: i < |hist| ==> GoodAt(hist, i))
    && (forall i: nat, j: nat :: i <= j < |hist| ==> KeptAt(hist, i, j))
  }

  /** What isolation means: a launcher that starts at one moment, reads `current` at a later one and
      opens files after that finds a release, and gets every file from that one complete release. */
  predicate Isolated(hist: seq<Moment>) {
    forall start: nat, resolve: nat :: start <= resolve < |hist| ==> ServedFrom(hist, start, resolve)
  }

  predicate ServedFrom(hist: seq<Moment>, start: nat, resolve: nat)
    requires start <= resolve < |hist|
  {
    IsLauncher(hist[start].fs.dest) ==> Served(hist, resolve)
  }

  /** A launcher that reads `current` at this moment finds a complete release, and finds it again as
      long as the history goes on. */
  predicate Served(hist: seq<Moment>, resolve: nat)
    requires resolve < |hist|
  {
    var target := Target(hist[resolve].fs);
    && target.Some? && target.value in hist[resolve].fs.store && hist[resolve].fs.store[target.value].Dir?
    && var files := hist[resolve].fs.store[target.value].files;
       Complete(files) && forall j :: resolve <= j < |hist| ==> Keeps(hist[j].fs, target.value, files)
  }

  predicate Keeps(fs: Fs, n: Name, files: Bundle) { n in fs.store && fs.store[n] == Dir(files) }

  lemma TraceIsIsolated(hist: seq<Moment>)
    requires Trace(hist)
    ensures Isolated(hist)
  {
    forall start: nat, resolve: nat | start <= resolve < |hist| && IsLauncher(hist[start].fs.dest) ensures ServedFrom(hist, start, resolve) {
      var m := hist[resolve];
      assert GoodAt(hist, start) && GoodAt(hist, resolve) && KeptAt(hist, start, resolve);
      assert Target(hist[start].fs).value in m.pinned;
      assert IsLauncher(m.fs.dest);
      var n := Target(m.fs).value;
      forall j | resolve <= j < |hist| ensures Keeps(hist[j].fs, n, m.pinned[n]) {
        assert GoodAt(hist, j) && KeptAt(hist, resolve, j);
      }
    }
  }

  lemma TraceExtend(hist: seq<Moment>, m: Moment)
    requires Trace(hist) && hist != [] && Good(m) && Sub(hist[|hist| - 1].pinned, m.pinned)
    ensures Trace(hist + [m])
  {
    var hist', last := hist + [m], |hist| - 1;
    assert GoodAt(hist, last);
    forall i: nat | i < |hist'| ensures GoodAt(hist', i) {
      if i < |hist| { assert GoodAt(hist, i); }
    }
    forall i: nat, j: nat | i <= j < |hist'| ensures KeptAt(hist', i, j) {
      if j < |hist| { assert KeptAt(hist, i, j); }
      else if i < |hist| { assert KeptAt(hist, i, last); }
    }
  }

  lemma IsolatedShorter(a: seq<Moment>, b: seq<Moment>)
    requires a <= b && Isolated(b)
    ensures Isolated(a)
  {
    forall start: nat, resolve: nat | start <= resolve < |a| ensures ServedFrom(a, start, resolve) {
      assert ServedFrom(b, start, resolve);
    }
  }

  /** At some moment a launcher resolves the release. */
  predicate Exposed(hist: seq<Moment>, n: Name, files: Bundle) { exists r :: 0 <= r < |hist| && ExposedAt(hist[r], n, files) }

  predicate ExposedAt(m: Moment, n: Name, files: Bundle) {
    IsLauncher(m.fs.dest) && Target(m.fs) == Some(n) && Keeps(m.fs, n, files)
  }

  lemma ExposedLonger(a: seq<Moment>, b: seq<Moment>, n: Name, files: Bundle)
    requires a <= b && Exposed(a, n, files)
    ensures Exposed(b, n, files)
  {
    var r :| 0 <= r < |a| && ExposedAt(a[r], n, files);
    assert ExposedAt(b[r], n, files);
  }

  /** When a release that a launcher resolved is gone or changed, isolation is lost. */
  lemma LostRelease(hist: seq<Moment>, n: Name, files: Bundle)
    requires hist != [] && Exposed(hist, n, files) && !Keeps(hist[|hist| - 1].fs, n, files)
    ensures !Isolated(hist)
  {
    var r: nat :| r < |hist| && ExposedAt(hist[r], n, files);
    assert !ServedFrom(hist, r, r);
  }

  /** All is well up to a point, and from there on the release is not what it was. */
  ghost predicate Turns(hist: seq<Moment>, n: Name, files: Bundle) {
    exists c: nat :: c <= |hist| && TurnsAt(hist, c, n, files)
  }

  ghost predicate TurnsAt(hist: seq<Moment>, c: nat, n: Name, files: Bundle)
    requires c <= |hist|
  {
    Trace(hist[..c]) && forall i :: c <= i < |hist| ==> !Keeps(hist[i].fs, n, files)
  }

  lemma TraceTurns(hist: seq<Moment>, n: Name, files: Bundle)
    requires Trace(hist)
    ensures Turns(hist, n, files)
  {
    assert hist[..|hist|] == hist;
    assert TurnsAt(hist, |hist|, n, files);
  }

  lemma TurnsOn(hist: seq<Moment>, m: Moment, n: Name, files: Bundle)
    requires Turns(hist, n, files) && !Keeps(m.fs, n, files)
    ensures Turns(hist + [m], n, files)
  {
    var c: nat :| c <= |hist| && TurnsAt(hist, c, n, files);
    assert (hist + [m])[..c] == hist[..c];
    assert TurnsAt(hist + [m], c, n, files);
  }

  /** Wherever a process dies: if a launcher is still served, all is well. */
  ghost predicate ServedIsWell(hist: seq<Moment>) { forall k: nat :: k <= |hist| ==> WellAfter(hist, k) }

  ghost predicate WellAfter(hist: seq<Moment>, k: nat)
    requires k <= |hist|
  {
    Isolated(hist[..k]) ==> Trace(hist[..k])
  }

  lemma TurnsServed(hist: seq<Moment>, n: Name, files: Bundle)
    requires Turns(hist, n, files) && Exposed(hist, n, files)
    ensures ServedIsWell(hist)
  {
    var c: nat :| c <= |hist| && TurnsAt(hist, c, n, files);
    var r :| 0 <= r < |hist| && ExposedAt(hist[r], n, files);
    forall k: nat | k <= |hist| ensures WellAfter(hist, k) {
      if c < k {
        assert ExposedAt(hist[..k][r], n, files);
        LostRelease(hist[..k], n, files);
      } else {
        TraceShorter(hist[..k], hist[..c]);
      }
    }
  }

  lemma TraceShorter(a: seq<Moment>, b: seq<Moment>)
    requires a <= b && Trace(b)
    ensures Trace(a)
  {
    forall i: nat | i < |a| ensures GoodAt(a, i) { assert GoodAt(b, i); }
    forall i: nat, j: nat | i <= j < |a| ensures KeptAt(a, i, j) { assert KeptAt(b, i, j); }
  }

  /** How a deploy fares that takes a launcher for another file and replaces `current`. */
  ghost predicate Fares(hist: seq<Moment>, n: Name, files: Bundle, ok: bool, short: bool) {
    if !ok then Turns(hist, n, files) else if short then hist != [] && Trace(hist[..|hist| - 1]) && Isolated(hist) else Trace(hist)
  }

  /** What became of the release decides whether every launcher was served. */
  lemma LostOrWell(hist: seq<Moment>, n: Name, files: Bundle)
    requires hist != [] && Exposed(hist, n, files) && Turns(hist, n, files)
    ensures ServedIsWell(hist)
    ensures if Keeps(hist[|hist| - 1].fs, n, files) then Trace(hist) else !Isolated(hist)
  {
    TurnsServed(hist, n, files);
    var c: nat :| c <= |hist| && TurnsAt(hist, c, n, files);
    if Keeps(hist[|hist| - 1].fs, n, files) { assert c == |hist| && hist[..c] == hist; } else { LostRelease(hist, n, files); }
  }

  /** For a deploy that took a launcher for another file, and for any other. `sound` says that all was
      well before it. */
  lemma Judged(hist: seq<Moment>, n: Name, files: Bundle, ok: bool, short: bool, misled: bool, sound: bool)
    requires hist != [] && (misled ==> Exposed(hist, n, files))
    requires sound ==> if misled then Fares(hist, n, files, ok, short) else Trace(hist)
    ensures misled && !Keeps(hist[|hist| - 1].fs, n, files) ==> !Isolated(hist)
    ensures sound ==> (Isolated(hist) <==> !(misled && !ok && !Keeps(hist[|hist| - 1].fs, n, files)))
    ensures sound ==> ServedIsWell(if ok && short then hist[..|hist| - 1] else hist)
    ensures sound && Isolated(hist) && !(misled && ok && short) ==> Trace(hist)
  {
    if misled && !Keeps(hist[|hist| - 1].fs, n, files) { LostRelease(hist, n, files); }
    if sound && misled && !ok { LostOrWell(hist, n, files); }
    if Trace(hist) {
      TraceIsIsolated(hist);
      TraceServed(hist);
      TraceShorter(hist[..|hist| - 1], hist);
    }
    if sound && ok && short { TraceServed(hist[..|hist| - 1]); }
  }

  lemma TraceServed(hist: seq<Moment>)
    requires Trace(hist)
    ensures ServedIsWell(hist)
  {
    forall k: nat | k <= |hist| ensures WellAfter(hist, k) { TraceShorter(hist[..k], hist); }
  }

  /** Isolation outlives the launcher: replacing the hook by something else leaves every release. */
  lemma NoLauncherNow(hist: seq<Moment>, m: Moment)
    requires hist != [] && Isolated(hist) && !IsLauncher(m.fs.dest) && m.fs.store == hist[|hist| - 1].fs.store
    ensures Isolated(hist + [m])
  {
    var hist', last := hist + [m], |hist| - 1;
    forall start: nat, resolve: nat | start <= resolve < |hist'| && IsLauncher(hist'[start].fs.dest) ensures ServedFrom(hist', start, resolve) {
      assert ServedFrom(hist, start, if resolve < |hist| then resolve else last);
    }
  }
}
