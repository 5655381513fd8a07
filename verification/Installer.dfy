/** The deploy program itself: the primitives it calls, each of which may fail, and the sequence
    in which it calls them, with its rollback. `hist` records every state the disk goes through. */
module Installation {
  import opened Decimal
  import opened Deploy

  /** The names one deploy makes up, all with its own suffix. */
  predicate Mine(n: Name, suffix: string) {
    (n.Staging? || n.Release? || n.CurrentTmp? || n.RestoreTmp?) && n.suffix == suffix
  }

  /** No earlier deploy used the suffix: it has the process id and random digits in it. */
  predicate Unused(fs: Fs, suffix: string) {
    && suffix !in fs.temps && (forall n :: n in fs.store ==> !Mine(n, suffix))
    && (Target(fs).Some? ==> !Mine(Target(fs).value, suffix))
  }

  predicate Clear(pinned: map<Name, Bundle>, suffix: string) { forall n :: n in pinned ==> !Mine(n, suffix) }

  /** The two states differ only in this deploy's own names. */
  ghost predicate Apart(a: Fs, b: Fs, suffix: string) {
    && (forall n :: !Mine(n, suffix) ==> (n in b.store <==> n in a.store))
    && (forall n :: n in a.store && !Mine(n, suffix) ==> b.store[n] == a.store[n])
  }

  /** A launcher does not look at this deploy's names. */
  ghost predicate Quiet(fs: Fs, pinned: map<Name, Bundle>, suffix: string) {
    IsLauncher(fs.dest) ==> Clear(pinned, suffix) && (Target(fs).Some? ==> !Mine(Target(fs).value, suffix))
  }

  predicate Proper(fs: Fs) { fs.root || fs.store == map[] }

  /** A step no launcher can notice: it touches only this deploy's own names, or the hook is no
      launcher at all. */
  ghost predicate Unseen(a: Fs, b: Fs, pinned: map<Name, Bundle>, suffix: string) {
    b.dest == a.dest && Proper(b) && Quiet(a, pinned, suffix) && (IsLauncher(a.dest) ==> Apart(a, b, suffix))
  }

  lemma UnseenIsGood(a: Fs, b: Fs, pinned: map<Name, Bundle>, suffix: string)
    requires Unseen(a, b, pinned, suffix) && Pin(pinned, a) == pinned
    ensures Pin(pinned, b) == pinned && Runs(b) == Runs(a) && Quiet(b, pinned, suffix)
    ensures Good(Moment(a, pinned)) ==> Good(Moment(b, pinned))
  {
    if IsLauncher(a.dest) {
      assert Current in a.store <==> Current in b.store;
      assert Target(b) == Target(a);
      if Target(a).Some? {
        var n := Target(a).value;
        assert n in b.store <==> n in a.store;
      }
    }
  }

  /** A step that leaves every release that a launcher may have resolved, and a launcher one to resolve. */
  ghost predicate KeepsPinned(a: Fs, b: Fs, pinned: map<Name, Bundle>) {
    && b.dest == a.dest && Proper(b) && (IsLauncher(a.dest) ==> Target(b).Some? && Target(b).value in pinned)
    && forall n :: n in pinned ==> n in a.store && n in b.store && b.store[n] == a.store[n]
  }

  lemma PinnedKept(a: Fs, b: Fs, pinned: map<Name, Bundle>)
    requires Good(Moment(a, pinned)) && KeepsPinned(a, b, pinned)
    ensures Good(Moment(b, pinned)) && Pin(pinned, b) == pinned
  {
  }

  lemma OwnKeepsPinned(a: Fs, b: Fs, name: Name, pinned: map<Name, Bundle>)
    requires Good(Moment(a, pinned)) && a.root && b == a.(store := b.store) && b.store - {name} == a.store - {name} && name != Current
    requires name !in pinned || b.store == a.store
    ensures KeepsPinned(a, b, pinned)
  {
    assert Current in a.store <==> Current in a.store - {name};
    assert Current in b.store <==> Current in b.store - {name};
    assert Current in a.store ==> (a.store - {name})[Current] == a.store[Current] && (b.store - {name})[Current] == b.store[Current];
    forall n | n in pinned ensures n in b.store && b.store[n] == a.store[n] {
      if n != name { assert n in a.store - {name} && (a.store - {name})[n] == a.store[n] && (b.store - {name})[n] == b.store[n]; }
    }
  }

  lemma BackKeepsPinned(a: Fs, b: Fs, prev: Name, suffix: string, pinned: map<Name, Bundle>)
    requires Good(Moment(a, pinned)) && a.root && prev in pinned
    requires b == a.(store := (a.store - {RestoreTmp(suffix)})[Current := Link(prev)])
    ensures KeepsPinned(a, b, pinned)
  {
    forall n | n in pinned ensures n in a.store && n in b.store && b.store[n] == a.store[n] {
      assert n.Release?;
    }
  }

  /** A step on one of the deploy's own names. */
  lemma OwnNameUnseen(a: Fs, b: Fs, name: Name, pinned: map<Name, Bundle>, suffix: string)
    requires a.root && Mine(name, suffix) && b == a.(store := b.store) && b.store - {name} == a.store - {name}
    requires Quiet(a, pinned, suffix)
    ensures Unseen(a, b, pinned, suffix)
  {
    forall n | !Mine(n, suffix)
      ensures (n in b.store <==> n in a.store) && (n in a.store ==> b.store[n] == a.store[n])
    {
      assert n in b.store <==> n in b.store - {name};
      assert n in a.store <==> n in a.store - {name};
      assert n in a.store ==> (a.store - {name})[n] == a.store[n] && (b.store - {name})[n] == b.store[n];
    }
  }

  /** The components in a source, as staged: its bytes, the entrypoint executable. */
  function Staged(components: seq<Component>, src: map<Component, string>): Bundle
    requires forall i :: 0 <= i < |components| ==> components[i] in src
  {
    map rel | rel in components :: File(src[rel], rel == Entrypoint)
  }

  lemma StagedNext(components: seq<Component>, src: map<Component, string>, n: nat)
    requires n < |components| && forall i :: 0 <= i <= n ==> components[i] in src
    ensures Staged(components[..n + 1], src) == Staged(components[..n], src)[components[n] := File(src[components[n]], components[n] == Entrypoint)]
  {
    assert components[..n + 1] == components[..n] + [components[n]];
  }

  /** The source has every component, none empty. */
  predicate Whole(src: map<Component, string>) { forall c: Component :: c in src && src[c] != "" }

  /** The bundle of a source: its bytes, the entrypoint executable. */
  function BundleOf(src: map<Component, string>): Bundle { map c | c in src :: File(src[c], c == Entrypoint) }

  predicate Lacks(src: map<Component, string>, c: Component) { c !in src || src[c] == "" }

  lemma InManifest(c: Component)
    ensures c in COMPONENTS
  {
    var at := match c
      case Entrypoint => 0 case Init => 1 case Shell => 2 case GrepPatterns => 3 case GrepArgs => 4 case GrepGuard => 5
      case SedGuard => 6 case ShellLex => 7 case ShellPython => 8 case PythonWriteEval => 9 case PythonWriteGuard => 10
      case Payload => 11 case RenameGuard => 12 case Dispatch => 13;
    assert COMPONENTS[at] == c;
  }

  /** What a full manifest stages is complete if and only if the source is whole. */
  lemma WholeIs(components: seq<Component>, src: map<Component, string>)
    requires (forall i :: 0 <= i < |components| ==> components[i] in src) && (forall c: Component :: c in components)
    ensures Staged(components, src) == BundleOf(src) && (Complete(BundleOf(src)) <==> Whole(src))
  {
    forall c: Component ensures c in components && c in src {}
    var staged, bundle := Staged(components, src), BundleOf(src);
    assert staged == bundle by { assert forall c: Component :: c in staged && c in bundle && staged[c] == bundle[c]; }
    assert forall c: Component :: bundle[c].bytes == src[c];
  }

  /** The file system with `files` in the staging directory. */
  function StageWith(fs: Fs, suffix: string, files: Bundle): Fs {
    fs.(store := fs.store[Staging(suffix) := Dir(files)])
  }

  lemma StageTwice(fs: Fs, suffix: string, files: Bundle, more: Bundle)
    ensures StageWith(StageWith(fs, suffix, files), suffix, more) == StageWith(fs, suffix, more)
  {
  }

  function Own(suffix: string, stamp: nat): set<Name> {
    {Staging(suffix), Release(stamp, suffix), CurrentTmp(suffix), RestoreTmp(suffix)}
  }

  lemma PutAndTaken(s: map<Name, Entry>, base: map<Name, Entry>, name: Name, e: Entry)
    requires s == base[name := e] && name !in base
    ensures s - {name} == base
  {
  }

  lemma SameWithout(a: map<Name, Entry>, b: map<Name, Entry>, name: Name)
    requires a - {name} == b - {name} && name !in b
    ensures name !in a ==> a == b
    ensures a - {name} == b
  {
    assert b - {name} == b;
    if name !in a { assert a - {name} == a; }
  }

  lemma OnlyOwnLeft(a: map<Name, Entry>, b: map<Name, Entry>, name: Name, suffix: string, stamp: nat)
    requires name in Own(suffix, stamp) && a - {name} == b - {name}
    ensures a - Own(suffix, stamp) == b - Own(suffix, stamp)
    ensures forall m :: m != name ==> (m in a <==> m in b) && (m in a ==> a[m] == b[m])
  {
    forall m | m != name
      ensures (m in a <==> m in b) && (m in a ==> a[m] == b[m])
    {
      assert (m in a <==> m in a - {name}) && (m in b <==> m in b - {name});
      assert m in a ==> (a - {name})[m] == a[m] && (b - {name})[m] == b[m];
    }
  }

  /** Nothing has been added but a staging directory. */
  predicate StagingOnly(base: map<Name, Entry>, s: map<Name, Entry>, suffix: string) {
    s - {Staging(suffix)} == base - {Staging(suffix)} && (Staging(suffix) in s ==> s[Staging(suffix)].Dir?)
  }

  lemma StagingAdded(base: map<Name, Entry>, files: Bundle, suffix: string)
    requires Staging(suffix) !in base
    ensures StagingOnly(base, base, suffix) && StagingOnly(base, base[Staging(suffix) := Dir(files)], suffix)
    ensures base[Staging(suffix) := Dir(files)] - {Staging(suffix)} == base
  {
  }

  lemma Unstaged(base: map<Name, Entry>, mid: map<Name, Entry>, final: map<Name, Entry>, suffix: string, stamp: nat)
    requires forall n :: n in base ==> !Mine(n, suffix)
    requires mid - {Staging(suffix)} == base - {Staging(suffix)} && final - {Release(stamp, suffix)} == mid - {Release(stamp, suffix)}
    ensures final - Own(suffix, stamp) == base && (Staging(suffix) !in mid && Release(stamp, suffix) !in final ==> final == base)
    ensures Release(stamp, suffix) !in mid
  {
    SameWithout(mid, base, Staging(suffix));
    assert Release(stamp, suffix) in mid ==> Release(stamp, suffix) in mid - {Staging(suffix)};
    SameWithout(final, mid, Release(stamp, suffix));
    assert base - Own(suffix, stamp) == base;
    OnlyOwnLeft(mid, base, Staging(suffix), suffix, stamp);
    OnlyOwnLeft(final, mid, Release(stamp, suffix), suffix, stamp);
  }

  /** The store of an unfinished installation: the release, perhaps a link not yet in place, and
      a `current` that may have been replaced, which a directory cannot be. */
  ghost predicate Unfinished(base: map<Name, Entry>, s: map<Name, Entry>, files: Bundle, suffix: string, stamp: nat, replaced: bool) {
    && s - {CurrentTmp(suffix), Current} == base[Release(stamp, suffix) := Dir(files)] - {Current}
    && (replaced ==> Current in s && s[Current].Link? && !Blocked(base))
    && (!replaced ==> s - {CurrentTmp(suffix)} == base[Release(stamp, suffix) := Dir(files)])
  }

  lemma UnfinishedNames(base: map<Name, Entry>, s: map<Name, Entry>, now: map<Name, Entry>, files: Bundle, suffix: string, stamp: nat)
    requires Unfinished(base, s, files, suffix, stamp, true) && now - {CurrentTmp(suffix)} == s - {CurrentTmp(suffix)}
    requires RestoreTmp(suffix) !in base
    ensures Current in now && now[Current] == s[Current] && RestoreTmp(suffix) !in now
  {
    OnlyOwnLeft(s, now, CurrentTmp(suffix), suffix, stamp);
    var tmp := RestoreTmp(suffix);
    assert tmp in s <==> tmp in s - {CurrentTmp(suffix), Current};
  }

  /** A directory at `current`, which `os.replace` does not replace by a link. */
  predicate Blocked(s: map<Name, Entry>) { Current in s && s[Current].Dir? }

  /** The store a rollback without faults leads to. It is the old one, unless `current` was replaced
      and had been a plain file: that is gone. */
  function Restored(base: map<Name, Entry>, replaced: bool): map<Name, Entry> {
    if replaced && Current in base && base[Current].Plain? then base - {Current} else base
  }

  /** `current` as the rollback puts it back: the link it was, or nothing. */
  function Relinked(s: map<Name, Entry>, prev: Option<Name>): map<Name, Entry> {
    if prev.Some? then s[Current := Link(prev.value)] else s - {Current}
  }

  function LinkOf(s: map<Name, Entry>): Option<Name> {
    if Current in s && s[Current].Link? then Some(s[Current].target) else None
  }

  /** After taking away the temporary link, putting `current` back if it was replaced, and removing
      the release, the store is `Restored`. */
  lemma RolledBack(base: map<Name, Entry>, s: map<Name, Entry>, files: Bundle, suffix: string, stamp: nat, replaced: bool,
                   relinked: map<Name, Entry>, final: map<Name, Entry>)
    requires Unfinished(base, s, files, suffix, stamp, replaced)
    requires Release(stamp, suffix) !in base && CurrentTmp(suffix) !in base
    requires var unlinked := s - {CurrentTmp(suffix)};
             relinked == if replaced then Relinked(unlinked, LinkOf(base)) else unlinked
    requires final == relinked - {Release(stamp, suffix)}
    ensures final == Restored(base, replaced)
  {
    var n := Release(stamp, suffix);
    var staged := base[n := Dir(files)];
    if replaced {
      forall m | m != Current && m != CurrentTmp(suffix)
        ensures (m in s <==> m in staged) && (m in s ==> s[m] == staged[m])
      {
        assert m in s <==> m in s - {CurrentTmp(suffix), Current};
        assert m in staged <==> m in staged - {Current};
        assert m in s ==> (s - {CurrentTmp(suffix), Current})[m] == s[m] && (staged - {Current})[m] == staged[m];
      }
      assert relinked == Relinked(staged, LinkOf(base));
      assert final == Relinked(base, LinkOf(base));
      assert Relinked(base, LinkOf(base)) == Restored(base, true);
    } else {
      assert staged - {n} == base;
    }
  }

  /** The release is in place and active, and beside it nothing has changed but the hook, which is
      the launcher unless it was written short. */
  predicate Delivered(was: Fs, fs: Fs, files: Bundle, suffix: string, stamp: nat, short: bool) {
    var n := Release(stamp, suffix);
    && fs.store == was.store[n := Dir(files)][Current := Link(n)] && fs.temps == was.temps && fs.root
    && (IsLauncher(fs.dest) <==> !short) && (!short ==> Runs(fs) == Version(files))
  }

  /** `os.write` writes less than the launcher. */
  predicate Short(wrote: nat) { wrote < |LAUNCHER| }

  /** What is then in the file. */
  function Written(wrote: nat): (r: string)
    ensures if Short(wrote) then r < LAUNCHER else r == LAUNCHER
  {
    if wrote < |LAUNCHER| then LAUNCHER[..wrote] else LAUNCHER
  }

  ghost predicate Recorded(fs: Fs, pinned: map<Name, Bundle>, hist: seq<Moment>, seen: set<Running>) {
    hist != [] && hist[|hist| - 1] == Moment(fs, pinned) && Runs(fs) in seen && Pin(pinned, fs) == pinned && Proper(fs)
  }

  class Installer {
    var fs: Fs
    var pinned: map<Name, Bundle>
    var hist: seq<Moment>
    ghost var seen: set<Running>     // everything an executable hook would have run so far
    var faults: nat                  // failed primitives, refused sources and things in the way, so far
    var step: nat                    // how many primitives have been called
    const fails: set<nat>            // which of them fail
    const wrote: nat                 // how much of the launcher `os.write` writes

    /** The record ends with the present. */
    ghost predicate Valid()
      reads this
    {
      Recorded(fs, pinned, hist, seen)
    }

    ghost predicate Sound()
      reads this
    {
      Valid() && Trace(hist)
    }

    ghost predicate Hushed(suffix: string)
      reads this
    {
      Quiet(fs, pinned, suffix)
    }

    /** The record only grows. */
    twostate predicate Later()
      reads this
    {
      old(hist) <= hist && old(pinned).Keys <= pinned.Keys && old(faults) <= faults
    }

    /** No launcher has noticed anything. */
    twostate predicate Silent(suffix: string)
      reads this
    {
      old(Hushed(suffix)) ==> Hushed(suffix) && pinned == old(pinned) && seen == old(seen) && (old(Sound()) ==> Sound())
    }

    /** Whatever launchers have noticed, all they resolved is there. */
    twostate predicate Steady()
      reads this
    {
      old(Sound()) ==> Sound() && pinned == old(pinned)
    }

    /** The installer started on any disk, or on one whose history is known, for instance one that
        an earlier deploy left in any state it went through. */
    constructor (fs: Fs, pinned: map<Name, Bundle>, hist: seq<Moment>, fails: set<nat>, wrote: nat)
      requires hist != [] && hist[|hist| - 1] == Moment(fs, pinned) && Pin(pinned, fs) == pinned && Proper(fs)
      ensures Valid() && this.fs == fs && this.hist == hist && this.pinned == pinned && faults == 0
      ensures this.fails == fails && this.wrote == wrote
    {
      this.fs, this.pinned, this.hist := fs, pinned, hist;
      this.fails, this.wrote, step := fails, wrote, 0;
      seen, faults := {Runs(fs)}, 0;
    }

    /** The disk is now `next`. */
    method Become(next: Fs)
      requires Valid() && Proper(next)
      modifies this`fs, this`pinned, this`hist, this`seen
      ensures Valid() && Later() && fs == next && pinned == Pin(old(pinned), next) && seen == old(seen) + {Runs(next)}
      ensures hist == old(hist) + [Moment(fs, pinned)]
      ensures old(Sound()) && Good(Moment(fs, pinned)) && Sub(old(pinned), pinned) ==> Sound()
    {
      fs := next;
      pinned := Pin(pinned, next);
      seen := seen + {Runs(next)};
      hist := hist + [Moment(fs, pinned)];
      if Trace(old(hist)) && Good(Moment(fs, pinned)) && Sub(old(pinned), pinned) {
        TraceExtend(old(hist), Moment(fs, pinned));
      }
    }

    /** A step that no launcher can notice when it is `Unseen`. */
    method Change(next: Fs, suffix: string)
      requires Valid() && Proper(next)
      modifies this`fs, this`pinned, this`hist, this`seen
      ensures Valid() && Later() && fs == next && hist == old(hist) + [Moment(fs, pinned)]
      ensures old(Unseen(fs, next, pinned, suffix)) ==> Silent(suffix)
      ensures old(KeepsPinned(fs, next, pinned)) ==> Steady()
    {
      assert Trace(hist) ==> GoodAt(hist, |hist| - 1);
      if Unseen(fs, next, pinned, suffix) { UnseenIsGood(fs, next, pinned, suffix); }
      if Trace(hist) && KeepsPinned(fs, next, pinned) { PinnedKept(fs, next, pinned); }
      Become(next);
    }

    /** A primitive that may fail without an effect. */
    method Try(next: Fs, suffix: string) returns (ok: bool)
      requires Valid() && Proper(next)
      modifies this
      ensures Valid() && Later() && fs == (if ok then next else old(fs)) && faults == old(faults) + (if ok then 0 else 1)
      ensures old(Unseen(fs, next, pinned, suffix)) ==> Silent(suffix)
      ensures !ok || old(KeepsPinned(fs, next, pinned)) ==> Steady()
      ensures if ok then hist == old(hist) + [Moment(fs, pinned)] else hist == old(hist)
      ensures fails == {} ==> ok
    {
      ok := Works();
      if ok { Change(next, suffix); } else { Fault(); }
    }

    /** Whether the next primitive works. */
    method Works() returns (ok: bool)
      modifies this`step
      ensures ok <==> old(step) !in fails
      ensures step == old(step) + 1
    {
      ok, step := step !in fails, step + 1;
    }

    /** An error that leaves the disk alone. */
    method Fault()
      modifies this`faults
      ensures faults == old(faults) + 1
    {
      faults := faults + 1;
    }

    /** A primitive on one of this deploy's own names. */
    method TryOwn(name: Name, store: map<Name, Entry>, suffix: string) returns (ok: bool)
      requires Valid() && fs.root && Mine(name, suffix) && store - {name} == fs.store - {name}
      modifies this
      ensures Valid() && Later() && Silent(suffix)
      ensures fs == (if ok then old(fs).(store := store) else old(fs)) && faults == old(faults) + (if ok then 0 else 1)
      ensures name !in old(pinned) || fs.store == old(fs.store) ==> Steady()
      ensures if ok then hist == old(hist) + [Moment(fs, pinned)] else hist == old(hist)
      ensures fails == {} ==> ok
    {
      var next := fs.(store := store);
      if Quiet(fs, pinned, suffix) { OwnNameUnseen(fs, next, name, pinned, suffix); }
      if Trace(hist) && (name !in pinned || store == fs.store) {
        assert GoodAt(hist, |hist| - 1);
        OwnKeepsPinned(fs, next, name, pinned);
      }
      ok := Try(next, suffix);
    }

    /** `shutil.rmtree(…, ignore_errors=True)`: on the way the directory holds any part of its
        files, and an error leaves it at that. */
    method RemoveTree(name: Name, suffix: string)
      requires Valid() && fs.root && Mine(name, suffix)
      modifies this
      ensures Valid() && Later() && Silent(suffix)
      ensures fs == old(fs).(store := fs.store) && fs.store - {name} == old(fs.store) - {name}
      ensures faults == old(faults) && (name in old(fs.store) ==> old(fs.store)[name].Dir?) ==> name !in fs.store
      ensures old(Sound()) && name in old(fs.store) && old(fs.store)[name].Dir? ==> Turns(hist, name, old(fs.store)[name].files)
    {
      if name in fs.store && fs.store[name].Dir? {
        var keep: set<Component> := *;
        var files := fs.store[name].files;
        if Trace(hist) { TraceTurns(hist, name, files); }
        RemoveStep(name, files, fs.store[name := Dir(map p | p in files && p in keep :: files[p])], suffix);
        RemoveStep(name, files, fs.store - {name}, suffix);
      }
    }

    /** A step that removes some of a directory, which held `files`. */
    method RemoveStep(name: Name, ghost files: Bundle, store: map<Name, Entry>, suffix: string)
      requires Valid() && fs.root && Mine(name, suffix) && store - {name} == fs.store - {name}
      requires name in store ==> Keeps(fs, name, files)
      modifies this
      ensures Valid() && Later() && Silent(suffix)
      ensures fs == old(fs).(store := store) || (fs == old(fs) && faults > old(faults))
      ensures (name in store ==> old(Sound())) && old(Turns(hist, name, files)) ==> Turns(hist, name, files)
    {
      if name in store && store[name] == Dir(files) { SameEntry(store, fs.store, name); }
      var ok := TryOwn(name, store, suffix);
      if name in store && store[name] == Dir(files) {
        if Trace(hist) { TraceTurns(hist, name, files); }
      } else if ok && Turns(old(hist), name, files) {
        TurnsOn(old(hist), Moment(fs, pinned), name, files);
      }
    }

    /** Copying or downloading one component: an error may leave any bytes behind. */
    method PutFile(rel: Component, file: File, suffix: string) returns (ok: bool, ghost got: Bundle)
      requires Valid() && fs.root && Staging(suffix) in fs.store && fs.store[Staging(suffix)].Dir?
      modifies this
      ensures Valid() && Later() && Silent(suffix)
      ensures faults == old(faults) + if ok then 0 else 1
      ensures fs == StageWith(old(fs), suffix, got)
      ensures ok ==> got == old(fs.store[Staging(suffix)].files)[rel := file]
      ensures fails == {} ==> ok
    {
      var files := fs.store[Staging(suffix)].files;
      var works := Works();
      if !works {
        var bytes: string, exec: bool := *, *;
        got := files[rel := File(bytes, exec)];
        var next := StageWith(fs, suffix, files[rel := File(bytes, exec)]);
        if Quiet(fs, pinned, suffix) { OwnNameUnseen(fs, next, Staging(suffix), pinned, suffix); }
        Change(next, suffix);
        Fault();
        ok := false;
      } else {
        ok := TryOwn(Staging(suffix), StageWith(fs, suffix, files[rel := file]).store, suffix);
        got := if ok then files[rel := file] else files;
        assert old(fs.store)[Staging(suffix) := Dir(files)] == old(fs.store);
      }
    }

    /** One component of the manifest: its parent directory, its bytes, its mode. The source may
        lack it; a download that comes back empty is refused. */
    method StageOne(rel: Component, src: map<Component, string>, local: bool, suffix: string) returns (ok: bool, ghost got: Bundle)
      requires Valid() && fs.root && Staging(suffix) in fs.store && fs.store[Staging(suffix)].Dir?
      modifies this
      ensures Valid() && Later() && Silent(suffix)
      ensures faults == old(faults) + if ok then 0 else 1
      ensures fs == StageWith(old(fs), suffix, got)
      ensures ok ==> rel in src && got == old(fs.store[Staging(suffix)].files)[rel := File(src[rel], rel == Entrypoint)]
      ensures fails == {} ==> (ok <==> rel in src && (local || src[rel] != ""))
    {
      got := fs.store[Staging(suffix)].files;
      assert fs.store[Staging(suffix) := Dir(got)] == fs.store;
      ok := TryOwn(Staging(suffix), fs.store, suffix);
      if !ok { return; }
      if rel !in src || (!local && src[rel] == "") {
        Fault();
        ok := false;
        return;
      }
      ok, got := PutFile(rel, File(src[rel], rel == Entrypoint), suffix);
    }

    /** The staging directory, filled from the manifest. */
    method FillStage(components: seq<Component>, src: map<Component, string>, local: bool, suffix: string) returns (ok: bool, ghost got: Bundle)
      requires Valid() && fs.root && Unused(fs, suffix)
      modifies this
      ensures Valid() && Later() && Silent(suffix)
      ensures faults == old(faults) + if ok then 0 else 1
      ensures fs == old(fs) || fs == StageWith(old(fs), suffix, got)
      ensures ok ==> (forall i :: 0 <= i < |components| ==> components[i] in src)
                     && got == Staged(components, src) && fs == StageWith(old(fs), suffix, got)
      ensures fails == {} && !ok ==> exists i :: 0 <= i < |components| && Lacks(src, components[i])
    {
      got := map[];
      ok := TryOwn(Staging(suffix), StageWith(fs, suffix, map[]).store, suffix);
      if ok { ok, got := StageAll(old(fs), components, src, local, suffix); }
    }

    /** One component after the other. */
    method StageAll(ghost base: Fs, components: seq<Component>, src: map<Component, string>, local: bool, suffix: string)
      returns (ok: bool, ghost got: Bundle)
      requires Valid() && fs.root && fs == StageWith(base, suffix, map[])
      modifies this
      ensures Valid() && Later() && Silent(suffix)
      ensures faults == old(faults) + if ok then 0 else 1
      ensures fs == StageWith(base, suffix, got)
      ensures ok ==> (forall i :: 0 <= i < |components| ==> components[i] in src) && got == Staged(components, src)
      ensures fails == {} && !ok ==> exists i :: 0 <= i < |components| && Lacks(src, components[i])
    {
      ok, got := true, map[];
      var i := 0;
      while i < |components|
        invariant i <= |components| && forall j :: 0 <= j < i ==> components[j] in src
        invariant Valid() && Later() && Silent(suffix) && faults == old(faults)
        invariant got == Staged(components[..i], src) && fs == StageWith(base, suffix, got)
      {
        ok, got := StageNext(base, components, i, src, local, suffix);
        if !ok { return; }
        i := i + 1;
      }
      assert components[..i] == components;
    }

    method StageNext(ghost base: Fs, components: seq<Component>, i: nat, src: map<Component, string>, local: bool, suffix: string)
      returns (ok: bool, ghost got: Bundle)
      requires i < |components| && forall j :: 0 <= j < i ==> components[j] in src
      requires Valid() && fs.root && fs == StageWith(base, suffix, Staged(components[..i], src))
      modifies this
      ensures Valid() && Later() && Silent(suffix) && faults == old(faults) + if ok then 0 else 1
      ensures fs == StageWith(base, suffix, got)
      ensures ok ==> components[i] in src && got == Staged(components[..i + 1], src)
      ensures fails == {} && !ok ==> Lacks(src, components[i])
    {
      ok, got := StageOne(components[i], src, local, suffix);
      StageTwice(base, suffix, Staged(components[..i], src), got);
      if ok { StagedNext(components, src, i); }
    }

    /** The steps of `_stage_bundle` that may raise. */
    method StageSteps(src: map<Component, string>, local: bool, suffix: string, stamp: nat) returns (ok: bool)
      requires Valid() && fs.root && Unused(fs, suffix)
      modifies this
      ensures Valid() && Later() && Silent(suffix)
      ensures faults == old(faults) + if ok then 0 else 1
      ensures ok ==> Whole(src) && fs == old(fs).(store := old(fs.store)[Release(stamp, suffix) := Dir(BundleOf(src))])
      ensures !ok ==> fs == old(fs).(store := fs.store) && StagingOnly(old(fs.store), fs.store, suffix)
      ensures fails == {} ==> (ok <==> Whole(src))
    {
      ghost var got;
      ok, got := FillStage(COMPONENTS, src, local, suffix);
      StagingAdded(old(fs.store), got, suffix);
      if ok {
        var files := fs.store[Staging(suffix)].files;
        forall c: Component ensures c in COMPONENTS { InManifest(c); }
        WholeIs(COMPONENTS, src);
        if Complete(files) {
          ok := Promote(suffix, stamp);
        } else {
          Fault();
          ok := false;
        }
      }
    }

    /** `os.replace` of the staging directory to the release name. */
    method Promote(suffix: string, stamp: nat) returns (ok: bool)
      requires Valid() && fs.root && Staging(suffix) in fs.store
      modifies this
      ensures Valid() && Later() && Silent(suffix)
      ensures faults == old(faults) + if ok then 0 else 1
      ensures fs == if ok then old(fs).(store := (old(fs.store) - {Staging(suffix)})[Release(stamp, suffix) := old(fs.store)[Staging(suffix)]])
                    else old(fs)
      ensures fails == {} ==> ok
    {
      var next := fs.(store := (fs.store - {Staging(suffix)})[Release(stamp, suffix) := fs.store[Staging(suffix)]]);
      assert Apart(fs, next, suffix);
      ok := Try(next, suffix);
    }

    /** `_stage_bundle`: the release directory, or the store as it was. */
    method Stage(src: map<Component, string>, local: bool, suffix: string, stamp: nat) returns (ok: bool)
      requires Valid() && fs.root && Unused(fs, suffix)
      modifies this
      ensures Valid() && Later() && Silent(suffix)
      ensures ok ==> Whole(src) && faults == old(faults)
                     && fs == old(fs).(store := old(fs.store)[Release(stamp, suffix) := Dir(BundleOf(src))])
      ensures !ok ==> faults > old(faults) && fs == old(fs).(store := fs.store)
                      && fs.store - Own(suffix, stamp) == old(fs.store)
                      && (faults == old(faults) + 1 ==> fs == old(fs))
      // When no primitive fails: exactly for a source with every component, none empty.
      ensures fails == {} ==> (ok <==> Whole(src))
    {
      ok := StageSteps(src, local, suffix, stamp);
      if !ok { Unstage(old(fs).store, suffix, stamp); }
    }

    /** What `_stage_bundle` removes when it fails. */
    method Unstage(ghost base: map<Name, Entry>, suffix: string, stamp: nat)
      requires Valid() && fs.root && (forall n :: n in base ==> !Mine(n, suffix))
      requires StagingOnly(base, fs.store, suffix)
      modifies this
      ensures Valid() && Later() && Silent(suffix) && fs == old(fs).(store := fs.store)
      ensures fs.store - Own(suffix, stamp) == base && (faults == old(faults) ==> fs.store == base)
    {
      RemoveTree(Staging(suffix), suffix);
      ghost var mid := fs.store;
      RemoveTree(Release(stamp, suffix), suffix);
      Unstaged(base, mid, fs.store, suffix, stamp);
    }

    /** `_unlink_quietly` on a link or file of the store. */
    method Unlink(name: Name, suffix: string)
      requires Valid() && fs.root
      modifies this
      ensures Valid() && Later() && (Mine(name, suffix) || !IsLauncher(old(fs.dest)) ==> Silent(suffix))
      ensures fs == old(fs).(store := fs.store) && fs.store - {name} == old(fs.store) - {name}
      ensures faults == old(faults) ==> name !in fs.store
      ensures name != Current && name !in old(pinned) ==> Steady()
    {
      if name in fs.store {
        if fs.store[name].Dir? {
          Fault();
        } else {
          var next := fs.(store := fs.store - {name});
          if Mine(name, suffix) && Quiet(fs, pinned, suffix) { OwnNameUnseen(fs, next, name, pinned, suffix); }
          if Trace(hist) && name != Current && name !in pinned {
            assert GoodAt(hist, |hist| - 1);
            OwnKeepsPinned(fs, next, name, pinned);
          }
          var _ := Try(next, suffix);
        }
      }
    }

    /** `os.replace` of the new link over `current`, which fails on a directory. Under a launcher it
        is the one step at which its runs change version. */
    method ReplaceCurrent(files: Bundle, suffix: string, stamp: nat) returns (ok: bool)
      requires Valid() && fs.root && Complete(files)
      requires Release(stamp, suffix) in fs.store && fs.store[Release(stamp, suffix)] == Dir(files)
      requires CurrentTmp(suffix) in fs.store && fs.store[CurrentTmp(suffix)] == Link(Release(stamp, suffix))
      modifies this
      ensures Valid() && Later() && (old(Sound()) ==> Sound()) && (!ok || !IsLauncher(fs.dest) ==> Silent(suffix))
      ensures faults == old(faults) + if ok then 0 else 1
      ensures ok ==> fs == old(fs).(store := (old(fs.store) - {CurrentTmp(suffix)})[Current := Link(Release(stamp, suffix))])
                     && !Blocked(old(fs.store))
      ensures ok && IsLauncher(fs.dest) ==> seen == old(seen) + {Version(files)} && Runs(fs) == Version(files)
                                            && ExposedAt(hist[|hist| - 1], Release(stamp, suffix), files)
      ensures ok ==> old(pinned).Keys <= pinned.Keys
      ensures !ok ==> fs == old(fs)
      ensures fails == {} ==> (ok <==> !Blocked(old(fs.store)))
    {
      var works := Works();
      if !works || Blocked(fs.store) {
        Fault();
        return false;
      }
      var n := Release(stamp, suffix);
      var next := fs.(store := (fs.store - {CurrentTmp(suffix)})[Current := Link(n)]);
      if Trace(hist) {
        assert GoodAt(hist, |hist| - 1);
        ReplacedIsGood(fs, next, pinned, files, suffix, stamp);
      }
      if !IsLauncher(fs.dest) { UnseenIsGood(fs, next, pinned, suffix); }
      Become(next);
      ok := true;
    }

    /** Take back what an unfinished activation left: the link not yet in place and the release. */
    method Discard(ghost base: map<Name, Entry>, suffix: string, stamp: nat)
      requires Valid() && fs.root && fs.store - Own(suffix, stamp) == base
      requires Staging(suffix) !in fs.store && RestoreTmp(suffix) !in fs.store
      requires Release(stamp, suffix) in fs.store ==> fs.store[Release(stamp, suffix)].Dir?
      modifies this
      ensures Valid() && Later() && Silent(suffix) && fs == old(fs).(store := fs.store)
      ensures fs.store - Own(suffix, stamp) == base && (faults == old(faults) ==> fs.store == base)
    {
      ghost var first := fs.store;
      Unlink(CurrentTmp(suffix), suffix);
      ghost var mid := fs.store;
      OnlyOwnLeft(first, mid, CurrentTmp(suffix), suffix, stamp);
      RemoveTree(Release(stamp, suffix), suffix);
      Discarded(base, first, mid, fs.store, suffix, stamp);
    }

    /** The branch of `_deploy_locked` for a hook that is the launcher already. */
    method SwapVersion(ghost base: Fs, files: Bundle, suffix: string, stamp: nat) returns (ok: bool)
      requires Valid() && Hushed(suffix) && fs.root && IsLauncher(fs.dest) && Unused(base, suffix)
      requires fs == base.(store := base.store[Release(stamp, suffix) := Dir(files)]) && Complete(files)
      modifies this
      ensures Valid() && Later() && (old(Sound()) ==> Sound())
      ensures ok ==> seen == old(seen) + {Runs(fs)} && Runs(fs) == Version(files) && faults == old(faults)
                     && fs == base.(store := base.store[Release(stamp, suffix) := Dir(files)][Current := Link(Release(stamp, suffix))])
      ensures !ok ==> Silent(suffix) && faults > old(faults) && fs == base.(store := fs.store)
                      && fs.store - Own(suffix, stamp) == base.store && (faults == old(faults) + 1 ==> fs == base)
      ensures fails == {} ==> (ok <==> !Blocked(base.store))
    {
      var n, tmp := Release(stamp, suffix), CurrentTmp(suffix);
      ghost var staged := base.store[n := Dir(files)];
      assert staged - {tmp} == staged;
      ok := TryOwn(tmp, fs.store[tmp := Link(n)], suffix);
      if ok {
        PutAndTaken(fs.store, staged, tmp, Link(n));
        ok := ReplaceCurrent(files, suffix, stamp);
      }
      if !ok {
        TakenToBase(base.store, fs.store, Dir(files), suffix, stamp);
        Discard(base.store, suffix, stamp);
      }
    }

    /** A primitive beside the hook. */
    method TryTemps(temps: map<string, File>, suffix: string) returns (ok: bool)
      requires Valid() && fs.root
      modifies this
      ensures Valid() && Later() && Silent(suffix) && Steady()
      ensures fs == (if ok then old(fs).(temps := temps) else old(fs)) && faults == old(faults) + (if ok then 0 else 1)
      ensures fails == {} ==> ok
    {
      if Trace(hist) { assert GoodAt(hist, |hist| - 1); }
      ok := Try(fs.(temps := temps), suffix);
    }

    /** `_write_launcher_tempfile`: `os.write` may write less than it was given without an error. */
    method WriteTemp(suffix: string) returns (ok: bool, short: bool)
      requires Valid() && fs.root && suffix !in fs.temps
      modifies this
      ensures Valid() && Later() && Silent(suffix)
      ensures faults == old(faults) + if ok then 0 else 1
      ensures fs == old(fs).(temps := fs.temps) && fs.temps - {suffix} == old(fs.temps)
      ensures ok ==> suffix in fs.temps && fs.temps[suffix] == File(Written(wrote), true)
      ensures (short <==> Short(wrote)) && (fails == {} ==> ok)
    {
      short := Short(wrote);
      ok := PutTemp(Written(wrote), suffix);
    }

    /** A new file beside the hook: its bytes, its mode. */
    method PutTemp(bytes: string, suffix: string) returns (ok: bool)
      requires Valid() && fs.root && suffix !in fs.temps
      modifies this
      ensures Valid() && Later() && Silent(suffix)
      ensures faults == old(faults) + if ok then 0 else 1
      ensures fs == old(fs).(temps := fs.temps) && fs.temps - {suffix} == old(fs.temps)
      ensures ok ==> suffix in fs.temps && fs.temps[suffix] == File(bytes, true)
      ensures fails == {} ==> ok
    {
      ghost var base := fs.temps;
      ok := TryTemps(fs.temps[suffix := File(bytes, false)], suffix);
      if ok {
        ok := TryTemps(fs.temps[suffix := File(bytes, true)], suffix);
      }
      assert base - {suffix} == base;
    }

    method UnlinkTemp(suffix: string)
      requires Valid() && fs.root
      modifies this
      ensures Valid() && Later() && Silent(suffix)
      ensures fs == old(fs).(temps := fs.temps) && fs.temps - {suffix} == old(fs.temps) - {suffix}
      ensures faults == old(faults) ==> suffix !in fs.temps
      ensures Steady()
    {
      if suffix in fs.temps {
        var _ := TryTemps(fs.temps - {suffix}, suffix);
      }
    }

    /** `_restore_current_link`. */
    method RestoreLink(prev: Option<Name>, suffix: string)
      requires Valid() && fs.root && Current in fs.store && fs.store[Current].Link? && RestoreTmp(suffix) !in fs.store
      modifies this
      ensures Valid() && Later() && (!IsLauncher(old(fs.dest)) ==> Silent(suffix))
      ensures fs == old(fs).(store := fs.store)
      ensures fs.store - {Current, RestoreTmp(suffix)} == old(fs.store) - {Current}
      ensures faults == old(faults) ==> fs.store == Relinked(old(fs.store), prev)
      ensures faults == old(faults) + 1 && prev.Some? ==> fs.store == old(fs.store)
      ensures prev.Some? && prev.value in old(pinned) ==> Steady()
    {
      if prev.None? {
        Unlink(Current, suffix);
        assert faults == old(faults) ==> fs.store - {Current} == fs.store;
        assert fs.store - {Current, RestoreTmp(suffix)} == fs.store - {Current};
      } else {
        LinkBack(prev.value, suffix);
        RelinkedRest(old(fs.store), fs.store, prev.value, suffix);
      }
    }

    /** A new link to `prev` takes the place of `current`. */
    method LinkBack(prev: Name, suffix: string)
      requires Valid() && fs.root && Current in fs.store && RestoreTmp(suffix) !in fs.store
      modifies this
      ensures Valid() && Later() && (!IsLauncher(old(fs.dest)) ==> Silent(suffix))
      ensures fs == old(fs).(store := fs.store)
      ensures fs.store - {RestoreTmp(suffix)} == old(fs.store) || fs.store == old(fs.store)[Current := Link(prev)]
      ensures faults == old(faults) ==> fs.store == old(fs.store)[Current := Link(prev)]
      ensures faults == old(faults) + 1 ==> fs.store == old(fs.store)
      ensures prev in old(pinned) ==> Steady()
    {
      var tmp := RestoreTmp(suffix);
      if Trace(hist) { assert GoodAt(hist, |hist| - 1) && tmp !in pinned; }
      assert fs.store - {tmp} == fs.store;
      var ok := TryOwn(tmp, fs.store[tmp := Link(prev)], suffix);
      if ok {
        PutAndTaken(fs.store, old(fs.store), tmp, Link(prev));
        ok := ReplaceBack(prev, suffix);
      }
      if !ok { DropNewLink(old(fs.store), suffix); }
    }

    /** The new link, if it is there, goes again. */
    method DropNewLink(ghost base: map<Name, Entry>, suffix: string)
      requires Valid() && fs.root && RestoreTmp(suffix) !in base && fs.store - {RestoreTmp(suffix)} == base
      modifies this
      ensures Valid() && Later() && Silent(suffix) && fs == old(fs).(store := fs.store) && fs.store - {RestoreTmp(suffix)} == base
      ensures faults == old(faults) ==> fs.store == base
      ensures RestoreTmp(suffix) !in old(pinned) ==> Steady()
    {
      Unlink(RestoreTmp(suffix), suffix);
      assert base - {RestoreTmp(suffix)} == base;
      SameWithout(fs.store, base, RestoreTmp(suffix));
    }

    /** `os.replace` of that link over `current`. */
    method ReplaceBack(prev: Name, suffix: string) returns (ok: bool)
      requires Valid() && fs.root
      modifies this
      ensures Valid() && Later() && (!IsLauncher(old(fs.dest)) ==> Silent(suffix))
      ensures faults == old(faults) + if ok then 0 else 1
      ensures fs == if ok then old(fs).(store := (old(fs.store) - {RestoreTmp(suffix)})[Current := Link(prev)]) else old(fs)
      ensures prev in old(pinned) ==> Steady()
    {
      var next := fs.(store := (fs.store - {RestoreTmp(suffix)})[Current := Link(prev)]);
      if Trace(hist) && prev in pinned {
        assert GoodAt(hist, |hist| - 1);
        BackKeepsPinned(fs, next, prev, suffix, pinned);
      }
      ok := Try(next, suffix);
    }

    /** `os.replace` of the launcher over the hook. */
    method InstallTemp(files: Bundle, suffix: string, n: Name) returns (ok: bool)
      requires Valid() && fs.root && suffix in fs.temps && n.Release? && n in fs.store && fs.store[n] == Dir(files)
      requires Complete(files) && Target(fs) == Some(n)
      modifies this
      ensures Valid() && Later() && faults == old(faults) + if ok then 0 else 1
      ensures fs == if ok then old(fs).(dest := Regular(old(fs.temps)[suffix]), temps := old(fs.temps) - {suffix}) else old(fs)
      ensures seen == old(seen) + (if ok then {Runs(fs)} else {}) && (!ok ==> pinned == old(pinned))
      ensures !ok || !IsLauncher(old(fs.dest)) || IsLauncher(fs.dest) ==> (old(Sound()) ==> Sound())
      ensures old(Sound()) ==> Isolated(hist)
      ensures ok ==> hist == old(hist) + [Moment(fs, pinned)]
      ensures fails == {} ==> (ok <==> !old(fs.dest).Folder?)
    {
      if Trace(hist) { TraceIsIsolated(hist); }
      var works := Works();
      if !works || fs.dest.Folder? {
        Fault();
        return false;
      }
      var next := fs.(dest := Regular(fs.temps[suffix]), temps := fs.temps - {suffix});
      if Trace(hist) && (!IsLauncher(fs.dest) || IsLauncher(next.dest)) {
        assert GoodAt(hist, |hist| - 1) && (!IsLauncher(fs.dest) ==> pinned == map[]);
        assert Good(Moment(next, Pin(pinned, next))) && Sub(pinned, Pin(pinned, next));
      }
      Become(next);
      ok := true;
      if Trace(old(hist)) {
        if IsLauncher(old(fs.dest)) && !IsLauncher(fs.dest) {
          NoLauncherNow(old(hist), Moment(fs, pinned));
        } else {
          TraceIsIsolated(hist);
        }
      }
    }

    /** The steps that put a launcher in place. `replaced` says whether `current` was. */
    method InstallSteps(ghost base: Fs, files: Bundle, suffix: string, stamp: nat)
      returns (ok: bool, short: bool, replaced: bool)
      requires Valid() && Hushed(suffix) && fs.root && Unused(base, suffix) && Complete(files)
      requires fs == base.(store := base.store[Release(stamp, suffix) := Dir(files)])
      modifies this
      ensures Valid() && Later() && faults == old(faults) + if ok then 0 else 1
      ensures !ok && (!replaced || !IsLauncher(base.dest)) ==> Silent(suffix)
      ensures ok && (!IsLauncher(base.dest) || !short) ==> (old(Sound()) ==> Sound()) && seen == old(seen) + {Runs(fs)}
      ensures old(Sound()) ==> Isolated(hist) && (!ok ==> Sound()) && (ok ==> Trace(hist[..|hist| - 1]))
      ensures replaced && IsLauncher(base.dest) ==> Exposed(hist, Release(stamp, suffix), files)
      ensures ok ==> fs == base.(dest := fs.dest,
                                 store := base.store[Release(stamp, suffix) := Dir(files)][Current := Link(Release(stamp, suffix))])
                     && replaced && fs.dest.Regular? && fs.dest.file.exec
                     && fs.dest.file.bytes == Written(wrote)
      ensures !ok ==> fs == base.(store := fs.store, temps := fs.temps) && fs.temps - {suffix} == base.temps
                      && Unfinished(base.store, fs.store, files, suffix, stamp, replaced)
      ensures (short <==> Short(wrote)) && (fails == {} ==> (ok <==> !Blocked(base.store) && !base.dest.Folder?))
    {
      replaced, short := Activate(base, files, suffix, stamp);
      ok := replaced;
      if ok {
        ghost var mid := hist;
        ok := InstallTemp(files, suffix, Release(stamp, suffix));
        assert ok ==> hist[..|hist| - 1] == mid;
        if IsLauncher(base.dest) { ExposedLonger(mid, hist, Release(stamp, suffix), files); }
      }
      if Trace(hist) { TraceIsIsolated(hist); }
    }

    /** Those up to the replacing of `current`. */
    method Activate(ghost base: Fs, files: Bundle, suffix: string, stamp: nat) returns (ok: bool, short: bool)
      requires Valid() && Hushed(suffix) && fs.root && Unused(base, suffix) && Complete(files)
      requires fs == base.(store := base.store[Release(stamp, suffix) := Dir(files)])
      modifies this
      ensures Valid() && Later() && faults == old(faults) + if ok then 0 else 1
      ensures (old(Sound()) ==> Sound()) && (!ok || !IsLauncher(base.dest) ==> Silent(suffix))
      ensures ok && IsLauncher(base.dest) ==>
                && seen == old(seen) + {Runs(fs)} && ExposedAt(hist[|hist| - 1], Release(stamp, suffix), files)
      ensures fs == base.(store := fs.store, temps := fs.temps) && fs.temps - {suffix} == base.temps
      ensures Unfinished(base.store, fs.store, files, suffix, stamp, ok)
      ensures ok ==> && fs.store == base.store[Release(stamp, suffix) := Dir(files)][Current := Link(Release(stamp, suffix))]
                     && suffix in fs.temps && fs.temps[suffix] == File(Written(wrote), true)
      ensures (short <==> Short(wrote)) && (fails == {} ==> (ok <==> !Blocked(base.store)))
    {
      StagedOnly(base.store, files, suffix, stamp);
      LinkedToo(base.store, files, suffix, stamp);
      ok, short := PrepareLauncher(suffix, stamp);
      if ok { ok := ReplaceCurrent(files, suffix, stamp); }
    }

    /** The launcher beside the hook and the link beside `current`. */
    method PrepareLauncher(suffix: string, stamp: nat) returns (ok: bool, short: bool)
      requires Valid() && fs.root && suffix !in fs.temps && CurrentTmp(suffix) !in fs.store
      modifies this
      ensures Valid() && Later() && Silent(suffix) && faults == old(faults) + if ok then 0 else 1
      ensures fs == old(fs).(store := fs.store, temps := fs.temps) && fs.temps - {suffix} == old(fs.temps)
      ensures fs.store == if ok then old(fs.store)[CurrentTmp(suffix) := Link(Release(stamp, suffix))] else old(fs.store)
      ensures ok ==> suffix in fs.temps && fs.temps[suffix] == File(Written(wrote), true)
      ensures (short <==> Short(wrote)) && (fails == {} ==> ok)
    {
      ok, short := WriteTemp(suffix);
      if ok { ok := TryOwn(CurrentTmp(suffix), fs.store[CurrentTmp(suffix) := Link(Release(stamp, suffix))], suffix); }
    }

    /** The rollback of an unfinished installation. */
    method TakeBack(ghost base: Fs, prev: Option<Name>, ghost files: Bundle, suffix: string, stamp: nat, replaced: bool)
      requires Valid() && fs.root && Unused(base, suffix) && prev == Target(base)
      requires fs == base.(store := fs.store, temps := fs.temps) && fs.temps - {suffix} == base.temps
      requires Unfinished(base.store, fs.store, files, suffix, stamp, replaced)
      modifies this
      ensures Valid() && Later() && (!replaced || !IsLauncher(base.dest) ==> Silent(suffix))
      ensures fs == base.(store := fs.store, temps := fs.temps)
      ensures faults == old(faults) ==> fs == base.(store := Restored(base.store, replaced))
      ensures prev.Some? && prev.value in old(pinned) && old(Sound()) ==> Turns(hist, Release(stamp, suffix), files)
    {
      ghost var first := fs.store;
      TakeLinksBack(base, prev, files, suffix, stamp, replaced);
      ghost var relinked := fs.store;
      RemoveTree(Release(stamp, suffix), suffix);
      if faults == old(faults) {
        SameWithout(relinked, fs.store, Release(stamp, suffix));
        RolledBack(base.store, first, files, suffix, stamp, replaced, relinked, fs.store);
      }
    }

    /** Its part before the release is removed. */
    method TakeLinksBack(ghost base: Fs, prev: Option<Name>, ghost files: Bundle, suffix: string, stamp: nat, replaced: bool)
      requires Valid() && fs.root && Unused(base, suffix)
      requires fs == base.(store := fs.store, temps := fs.temps) && fs.temps - {suffix} == base.temps
      requires Unfinished(base.store, fs.store, files, suffix, stamp, replaced)
      modifies this
      ensures Valid() && Later() && (!replaced || !IsLauncher(base.dest) ==> Silent(suffix))
      ensures fs == base.(store := fs.store, temps := fs.temps) && Keeps(fs, Release(stamp, suffix), files)
      ensures prev.Some? && prev.value in old(pinned) ==> Steady()
      ensures faults == old(faults) ==>
                var unlinked := old(fs.store) - {CurrentTmp(suffix)};
                fs.store == (if replaced then Relinked(unlinked, prev) else unlinked) && fs.temps == base.temps
    {
      ghost var first := fs.store;
      UnlinkBoth(suffix);
      ghost var unlinked := fs.store;
      if replaced {
        UnfinishedNames(base.store, first, fs.store, files, suffix, stamp);
        RestoreLink(prev, suffix);
      }
      ReleaseLeft(base.store, first, unlinked, fs.store, files, suffix, stamp, replaced);
      if faults == old(faults) {
        assert base.temps - {suffix} == base.temps;
      }
    }

    /** The link and the launcher that did not get into place. */
    method UnlinkBoth(suffix: string)
      requires Valid() && fs.root
      modifies this
      ensures Valid() && Later() && Silent(suffix) && Steady()
      ensures fs == old(fs).(store := fs.store, temps := fs.temps)
      ensures fs.temps - {suffix} == old(fs.temps) - {suffix} && fs.store - {CurrentTmp(suffix)} == old(fs.store) - {CurrentTmp(suffix)}
      ensures faults == old(faults) ==> fs.store == old(fs.store) - {CurrentTmp(suffix)} && fs.temps == old(fs.temps) - {suffix}
    {
      if Trace(hist) { assert GoodAt(hist, |hist| - 1) && CurrentTmp(suffix) !in pinned; }
      Unlink(CurrentTmp(suffix), suffix);
      UnlinkTemp(suffix);
      if faults == old(faults) {
        assert fs.store - {CurrentTmp(suffix)} == fs.store;
        assert fs.temps - {suffix} == fs.temps;
      }
    }

    /** The branch of `_deploy_locked` for a hook that is not seen to be the launcher. */
    method InstallFresh(ghost base: Fs, prev: Option<Name>, files: Bundle, suffix: string, stamp: nat)
      returns (ok: bool, short: bool, replaced: bool)
      requires Valid() && Hushed(suffix) && fs.root && Unused(base, suffix) && Complete(files) && prev == Target(base)
      requires fs == base.(store := base.store[Release(stamp, suffix) := Dir(files)])
      modifies this
      ensures Valid() && Later()
      ensures !ok && (!replaced || !IsLauncher(base.dest)) ==> Silent(suffix)
      ensures ok && (!IsLauncher(base.dest) || !short) ==> (old(Sound()) ==> Sound()) && seen == old(seen) + {Runs(fs)}
      ensures IsLauncher(base.dest) && replaced ==>
                && Exposed(hist, Release(stamp, suffix), files)
                && (old(Sound()) ==> Fares(hist, Release(stamp, suffix), files, ok, short))
                && (!Keeps(fs, Release(stamp, suffix), files) ==> !Isolated(hist))
      ensures ok ==> replaced && Delivered(base, fs, files, suffix, stamp, short) && faults == old(faults)
      ensures !ok ==> fs == base.(store := fs.store, temps := fs.temps) && faults > old(faults)
                      && (faults == old(faults) + 1 ==> fs == base.(store := Restored(base.store, replaced)))
      ensures (short <==> Short(wrote)) && (fails == {} ==> (ok <==> !Blocked(base.store) && !base.dest.Folder?))
    {
      ghost var n := Release(stamp, suffix);
      if Trace(hist) { assert GoodAt(hist, |hist| - 1) && Target(fs) == prev; }
      ok, short, replaced := InstallSteps(base, files, suffix, stamp);
      if !ok {
        ghost var mid := hist;
        TakeBack(base, prev, files, suffix, stamp, replaced);
        if IsLauncher(base.dest) && replaced {
          ExposedLonger(mid, hist, n, files);
          if !Keeps(fs, n, files) { LostRelease(hist, n, files); }
        }
      }
    }

    /** `_rmdir_if_empty` on a store this deploy made. */
    method RemoveRoot(existed: bool, suffix: string)
      requires Valid() && fs.root
      modifies this
      ensures Valid() && Later() && Silent(suffix) && Steady()
      ensures fs == old(fs).(root := fs.root) && (existed ==> fs.root)
      ensures faults == old(faults) && !existed && fs.store == map[] ==> !fs.root
      ensures hist == old(hist) || (fs.store == map[] && hist == old(hist) + [Moment(fs, pinned)])
    {
      if !existed && fs.store == map[] {
        if Trace(hist) { assert GoodAt(hist, |hist| - 1); }
        var _ := Try(fs.(root := false), suffix);
      }
    }

    /** The part of `_deploy_locked` after staging. The launcher is misread when it is in place and
        not `ready`. */
    method Switch(ghost base: Fs, ready: bool, existed: bool, prev: Option<Name>, files: Bundle, suffix: string, stamp: nat)
      returns (ok: bool, short: bool, replaced: bool)
      requires Valid() && Hushed(suffix) && fs.root && Unused(base, suffix) && Complete(files) && prev == Target(base)
      requires fs == base.(store := base.store[Release(stamp, suffix) := Dir(files)])
      requires (ready ==> IsLauncher(base.dest)) && (!existed ==> base.store == map[])
      modifies this
      ensures Valid() && Later()
      ensures ready || !IsLauncher(base.dest) || !replaced || (ok && !short) ==>
                (old(Sound()) ==> Sound()) && seen == old(seen) + if ok then {Runs(fs)} else {}
      ensures replaced ==> !ready
      ensures IsLauncher(base.dest) && replaced ==>
                && Exposed(hist, Release(stamp, suffix), files)
                && (old(Sound()) ==> Fares(hist, Release(stamp, suffix), files, ok, short))
                && (!Keeps(fs, Release(stamp, suffix), files) ==> !Isolated(hist))
      ensures ok ==> Delivered(base, fs, files, suffix, stamp, short) && faults == old(faults)
      ensures !ok ==> fs.dest == base.dest && faults > old(faults)
                      && (faults == old(faults) + 1 ==> fs == base.(root := existed || ready, store := Restored(base.store, replaced)))
      ensures short <==> !ready && Short(wrote)
      ensures fails == {} ==> (ok <==> !Blocked(base.store) && !base.dest.Folder?)
    {
      short, replaced := false, false;
      if ready {
        ok := SwapVersion(base, files, suffix, stamp);
      } else {
        ok, short, replaced := InstallFresh(base, prev, files, suffix, stamp);
        if !ok {
          ghost var mid := hist;
          RemoveRoot(existed, suffix);
          if IsLauncher(base.dest) && replaced {
            ExposedLonger(mid, hist, Release(stamp, suffix), files);
            if Isolated(hist) { IsolatedShorter(mid, hist); }
            if hist != mid && Turns(mid, Release(stamp, suffix), files) { TurnsOn(mid, Moment(fs, pinned), Release(stamp, suffix), files); }
          }
        }
      }
    }

    /** The rest of `_deploy_locked`, once there is a store. */
    method StageAndSwitch(src: map<Component, string>, local: bool, ready: bool, existed: bool, suffix: string, stamp: nat)
      returns (ok: bool, short: bool, staged: bool, replaced: bool)
      requires Valid() && Hushed(suffix) && fs.root && Unused(fs, suffix)
      requires (ready ==> IsLauncher(fs.dest)) && (!existed ==> fs.store == map[])
      modifies this
      ensures Valid() && Later()
      ensures ready || !IsLauncher(old(fs.dest)) || !replaced || (ok && !short) ==>
                (old(Sound()) ==> Sound()) && seen == old(seen) + if ok then {Runs(fs)} else {}
      ensures replaced ==> !ready && Whole(src)
      ensures IsLauncher(old(fs.dest)) && replaced ==>
                && Exposed(hist, Release(stamp, suffix), BundleOf(src))
                && (old(Sound()) ==> Fares(hist, Release(stamp, suffix), BundleOf(src), ok, short))
                && (!Keeps(fs, Release(stamp, suffix), BundleOf(src)) ==> !Isolated(hist))
      ensures ok ==> Whole(src) && Delivered(old(fs), fs, BundleOf(src), suffix, stamp, short) && faults == old(faults)
      ensures !ok ==> fs.dest == old(fs.dest) && faults > old(faults)
                      && (faults == old(faults) + 1 ==>
                            fs == old(fs).(root := existed || (staged && ready), store := Restored(old(fs.store), replaced)))
      ensures ok ==> (short <==> !ready && Short(wrote))
      ensures fails == {} ==> (ok <==> Whole(src) && !Blocked(old(fs.store)) && !old(fs.dest).Folder?)
    {
      ok, short, replaced := false, false, false;
      var prev := Target(fs);
      staged := Stage(src, local, suffix, stamp);
      if staged {
        ok, short, replaced := Switch(old(fs), ready, existed, prev, BundleOf(src), suffix, stamp);
      } else {
        RemoveRoot(existed, suffix);
      }
    }

    /** `_deploy_locked`, under the install lock. `unreadable` says that reading the hook fails, so
        that a launcher is taken for another file; `short` that the launcher was not written in
        full; `staged` and `replaced` how far the deploy came. */
    method Deploy(src: map<Component, string>, local: bool, unreadable: bool, suffix: string, stamp: nat)
      returns (ok: bool, short: bool, staged: bool, replaced: bool)
      requires Valid() && Unused(fs, suffix) && Clear(pinned, suffix)
      modifies this
      ensures Valid() && Later()
      // What a launcher relies on holds in every state on the way, and at every moment an executable
      // hook runs what it ran before or what it runs in the end: unless a launcher was misread, its
      // `current` replaced, and the deploy then failed or wrote short.
      ensures !(unreadable && IsLauncher(old(fs.dest)) && replaced && (!ok || short)) ==>
                (old(Sound()) ==> Sound()) && seen <= {Runs(old(fs)), Runs(fs)}
      // Every launcher is served unless such a failed deploy took the new release away again, which
      // it does after its one fault. A short write leaves a hook that is no launcher.
      ensures replaced ==> Whole(src)
      ensures old(Sound()) ==> (Isolated(hist) <==> !(unreadable && IsLauncher(old(fs.dest)) && replaced && !ok
                                                      && !Keeps(fs, Release(stamp, suffix), BundleOf(src))))
      ensures old(Sound()) && Isolated(hist) && !(unreadable && IsLauncher(old(fs.dest)) && ok && short) ==> Sound()
      ensures unreadable && IsLauncher(old(fs.dest)) && replaced && !ok && faults == old(faults) + 1 ==> !Isolated(hist)
      // The same wherever the process dies; a short write spoils at most the last moment.
      ensures old(Sound()) ==> ServedIsWell(if ok && short then hist[..|hist| - 1] else hist)
      // Success: the complete bundle of the source is active. Without a fault there is success.
      ensures ok ==> Whole(src) && Delivered(old(fs), fs, BundleOf(src), suffix, stamp, short)
      ensures ok <==> faults == old(faults)
      ensures ok && !short ==> Good(Moment(fs, Pin(map[], fs)))
      // Failure: the hook is what it was and runs what it ran.
      ensures !ok ==> fs.dest == old(fs.dest)
      ensures !ok && !(unreadable && IsLauncher(old(fs.dest)) && replaced) ==> Runs(fs) == Runs(old(fs))
      // After a single fault the disk is as it was, but for a plain file that was at `current` and
      // for a store made under a launcher that had none.
      ensures !ok && faults == old(faults) + 1 ==>
                fs == old(fs).(root := old(fs.root) || (staged && IsLauncher(old(fs.dest)) && !unreadable),
                               store := Restored(old(fs.store), replaced))
      // When no primitive fails, the deploy succeeds exactly for a whole source with nothing in the way,
      // and the launcher is short exactly when one is written and not in full.
      ensures fails == {} ==> (ok <==> Whole(src) && !Blocked(old(fs.store)) && !old(fs.dest).Folder?)
      ensures ok ==> (short <==> !(IsLauncher(old(fs.dest)) && !unreadable) && Short(wrote))
    {
      ok, short, staged, replaced := DeploySteps(src, local, unreadable, suffix, stamp);
      ReleaseRestored(old(fs.store), suffix, stamp, replaced);
      assert replaced && !ok && faults == old(faults) + 1 ==> !Keeps(fs, Release(stamp, suffix), BundleOf(src));
      ghost var misled := IsLauncher(old(fs.dest)) && replaced;
      Judged(hist, Release(stamp, suffix), BundleOf(src), ok, short, misled, old(Sound()));
    }

    /** The store's directory. */
    method MakeRoot(suffix: string) returns (ok: bool)
      requires Valid() && Unused(fs, suffix) && Clear(pinned, suffix)
      modifies this
      ensures Valid() && Later() && Hushed(suffix) && (old(Sound()) ==> Sound()) && seen == old(seen)
      ensures fs == (if ok then old(fs).(root := true) else old(fs)) && faults == old(faults) + (if ok then 0 else 1)
      ensures fails == {} ==> ok
    {
      ok := Try(fs.(root := true), suffix);
    }

    /** Its steps, and what they do to the record. */
    method DeploySteps(src: map<Component, string>, local: bool, unreadable: bool, suffix: string, stamp: nat)
      returns (ok: bool, short: bool, staged: bool, replaced: bool)
      requires Valid() && Unused(fs, suffix) && Clear(pinned, suffix)
      modifies this
      ensures Valid() && Later() && (replaced ==> Whole(src))
      ensures !(unreadable && IsLauncher(old(fs.dest)) && replaced && (!ok || short)) ==>
                (old(Sound()) ==> Sound()) && seen <= {Runs(old(fs)), Runs(fs)}
      ensures IsLauncher(old(fs.dest)) && replaced ==>
                && unreadable && Exposed(hist, Release(stamp, suffix), BundleOf(src))
                && (old(Sound()) ==> Fares(hist, Release(stamp, suffix), BundleOf(src), ok, short))
      ensures ok ==> Whole(src) && Delivered(old(fs), fs, BundleOf(src), suffix, stamp, short)
      ensures ok <==> faults == old(faults)
      ensures ok && !short ==> Good(Moment(fs, Pin(map[], fs)))
      ensures !ok ==> fs.dest == old(fs.dest)
      ensures !ok && !(unreadable && IsLauncher(old(fs.dest)) && replaced) ==> Runs(fs) == Runs(old(fs))
      ensures !ok && faults == old(faults) + 1 ==>
                fs == old(fs).(root := old(fs.root) || (staged && IsLauncher(old(fs.dest)) && !unreadable),
                               store := Restored(old(fs.store), replaced))
      ensures fails == {} ==> (ok <==> Whole(src) && !Blocked(old(fs.store)) && !old(fs.dest).Folder?)
      ensures ok ==> (short <==> !(IsLauncher(old(fs.dest)) && !unreadable) && Short(wrote))
    {
      seen := {Runs(fs)};
      short, staged, replaced := false, false, false;
      var existed := fs.root;
      ok := MakeRoot(suffix);
      if ok {
        ok, short, staged, replaced := StageAndSwitch(src, local, IsLauncher(fs.dest) && !unreadable, existed, suffix, stamp);
        if ok && !short { DeliveredIsGood(old(fs), fs, BundleOf(src), suffix, stamp); }
      }
    }

    /** The steps of a deploy that goes well up to its last one, the replacing of the hook, and is
        then rolled back without a further fault. */
    method LastStepFails(src: map<Component, string>, suffix: string, stamp: nat)
      requires Valid() && Unused(fs, suffix) && Whole(src) && !Blocked(fs.store)
      modifies this
      ensures Valid() && Later() && fs == old(fs).(store := Restored(old(fs.store), true))
      ensures IsLauncher(old(fs.dest)) ==> !Isolated(hist)
    {
      var before := fs;
      StagesWell(src, suffix, stamp);
      ActivatesWell(BundleOf(src), suffix, stamp);
      // The hook cannot be replaced.
      RollsBackWell(before, BundleOf(src), suffix, stamp);
    }

    /** The rollback, without a fault. */
    method RollsBackWell(before: Fs, ghost files: Bundle, suffix: string, stamp: nat)
      requires Valid() && Proper(before) && Unused(before, suffix) && !Blocked(before.store)
      requires fs == before.(root := true, temps := fs.temps,
                             store := before.store[Release(stamp, suffix) := Dir(files)][Current := Link(Release(stamp, suffix))])
      modifies this`fs, this`pinned, this`hist, this`seen
      ensures Valid() && Later() && fs == before.(store := Restored(before.store, true))
      ensures Exposed(old(hist), Release(stamp, suffix), files) ==> !Isolated(hist)
    {
      Become(fs.(temps := before.temps));
      PutCurrentBack(Target(before), suffix);
      LastStepUndone(before.store, files, suffix, stamp);
      Become(fs.(store := fs.store - {Release(stamp, suffix)}));
      if !before.root { Become(fs.(root := false)); }
      if Exposed(old(hist), Release(stamp, suffix), files) {
        ExposedLonger(old(hist), hist, Release(stamp, suffix), files);
        LostRelease(hist, Release(stamp, suffix), files);
      }
    }

    /** Making the store and staging the release, without a fault. */
    method StagesWell(src: map<Component, string>, suffix: string, stamp: nat)
      requires Valid() && Unused(fs, suffix) && Whole(src)
      modifies this`fs, this`pinned, this`hist, this`seen
      ensures Valid() && Later()
      ensures fs == old(fs).(root := true, store := old(fs.store)[Release(stamp, suffix) := Dir(BundleOf(src))])
    {
      var made := fs.(root := true);
      Become(made);
      Become(StageWith(made, suffix, map[]));
      for i := 0 to |COMPONENTS|
        invariant Valid() && Later()
      {
        Become(StageWith(made, suffix, Staged(COMPONENTS[..i + 1], src)));
      }
      Become(made.(store := made.store[Release(stamp, suffix) := Dir(BundleOf(src))]));
    }

    /** Writing the launcher beside the hook and replacing `current`, without a fault. */
    method ActivatesWell(files: Bundle, suffix: string, stamp: nat)
      requires Valid() && fs.root && suffix !in fs.temps && CurrentTmp(suffix) !in fs.store
      requires Release(stamp, suffix) in fs.store && fs.store[Release(stamp, suffix)] == Dir(files)
      modifies this`fs, this`pinned, this`hist, this`seen
      ensures Valid() && Later() && (IsLauncher(fs.dest) ==> Exposed(hist, Release(stamp, suffix), files))
      ensures fs == old(fs).(temps := fs.temps, store := old(fs.store)[Current := Link(Release(stamp, suffix))])
    {
      var n, tmp, before := Release(stamp, suffix), CurrentTmp(suffix), fs;
      Become(fs.(temps := fs.temps[suffix := File(LAUNCHER, false)]));
      Become(fs.(temps := fs.temps[suffix := File(LAUNCHER, true)]));
      Become(fs.(store := fs.store[tmp := Link(n)]));
      PutAndTaken(fs.store, before.store, tmp, Link(n));
      Become(fs.(store := (fs.store - {tmp})[Current := Link(n)]));
      assert IsLauncher(fs.dest) ==> ExposedAt(hist[|hist| - 1], n, files);
    }

    /** `_restore_current_link` without a fault. */
    method PutCurrentBack(prev: Option<Name>, suffix: string)
      requires Valid() && fs.root
      modifies this`fs, this`pinned, this`hist, this`seen
      ensures Valid() && Later() && fs == old(fs).(store := Relinked(old(fs.store) - {RestoreTmp(suffix)}, prev))
    {
      if prev.Some? {
        Become(fs.(store := fs.store[RestoreTmp(suffix) := Link(prev.value)]));
        assert fs.store - {RestoreTmp(suffix)} == old(fs.store) - {RestoreTmp(suffix)};
        Become(fs.(store := (fs.store - {RestoreTmp(suffix)})[Current := Link(prev.value)]));
      } else {
        Become(fs.(store := fs.store - {RestoreTmp(suffix)} - {Current}));
      }
    }
  }

  lemma LastStepUndone(base: map<Name, Entry>, files: Bundle, suffix: string, stamp: nat)
    requires (forall n :: n in base ==> !Mine(n, suffix)) && !Blocked(base)
    ensures var n := Release(stamp, suffix);
            var s := base[n := Dir(files)][Current := Link(n)];
            Relinked(s - {RestoreTmp(suffix)}, LinkOf(base)) - {n} == Restored(base, true)
  {
  }

  /** A deploy somebody starts. Its process may die: then only so many of its steps were taken. */
  datatype Attempt = Attempt(src: map<Component, string>, local: bool, unreadable: bool, suffix: string, stamp: nat, dies: Option<nat>,
                             fails: set<nat>, wrote: nat)

  /** What became of an attempt: where its part of the record begins and ends, whether it ran at all,
      whether it died before it was done, and what it did or was about to do. */
  datatype Report = Report(begin: nat, end: nat, ran: bool, died: bool, ok: bool, short: bool, staged: bool, replaced: bool, faults: nat)

  /** What a report says of the disk before and after its attempt, when that did not die. It succeeds
      if and only if it meets no fault: then its bundle is delivered. After one fault the disk is
      restored. */
  predicate Results(a: Attempt, r: Report, was: Fs, now: Fs) {
    && (r.ok <==> r.faults == 0)
    && (a.fails == {} ==> (r.ok <==> Whole(a.src) && !Blocked(was.store) && !was.dest.Folder?))
    && (r.ok ==> (r.short <==> !(IsLauncher(was.dest) && !a.unreadable) && Short(a.wrote)))
    && (r.ok ==> Whole(a.src) && Delivered(was, now, BundleOf(a.src), a.suffix, a.stamp, r.short))
    && (!r.ok ==> now.dest == was.dest)
    && (r.faults == 1 ==>
          now == was.(root := was.root || (r.staged && IsLauncher(was.dest) && !a.unreadable), store := Restored(was.store, r.replaced)))
  }

  predicate Accounts(a: Attempt, r: Report, was: Moment, now: Moment) {
    && (r.ran <==> Unused(was.fs, a.suffix) && Clear(was.pinned, a.suffix))
    && (!r.ran ==> r.end == r.begin && !r.died)
    && (r.died ==> a.dies == Some(r.end - r.begin))
    && (r.ran && !r.died ==> Results(a, r, was.fs, now.fs))
  }

  /** The attempt could not read the launcher it found, and replaced its `current`. */
  predicate Misled(a: Attempt, r: Report, was: Moment) {
    r.ran && a.unreadable && IsLauncher(was.fs.dest) && r.replaced
  }

  predicate MisledAt(attempts: seq<Attempt>, reports: seq<Report>, hist: seq<Moment>, i: nat)
    requires i < |reports| <= |attempts|
  {
    1 <= reports[i].begin <= |hist| && Misled(attempts[i], reports[i], hist[reports[i].begin - 1])
  }

  /** Such an attempt met one fault, and lived to roll back. */
  predicate Harms(attempts: seq<Attempt>, reports: seq<Report>, hist: seq<Moment>, i: nat)
    requires i < |reports| <= |attempts|
  {
    MisledAt(attempts, reports, hist, i) && !reports[i].died && reports[i].faults == 1
  }

  /** What a deploy means for the launchers it finds. */
  predicate Serves(r: Report, misled: bool, isolated: bool, well: bool) {
    && (!isolated ==> misled && !r.ok)
    && (isolated && !well ==> misled && r.ok && r.short && !r.died)
    && (well ==> isolated)
    && (misled && !r.died && r.faults == 1 ==> !isolated)
  }

  /** One deploy that runs to its end, on a disk whose history is well. */
  method DeployInFull(a: Attempt, hist: seq<Moment>) returns (whole: seq<Moment>, r: Report)
    requires hist != [] && Trace(hist) && Unused(hist[|hist| - 1].fs, a.suffix) && Clear(hist[|hist| - 1].pinned, a.suffix)
    ensures hist <= whole && r.begin == |hist| && r.end == |whole| && r.ran && !r.died
    ensures Accounts(a, r, hist[|hist| - 1], whole[|whole| - 1])
    ensures Serves(r, Misled(a, r, hist[|hist| - 1]), Isolated(whole), Trace(whole))
    ensures ServedIsWell(if r.ok && r.short then whole[..|whole| - 1] else whole)
  {
    var now := hist[|hist| - 1];
    assert GoodAt(hist, |hist| - 1);
    GoodIsRecorded(now);
    var installer := new Installer(now.fs, now.pinned, hist, a.fails, a.wrote);
    var ok, short, staged, replaced := installer.Deploy(a.src, a.local, a.unreadable, a.suffix, a.stamp);
    whole := installer.hist;
    r := Report(|hist|, |whole|, true, false, ok, short, staged, replaced, installer.faults);
    if Trace(whole) { TraceIsIsolated(whole); }
  }

  /** One deploy, which may die. */
  method DeployOnce(a: Attempt, hist: seq<Moment>) returns (longer: seq<Moment>, r: Report)
    requires hist != [] && Trace(hist)
    ensures hist <= longer && r.begin == |hist| && r.end == |longer|
    ensures Accounts(a, r, hist[|hist| - 1], longer[|longer| - 1])
    ensures Serves(r, Misled(a, r, hist[|hist| - 1]), Isolated(longer), Trace(longer))
  {
    var now := hist[|hist| - 1];
    if Unused(now.fs, a.suffix) && Clear(now.pinned, a.suffix) {
      longer, r := DeployInFull(a, hist);
      if a.dies.Some? && |hist| + a.dies.value < |longer| {
        CutShort(longer, r, |hist| + a.dies.value, Misled(a, r, now));
        longer := longer[..|hist| + a.dies.value];
        r := r.(end := |longer|, died := true);
      }
    } else {
      TraceIsIsolated(hist);
      longer, r := hist, Report(|hist|, |hist|, false, false, false, false, false, false, 0);
    }
  }

  /** Dying early does no more harm than failing. */
  lemma CutShort(whole: seq<Moment>, r: Report, end: nat, misled: bool)
    requires end < |whole| && Serves(r, misled, Isolated(whole), Trace(whole))
    requires ServedIsWell(if r.ok && r.short then whole[..|whole| - 1] else whole)
    ensures Serves(r.(end := end, died := true), misled, Isolated(whole[..end]), Trace(whole[..end]))
  {
    var cut := whole[..end];
    if Isolated(whole) { IsolatedShorter(cut, whole); }
    if Trace(cut) { TraceIsIsolated(cut); }
    var most := if r.ok && r.short then whole[..|whole| - 1] else whole;
    assert WellAfter(most, end) && most[..end] == cut;
  }

  function Begin(reports: seq<Report>, i: nat): nat
    requires i <= |reports|
  {
    if i == 0 then 1 else reports[i - 1].end
  }

  predicate Told(attempts: seq<Attempt>, reports: seq<Report>, hist: seq<Moment>, i: nat)
    requires i < |reports| <= |attempts|
  {
    && 1 <= Begin(reports, i) == reports[i].begin <= reports[i].end <= |hist|
    && Accounts(attempts[i], reports[i], hist[reports[i].begin - 1], hist[reports[i].end - 1])
  }

  /** The reports account for the whole record, each from where the one before it ends. */
  predicate Story(attempts: seq<Attempt>, reports: seq<Report>, hist: seq<Moment>) {
    && |reports| <= |attempts| && |hist| == Begin(reports, |reports|)
    && forall i: nat :: i < |reports| ==> Told(attempts, reports, hist, i)
  }

  lemma StoryGoesOn(attempts: seq<Attempt>, reports: seq<Report>, hist: seq<Moment>, r: Report, longer: seq<Moment>)
    requires Story(attempts, reports, hist) && |reports| < |attempts| && hist != [] && hist <= longer
    requires r.begin == |hist| && r.end == |longer| && Accounts(attempts[|reports|], r, hist[|hist| - 1], longer[|longer| - 1])
    ensures Story(attempts, reports + [r], longer)
    ensures MisledAt(attempts, reports + [r], longer, |reports|) == Misled(attempts[|reports|], r, hist[|hist| - 1])
    ensures forall i: nat :: i < |reports| && Harms(attempts, reports + [r], longer, i) ==> Harms(attempts, reports, hist, i)
  {
    var reports' := reports + [r];
    forall i: nat | i < |reports'| ensures Told(attempts, reports', longer, i) {
      assert Begin(reports', i) == Begin(reports, i);
      if i < |reports| { assert Told(attempts, reports, hist, i); }
    }
    forall i: nat | i < |reports| && Harms(attempts, reports', longer, i) ensures Harms(attempts, reports, hist, i) {
      assert Told(attempts, reports, hist, i);
    }
  }

  /** Any number of deploys, one after the other under the lock: each succeeds, fails or dies at any
      point, and the next finds the disk as it is. Every launcher gets all its files from one
      complete release, unless the last deploy was `harmful`: it could not read the launcher it
      found, replaced `current` and then failed. The deploys also stop when such a one wrote short:
      so far every launcher was served, but there is none any more. */
  method Deploys(start: Fs, attempts: seq<Attempt>) returns (hist: seq<Moment>, reports: seq<Report>, harmful: bool)
    requires Good(Moment(start, Pin(map[], start)))
    ensures hist != [] && hist[0] == Moment(start, Pin(map[], start)) && Story(attempts, reports, hist)
    ensures harmful <==> !Isolated(hist)
    ensures harmful || |reports| < |attempts| ==>
              var last := |reports| - 1;
              0 <= last && MisledAt(attempts, reports, hist, last)
              && if harmful then !reports[last].ok else reports[last].ok && reports[last].short && !reports[last].died
    ensures (exists i: nat :: i < |reports| && Harms(attempts, reports, hist, i)) ==> harmful
  {
    hist, reports, harmful := [Moment(start, Pin(map[], start))], [], false;
    assert Trace(hist);
    for i := 0 to |attempts|
      invariant hist != [] && hist[0] == Moment(start, Pin(map[], start)) && Trace(hist) && !harmful
      invariant |reports| == i && Story(attempts, reports, hist)
      invariant forall j: nat :: j < |reports| ==> !Harms(attempts, reports, hist, j)
    {
      ghost var was := hist;
      var r;
      hist, r := DeployOnce(attempts[i], hist);
      StoryGoesOn(attempts, reports, was, r, hist);
      reports, harmful := reports + [r], !Isolated(hist);
      if !Trace(hist) { return; }
    }
    TraceIsIsolated(hist);
  }

  /** Also a deploy onto a broken installation leaves a good one. */
  lemma DeliveredIsGood(was: Fs, fs: Fs, files: Bundle, suffix: string, stamp: nat)
    requires Delivered(was, fs, files, suffix, stamp, false) && Complete(files)
    ensures Good(Moment(fs, Pin(map[], fs)))
  {
  }

  lemma GoodIsRecorded(m: Moment)
    requires Good(m)
    ensures Pin(m.pinned, m.fs) == m.pinned && Proper(m.fs)
  {
  }

  lemma ReleaseRestored(base: map<Name, Entry>, suffix: string, stamp: nat, replaced: bool)
    requires forall n :: n in base ==> !Mine(n, suffix)
    ensures Release(stamp, suffix) !in Restored(base, replaced)
  {
  }

  /** Whatever happens to the links, the release is still there. */
  lemma ReleaseLeft(base: map<Name, Entry>, first: map<Name, Entry>, unlinked: map<Name, Entry>, relinked: map<Name, Entry>,
                    files: Bundle, suffix: string, stamp: nat, replaced: bool)
    requires Unfinished(base, first, files, suffix, stamp, replaced) && unlinked - {CurrentTmp(suffix)} == first - {CurrentTmp(suffix)}
    requires if replaced then relinked - {Current, RestoreTmp(suffix)} == unlinked - {Current} else relinked == unlinked
    ensures Release(stamp, suffix) in relinked && relinked[Release(stamp, suffix)] == Dir(files)
  {
    var n := Release(stamp, suffix);
    assert n in first - {CurrentTmp(suffix), Current} && (first - {CurrentTmp(suffix), Current})[n] == first[n];
    assert n in unlinked - {CurrentTmp(suffix)} && (unlinked - {CurrentTmp(suffix)})[n] == unlinked[n] == (first - {CurrentTmp(suffix)})[n];
    if replaced { assert n in unlinked - {Current} && (relinked - {Current, RestoreTmp(suffix)})[n] == (unlinked - {Current})[n]; }
  }

  lemma SameEntry(a: map<Name, Entry>, b: map<Name, Entry>, name: Name)
    requires a - {name} == b - {name} && name in a && name in b && a[name] == b[name]
    ensures a == b
  {
    forall m | m != name ensures (m in a <==> m in b) && (m in a ==> a[m] == b[m]) {
      assert (m in a <==> m in a - {name}) && (m in b <==> m in b - {name});
      assert m in a ==> (a - {name})[m] == a[m] && (b - {name})[m] == b[m];
    }
  }

  lemma RelinkedRest(first: map<Name, Entry>, now: map<Name, Entry>, prev: Name, suffix: string)
    requires RestoreTmp(suffix) !in first && Current in first
    requires now - {RestoreTmp(suffix)} == first || now == first[Current := Link(prev)]
    ensures now - {Current, RestoreTmp(suffix)} == first - {Current}
  {
    assert first - {RestoreTmp(suffix)} == first;
    if now != first[Current := Link(prev)] {
      assert now - {Current, RestoreTmp(suffix)} == (now - {RestoreTmp(suffix)}) - {Current};
    }
  }

  lemma StagedOnly(base: map<Name, Entry>, files: Bundle, suffix: string, stamp: nat)
    requires CurrentTmp(suffix) !in base
    ensures Unfinished(base, base[Release(stamp, suffix) := Dir(files)], files, suffix, stamp, false)
  {
    var staged := base[Release(stamp, suffix) := Dir(files)];
    assert staged - {CurrentTmp(suffix)} == staged;
    assert staged - {CurrentTmp(suffix), Current} == staged - {Current};
  }

  lemma LinkedToo(base: map<Name, Entry>, files: Bundle, suffix: string, stamp: nat)
    requires CurrentTmp(suffix) !in base
    ensures var n := Release(stamp, suffix);
            var staged := base[n := Dir(files)];
            && Unfinished(base, staged[CurrentTmp(suffix) := Link(n)], files, suffix, stamp, false)
            && staged[CurrentTmp(suffix) := Link(n)] - {CurrentTmp(suffix)} == staged
            && Blocked(staged[CurrentTmp(suffix) := Link(n)]) == Blocked(base)
            && (!Blocked(base) ==> Unfinished(base, staged[Current := Link(n)], files, suffix, stamp, true))
  {
    var n, tmp := Release(stamp, suffix), CurrentTmp(suffix);
    var staged := base[n := Dir(files)];
    assert staged[tmp := Link(n)] - {tmp} == staged;
    assert staged[tmp := Link(n)] - {tmp, Current} == staged - {Current};
    assert staged[Current := Link(n)] - {tmp, Current} == staged - {Current};
  }

  lemma Discarded(base: map<Name, Entry>, first: map<Name, Entry>, mid: map<Name, Entry>, final: map<Name, Entry>, suffix: string, stamp: nat)
    requires first - Own(suffix, stamp) == base && Staging(suffix) !in first && RestoreTmp(suffix) !in first
    requires mid - {CurrentTmp(suffix)} == first - {CurrentTmp(suffix)} && final - {Release(stamp, suffix)} == mid - {Release(stamp, suffix)}
    ensures final - Own(suffix, stamp) == base
    ensures CurrentTmp(suffix) !in mid && Release(stamp, suffix) !in final ==> final == base
  {
    OnlyOwnLeft(first, mid, CurrentTmp(suffix), suffix, stamp);
    OnlyOwnLeft(mid, final, Release(stamp, suffix), suffix, stamp);
    if CurrentTmp(suffix) !in mid && Release(stamp, suffix) !in final { assert final - Own(suffix, stamp) == final; }
  }

  lemma TakenToBase(base: map<Name, Entry>, s: map<Name, Entry>, e: Entry, suffix: string, stamp: nat)
    requires forall n :: n in base ==> !Mine(n, suffix)
    requires s - {CurrentTmp(suffix)} == base[Release(stamp, suffix) := e]
    ensures s - Own(suffix, stamp) == base && Staging(suffix) !in s && RestoreTmp(suffix) !in s
    ensures Release(stamp, suffix) in s && s[Release(stamp, suffix)] == e
  {
    var staged := base[Release(stamp, suffix) := e];
    assert s - {CurrentTmp(suffix)} == staged - {CurrentTmp(suffix)};
    OnlyOwnLeft(s, staged, CurrentTmp(suffix), suffix, stamp);
    assert staged - Own(suffix, stamp) == base;
  }

  lemma ReplacedIsGood(a: Fs, b: Fs, pinned: map<Name, Bundle>, files: Bundle, suffix: string, stamp: nat)
    requires Good(Moment(a, pinned)) && Complete(files) && a.root
    requires Release(stamp, suffix) in a.store && a.store[Release(stamp, suffix)] == Dir(files)
    requires b == a.(store := (a.store - {CurrentTmp(suffix)})[Current := Link(Release(stamp, suffix))])
    ensures Good(Moment(b, Pin(pinned, b))) && Sub(pinned, Pin(pinned, b))
  {
    var n := Release(stamp, suffix);
    assert Target(b) == Some(n) && n in b.store && b.store[n] == Dir(files);
  }
}
