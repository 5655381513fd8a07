/** Change generations: callbacks take tokens from one counter and publish them with `fetch_max`,
    queries read the published generation, copy the tree and record what they copied. One action
    is one atomic operation or one section under a lock; all interleave. */
module Watch {
  import opened Decimal

  /** An ignore or configuration file, or any other. */
  datatype Path = IgnoreFile | Plain(id: nat)

  /** A change and the paths its event names, two for a renaming; a change of an ignore file gives the
      paths ignored from then on. */
  datatype Change = Change(paths: seq<Path>, rules: Option<set<nat>>)

  predicate Names(change: Change) { change.rules.Some? ==> IgnoreFile in change.paths }

  /** Every path of the event is one the filter ignores. */
  predicate Ignored(paths: seq<Path>, filter: set<nat>) {
    paths != [] && forall i :: 0 <= i < |paths| ==> paths[i].Plain? && paths[i].id in filter
  }

  /** What a callback makes of an event. */
  datatype Verdict =
    | Dirties       // mark the filter dirty, and count a change
    | Counts        // count a change
    | Drops

  /** Its loop over the paths ends at the first that is an ignore file or is not ignored. */
  function Judge(paths: seq<Path>, filter: set<nat>): Verdict {
    if paths == [] then Drops
    else if paths[0] == IgnoreFile then Dirties
    else if paths[0].id !in filter then Counts
    else Judge(paths[1..], filter)
  }

  function Verdicts(paths: seq<Path>, filter: set<nat>): Verdict { if paths == [] then Counts else Judge(paths, filter) }

  /** The flag is set if and only if the event names an ignore file and every path before it is ignored;
      the event is dropped if and only if all its paths are. */
  lemma {:induction false} VerdictExactly(paths: seq<Path>, filter: set<nat>)
    ensures Judge(paths, filter).Dirties? <==>
            exists k :: 0 <= k < |paths| && paths[k] == IgnoreFile && forall i :: 0 <= i < k ==> paths[i].Plain? && paths[i].id in filter
    ensures Judge(paths, filter).Drops? <==> paths == [] || Ignored(paths, filter)
    decreases |paths|
  {
    if paths != [] && paths[0].Plain? && paths[0].id in filter {
      var rest := paths[1..];
      VerdictExactly(rest, filter);
      if k :| 0 <= k < |rest| && rest[k] == IgnoreFile && forall i :: 0 <= i < k ==> rest[i].Plain? && rest[i].id in filter {
        assert paths[k + 1] == IgnoreFile && forall i :: 0 <= i < k + 1 ==> paths[i].Plain? && paths[i].id in filter by {
          assert forall i :: 1 <= i < k + 1 ==> paths[i] == rest[i - 1];
        }
      }
      if k :| 0 <= k < |paths| && paths[k] == IgnoreFile && forall i :: 0 <= i < k ==> paths[i].Plain? && paths[i].id in filter {
        assert rest[k - 1] == IgnoreFile && forall i :: 0 <= i < k - 1 ==> rest[i].Plain? && rest[i].id in filter;
      }
      assert Ignored(rest, filter) ==> forall i :: 1 <= i < |paths| ==> paths[i] == rest[i - 1];
    }
  }

  /** A watcher callback, or a spurious event with no change behind it. */
  datatype Callback = Callback(change: Option<nat>, stage: Stage)

  datatype Stage =
    | Notified               // the event has been delivered
    | Bumping                // `changed` is about to take a token
    | Holding(token: nat)    // it has the token and has not published it
    | Ended(token: nat)
    | Dropped(under: nat)    // the filter, built from so many changes, ignored every path

  datatype Query =
    | Asked                          // before `filter_dirty.swap`
    | Rebuilding                     // the swap found the filter dirty
    | Installing(rules: set<nat>, from: nat)   // the new filter is built, from so many changes
    | Loading
    | Loaded(g: nat, under: nat)               // and from how many the filter in force was
    | Copied(g: nat, under: nat, n: nat)       // the first n changes are in the copy
    | Answered                       // synced, or not due

  /** A generation, from how many changes the filter was built when it was read, and how many changes
      its copy holds. */
  datatype Sync = Sync(g: nat, under: nat, n: nat)

  /** The changes of the tree are numbered in the order they happened. */
  datatype State = State(
    base: set<nat>,                  // the paths ignored when watching began
    tree: seq<Change>,
    callbacks: map<nat, Callback>,
    queries: map<nat, Query>,
    filter: set<nat>,
    built: nat,                      // from how many changes it was built
    dirty: bool,
    next: nat,
    generation: nat,
    synced: Option<Sync>
  )

  /** The paths ignored by the files on disk. */
  function Rules(base: set<nat>, tree: seq<Change>): set<nat> {
    if tree == [] then base else
    var last := tree[|tree| - 1];
    if last.rules.Some? then last.rules.value else Rules(base, tree[..|tree| - 1])
  }

  /** The process-wide counter starts at 1; the root's own first token is its first generation. */
  function Initial(base: set<nat>): State { State(base, [], map[], map[], base, 0, false, 2, 1, None) }

  datatype Action =
    | Edit(change: Change)
    | Notify(c: nat, cause: Option<nat>)   // an event for a change, or an error event
    | Filter(c: nat)                       // set the dirty flag or consult the filter
    | Take(c: nat)                         // next_generation
    | Publish(c: nat)                      // fetch_max
    | OtherRoot                            // another root takes a token
    | Ask(q: nat)
    | Swap(q: nat)
    | Rebuild(q: nat)
    | Install(q: nat)
    | Load(q: nat)
    | Copy(q: nat)                         // a sync is due: copy the tree
    | Skip(q: nat)                         // no sync is due
    | Mark(q: nat)

  predicate Due(s: State, g: nat, expired: bool) {
    s.generation != g || s.synced.None? || s.synced.value.g != g || expired
  }

  predicate Enabled(s: State, a: Action) {
    match a
    case Edit(change) => Names(change)
    case Notify(c, change) => c !in s.callbacks && (change.Some? ==> change.value < |s.tree|)
    case Filter(c) => c in s.callbacks && s.callbacks[c].stage == Notified && (s.callbacks[c].change.Some? ==> s.callbacks[c].change.value < |s.tree|)
    case Take(c) => c in s.callbacks && s.callbacks[c].stage == Bumping
    case Publish(c) => c in s.callbacks && s.callbacks[c].stage.Holding?
    case OtherRoot => true
    case Ask(q) => q !in s.queries
    case Swap(q) => q in s.queries && s.queries[q] == Asked
    case Rebuild(q) => q in s.queries && s.queries[q] == Rebuilding
    case Install(q) => q in s.queries && s.queries[q].Installing?
    case Load(q) => q in s.queries && s.queries[q] == Loading
    case Copy(q) => q in s.queries && s.queries[q].Loaded?
    case Skip(q) => q in s.queries && s.queries[q].Loaded? && !Due(s, s.queries[q].g, false)
    case Mark(q) => q in s.queries && s.queries[q].Copied?
  }

  function SetStage(s: State, c: nat, stage: Stage): State
    requires c in s.callbacks
  {
    s.(callbacks := s.callbacks[c := s.callbacks[c].(stage := stage)])
  }

  function Heeded(s: State, c: nat, verdict: Verdict): State
    requires c in s.callbacks
  {
    match verdict
    case Dirties => SetStage(s, c, Bumping).(dirty := true)
    case Counts => SetStage(s, c, Bumping)
    case Drops => SetStage(s, c, Dropped(s.built))
  }

  function SetQuery(s: State, q: nat, query: Query): State { s.(queries := s.queries[q := query]) }

  function Apply(s: State, a: Action): State
    requires Enabled(s, a)
  {
    match a
    case Edit(change) => s.(tree := s.tree + [change])
    case Notify(c, change) => s.(callbacks := s.callbacks[c := Callback(change, Notified)])
    case Filter(c) =>
      var change := s.callbacks[c].change;
      Heeded(s, c, if change.None? then Counts else Verdicts(s.tree[change.value].paths, s.filter))
    case Take(c) => SetStage(s, c, Holding(s.next)).(next := s.next + 1)
    case Publish(c) =>
      var token := s.callbacks[c].stage.token;
      SetStage(s, c, Ended(token)).(generation := if token > s.generation then token else s.generation)
    case OtherRoot => s.(next := s.next + 1)
    case Ask(q) => SetQuery(s, q, Asked)
    case Swap(q) => SetQuery(s, q, if s.dirty then Rebuilding else Loading).(dirty := false)
    case Rebuild(q) => SetQuery(s, q, Installing(Rules(s.base, s.tree), |s.tree|))
    case Install(q) => SetQuery(s, q, Loading).(filter := s.queries[q].rules, built := s.queries[q].from)
    case Load(q) => SetQuery(s, q, Loaded(s.generation, s.built))
    case Copy(q) => SetQuery(s, q, Copied(s.queries[q].g, s.queries[q].under, |s.tree|))
    case Skip(q) => SetQuery(s, q, Answered)
    case Mark(q) =>
      var Copied(g, under, n) := s.queries[q];
      SetQuery(s, q, Answered).(synced := if s.generation == g then Some(Sync(g, under, n)) else s.synced)
  }

  ghost predicate Next(s: State, s': State) { exists a :: Enabled(s, a) && s' == Apply(s, a) }

  ghost predicate StepAt(states: seq<State>, i: nat)
    requires 0 < i < |states|
  {
    Next(states[i - 1], states[i])
  }

  ghost predicate Run(states: seq<State>) {
    states != [] && states[0] == Initial(states[0].base) && forall i :: 0 < i < |states| ==> StepAt(states, i)
  }

  // ----- the invariant -----

  function Token(k: Callback): Option<nat> {
    if k.stage.Holding? || k.stage.Ended? then Some(k.stage.token) else None
  }

  /** A copy of the first `n` changes taken after reading generation `g` misses no change whose
      token is at most `g`. */
  ghost predicate Covers(callbacks: map<nat, Callback>, g: nat, n: nat) {
    forall c :: c in callbacks && callbacks[c].change.Some? && Token(callbacks[c]).Some? && Token(callbacks[c]).value <= g
                ==> callbacks[c].change.value < n
  }

  predicate CallbackInv(k: Callback, s: State) {
    && (k.change.Some? ==> k.change.value < |s.tree|)
    && (Token(k).Some? ==> Token(k).value < s.next)
    && (k.stage.Ended? ==> k.stage.token <= s.generation)
  }

  ghost predicate QueryInv(q: Query, s: State) {
    && (q.Loaded? || q.Copied? ==> q.g < s.next && q.g <= s.generation)
    && (q.Copied? ==> q.n <= |s.tree| && Covers(s.callbacks, q.g, q.n))
  }

  ghost predicate Inv(s: State) {
    && s.generation < s.next
    && (forall c :: c in s.callbacks ==> CallbackInv(s.callbacks[c], s))
    && (forall q :: q in s.queries ==> QueryInv(s.queries[q], s))
    && (s.synced.Some? ==> s.synced.value.g < s.next && s.synced.value.n <= |s.tree| && Covers(s.callbacks, s.synced.value.g, s.synced.value.n))
  }

  /** Nothing goes back, and a token handed out now is beyond every token handed out before. */
  ghost predicate Grows(s: State, s': State) {
    && s.next <= s'.next && s.generation <= s'.generation && |s.tree| <= |s'.tree|
    && forall c :: c in s'.callbacks && Token(s'.callbacks[c]).Some? ==>
                     || Token(s'.callbacks[c]).value >= s.next
                     || (c in s.callbacks && Token(s.callbacks[c]) == Token(s'.callbacks[c]) && s.callbacks[c].change == s'.callbacks[c].change)
  }

  lemma CoversStays(s: State, s': State, g: nat, n: nat)
    requires Grows(s, s') && g < s.next && Covers(s.callbacks, g, n)
    ensures Covers(s'.callbacks, g, n)
  {
  }

  lemma ApplyGrows(s: State, a: Action)
    requires Enabled(s, a)
    ensures Grows(s, Apply(s, a))
  {
  }

  lemma CallbacksKeep(s: State, a: Action)
    requires Inv(s) && Enabled(s, a)
    ensures var s' := Apply(s, a); s'.generation < s'.next && forall c :: c in s'.callbacks ==> CallbackInv(s'.callbacks[c], s')
  {
    forall c | c in Apply(s, a).callbacks ensures CallbackInv(Apply(s, a).callbacks[c], Apply(s, a)) { CallbackKeeps(s, a, c); }
  }

  lemma CallbackKeeps(s: State, a: Action, c: nat)
    requires Enabled(s, a) && c in Apply(s, a).callbacks && s.generation < s.next
    requires c in s.callbacks ==> CallbackInv(s.callbacks[c], s)
    ensures CallbackInv(Apply(s, a).callbacks[c], Apply(s, a))
  {
  }

  /** A query that goes on keeps what it knew; a copy taken now misses nothing that has a token. */
  lemma QueriesKeep(s: State, a: Action, q: nat)
    requires Inv(s) && Enabled(s, a) && q in Apply(s, a).queries
    ensures QueryInv(Apply(s, a).queries[q], Apply(s, a))
  {
    var s' := Apply(s, a);
    ApplyGrows(s, a);
    var query := s'.queries[q];
    if q in s.queries && query == s.queries[q] && query.Copied? {
      CoversStays(s, s', query.g, query.n);
    } else if query.Copied? {
      assert a == Copy(q) && s'.callbacks == s.callbacks;
      assert forall c :: c in s.callbacks ==> CallbackInv(s.callbacks[c], s);
    }
  }

  lemma SyncedKeeps(s: State, a: Action)
    requires Inv(s) && Enabled(s, a)
    ensures var s' := Apply(s, a);
            s'.synced.Some? ==> s'.synced.value.g < s'.next && s'.synced.value.n <= |s'.tree|
                                && Covers(s'.callbacks, s'.synced.value.g, s'.synced.value.n)
  {
    var s' := Apply(s, a);
    ApplyGrows(s, a);
    if s'.synced == s.synced && s.synced.Some? {
      CoversStays(s, s', s.synced.value.g, s.synced.value.n);
    } else if s'.synced != s.synced {
      assert a.Mark? && QueryInv(s.queries[a.q], s);
    }
  }

  lemma NextKeeps(s: State, s': State)
    requires Inv(s) && Next(s, s')
    ensures Inv(s')
  {
    var a :| Enabled(s, a) && s' == Apply(s, a);
    CallbacksKeep(s, a);
    SyncedKeeps(s, a);
    forall q | q in s'.queries ensures QueryInv(s'.queries[q], s') { QueriesKeep(s, a, q); }
  }

  lemma {:induction false} RunKeeps(states: seq<State>, i: nat)
    requires Run(states) && i < |states|
    ensures Inv(states[i])
  {
    if i > 0 {
      RunKeeps(states, i - 1);
      assert StepAt(states, i);
      NextKeeps(states[i - 1], states[i]);
    }
  }

  /** A query read generation `g` and then copied the tree. Every change with a token up to `g`
      is in the copy, and a change that is not makes the generation exceed `g` when its callback
      has ended, in whatever order the callbacks publish. */
  lemma NoLostChange(states: seq<State>, i: nat, q: nat, c: nat)
    requires Run(states) && i < |states| && q in states[i].queries && states[i].queries[q].Copied?
    requires c in states[i].callbacks && states[i].callbacks[c].change.Some?
    ensures var Copied(g, _, n) := states[i].queries[q];
            var k := states[i].callbacks[c];
            && (Token(k).Some? && Token(k).value <= g ==> k.change.value < n)
            && (k.change.value >= n && k.stage.Ended? ==> states[i].generation > g)
  {
    RunKeeps(states, i);
    assert CallbackInv(states[i].callbacks[c], states[i]) && QueryInv(states[i].queries[q], states[i]);
  }

  /** When a query finds that no sync is due, the last copy recorded holds every change whose
      callback has ended with a token. */
  lemma NotDueMeansInSync(states: seq<State>, i: nat, g: nat, c: nat)
    requires Run(states) && i < |states| && !Due(states[i], g, false)
    requires c in states[i].callbacks && states[i].callbacks[c].change.Some? && states[i].callbacks[c].stage.Ended?
    ensures states[i].callbacks[c].change.value < states[i].synced.value.n
  {
    RunKeeps(states, i);
    assert CallbackInv(states[i].callbacks[c], states[i]);
  }

  // ----- what the filter can lose -----

  lemma Start(base: set<nat>) returns (states: seq<State>)
    ensures Run(states) && Rising(states) && states[|states| - 1] == Initial(base)
  {
    states := [Initial(base)];
  }

  lemma Extend(states: seq<State>, a: Action) returns (longer: seq<State>)
    requires Run(states) && Enabled(states[|states| - 1], a)
    ensures Run(longer) && longer[|longer| - 1] == Apply(states[|states| - 1], a)
    ensures Rising(states) && states[|states| - 1].built <= Apply(states[|states| - 1], a).built ==> Rising(longer)
  {
    var s := states[|states| - 1];
    assert Next(s, Apply(s, a));
    longer := states + [Apply(s, a)];
    forall i | 0 < i < |longer| ensures StepAt(longer, i) {
      if i < |states| { assert StepAt(states, i); }
    }
    if Rising(states) && s.built <= Apply(s, a).built {
      forall i | 0 < i < |longer| ensures RisesAt(longer, i) {
        if i < |states| { assert RisesAt(states, i); }
      }
    }
  }

  /** Every callback has ended. */
  predicate Settled(s: State) { forall c :: c in s.callbacks ==> s.callbacks[c].stage.Ended? || s.callbacks[c].stage.Dropped? }

  /** The change is in force, nobody ignores its paths any more, every callback has ended, and yet
      a query finds that no sync is due while the last copy lacks the change. */
  predicate Lost(s: State, change: nat, g: nat) {
    && change < |s.tree| && !Ignored(s.tree[change].paths, Rules(s.base, s.tree)) && Settled(s)
    && !Due(s, g, false) && change >= s.synced.value.n
  }

  // ----- when nothing is lost -----

  predicate IgnoreEdit(s: State, j: nat) { j < |s.tree| && s.tree[j].rules.Some? }

  /** Some callback was told of the change. */
  predicate Told(s: State, j: nat) { exists c :: c in s.callbacks && s.callbacks[c].change == Some(j) }

  /** Every edit of an ignore file has been notified. */
  ghost predicate AllNotified(s: State) { forall j: nat :: IgnoreEdit(s, j) ==> Told(s, j) }

  /** Callback `c` is about an edit of an ignore file that the generation last synced counts, while
      the filter in force when that generation was read lacked it. */
  predicate Missed(s: State, c: nat) {
    && s.synced.Some? && c in s.callbacks && s.callbacks[c].change.Some? && IgnoreEdit(s, s.callbacks[c].change.value)
    && Token(s.callbacks[c]).Some? && Token(s.callbacks[c]).value <= s.synced.value.g
    && s.callbacks[c].change.value >= s.synced.value.under
  }

  /** The generation last synced was read under a filter with every ignore edit it counts. */
  ghost predicate Counted(s: State) { forall c :: !Missed(s, c) }

  /** No filter was replaced by one built earlier. */
  predicate RisesAt(states: seq<State>, i: nat)
    requires 0 < i < |states|
  {
    states[i - 1].built <= states[i].built
  }

  predicate Rising(states: seq<State>) { forall i :: 0 < i < |states| ==> RisesAt(states, i) }

  lemma RulesAppend(base: set<nat>, tree: seq<Change>, change: Change, n: nat)
    requires n <= |tree|
    ensures Rules(base, (tree + [change])[..n]) == Rules(base, tree[..n])
    ensures Rules(base, tree + [change]) == if change.rules.Some? then change.rules.value else Rules(base, tree)
  {
    assert (tree + [change])[..n] == tree[..n];
    assert (tree + [change])[..|tree|] == tree;
  }

  /** Without an ignore edit from `n` on, the rules are those of the first `n` changes. */
  lemma {:induction false} RulesSettled(base: set<nat>, tree: seq<Change>, n: nat)
    requires n <= |tree| && forall j :: n <= j < |tree| ==> tree[j].rules.None?
    ensures Rules(base, tree[..n]) == Rules(base, tree)
    decreases |tree|
  {
    if n == |tree| {
      assert tree[..n] == tree;
    } else {
      var front := tree[..|tree| - 1];
      RulesSettled(base, front, n);
      assert front[..n] == tree[..n];
    }
  }

  /** The filter, and each one about to be installed, has the rules of the changes it was built from. */
  predicate FilterInv(s: State) {
    && (forall j :: 0 <= j < |s.tree| ==> Names(s.tree[j]))
    && s.built <= |s.tree| && s.filter == Rules(s.base, s.tree[..s.built])
    && forall q :: q in s.queries && s.queries[q].Installing? ==>
                     s.queries[q].from <= |s.tree| && s.queries[q].rules == Rules(s.base, s.tree[..s.queries[q].from])
  }

  /** What a filter dropped, it ignored; edits of ignore files are never dropped. */
  predicate DropInv(s: State, k: Callback) {
    k.stage.Dropped? ==>
      && k.change.Some? && k.change.value < |s.tree| && k.stage.under <= |s.tree|
      && s.tree[k.change.value].rules.None? && Ignored(s.tree[k.change.value].paths, Rules(s.base, s.tree[..k.stage.under]))
  }

  /** A change dropped after a copy was dropped by a filter no older than the one the copy's
      generation was read under. */
  predicate DropAfter(s: State, under: nat, n: nat) {
    && under <= s.built && n <= |s.tree|
    && forall c :: c in s.callbacks && s.callbacks[c].stage.Dropped? && s.callbacks[c].change.Some? && s.callbacks[c].change.value >= n ==>
                     s.callbacks[c].stage.under >= under
  }

  ghost predicate AgeInv(s: State) {
    && (forall q :: q in s.queries ==>
          && (s.queries[q].Loaded? ==> s.queries[q].under <= s.built)
          && (s.queries[q].Copied? ==> DropAfter(s, s.queries[q].under, s.queries[q].n)))
    && (s.synced.Some? ==> DropAfter(s, s.synced.value.under, s.synced.value.n))
  }

  ghost predicate DropsInv(s: State) { forall c :: c in s.callbacks ==> DropInv(s, s.callbacks[c]) }

  lemma FilterKeeps(s: State, a: Action)
    requires FilterInv(s) && Enabled(s, a)
    ensures FilterInv(Apply(s, a))
  {
    var s' := Apply(s, a);
    assert s.tree[..|s.tree|] == s.tree;
    if a.Edit? {
      RulesAppend(s.base, s.tree, a.change, s.built);
      forall q | q in s'.queries && s'.queries[q].Installing?
        ensures s'.queries[q].from <= |s'.tree| && s'.queries[q].rules == Rules(s'.base, s'.tree[..s'.queries[q].from])
      {
        RulesAppend(s.base, s.tree, a.change, s.queries[q].from);
      }
    }
  }

  lemma DropKeeps(s: State, a: Action, c: nat)
    requires FilterInv(s) && Enabled(s, a) && c in Apply(s, a).callbacks
    requires c in s.callbacks ==> DropInv(s, s.callbacks[c])
    ensures DropInv(Apply(s, a), Apply(s, a).callbacks[c])
  {
    if a.Edit? && s.callbacks[c].stage.Dropped? { RulesAppend(s.base, s.tree, a.change, s.callbacks[c].stage.under); }
    if a == Filter(c) && s.callbacks[c].change.Some? { VerdictExactly(s.tree[s.callbacks[c].change.value].paths, s.filter); }
  }

  lemma DropAfterStays(s: State, a: Action, under: nat, n: nat)
    requires Enabled(s, a) && DropAfter(s, under, n) && s.built <= Apply(s, a).built
    ensures DropAfter(Apply(s, a), under, n)
  {
  }

  lemma AgeKeeps(s: State, a: Action)
    requires AgeInv(s) && DropsInv(s) && Enabled(s, a) && s.built <= Apply(s, a).built
    ensures AgeInv(Apply(s, a))
  {
    var s' := Apply(s, a);
    forall q | q in s'.queries
      ensures s'.queries[q].Loaded? ==> s'.queries[q].under <= s'.built
      ensures s'.queries[q].Copied? ==> DropAfter(s', s'.queries[q].under, s'.queries[q].n)
    {
      if q in s.queries && s.queries[q].Copied? { DropAfterStays(s, a, s.queries[q].under, s.queries[q].n); }
      if a == Copy(q) { CopyIsLater(s, q); }
    }
    if s.synced.Some? { DropAfterStays(s, a, s.synced.value.under, s.synced.value.n); }
    if a.Mark? { DropAfterStays(s, a, s.queries[a.q].under, s.queries[a.q].n); }
  }

  lemma CopyIsLater(s: State, q: nat)
    requires DropsInv(s) && Enabled(s, Copy(q)) && s.queries[q].under <= s.built
    ensures DropAfter(Apply(s, Copy(q)), s.queries[q].under, |s.tree|)
  {
    assert forall c :: c in s.callbacks ==> DropInv(s, s.callbacks[c]);
  }

  lemma {:induction false} RunKeepsFilter(states: seq<State>, i: nat)
    requires Run(states) && i < |states|
    ensures FilterInv(states[i]) && DropsInv(states[i])
  {
    if i > 0 {
      RunKeepsFilter(states, i - 1);
      assert StepAt(states, i);
      var a :| Enabled(states[i - 1], a) && states[i] == Apply(states[i - 1], a);
      FilterKeeps(states[i - 1], a);
      forall c | c in states[i].callbacks ensures DropInv(states[i], states[i].callbacks[c]) { DropKeeps(states[i - 1], a, c); }
    }
  }

  lemma {:induction false} RunKeepsAge(states: seq<State>, i: nat)
    requires Run(states) && Rising(states) && i < |states|
    ensures AgeInv(states[i])
  {
    if i > 0 {
      RunKeepsAge(states, i - 1);
      RunKeepsFilter(states, i - 1);
      assert StepAt(states, i) && RisesAt(states, i);
      var a :| Enabled(states[i - 1], a) && states[i] == Apply(states[i - 1], a);
      AgeKeeps(states[i - 1], a);
    }
  }

  /** When every callback has ended and no sync is due, the last copy lacks a notified change only if
      the filter dropped it. */
  lemma LostOnlyThroughTheFilter(states: seq<State>, i: nat, g: nat, c: nat)
    requires Run(states) && i < |states| && !Due(states[i], g, false)
    requires c in states[i].callbacks && states[i].callbacks[c].change.Some?
    requires states[i].callbacks[c].stage.Ended? || states[i].callbacks[c].stage.Dropped?
    ensures var k := states[i].callbacks[c];
            k.change.value >= states[i].synced.value.n ==> k.stage.Dropped?
  {
    if states[i].callbacks[c].stage.Ended? { NotDueMeansInSync(states, i, g, c); }
  }

  /** In a settled state with no sync due, a filter at least as new as the one the last sync was read
      under has every ignore edit. */
  lemma NoIgnoreEditSince(states: seq<State>, i: nat, g: nat, version: nat)
    requires Run(states) && i < |states| && Settled(states[i]) && !Due(states[i], g, false)
    requires AllNotified(states[i]) && Counted(states[i])
    requires states[i].synced.value.under <= version <= |states[i].tree|
    ensures forall j :: version <= j < |states[i].tree| ==> states[i].tree[j].rules.None?
  {
    var s := states[i];
    RunKeeps(states, i);
    RunKeepsFilter(states, i);
    forall j | version <= j < |s.tree| ensures s.tree[j].rules.None? {
      if s.tree[j].rules.Some? {
        assert IgnoreEdit(s, j) && Told(s, j);
        var c :| c in s.callbacks && s.callbacks[c].change == Some(j);
        assert CallbackInv(s.callbacks[c], s) && DropInv(s, s.callbacks[c]);
        assert Missed(s, c);
      }
    }
  }

  /** Nothing is lost as long as the generation last synced was read under a filter with every ignore
      edit it counts, no filter was replaced by one built earlier, and every ignore edit has been
      notified. Each of the three is needed: see the runs that lose a change. */
  lemma NothingLost(states: seq<State>, i: nat, c: nat, change: nat, g: nat)
    requires Run(states) && Rising(states) && i < |states| && AllNotified(states[i]) && Counted(states[i])
    requires c in states[i].callbacks && states[i].callbacks[c].change == Some(change)
    ensures !Lost(states[i], change, g)
  {
    var s := states[i];
    if Lost(s, change, g) {
      LostOnlyThroughTheFilter(states, i, g, c);
      RunKeepsFilter(states, i);
      RunKeepsAge(states, i);
      var version := s.callbacks[c].stage.under;
      assert DropInv(s, s.callbacks[c]);
      NoIgnoreEditSince(states, i, g, version);
      RulesSettled(s.base, s.tree, version);
    }
  }

  /** Then the filter is also the right one for what comes next. */
  lemma FilterIsRight(states: seq<State>, i: nat, g: nat)
    requires Run(states) && Rising(states) && i < |states| && AllNotified(states[i]) && Counted(states[i])
    requires Settled(states[i]) && !Due(states[i], g, false)
    ensures states[i].filter == Rules(states[i].base, states[i].tree)
  {
    RunKeepsFilter(states, i);
    RunKeepsAge(states, i);
    NoIgnoreEditSince(states, i, g, states[i].built);
    RulesSettled(states[i].base, states[i].tree, states[i].built);
  }

  lemma OnePath(id: nat, filter: set<nat>)
    ensures Ignored([Plain(id)], filter) <==> id in filter
    ensures Judge([Plain(id)], filter) == if id in filter then Drops else Counts
  {
    assert [Plain(id)][0] == Plain(id) && [Plain(id)][1..] == [];
  }

  /** The state after a change of `path` whose callback consults the filter at once. */
  function AfterChange(s: State, c: nat, path: nat): State
    requires c !in s.callbacks
  {
    Apply(Apply(Apply(s, Edit(Change([Plain(path)], None))), Notify(c, Some(|s.tree|))), Filter(c))
  }

  /** In a settled state with no sync due, the next change is lost exactly when the filter ignores its
      path and the files on disk do not. */
  lemma NextIsLostExactly(states: seq<State>, i: nat, g: nat, c: nat, path: nat)
    requires Run(states) && i < |states| && Settled(states[i]) && !Due(states[i], g, false) && c !in states[i].callbacks
    ensures Lost(AfterChange(states[i], c, path), |states[i].tree|, g)
            <==> path in states[i].filter && path !in Rules(states[i].base, states[i].tree)
  {
    var s := states[i];
    var t := AfterChange(s, c, path);
    RunKeeps(states, i);
    RulesAppend(s.base, s.tree, Change([Plain(path)], None), |s.tree|);
    OnePath(path, s.filter);
    OnePath(path, Rules(s.base, s.tree));
    assert t.callbacks[c].stage == if path in s.filter then Dropped(s.built) else Bumping;
    assert forall d :: d in s.callbacks ==> t.callbacks[d] == s.callbacks[d];
  }

  /** The periodic sync finds what was lost: when the interval is over a sync is due whatever the generation
      says, and it copies the whole tree. */
  lemma PeriodicSyncFindsIt(states: seq<State>, q: nat, g: nat) returns (longer: seq<State>)
    requires Run(states) && q !in states[|states| - 1].queries
    ensures Due(states[|states| - 1], g, true)
    ensures Run(longer)
    ensures var s, s' := states[|states| - 1], longer[|longer| - 1];
            s'.tree == s.tree && s'.generation == s.generation && s'.synced.Some? && s'.synced.value.n == |s.tree|
  {
    longer := Extend(states, Ask(q));
    longer := Extend(longer, Swap(q));
    if longer[|longer| - 1].queries[q] == Rebuilding {
      longer := Extend(longer, Rebuild(q));
      longer := Extend(longer, Install(q));
    }
    longer := Extend(longer, Load(q));
    longer := SyncNow(longer, q);
  }

  /** An error of the watcher, or an event that names no path, counts as a change: its token is published. */
  lemma UnknownEventsCount(states: seq<State>, c: nat) returns (longer: seq<State>)
    requires Run(states) && c in states[|states| - 1].callbacks && states[|states| - 1].callbacks[c].stage == Notified
    requires var s := states[|states| - 1];
             var change := s.callbacks[c].change;
             change.None? || (change.value < |s.tree| && s.tree[change.value].paths == [])
    ensures Run(longer) && longer[|longer| - 1].generation > states[|states| - 1].generation
  {
    RunKeeps(states, |states| - 1);
    longer := Extend(states, Filter(c));
    longer := PublishNow(longer, c);
  }

  /** A copy is recorded if and only if no change was published since its generation was read. */
  lemma RecordedExactly(s: State, q: nat)
    requires Enabled(s, Mark(q))
    ensures var s' := Apply(s, Mark(q));
            && (s.generation == s.queries[q].g ==> s'.synced == Some(Sync(s.queries[q].g, s.queries[q].under, s.queries[q].n)))
            && (s.generation != s.queries[q].g ==> s'.synced == s.synced)
  {
  }

  // ----- one losing run for each condition -----

  /** An edit of the ignore files, after which path 7 is not ignored. */
  const UNIGNORE := Change([IgnoreFile], Some({}))

  const STILL := Change([IgnoreFile], Some({7}))

  /** A file that is not ignored becomes the ignore file. */
  const RENAME := Change([Plain(5), IgnoreFile], Some({}))

  const PLAIN := Change([Plain(7)], None)

  /** The run goes on to `s`, and keeps to newer filters. */
  ghost predicate Continues(states: seq<State>, longer: seq<State>, s: State) {
    Run(longer) && longer[|longer| - 1] == s && (Rising(states) ==> Rising(longer))
  }

  lemma PublishNow(states: seq<State>, c: nat) returns (longer: seq<State>)
    requires Run(states) && c in states[|states| - 1].callbacks && states[|states| - 1].callbacks[c].stage == Bumping
    requires states[|states| - 1].generation < states[|states| - 1].next
    ensures var s := states[|states| - 1];
            Continues(states, longer, SetStage(s, c, Ended(s.next)).(next := s.next + 1, generation := s.next))
  {
    longer := Extend(states, Take(c));
    longer := Extend(longer, Publish(c));
  }

  /** An ignore file is edited and its callback publishes. */
  lemma PublishEdit(states: seq<State>, c: nat, change: Change) returns (longer: seq<State>)
    requires Run(states) && change.rules.Some? && change.paths == [IgnoreFile] && c !in states[|states| - 1].callbacks
    requires states[|states| - 1].generation < states[|states| - 1].next
    ensures var s := states[|states| - 1];
            Continues(states, longer,
                      s.(tree := s.tree + [change], callbacks := s.callbacks[c := Callback(Some(|s.tree|), Ended(s.next))],
                         dirty := true, next := s.next + 1, generation := s.next))
  {
    longer := Extend(states, Edit(change));
    longer := Extend(longer, Notify(c, Some(|states[|states| - 1].tree|)));
    longer := Extend(longer, Filter(c));
    longer := PublishNow(longer, c);
  }

  /** A query finds the flag dirty and builds a filter. */
  lemma BuildFilter(states: seq<State>, q: nat) returns (longer: seq<State>)
    requires Run(states) && q !in states[|states| - 1].queries && states[|states| - 1].dirty
    ensures var s := states[|states| - 1];
            Continues(states, longer, s.(queries := s.queries[q := Installing(Rules(s.base, s.tree), |s.tree|)], dirty := false))
  {
    longer := Extend(states, Ask(q));
    longer := Extend(longer, Swap(q));
    longer := Extend(longer, Rebuild(q));
  }

  /** A query that has read the generation copies the tree and records it. */
  lemma SyncNow(states: seq<State>, q: nat) returns (longer: seq<State>)
    requires Run(states) && q in states[|states| - 1].queries && states[|states| - 1].queries[q].Loaded?
    requires states[|states| - 1].queries[q].g == states[|states| - 1].generation
    ensures var s := states[|states| - 1];
            Continues(states, longer, s.(queries := s.queries[q := Answered],
                                         synced := Some(Sync(s.generation, s.queries[q].under, |s.tree|))))
  {
    longer := Extend(states, Copy(q));
    longer := Extend(longer, Mark(q));
  }

  /** A change of path 7 is dropped. */
  lemma DropPlain(states: seq<State>, c: nat) returns (longer: seq<State>)
    requires Run(states) && c !in states[|states| - 1].callbacks && 7 in states[|states| - 1].filter
    ensures var s := states[|states| - 1];
            Continues(states, longer, s.(tree := s.tree + [PLAIN], callbacks := s.callbacks[c := Callback(Some(|s.tree|), Dropped(s.built))]))
  {
    OnePath(7, states[|states| - 1].filter);
    longer := Extend(states, Edit(PLAIN));
    longer := Extend(longer, Notify(c, Some(|states[|states| - 1].tree|)));
    longer := Extend(longer, Filter(c));
  }

  /** A query looks at the dirty flag before an ignore edit is published, and at the generation after
      it: what it syncs already counts the edit, while the filter that drops the next change does
      not. Only the periodic sync finds that change. */
  lemma StaleFilterLosesAChange() returns (states: seq<State>)
    ensures Run(states) && Rising(states) && AllNotified(states[|states| - 1]) && !Counted(states[|states| - 1])
    ensures Lost(states[|states| - 1], 1, 2)
  {
    states := Start({7});
    states := Extend(states, Ask(0));
    states := Extend(states, Swap(0));
    states := PublishEdit(states, 0, UNIGNORE);
    states := Extend(states, Load(0));
    states := SyncNow(states, 0);
    states := DropPlain(states, 1);
    OneEdit(states[|states| - 1], UNIGNORE);
  }

  /** The same without an edit in between: query 0 clears the flag and is still rebuilding when query 1
      finds it clean and syncs. */
  lemma RebuildingLosesAChange() returns (states: seq<State>)
    ensures Run(states) && Rising(states) && AllNotified(states[|states| - 1]) && !Counted(states[|states| - 1])
    ensures Lost(states[|states| - 1], 1, 2)
  {
    states := Start({7});
    states := PublishEdit(states, 0, UNIGNORE);
    states := BuildFilter(states, 0);
    states := Extend(states, Ask(1));
    states := Extend(states, Swap(1));
    states := Extend(states, Load(1));
    states := SyncNow(states, 1);
    states := DropPlain(states, 1);
    OneEdit(states[|states| - 1], UNIGNORE);
  }

  /** A file that is not ignored is renamed to the ignore file, and the callback publishes. */
  lemma PublishRename(states: seq<State>, c: nat) returns (longer: seq<State>)
    requires Run(states) && c !in states[|states| - 1].callbacks && 5 !in states[|states| - 1].filter
    requires states[|states| - 1].generation < states[|states| - 1].next
    ensures var s := states[|states| - 1];
            Continues(states, longer,
                      s.(tree := s.tree + [RENAME], callbacks := s.callbacks[c := Callback(Some(|s.tree|), Ended(s.next))],
                         next := s.next + 1, generation := s.next))
  {
    longer := Extend(states, Edit(RENAME));
    longer := Extend(longer, Notify(c, Some(|states[|states| - 1].tree|)));
    longer := Extend(longer, Filter(c));
    longer := PublishNow(longer, c);
  }

  /** The event of a renaming names a file that is not ignored first, so it does not mark the filter dirty.
      Nothing overlaps here: the query starts when the callback has long ended. */
  lemma RenamedIgnoreFileLosesAChange() returns (states: seq<State>)
    ensures Run(states) && Rising(states) && AllNotified(states[|states| - 1]) && !Counted(states[|states| - 1])
    ensures Lost(states[|states| - 1], 1, 2)
  {
    states := Start({7});
    states := PublishRename(states, 0);
    states := Extend(states, Ask(0));
    states := Extend(states, Swap(0));
    states := Extend(states, Load(0));
    states := SyncNow(states, 0);
    states := DropPlain(states, 1);
    OneEdit(states[|states| - 1], RENAME);
  }

  lemma OneEdit(s: State, edit: Change)
    requires (edit == UNIGNORE || edit == RENAME) && s.base == {7} && s.tree == [] + [edit] + [PLAIN] && s.generation == 2 && s.synced == Some(Sync(2, 0, 1))
    requires s.callbacks == map[0 := Callback(Some(0), Ended(2)), 1 := Callback(Some(1), Dropped(0))]
    ensures AllNotified(s) && !Counted(s) && Lost(s, 1, 2)
  {
    assert s.tree[..1] == [edit];
    OnePath(7, {});
    assert s.callbacks.Keys == {0, 1};
    assert Told(s, 0) && Missed(s, 0);
  }

  /** Two ignore edits are published. Query 0 has built its filter from the first, query 1 has
      installed one built from both and read the generation. Query 0 then installs its older filter
      over the newer one, and that stays: nobody is rebuilding and the flag is clean. */
  lemma OlderFilterLosesAChange() returns (states: seq<State>)
    ensures Run(states) && AllNotified(states[|states| - 1]) && Counted(states[|states| - 1]) && !states[|states| - 1].dirty
    ensures Lost(states[|states| - 1], 2, 3)
  {
    states := TwoFilters();
    states := Extend(states, Install(0));
    states := SyncNow(states, 1);
    states := DropPlain(states, 2);
    TwoEdits(states[|states| - 1]);
  }

  lemma TwoFilters() returns (states: seq<State>)
    ensures Run(states) && states[|states| - 1] ==
      State({7}, [] + [STILL] + [UNIGNORE], map[0 := Callback(Some(0), Ended(2)), 1 := Callback(Some(1), Ended(3))],
            map[0 := Installing({7}, 1), 1 := Loaded(3, 2)], {}, 2, false, 4, 3, None)
  {
    states := Start({7});
    states := PublishEdit(states, 0, STILL);
    states := BuildFilter(states, 0);
    states := PublishEdit(states, 1, UNIGNORE);
    states := BuildFilter(states, 1);
    states := Extend(states, Install(1));
    states := Extend(states, Load(1));
  }

  lemma TwoEdits(s: State)
    requires s.base == {7} && s.tree == [] + [STILL] + [UNIGNORE] + [PLAIN] && s.generation == 3 && s.synced == Some(Sync(3, 2, 2))
    requires s.callbacks == map[0 := Callback(Some(0), Ended(2)), 1 := Callback(Some(1), Ended(3)), 2 := Callback(Some(2), Dropped(1))]
    ensures AllNotified(s) && Counted(s) && Lost(s, 2, 3)
  {
    assert s.tree[..2] == [STILL, UNIGNORE];
    OnePath(7, {});
    assert s.callbacks.Keys == {0, 1, 2};
    assert Told(s, 0) && Told(s, 1);
  }

  /** An ignore edit nobody has been notified of yet. */
  lemma UnnotifiedEditLosesAChange() returns (states: seq<State>)
    ensures Run(states) && Rising(states) && Counted(states[|states| - 1]) && Lost(states[|states| - 1], 1, 1)
  {
    states := Start({7});
    states := Extend(states, Ask(0));
    states := Extend(states, Swap(0));
    states := Extend(states, Load(0));
    states := SyncNow(states, 0);
    states := Extend(states, Edit(UNIGNORE));
    states := DropPlain(states, 0);
    var s := states[|states| - 1];
    assert s.tree == [UNIGNORE, PLAIN] && s.tree[..1] == [UNIGNORE];
    OnePath(7, {});
  }
}
