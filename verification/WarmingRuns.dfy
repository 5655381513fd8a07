/** Requests and warming jobs over whole runs: every step is one section under the lock. */
module WarmingRuns {
  import opened Warming

  /** A started job and the files it warms now. */
  datatype Job = Job(workspace: string, files: seq<string>)

  /** What happened: a file was asked for, a job took files to warm. */
  datatype Event = Asked(workspace: string, file: string) | Taken(workspace: string, files: seq<string>)

  datatype State = State(running: Running, jobs: seq<Job>, log: seq<Event>)

  datatype Move =
    | Request(workspace: string, files: seq<string>)   // `warm_in_background`
    | Finish(job: nat)                                 // a job has warmed its files and asks for more

  function AskAll(workspace: string, files: seq<string>): seq<Event> {
    if files == [] then [] else AskAll(workspace, files[..|files| - 1]) + [Asked(workspace, files[|files| - 1])]
  }

  predicate Enabled(s: State, m: Move) { m.Finish? ==> m.job < |s.jobs| }

  function Apply(s: State, m: Move): State
    requires Enabled(s, m)
  {
    match m
    case Request(w, files) => if files == [] then s else Requested(s, w, files)
    case Finish(i) => Finished(s, i)
  }

  function Requested(s: State, w: string, files: seq<string>): State {
    State(AfterEnqueue(s.running, w, files),
          if w in s.running then s.jobs else s.jobs + [Job(w, files)],
          s.log + AskAll(w, files) + if w in s.running then [] else [Taken(w, files)])
  }

  function Finished(s: State, i: nat): State
    requires i < |s.jobs|
  {
    var w := s.jobs[i].workspace;
    var batch := if w in s.running then s.running[w] else [];
    if batch == [] then s.(running := AfterNext(s.running, w), jobs := s.jobs[..i] + s.jobs[i + 1..])
    else State(AfterNext(s.running, w), s.jobs[i := Job(w, batch)], s.log + [Taken(w, batch)])
  }

  ghost predicate StepAt(states: seq<State>, i: nat)
    requires i + 1 < |states|
  {
    exists m :: Enabled(states[i], m) && states[i + 1] == Apply(states[i], m)
  }

  ghost predicate Run(states: seq<State>) {
    && states != [] && states[0] == State(map[], [], [])
    && forall i: nat :: i + 1 < |states| ==> StepAt(states, i)
  }

  // ----- the history since the last batch -----

  predicate TakenFor(e: Event, w: string) { e.Taken? && e.workspace == w }

  /** The files asked for since the workspace's job last took some. */
  function Since(log: seq<Event>, w: string): seq<string> {
    if log == [] then [] else
    var front, e := log[..|log| - 1], log[|log| - 1];
    if TakenFor(e, w) then [] else if e.Asked? && e.workspace == w then Since(front, w) + [e.file] else Since(front, w)
  }

  /** The files asked for in a stretch of the log. */
  function Asks(log: seq<Event>, w: string): seq<string> {
    if log == [] then [] else
    var e := log[|log| - 1];
    Asks(log[..|log| - 1], w) + if e.Asked? && e.workspace == w then [e.file] else []
  }

  lemma SinceSnoc(log: seq<Event>, e: Event, w: string)
    ensures Since(log + [e], w)
            == if TakenFor(e, w) then [] else Since(log, w) + if e.Asked? && e.workspace == w then [e.file] else []
  {
    assert (log + [e])[..|log|] == log;
  }

  lemma {:induction false} SinceAskAll(log: seq<Event>, workspace: string, files: seq<string>, w: string)
    ensures Since(log + AskAll(workspace, files), w) == Since(log, w) + if w == workspace then files else []
    decreases |files|
  {
    if files == [] {
      assert log + [] == log;
    } else {
      var front, f := files[..|files| - 1], files[|files| - 1];
      assert front + [f] == files;
      SinceAskAll(log, workspace, front, w);
      Regroup(log, AskAll(workspace, front), [Asked(workspace, f)]);
      SinceSnoc(log + AskAll(workspace, front), Asked(workspace, f), w);
      Regroup(Since(log, w), if w == workspace then front else [], if w == workspace then [f] else []);
    }
  }

  lemma Regroup<T>(a: seq<T>, b: seq<T>, c: seq<T>)
    ensures a + b + c == a + (b + c)
  {
  }

  /** A file asked for at `i` and not taken since is in the history, and so is what was asked after it. */
  lemma {:induction false} SinceSplit(log: seq<Event>, i: nat, w: string)
    requires i < |log| && log[i].Asked? && log[i].workspace == w
    requires forall k :: i < k < |log| ==> !TakenFor(log[k], w)
    ensures Since(log, w) == Since(log[..i], w) + [log[i].file] + Asks(log[i + 1..], w)
    decreases |log|
  {
    var front, e := log[..|log| - 1], log[|log| - 1];
    if i == |log| - 1 {
      assert log[i + 1..] == [];
    } else {
      SinceSplit(front, i, w);
      assert front[..i] == log[..i];
      assert log[i + 1..][..|log| - 2 - i] == front[i + 1..];
    }
  }

  // ----- what every step keeps -----

  predicate OneJobEach(jobs: seq<Job>, running: Running) {
    && (forall i, j :: 0 <= i < j < |jobs| ==> jobs[i].workspace != jobs[j].workspace)
    && (forall i :: 0 <= i < |jobs| ==> jobs[i].workspace in running)
    && (forall w :: w in running ==> HasJob(jobs, w))
  }

  predicate HasJob(jobs: seq<Job>, w: string) { exists i :: 0 <= i < |jobs| && jobs[i].workspace == w }

  predicate QueueIs(s: State, w: string) {
    if w in s.running then s.running[w] == Latest(Since(s.log, w)) else Since(s.log, w) == []
  }

  ghost predicate QueuesAreHistory(s: State) { forall w :: QueueIs(s, w) }

  predicate BatchAt(log: seq<Event>, j: nat)
    requires j < |log|
  {
    log[j].Taken? ==>
      var h := Since(log[..j], log[j].workspace);
      log[j].files == h || log[j].files == Latest(h)
  }

  predicate BatchesAreHistory(log: seq<Event>) { forall j: nat :: j < |log| ==> BatchAt(log, j) }

  lemma BatchesSnoc(log: seq<Event>, e: Event)
    requires BatchesAreHistory(log)
    requires e.Taken? ==> var h := Since(log, e.workspace); e.files == h || e.files == Latest(h)
    ensures BatchesAreHistory(log + [e])
  {
    forall j: nat | j < |log + [e]| ensures BatchAt(log + [e], j) {
      assert (log + [e])[..j] == log[..j];
      if j == |log| { assert log[..j] == log; } else { assert BatchAt(log, j); }
    }
  }

  lemma {:induction false} BatchesAskAll(log: seq<Event>, w: string, files: seq<string>)
    requires BatchesAreHistory(log)
    ensures BatchesAreHistory(log + AskAll(w, files))
    decreases |files|
  {
    if files == [] {
      assert log + [] == log;
    } else {
      var front := files[..|files| - 1];
      BatchesAskAll(log, w, front);
      BatchesSnoc(log + AskAll(w, front), Asked(w, files[|files| - 1]));
      assert log + AskAll(w, files) == log + AskAll(w, front) + [Asked(w, files[|files| - 1])];
    }
  }

  ghost predicate Inv(s: State) { OneJobEach(s.jobs, s.running) && QueuesAreHistory(s) && BatchesAreHistory(s.log) }

  lemma JobAdded(jobs: seq<Job>, running: Running, job: Job)
    requires OneJobEach(jobs, running) && job.workspace !in running
    ensures OneJobEach(jobs + [job], running[job.workspace := []])
  {
    assert (jobs + [job])[|jobs|].workspace == job.workspace;
    forall w | w in running ensures HasJob(jobs + [job], w) {
      var i :| 0 <= i < |jobs| && jobs[i].workspace == w;
      assert (jobs + [job])[i].workspace == w;
    }
  }

  lemma JobRemoved(jobs: seq<Job>, running: Running, i: nat)
    requires OneJobEach(jobs, running) && i < |jobs|
    ensures OneJobEach(jobs[..i] + jobs[i + 1..], running - {jobs[i].workspace})
  {
    var rest := jobs[..i] + jobs[i + 1..];
    assert forall k :: 0 <= k < |rest| ==> rest[k] == jobs[if k < i then k else k + 1];
    forall w | w in running - {jobs[i].workspace} ensures HasJob(rest, w) {
      var k :| 0 <= k < |jobs| && jobs[k].workspace == w;
      assert rest[if k < i then k else k - 1] == jobs[k];
    }
  }

  lemma JobGoesOn(jobs: seq<Job>, running: Running, i: nat, files: seq<string>)
    requires OneJobEach(jobs, running) && i < |jobs|
    ensures OneJobEach(jobs[i := Job(jobs[i].workspace, files)], running)
  {
    var next := jobs[i := Job(jobs[i].workspace, files)];
    assert forall k :: 0 <= k < |jobs| ==> next[k].workspace == jobs[k].workspace;
    forall w | w in running ensures HasJob(next, w) {
      var k :| 0 <= k < |jobs| && jobs[k].workspace == w;
      assert next[k].workspace == w;
    }
  }

  lemma RequestKeepsQueue(s: State, w: string, files: seq<string>, v: string)
    requires QueueIs(s, v)
    ensures QueueIs(Requested(s, w, files), v)
  {
    var log := s.log + AskAll(w, files);
    SinceAskAll(s.log, w, files, v);
    if w in s.running {
      assert log + [] == log;
      LatestOfQueue(Since(s.log, w), files);
    } else {
      SinceSnoc(log, Taken(w, files), v);
    }
    assert Since(s.log, v) + [] == Since(s.log, v);
  }

  /** A queue may stand for its history. */
  lemma LatestOfQueue(h: seq<string>, files: seq<string>)
    ensures Latest(Latest(h) + files) == Latest(h + files)
  {
    LatestTwice(h);
    LatestOnline(h, files);
    LatestOnline(Latest(h), files);
  }

  lemma RequestKeeps(s: State, w: string, files: seq<string>)
    requires Inv(s)
    ensures Inv(Requested(s, w, files))
  {
    forall v ensures QueueIs(Requested(s, w, files), v) { RequestKeepsQueue(s, w, files, v); }
    BatchesAskAll(s.log, w, files);
    var log := s.log + AskAll(w, files);
    if w in s.running {
      assert log + [] == log;
    } else {
      JobAdded(s.jobs, s.running, Job(w, files));
      assert QueueIs(s, w);
      SinceAskAll(s.log, w, files, w);
      BatchesSnoc(log, Taken(w, files));
    }
  }

  lemma FinishKeeps(s: State, i: nat)
    requires Inv(s) && i < |s.jobs|
    ensures Inv(Finished(s, i))
  {
    var t, w := Finished(s, i), s.jobs[i].workspace;
    var batch := s.running[w];
    assert QueueIs(s, w);
    if batch == [] {
      JobRemoved(s.jobs, s.running, i);
      NoneLatest(Since(s.log, w));
      forall v ensures QueueIs(t, v) { assert QueueIs(s, v); }
    } else {
      JobGoesOn(s.jobs, s.running, i, batch);
      BatchesSnoc(s.log, Taken(w, batch));
      forall v ensures QueueIs(t, v) { TakenKeepsQueue(s, i, v); }
    }
  }

  lemma TakenKeepsQueue(s: State, i: nat, v: string)
    requires i < |s.jobs| && QueueIs(s, v)
    requires var w := s.jobs[i].workspace; w in s.running && s.running[w] != []
    ensures QueueIs(Finished(s, i), v)
  {
    var w := s.jobs[i].workspace;
    SinceSnoc(s.log, Taken(w, s.running[w]), v);
  }

  lemma NoneLatest(h: seq<string>)
    ensures Latest(h) == [] <==> h == []
  {
    RecentHolds(h);
    if h != [] { assert h[0] in Recent(h); }
  }

  lemma {:induction false} RunKeeps(states: seq<State>, n: nat)
    requires Run(states) && n < |states|
    ensures Inv(states[n])
  {
    if n > 0 {
      RunKeeps(states, n - 1);
      assert StepAt(states, n - 1);
      var m :| Enabled(states[n - 1], m) && states[n] == Apply(states[n - 1], m);
      match m
      case Request(w, files) => RequestKeeps(states[n - 1], w, files);
      case Finish(i) => FinishKeeps(states[n - 1], i);
    }
  }

  // ----- main results -----

  /** In every run at most one job runs for a workspace, and one does exactly when the workspace is
      in the table. */
  lemma AtMostOneJob(states: seq<State>, n: nat, w: string)
    requires Run(states) && n < |states|
    ensures forall i, j :: 0 <= i < j < |states[n].jobs| ==> !(states[n].jobs[i].workspace == w == states[n].jobs[j].workspace)
    ensures w in states[n].running <==> HasJob(states[n].jobs, w)
  {
    RunKeeps(states, n);
  }

  /** In every run a queue is the last `SYNCED_FILES` distinct files asked for since its last batch,
      in the order of their last request. */
  lemma QueueIsHistory(states: seq<State>, n: nat, w: string)
    requires Run(states) && n < |states|
    ensures if w in states[n].running then states[n].running[w] == Latest(Since(states[n].log, w))
            else Since(states[n].log, w) == []
  {
    RunKeeps(states, n);
    assert QueueIs(states[n], w);
  }

  /** In every run each file asked for is in the next batch taken, or in the queue of a job that
      still runs, or 20 other files of the workspace were asked for after it. */
  lemma NoRequestLost(states: seq<State>, n: nat, i: nat, j: nat, w: string, f: string)
    requires Run(states) && n < |states|
    requires var log := states[n].log;
             && i < j <= |log| && log[i] == Asked(w, f) && (j < |log| ==> TakenFor(log[j], w))
             && forall k :: i < k < j ==> !TakenFor(log[k], w)
    ensures var s := states[n];
            || |SetOf(Asks(s.log[i + 1..j], w)) - {f}| >= 20
            || (if j < |s.log| then f in s.log[j].files
                else w in s.running && f in s.running[w] && HasJob(s.jobs, w))
  {
    RunKeeps(states, n);
    var s := states[n];
    var upto := s.log[..j];
    SinceSplit(upto, i, w);
    assert upto[..i] == s.log[..i] && upto[i + 1..] == s.log[i + 1..j] && upto[i].file == f;
    var a, b := Since(s.log[..i], w), Asks(s.log[i + 1..j], w);
    DroppedOnlyWhenOvertaken(a, f, b);
    if j < |s.log| {
      assert BatchAt(s.log, j);
      assert f in a + [f] + b;
    } else {
      assert upto == s.log && QueueIs(s, w);
    }
  }

  /** Without new requests, a job takes all that waits for it and ends within two rounds. */
  lemma DrainsInTwoRounds(states: seq<State>, n: nat, i: nat)
    requires Run(states) && n < |states| && i < |states[n].jobs|
    ensures var s, w := states[n], states[n].jobs[i].workspace;
            var t := Finished(s, i);
            if Since(s.log, w) == [] then w !in t.running && t.log == s.log
            else
              && i < |t.jobs| && t.jobs[i] == Job(w, Latest(Since(s.log, w)))
              && w !in Finished(t, i).running && Since(t.log, w) == []
  {
    RunKeeps(states, n);
    var s, w := states[n], states[n].jobs[i].workspace;
    assert QueueIs(s, w);
    NoneLatest(Since(s.log, w));
    SinceSnoc(s.log, Taken(w, s.running[w]), w);
  }
}
