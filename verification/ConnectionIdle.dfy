/** What a counted timeout says about ordinary activity: the probe looked for it twice and found none,
    and what it can have missed. */
module ConnectionIdle {
  import opened Decimal
  import opened Framing
  import opened Health
  import opened Connection
  import Routing = ConnectionRouting
  import Activity = ConnectionActivity
  import Probes = ConnectionProbes
  import Frames = ConnectionFrames

  // ----- operations in the history -----

  predicate OfOperation(e: Event) { e.Entered? || e.Begun? || e.Left? }

  /** By the end of the history the operation has counted itself in and not out. */
  predicate UnderWay(log: seq<Event>, t: TaskId) { Entered(t) in log && Left(t) !in log }

  ghost predicate Idle(log: seq<Event>) { forall t :: !UnderWay(log, t) }

  predicate EnteredBefore(log: seq<Event>, b: nat)
    requires b < |log| && log[b].Begun?
  {
    Entered(log[b].task) in log[..b]
  }

  predicate BegunBefore(log: seq<Event>, l: nat)
    requires l < |log| && log[l].Left?
  {
    Begun(log[l].task) in log[..l]
  }

  /** An operation counts itself in once, then announces itself, then counts itself out. */
  predicate Orderly(log: seq<Event>) {
    && (forall i, j :: 0 <= i < j < |log| && log[i].Entered? && log[j].Entered? ==> log[i].task != log[j].task)
    && (forall b: nat :: b < |log| && log[b].Begun? ==> EnteredBefore(log, b))
    && (forall l: nat :: l < |log| && log[l].Left? ==> BegunBefore(log, l))
  }

  predicate Silent(log: seq<Event>, t: TaskId) { Entered(t) !in log && Begun(t) !in log && Left(t) !in log }

  /** What the history says of task `t`, now `k`. */
  predicate TaskLog(t: TaskId, k: Task, log: seq<Event>) {
    && (k.kind == Probe || k.kind == Reply || k.phase.Entry? || k.phase.Activate? ==> Silent(log, t))
    && (Activity.Active(k) ==> UnderWay(log, t) && (k.phase.Announce? || Begun(t) in log))
    && (k.phase.Done? ==> !UnderWay(log, t))
  }

  lemma OrderlySnoc(log: seq<Event>, e: Event)
    requires Orderly(log)
    requires e.Entered? ==> e !in log
    requires e.Begun? ==> Entered(e.task) in log
    requires e.Left? ==> Begun(e.task) in log
    ensures Orderly(log + [e])
  {
    var log' := log + [e];
    forall b: nat | b < |log'| && log'[b].Begun? ensures EnteredBefore(log', b) {
      assert log'[..b] == log[..b];
      if b < |log| { assert EnteredBefore(log, b); } else { assert log[..b] == log; }
    }
    forall l: nat | l < |log'| && log'[l].Left? ensures BegunBefore(log', l) {
      assert log'[..l] == log[..l];
      if l < |log| { assert BegunBefore(log, l); } else { assert log[..l] == log; }
    }
  }

  lemma OwnEvent(t: TaskId, k: Task, g: Shared, m: Move, e: Event)
    requires CanMove(k, m) && Routing.Kinded(k) && TaskLog(t, k, g.log) && Orderly(g.log)
    requires (m.DoActivate? && e == Entered(t)) || (m.DoAnnounce? && e == Begun(t)) || (m.DoLeave? && e == Left(t))
    ensures var next := Moved(t, k, g, m); next.1.log == g.log + [e] && TaskLog(t, next.0, g.log + [e]) && Orderly(g.log + [e])
  {
    OrderlySnoc(g.log, e);
  }

  lemma QuietMove(t: TaskId, k: Task, g: Shared, m: Move)
    requires CanMove(k, m) && Routing.Kinded(k) && !m.DoActivate? && !m.DoAnnounce? && !m.DoLeave?
    ensures Moved(t, k, g, m).1.log == g.log && Alike(k, Moved(t, k, g, m).0)
  {
  }

  /** The history need not say anything else of the task. */
  predicate Alike(k: Task, k': Task) {
    && k'.kind == k.kind && (k'.phase.Entry? ==> k.phase.Entry?) && (k'.phase.Activate? ==> k.phase.Activate? || k.phase.Entry?)
    && (Activity.Active(k') ==> Activity.Active(k)) && (k.phase.Announce? ==> k'.phase.Announce?)
    && (k'.phase.Done? ==> !Activity.Active(k))
  }

  /** What holds of an operation that has not entered, or has left. */
  lemma AlikeLog(t: TaskId, k: Task, k': Task, log: seq<Event>)
    requires TaskLog(t, k, log) && Alike(k, k')
    ensures TaskLog(t, k', log)
  {
  }

  lemma MoveLog(t: TaskId, k: Task, g: Shared, m: Move)
    requires CanMove(k, m) && Routing.Kinded(k) && TaskLog(t, k, g.log) && Orderly(g.log)
    ensures var next := Moved(t, k, g, m); TaskLog(t, next.0, next.1.log) && Orderly(next.1.log) && Adds(t, g.log, next.1.log)
  {
    if m.DoActivate? || m.DoAnnounce? || m.DoLeave? {
      var e := if m.DoActivate? then Entered(t) else if m.DoAnnounce? then Begun(t) else Left(t);
      OwnEvent(t, k, g, m, e);
      assert (g.log + [e])[..|g.log|] == g.log;
    } else {
      QuietMove(t, k, g, m);
      AlikeLog(t, k, Moved(t, k, g, m).0, g.log);
    }
  }

  /** At most one event was added, about operation `t` or about none. */
  predicate Adds(t: TaskId, log: seq<Event>, log': seq<Event>) {
    log' == log || (log' != [] && log'[..|log'| - 1] == log && (OfOperation(log'[|log'| - 1]) ==> log'[|log'| - 1].task == t))
  }

  lemma OtherLog(t: TaskId, u: TaskId, k: Task, log: seq<Event>, log': seq<Event>)
    requires Adds(t, log, log') && u != t && TaskLog(u, k, log)
    ensures TaskLog(u, k, log')
  {
    if log' != log {
      var e := log'[|log'| - 1];
      assert log' == log + [e];
    }
  }

  // ----- the looks of a probe -----

  predicate AfterIdle(p: Phase) { p.RecheckPending? || AfterPending(p) }

  predicate AfterPending(p: Phase) { p.MarkEpoch? || Probes.AfterEpoch(p) }

  predicate AfterQuiet(p: Phase) { p.LoadEpoch? || p.Count? }

  /** What a probe has found so far, by where it is. */
  ghost predicate LooksInv(k: Task, log: seq<Event>) {
    k.kind == Probe ==>
      && (AfterIdle(k.phase) ==> k.looks.activity == 0 && k.looks.idleAt <= |log| && Idle(log[..k.looks.idleAt]))
      && (AfterPending(k.phase) ==> !k.looks.busy && k.looks.pending == 0)
      && (Probes.AfterEpoch(k.phase) ==> k.looks.idleAt <= k.epochAt <= |log|)
      && (AfterQuiet(k.phase) ==> k.looks.lastActivity == 0 && k.epochAt <= k.looks.quietAt <= |log| && Idle(log[..k.looks.quietAt]))
      && (k.phase == Count ==> !k.looks.lastBusy && k.looks.quietAt <= k.seenTo <= |log|)
  }

  /** What a counted timeout records. */
  ghost predicate LooksAt(log: seq<Event>, p: nat)
    requires p < |log| && log[p].Counted?
  {
    var e, looks := log[p], log[p].looks;
    && looks.activity == 0 && !looks.busy && looks.pending == 0 && looks.lastActivity == 0 && !looks.lastBusy
    && looks.idleAt <= e.epochAt <= looks.quietAt <= e.seenTo <= p && Idle(log[..looks.idleAt]) && Idle(log[..looks.quietAt])
  }

  ghost predicate CountsInv(log: seq<Event>) { forall p: nat :: p < |log| && log[p].Counted? ==> LooksAt(log, p) }

  lemma Prefixes(log: seq<Event>, log': seq<Event>, n: nat)
    requires log <= log' && n <= |log|
    ensures log'[..n] == log[..n]
  {
  }

  lemma CountsSnoc(log: seq<Event>, e: Event)
    requires CountsInv(log) && (e.Counted? ==> LooksAt(log + [e], |log|))
    ensures CountsInv(log + [e])
  {
    var log' := log + [e];
    forall p: nat | p < |log'| && log'[p].Counted? ensures LooksAt(log', p) {
      if p < |log| {
        assert LooksAt(log, p);
        Prefixes(log, log', log[p].looks.idleAt);
        Prefixes(log, log', log[p].looks.quietAt);
      }
    }
  }

  lemma LooksStay(k: Task, log: seq<Event>, log': seq<Event>)
    requires LooksInv(k, log) && log <= log'
    ensures LooksInv(k, log')
  {
    if k.kind == Probe && AfterIdle(k.phase) { Prefixes(log, log', k.looks.idleAt); }
    if k.kind == Probe && AfterQuiet(k.phase) { Prefixes(log, log', k.looks.quietAt); }
  }

  /** The probe's looks are as before, and no more is claimed of them. */
  predicate SameLooks(k: Task, k': Task) {
    k'.kind == Probe ==>
      && k.kind == Probe && k'.looks == k.looks && k'.epochAt == k.epochAt && k'.seenTo == k.seenTo
      && (AfterIdle(k'.phase) ==> AfterIdle(k.phase)) && (AfterPending(k'.phase) ==> AfterPending(k.phase))
      && (Probes.AfterEpoch(k'.phase) ==> Probes.AfterEpoch(k.phase)) && (AfterQuiet(k'.phase) ==> AfterQuiet(k.phase))
      && (k'.phase == Count ==> k.phase == Count)
  }

  lemma MoveLooks(t: TaskId, k: Task, g: Shared, m: Move)
    requires CanMove(k, m) && Routing.Kinded(k)
    ensures SameLooks(k, Moved(t, k, g, m).0)
  {
  }

  lemma LockMoveLooks(t: TaskId, k: Task, g: Shared, m: LockMove)
    requires CanLockMove(k, g, m) && Routing.Kinded(k)
    ensures SameLooks(k, LockMoved(t, k, g, m).0) && Alike(k, LockMoved(t, k, g, m).0) && LockMoved(t, k, g, m).1.log == g.log
  {
  }

  lemma WriteLooks(k: Task, g: Shared, n: nat)
    requires CanWrite(k, n)
    ensures SameLooks(k, Wrote(k, g, n).0) && Alike(k, Wrote(k, g, n).0) && Wrote(k, g, n).1.log == g.log
  {
  }

  lemma ProbeLooksEarly(k: Task, g: Shared, m: ProbeMove)
    requires ProbeReady(k, m) && k.kind == Probe && LooksInv(k, g.log) && (g.activity == 0 ==> Idle(g.log)) && Early(m)
    ensures LooksInv(Probed(k, g, m).0, g.log) && Probed(k, g, m).1.log == g.log && Probed(k, g, m).0.kind == Probe
  {
    assert g.log[..|g.log|] == g.log;
  }

  /** A probe that looks at the activity counter and finds zero looks at an idle history. */
  lemma ProbeLooks(k: Task, g: Shared, m: ProbeMove)
    requires ProbeReady(k, m) && k.kind == Probe && LooksInv(k, g.log) && (g.activity == 0 ==> Idle(g.log)) && !m.DoCount?
    ensures LooksInv(Probed(k, g, m).0, g.log) && Probed(k, g, m).1.log == g.log && Probed(k, g, m).0.kind == Probe
  {
    if Early(m) { ProbeLooksEarly(k, g, m); } else { assert g.log[..|g.log|] == g.log; }
  }

  /** Two more events that are not about operations, and are fair if they count a timeout. */
  lemma NeutralTwo(log: seq<Event>, a: Event, b: Event)
    requires Orderly(log) && CountsInv(log) && !OfOperation(a) && !OfOperation(b) && !b.Counted?
    requires a.Counted? ==> LooksAt(log + [a], |log|)
    ensures Neutral(log, log + [a]) && Neutral(log, log + [a] + [b])
  {
    CountsSnoc(log, a);
    CountsSnoc(log + [a], b);
    OrderlySnoc(log, a);
    OrderlySnoc(log + [a], b);
  }

  /** The history has grown by events that are not about operations. */
  ghost predicate Neutral(log: seq<Event>, log': seq<Event>) {
    log <= log' && Orderly(log') && CountsInv(log') && forall i :: |log| <= i < |log'| ==> !OfOperation(log'[i])
  }

  lemma CountLooks(k: Task, g: Shared)
    requires k.kind == Probe && k.phase == Count && LooksInv(k, g.log) && CountsInv(g.log) && Orderly(g.log)
    ensures Neutral(g.log, Probed(k, g, DoCount).1.log)
  {
    if g.counters.evidence == k.evidenceMark {
      var e := Counted(k.id, k.epochAt, k.seenTo, k.evidenceAt, k.looks);
      Prefixes(g.log, g.log + [e], k.looks.idleAt);
      Prefixes(g.log, g.log + [e], k.looks.quietAt);
      NeutralTwo(g.log, e, Retired);
      var _ := Probes.CountResult(k, g);
    }
  }

  lemma CountSame(k: Task, g: Shared)
    requires k.kind == Probe && k.phase == Count
    ensures SameLooks(k, Probed(k, g, DoCount).0) && Alike(k, Probed(k, g, DoCount).0)
  {
  }

  lemma ProbeAlike(k: Task, g: Shared, m: ProbeMove)
    requires ProbeReady(k, m) && k.kind == Probe
    ensures Alike(k, Probed(k, g, m).0)
  {
  }

  lemma NeutralLog(t: TaskId, k: Task, log: seq<Event>, log': seq<Event>)
    requires TaskLog(t, k, log) && Neutral(log, log')
    ensures TaskLog(t, k, log')
  {
    assert forall e :: OfOperation(e) ==> (e in log <==> e in log');
  }

  // ----- every step -----

  ghost predicate TaskInv(t: TaskId, k: Task, log: seq<Event>) { TaskLog(t, k, log) && LooksInv(k, log) }

  ghost predicate StateInv(s: State) {
    && Orderly(s.g.log) && CountsInv(s.g.log)
    && (forall t :: t in s.tasks ==> TaskInv(t, s.tasks[t], s.g.log))
    && (forall t :: t !in s.tasks ==> Silent(s.g.log, t))
  }

  ghost predicate Inv(s: State) { StateInv(s) }

  /** With the counter at zero nothing is under way. */
  lemma ZeroIsIdle(s: State)
    requires Inv(s) && Activity.Inv(s) && Routing.Inv(s) && s.g.activity == 0
    ensures Idle(s.g.log)
  {
    forall t ensures !UnderWay(s.g.log, t) {
      if t in s.tasks {
        assert TaskInv(t, s.tasks[t], s.g.log) && Routing.TaskInv(t, s.tasks[t], s.g, s.reader);
        assert t !in Activity.ActiveTasks(s.tasks);
      }
    }
  }

  /** Task `t` has added at most one event, about itself or about no operation. */
  lemma PutKeeps(s: State, t: TaskId, next: (Task, Shared))
    requires Inv(s) && TaskInv(t, next.0, next.1.log) && Orderly(next.1.log) && CountsInv(next.1.log)
    requires Adds(t, s.g.log, next.1.log) || Neutral(s.g.log, next.1.log)
    ensures Inv(Put(s, t, next))
  {
    var log, log' := s.g.log, next.1.log;
    assert log <= log';
    forall u | u in Put(s, t, next).tasks ensures TaskInv(u, Put(s, t, next).tasks[u], log') {
      if u != t {
        assert TaskInv(u, s.tasks[u], log);
        LooksStay(s.tasks[u], log, log');
        if Adds(t, log, log') { OtherLog(t, u, s.tasks[u], log, log'); } else { NeutralLog(u, s.tasks[u], log, log'); }
      }
    }
    forall u | u !in Put(s, t, next).tasks ensures Silent(log', u) { OthersSilent(t, u, log, log'); }
  }

  lemma OthersSilent(t: TaskId, u: TaskId, log: seq<Event>, log': seq<Event>)
    requires u != t && Silent(log, u) && (Adds(t, log, log') || Neutral(log, log'))
    ensures Silent(log', u)
  {
    if Adds(t, log, log') && log' != log { assert log' == log + [log'[|log'| - 1]]; }
  }

  lemma MoveKeeps(s: State, t: TaskId, m: Move)
    requires Inv(s) && t in s.tasks && Routing.Kinded(s.tasks[t]) && CanMove(s.tasks[t], m)
    ensures Inv(Put(s, t, Moved(t, s.tasks[t], s.g, m)))
  {
    var k, next := s.tasks[t], Moved(t, s.tasks[t], s.g, m);
    assert TaskInv(t, k, s.g.log);
    MoveLog(t, k, s.g, m);
    MoveLooks(t, k, s.g, m);
    LooksFollow(k, next.0, s.g.log, next.1.log);
    AddsCounts(t, s.g.log, next.1.log);
    PutKeeps(s, t, next);
  }

  lemma LooksFollow(k: Task, k': Task, log: seq<Event>, log': seq<Event>)
    requires LooksInv(k, log) && SameLooks(k, k') && log <= log'
    ensures LooksInv(k', log')
  {
    LooksStay(k, log, log');
  }

  lemma AddsCounts(t: TaskId, log: seq<Event>, log': seq<Event>)
    requires CountsInv(log) && Adds(t, log, log') && (log' != log ==> OfOperation(log'[|log'| - 1]))
    ensures CountsInv(log')
  {
    if log' != log {
      assert log' == log + [log'[|log'| - 1]];
      CountsSnoc(log, log'[|log'| - 1]);
    }
  }

  lemma LockMoveKeeps(s: State, t: TaskId, m: LockMove)
    requires Inv(s) && t in s.tasks && Routing.Kinded(s.tasks[t]) && CanLockMove(s.tasks[t], s.g, m)
    ensures Inv(Put(s, t, LockMoved(t, s.tasks[t], s.g, m)))
  {
    LockMoveLooks(t, s.tasks[t], s.g, m);
    SameLogKeeps(s, t, LockMoved(t, s.tasks[t], s.g, m));
  }

  lemma SameLogKeeps(s: State, t: TaskId, next: (Task, Shared))
    requires Inv(s) && t in s.tasks && SameLooks(s.tasks[t], next.0) && Alike(s.tasks[t], next.0) && next.1.log == s.g.log
    ensures Inv(Put(s, t, next))
  {
    assert TaskInv(t, s.tasks[t], s.g.log);
    AlikeLog(t, s.tasks[t], next.0, s.g.log);
    LooksFollow(s.tasks[t], next.0, s.g.log, s.g.log);
    PutKeeps(s, t, next);
  }

  lemma ProbeKeeps(s: State, t: TaskId, m: ProbeMove)
    requires Inv(s) && Activity.Inv(s) && Routing.Inv(s) && t in s.tasks && s.tasks[t].kind == Probe && ProbeReady(s.tasks[t], m)
    ensures Inv(Put(s, t, Probed(s.tasks[t], s.g, m)))
  {
    var k, next := s.tasks[t], Probed(s.tasks[t], s.g, m);
    assert TaskInv(t, k, s.g.log);
    ProbeAlike(k, s.g, m);
    AlikeLog(t, k, next.0, s.g.log);
    if m.DoCount? {
      CountLooks(k, s.g);
      CountSame(k, s.g);
      LooksFollow(k, next.0, s.g.log, next.1.log);
      NeutralLog(t, next.0, s.g.log, next.1.log);
    } else {
      if s.g.activity == 0 { ZeroIsIdle(s); }
      ProbeLooks(k, s.g, m);
    }
    PutKeeps(s, t, next);
  }

  lemma FreshKeeps(s: State, t: TaskId, k: Task)
    requires Inv(s) && t !in s.tasks && !k.phase.Done? && LooksInv(k, s.g.log) && !Activity.Active(k)
    ensures Inv(Put(s, t, (k, s.g)))
  {
    assert Silent(s.g.log, t);
    PutKeeps(s, t, (k, s.g));
  }

  /** What the reader does to the tasks and the history. */
  ghost predicate Heard(s: State, s': State) {
    && s'.tasks.Keys == s.tasks.Keys && (forall t :: t in s.tasks ==> s'.tasks[t] == s.tasks[t].(inbox := s'.tasks[t].inbox))
    && (s'.g.log == s.g.log || exists e :: s'.g.log == s.g.log + [e] && (e.Answered? || e.Proven?))
  }

  lemma ReceiveHeard(s: State, msg: Json)
    ensures Heard(s, Received(s, msg))
  {
  }

  lemma ReadHeard(s: State, m: ReaderMove)
    requires CanRead(s, m) && !m.ReplyStart?
    ensures Heard(s, ReadOn(s, m))
  {
    if m.Receive? { ReceiveHeard(s, m.msg); }
  }

  lemma HeardKeeps(s: State, s': State)
    requires Inv(s) && Heard(s, s')
    ensures Inv(s')
  {
    var log, log' := s.g.log, s'.g.log;
    if log' != log {
      var e :| log' == log + [e] && (e.Answered? || e.Proven?);
      NeutralTwo(log, e, Retired);
    }
    forall t | t in s'.tasks ensures TaskInv(t, s'.tasks[t], log') {
      assert TaskInv(t, s.tasks[t], log);
      NeutralLog(t, s'.tasks[t], log, log');
      LooksStay(s'.tasks[t], log, log');
    }
    forall t | t !in s'.tasks ensures Silent(log', t) { assert Silent(log, t); }
  }

  lemma ApplyKeeps(s: State, a: Action)
    requires Inv(s) && Activity.Inv(s) && Routing.Inv(s) && Enabled(s, a)
    ensures Inv(Apply(s, a))
  {
    var s' := Apply(s, a);
    match a
    case Start(t, kind, body) => FreshKeeps(s, t, Fresh(kind, if kind == Handshake then Activate else Entry, body));
    case ProbeStart(t, body) => FreshKeeps(s, t, Fresh(Probe, Queued, body));
    case ProbeEnd =>
    case OfReader(m) =>
      if m.ReplyStart? { FreshKeeps(s, m.t, Fresh(Reply, Queued, m.body)); } else { ReadHeard(s, m); HeardKeeps(s, s'); }
    case _ =>
      assert Routing.TaskInv(a.t, s.tasks[a.t], s.g, s.reader);
      StepKeeps(s, a);
  }

  lemma NextKeeps(s: State, s': State)
    requires Inv(s) && Activity.Inv(s) && Routing.Inv(s) && Next(s, s')
    ensures Inv(s')
  {
    var a :| Enabled(s, a) && s' == Apply(s, a);
    ApplyKeeps(s, a);
  }

  lemma StepKeeps(s: State, a: Action)
    requires Inv(s) && Activity.Inv(s) && Routing.Inv(s) && Enabled(s, a) && (a.OfTask? || a.OfLock? || a.OfProbe? || a.Write?)
    requires Routing.Kinded(s.tasks[a.t])
    ensures Inv(Apply(s, a))
  {
    match a
    case OfTask(t, m) => MoveKeeps(s, t, m);
    case OfLock(t, m) => LockMoveKeeps(s, t, m);
    case OfProbe(t, m) => ProbeKeeps(s, t, m);
    case Write(t, n) =>
      WriteLooks(s.tasks[t], s.g, n);
      SameLogKeeps(s, t, Wrote(s.tasks[t], s.g, n));
  }

  lemma {:induction false} RunKeeps(states: seq<State>, i: nat)
    requires Run(states) && i < |states|
    ensures Inv(states[i])
  {
    if i > 0 {
      RunKeeps(states, i - 1);
      Known(states, i);
      NextKeeps(states[i - 1], states[i]);
    }
  }

  lemma Known(states: seq<State>, i: nat)
    requires Run(states) && 0 < i < |states|
    ensures Activity.Inv(states[i - 1]) && Routing.Inv(states[i - 1]) && Next(states[i - 1], states[i])
  {
    Activity.ActivityIsBalanced(states, i - 1);
    Routing.RunKeeps(states, i - 1);
    assert StepAt(states, i);
  }

  // ----- main results -----

  /** A probe during which ordinary activity or loading is observed is never counted: both looks at the
      activity counter found zero, with no operation under way, both looks at the readiness found the
      server idle, and no request was pending. */
  lemma CountedProbesSawNoActivity(states: seq<State>, i: nat, p: nat)
    requires Run(states) && i < |states| && p < |states[i].g.log| && states[i].g.log[p].Counted?
    ensures LooksAt(states[i].g.log, p)
  {
    RunKeeps(states, i);
  }

  /** What a counted probe can have missed, exactly: an operation was under way at some time between its
      look at the epoch and its last look at the activity counter if and only if it announced itself
      between its first look at the activity counter and its look at the epoch, and had not left by
      then. */
  lemma MissedOnlyBetweenTheLooks(states: seq<State>, i: nat, p: nat, t: TaskId)
    requires Run(states) && i < |states| && p < |states[i].g.log| && states[i].g.log[p].Counted?
    ensures var log, e := states[i].g.log, states[i].g.log[p];
            && e.looks.idleAt <= e.epochAt <= e.looks.quietAt <= p
            && ((exists q: nat :: e.epochAt <= q <= e.looks.quietAt && UnderWay(log[..q], t))
                <==> (exists b: nat :: e.looks.idleAt <= b < e.epochAt && log[b] == Begun(t)) && Left(t) !in log[..e.epochAt])
  {
    var log, e := states[i].g.log, states[i].g.log[p];
    RunKeeps(states, i);
    assert LooksAt(log, p);
    Probes.CountedProbesSawNoChange(states, i, p);
    if q: nat :| e.epochAt <= q <= e.looks.quietAt && UnderWay(log[..q], t) {
      var b := BegunInBetween(log, e.looks.idleAt, q, e.looks.quietAt, t);
      assert log[b] == Begun(t);
      assert log[..e.epochAt] <= log[..q];
    }
    if b: nat :| e.looks.idleAt <= b < e.epochAt && log[b] == Begun(t) && Left(t) !in log[..e.epochAt] {
      BegunIsUnderWay(log, b, e.epochAt, t);
    }
  }

  lemma BegunIsUnderWay(log: seq<Event>, b: nat, q: nat, t: TaskId)
    requires Orderly(log) && b < q <= |log| && log[b] == Begun(t) && Left(t) !in log[..q]
    ensures UnderWay(log[..q], t)
  {
    assert EnteredBefore(log, b);
    var a :| 0 <= a < b && log[..b][a] == Entered(t);
    assert log[..q][a] == Entered(t);
  }

  /** An operation that is under way at `q`, but neither before at `i` nor after at `j`, announced
      itself after `i` and before `j`. */
  lemma BegunInBetween(log: seq<Event>, i: nat, q: nat, j: nat, t: TaskId) returns (b: nat)
    requires Orderly(log) && i <= q <= j <= |log| && UnderWay(log[..q], t) && !UnderWay(log[..i], t) && !UnderWay(log[..j], t)
    ensures i <= b < j && log[b] == Begun(t)
  {
    var e :| 0 <= e < q && log[..q][e] == Entered(t);
    assert log[e] == Entered(t) && log[..j][e] == Entered(t);
    var l :| 0 <= l < j && log[..j][l] == Left(t);
    assert BegunBefore(log, l);
    b :| 0 <= b < l && log[..l][b] == Begun(t);
    assert EnteredBefore(log, b);
    var e' :| 0 <= e' < b && log[..b][e'] == Entered(t);
    assert e' == e;
  }

  // ----- a request that a counted probe misses -----

  /** Probe `t` starts, takes the lock and finds no activity. */
  lemma ProbeLooksAround(states: seq<State>, t: TaskId, body: string) returns (longer: seq<State>)
    requires Run(states)
    requires var s := states[|states| - 1];
             t !in s.tasks && s.loop == Sleeping && s.g.lock.None? && s.g.alive && s.g.activity == 0 && s.g.pending == map[]
    ensures var s := states[|states| - 1];
            Run(longer) && longer[|longer| - 1]
              == s.(tasks := s.tasks[t := Fresh(Probe, MarkEpoch, body).(looks := Looks(|s.g.log|, 0, false, 0, 0, 0, false))],
                    g := s.g.(lock := Some(t)), loop := Probing(t))
  {
    longer := Frames.Extend(states, ProbeStart(t, body));
    longer := Frames.Extend(longer, OfLock(t, Acquire));
    longer := Frames.Extend(longer, OfLock(t, DoRecheck));
    longer := Frames.Extend(longer, OfProbe(t, DoRecheckActivity));
    longer := Frames.Extend(longer, OfProbe(t, DoRecheckPending(false)));
  }

  /** Request `t` starts and announces itself. */
  lemma RequestBegins(states: seq<State>, t: TaskId, body: string) returns (longer: seq<State>)
    requires Run(states) && t !in states[|states| - 1].tasks && states[|states| - 1].g.alive
    ensures var s := states[|states| - 1];
            Run(longer) && longer[|longer| - 1]
              == s.(tasks := s.tasks[t := Fresh(Request, Allocate, body)],
                    g := s.g.(activity := s.g.activity + 1, epoch := s.g.epoch + 1, log := s.g.log + [Entered(t)] + [Begun(t)]))
  {
    longer := Frames.Extend(states, Start(t, Request, body));
    longer := Frames.Extend(longer, OfTask(t, DoEntry));
    longer := Frames.Extend(longer, OfTask(t, DoActivate));
    longer := Frames.Extend(longer, OfTask(t, DoAnnounce));
  }

  /** The bytes on the stream and the messages in them. */
  function Sent(g: Shared, message: string): Shared {
    g.(stream := g.stream + Frame(message), sent := g.sent + [message], partial := "")
  }

  /** What a task does when its message is written. */
  function AfterWriting(kind: Kind): Phase {
    match kind
    case Request | Probe => Waiting
    case Reply => Done(true)
    case Notification | Handshake => Leave
  }

  /** A task that holds the lock writes its whole message and lets the lock go. */
  lemma WritesAll(states: seq<State>, t: TaskId) returns (longer: seq<State>)
    requires Run(states) && t in states[|states| - 1].tasks
    requires states[|states| - 1].tasks[t].phase == Writing(0)
    ensures var s := states[|states| - 1];
            Run(longer) && longer[|longer| - 1]
              == s.(tasks := s.tasks[t := s.tasks[t].(phase := AfterWriting(s.tasks[t].kind))],
                    g := Sent(s.g, Message(s.tasks[t])).(lock := None))
  {
    var message := Message(states[|states| - 1].tasks[t]);
    assert Frame(message)[0..|Frame(message)|] == Frame(message);
    longer := Frames.Extend(states, Write(t, |Frame(message)|));
    longer := Frames.Extend(longer, OfLock(t, Flush));
    longer := Frames.Extend(longer, OfLock(t, ReleaseWritten));
  }

  /** The probe takes its marks and its number and fills the slot. */
  lemma ProbeMarks(states: seq<State>, t: TaskId) returns (longer: seq<State>)
    requires Run(states) && t in states[|states| - 1].tasks
    requires var k := states[|states| - 1].tasks[t]; k.kind == Probe && k.phase == MarkEpoch
    ensures var s := states[|states| - 1];
            Run(longer) && longer[|longer| - 1]
              == s.(tasks := s.tasks[t := s.tasks[t].(phase := Writing(0), id := s.g.nextProbe, epochMark := s.g.epoch, epochAt := |s.g.log|,
                                                      evidenceMark := s.g.counters.evidence, evidenceAt := |s.g.log|)],
                    g := s.g.(nextProbe := s.g.nextProbe + 1, slot := Some((s.g.nextProbe, t))))
  {
    longer := Frames.Extend(states, OfProbe(t, DoMarkEpoch));
    longer := Frames.Extend(longer, OfProbe(t, DoMarkEvidence));
    longer := Frames.Extend(longer, OfProbe(t, DoAllocateProbe));
    longer := Frames.Extend(longer, OfLock(t, DoRegister));
  }

  /** The request takes its id and the lock and registers. */
  lemma RequestRegisters(states: seq<State>, t: TaskId) returns (longer: seq<State>)
    requires Run(states) && t in states[|states| - 1].tasks && states[|states| - 1].g.alive && states[|states| - 1].g.lock.None?
    requires var k := states[|states| - 1].tasks[t]; k.kind == Request && k.phase == Allocate
    ensures var s := states[|states| - 1];
            Run(longer) && longer[|longer| - 1]
              == s.(tasks := s.tasks[t := s.tasks[t].(phase := Writing(0), id := s.g.nextReq)],
                    g := s.g.(nextReq := s.g.nextReq + 1, owners := s.g.owners[s.g.nextReq := t],
                              pending := s.g.pending[s.g.nextReq := t], lock := Some(t)))
  {
    longer := Frames.Extend(states, OfTask(t, DoAllocate));
    longer := Frames.Extend(longer, OfLock(t, Acquire));
    longer := Frames.Extend(longer, OfLock(t, DoRecheck));
    longer := Frames.Extend(longer, OfLock(t, DoRegister));
  }

  /** The request is answered and leaves. */
  lemma RequestLeaves(states: seq<State>, t: TaskId, id: nat) returns (longer: seq<State>)
    requires Run(states) && t in states[|states| - 1].tasks && states[|states| - 1].reader == Reading && id < U64_LIMIT
    requires var s := states[|states| - 1];
             s.tasks[t].kind == Request && s.tasks[t].phase == Waiting && s.tasks[t].id == id && s.g.pending == map[id := t]
    ensures Run(longer)
    ensures var s, s' := states[|states| - 1], longer[|longer| - 1];
            && s'.reader == Reading && t in s'.tasks && s'.tasks == s.tasks[t := s'.tasks[t]] && s'.loop == s.loop
            && s'.g == s.g.(pending := map[], counters := s.g.counters.(timeouts := 0), activity := s.g.activity - 1,
                            log := s.g.log + [Answered(id)] + [Left(t)])
  {
    var answer := Obj(map["id" := Int(id)]);
    assert !HasMethod(answer) && Get(answer, "id") == Some(Int(id)) && AsU64(Int(id)) == Some(id);
    longer := Frames.Extend(states, OfReader(Receive(answer)));
    longer := Frames.Extend(longer, OfTask(t, StopWaiting));
    longer := Frames.Extend(longer, OfTask(t, DoUnregister));
    longer := Frames.Extend(longer, OfTask(t, DoLeave));
  }

  /** The probe's time is up, and it finds no activity. */
  lemma ProbeTimesOut(states: seq<State>, t: TaskId) returns (longer: seq<State>)
    requires Run(states) && t in states[|states| - 1].tasks
    requires var s := states[|states| - 1]; s.tasks[t].kind == Probe && s.tasks[t].phase == Waiting && s.g.activity == 0
    ensures var s := states[|states| - 1];
            Run(longer) && longer[|longer| - 1]
              == s.(tasks := s.tasks[t := s.tasks[t].(phase := LoadEpoch,
                                                      looks := s.tasks[t].looks.(quietAt := |s.g.log|, lastActivity := 0))],
                    g := FreeSlot(s.g, s.tasks[t].id))
  {
    longer := Frames.Extend(states, OfProbe(t, Expire));
    longer := Frames.Extend(longer, OfProbe(t, DoTimedOut));
    longer := Frames.Extend(longer, OfProbe(t, DoLoadActivity));
  }

  /** The probe's time is up, it finds no activity and the epoch it knows, and counts. */
  lemma ProbeCounts(states: seq<State>, t: TaskId) returns (longer: seq<State>)
    requires Run(states) && t in states[|states| - 1].tasks
    requires var s := states[|states| - 1];
             var k := s.tasks[t];
             && k.kind == Probe && k.phase == Waiting && s.g.activity == 0 && s.g.epoch == k.epochMark
             && s.g.counters.evidence == k.evidenceMark && s.g.counters.timeouts == 0
    ensures var s, k := states[|states| - 1], states[|states| - 1].tasks[t];
            && Run(longer)
            && longer[|longer| - 1].g.log
               == s.g.log + [Counted(k.id, k.epochAt, |s.g.log|, k.evidenceAt,
                                     k.looks.(quietAt := |s.g.log|, lastActivity := 0, lastBusy := false))]
  {
    longer := ProbeTimesOut(states, t);
    longer := Frames.Extend(longer, OfProbe(t, DoLoadEpoch(false)));
    longer := Frames.Extend(longer, OfProbe(t, DoCount));
  }

  /** Such an operation exists: a request announces itself between the probe's look at the activity
      counter and its look at the epoch, is written and answered while the probe waits, and the
      timeout is counted all the same. */
  lemma CountedDespiteAnAnswer() returns (states: seq<State>)
    ensures Run(states)
    ensures var log := states[|states| - 1].g.log;
            |log| == 5 && log[..4] == [Entered(1), Begun(1), Answered(1), Left(1)]
            && log[4].Counted? && log[4].looks.idleAt == 0 && log[4].epochAt == 2 && log[4].looks.quietAt == 4
  {
    states := [INITIAL];
    states := ProbeLooksAround(states, 0, "");
    states := RequestBegins(states, 1, "");
    states := ProbeMarks(states, 0);
    states := WritesAll(states, 0);
    states := RequestRegisters(states, 1);
    states := WritesAll(states, 1);
    states := RequestLeaves(states, 1, 1);
    states := ProbeCounts(states, 0);
  }
}
