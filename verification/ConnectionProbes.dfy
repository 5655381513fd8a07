/** Probe retirement and probe identity: what the counters, the epochs and the broadcast history
    say in every reachable state. */
module ConnectionProbes {
  import opened Decimal
  import opened Health
  import opened Connection
  import Routing = ConnectionRouting

  /** How many ordinary operations had announced themselves. */
  function Begins(log: seq<Event>): nat {
    if log == [] then 0 else Begins(log[..|log| - 1]) + if log[|log| - 1].Begun? then 1 else 0
  }

  /** How many valid probe answers had been seen. */
  function Proofs(log: seq<Event>): nat {
    if log == [] then 0 else Proofs(log[..|log| - 1]) + if log[|log| - 1].Proven? then 1 else 0
  }

  /** A sign of life: an answered request or a valid probe answer. */
  predicate Sign(e: Event) { e.Answered? || e.Proven? }

  /** The timeouts counted since the last sign of life. */
  function Streak(log: seq<Event>): nat {
    if log == [] then 0 else
    var last, before := log[|log| - 1], log[..|log| - 1];
    if Sign(last) then 0 else Streak(before) + if last.Counted? then 1 else 0
  }

  predicate FairCount(log: seq<Event>, i: nat)
    requires i < |log| && log[i].Counted?
  {
    var e := log[i];
    && e.epochAt <= e.seenTo <= i && Begins(log[..e.epochAt]) == Begins(log[..e.seenTo])
    && e.epochAt <= e.evidenceAt <= i && Proofs(log[..e.evidenceAt]) == Proofs(log[..i])
  }

  ghost predicate LogInv(log: seq<Event>) {
    && (forall i :: 0 <= i < |log| && log[i].Counted? ==> FairCount(log, i))
    && (forall i :: 0 <= i < |log| && log[i].Retired? ==> Streak(log[..i]) >= MAX_IDLE_PROBE_TIMEOUTS)
  }

  ghost predicate CounterInv(g: Shared) {
    && g.counters.timeouts == Streak(g.log)
    && g.counters.evidence == Proofs(g.log)
    && g.epoch == Begins(g.log)
    && g.counters.completions <= g.counters.latest < g.nextProbe
    && LogInv(g.log)
  }

  predicate AfterEpoch(p: Phase) { p.MarkEvidence? || AfterEvidence(p) }

  predicate AfterEvidence(p: Phase) {
    || p.AllocateProbe? || p.Register? || p.Writing? || p.Flushing? || p.Written? || p.Waiting? || p.TimedOut?
    || p.LoadActivity? || p.LoadEpoch? || p.Count?
  }

  /** The marks a probe took are the counts of the history as it was then. */
  predicate MarkInv(k: Task, log: seq<Event>) {
    k.kind == Probe ==>
      && (AfterEpoch(k.phase) ==> k.epochAt <= |log| && k.epochMark == Begins(log[..k.epochAt]))
      && (AfterEvidence(k.phase) ==> k.epochAt <= k.evidenceAt <= |log| && k.evidenceMark == Proofs(log[..k.evidenceAt]))
      && (k.phase == Count ==> k.epochAt <= k.seenTo <= |log| && k.epochMark == Begins(log[..k.seenTo]))
  }

  predicate ReaderInv(r: Reader, g: Shared) {
    && ((r.Matching? || r.Judging?) ==> 0 < r.sequence < g.nextProbe)
    && (r.Replying? ==> HasMethod(r.msg))
  }

  predicate Private(b: Broadcast) { !HasMethod(b.msg) ==> HealthSequence(b.msg, b.next).None? }

  ghost predicate HistoryInv(s: State) {
    && CounterInv(s.g)
    && ReaderInv(s.reader, s.g)
    && (forall i :: 0 <= i < |s.shared| ==> Private(s.shared[i]))
    && forall t :: t in s.tasks ==> MarkInv(s.tasks[t], s.g.log)
  }

  ghost predicate Inv(s: State) { HistoryInv(s) }

  // ----- facts about the history -----

  lemma PrefixOfAppend(log: seq<Event>, e: Event, n: nat)
    requires n <= |log|
    ensures (log + [e])[..n] == log[..n]
  {
  }

  lemma NoteKeeps(log: seq<Event>, e: Event)
    requires LogInv(log)
    requires e.Counted? ==> FairCount(log + [e], |log|)
    requires e.Retired? ==> Streak(log) >= MAX_IDLE_PROBE_TIMEOUTS
    ensures LogInv(log + [e])
    ensures Begins(log + [e]) == Begins(log) + if e.Begun? then 1 else 0
    ensures Proofs(log + [e]) == Proofs(log) + if e.Proven? then 1 else 0
    ensures Streak(log + [e]) == if Sign(e) then 0 else Streak(log) + if e.Counted? then 1 else 0
  {
    var log' := log + [e];
    assert log'[..|log'| - 1] == log;
    forall i | 0 <= i < |log'| && log'[i].Counted?
      ensures FairCount(log', i)
    {
      if i < |log| {
        assert FairCount(log, i);
        PrefixOfAppend(log, e, log[i].epochAt);
        PrefixOfAppend(log, e, log[i].seenTo);
        PrefixOfAppend(log, e, log[i].evidenceAt);
        PrefixOfAppend(log, e, i);
      }
    }
    forall i | 0 <= i < |log'| && log'[i].Retired?
      ensures Streak(log'[..i]) >= MAX_IDLE_PROBE_TIMEOUTS
    {
      PrefixOfAppend(log, e, i);
    }
  }

  lemma MarkStays(k: Task, log: seq<Event>, log': seq<Event>)
    requires MarkInv(k, log) && log <= log'
    ensures MarkInv(k, log')
  {
    assert forall n :: 0 <= n <= |log| ==> log'[..n] == log[..n];
  }

  // ----- every step -----

  /** The probe keeps its marks and needs no more of them than before. */
  predicate Settled(k: Task, k': Task) {
    k'.kind == Probe ==>
      && k.kind == Probe && k'.epochMark == k.epochMark && k'.epochAt == k.epochAt
      && k'.evidenceMark == k.evidenceMark && k'.evidenceAt == k.evidenceAt && k'.seenTo == k.seenTo
      && (AfterEpoch(k'.phase) ==> AfterEpoch(k.phase)) && (AfterEvidence(k'.phase) ==> AfterEvidence(k.phase))
      && (k'.phase == Count ==> k.phase == Count)
  }

  lemma SettledMark(k: Task, k': Task, log: seq<Event>, log': seq<Event>)
    requires MarkInv(k, log) && Settled(k, k') && log <= log'
    ensures MarkInv(k', log')
  {
    MarkStays(k, log, log');
  }

  predicate SameCounts(g: Shared, g': Shared) {
    g'.log == g.log && g'.counters == g.counters && g'.epoch == g.epoch && g'.nextProbe == g.nextProbe
  }

  /** The counters, the epochs and the history advance together. */
  ghost predicate Advances(g: Shared, g': Shared) {
    CounterInv(g) ==> CounterInv(g') && g.log <= g'.log && g.nextProbe <= g'.nextProbe
  }

  lemma MoveSettles(t: TaskId, k: Task, g: Shared, m: Move)
    requires CanMove(k, m)
    ensures Settled(k, Moved(t, k, g, m).0)
    ensures m.DoAnnounce? || m.DoActivate? || m.DoLeave? || SameCounts(g, Moved(t, k, g, m).1)
  {
  }

  lemma ActivityAdvances(t: TaskId, k: Task, g: Shared, m: Move)
    requires CanMove(k, m) && (m.DoAnnounce? || m.DoActivate? || m.DoLeave?)
    ensures Advances(g, Moved(t, k, g, m).1)
  {
    if CounterInv(g) { NoteKeeps(g.log, if m.DoAnnounce? then Begun(t) else if m.DoActivate? then Entered(t) else Left(t)); }
  }

  lemma LockMoveSettles(t: TaskId, k: Task, g: Shared, m: LockMove)
    requires CanLockMove(k, g, m)
    ensures Settled(k, LockMoved(t, k, g, m).0) && SameCounts(g, LockMoved(t, k, g, m).1)
  {
  }

  lemma CountedLog(k: Task, log: seq<Event>)
    requires k.kind == Probe && k.phase == Count && MarkInv(k, log) && LogInv(log) && Proofs(log) == k.evidenceMark
    ensures var e := Counted(k.id, k.epochAt, k.seenTo, k.evidenceAt, k.looks);
            && LogInv(log + [e]) && Begins(log + [e]) == Begins(log) && Proofs(log + [e]) == Proofs(log)
            && Streak(log + [e]) == Streak(log) + 1
  {
    var e := Counted(k.id, k.epochAt, k.seenTo, k.evidenceAt, k.looks);
    PrefixOfAppend(log, e, k.epochAt);
    PrefixOfAppend(log, e, k.seenTo);
    PrefixOfAppend(log, e, k.evidenceAt);
    PrefixOfAppend(log, e, |log|);
    assert log[..|log|] == log;
    NoteKeeps(log, e);
  }

  lemma CountSettles(k: Task, g: Shared)
    requires k.kind == Probe && k.phase == Count
    ensures Settled(k, Probed(k, g, DoCount).0)
  {
  }

  lemma RetiredLog(log: seq<Event>)
    requires LogInv(log) && Streak(log) >= MAX_IDLE_PROBE_TIMEOUTS
    ensures LogInv(log + [Retired]) && Begins(log + [Retired]) == Begins(log) && Proofs(log + [Retired]) == Proofs(log)
    ensures Streak(log + [Retired]) == Streak(log)
  {
    NoteKeeps(log, Retired);
  }

  lemma OneMoreTimeout(g: Shared, g': Shared)
    requires CounterInv(g) && LogInv(g'.log) && g.log <= g'.log && g'.nextProbe == g.nextProbe && g'.epoch == g.epoch
    requires g'.counters == g.counters.(timeouts := g.counters.timeouts + 1)
    requires Streak(g'.log) == Streak(g.log) + 1 && Proofs(g'.log) == Proofs(g.log) && Begins(g'.log) == Begins(g.log)
    ensures Advances(g, g')
  {
  }

  lemma CountAdvances(k: Task, g: Shared)
    requires k.kind == Probe && k.phase == Count && MarkInv(k, g.log) && CounterInv(g)
    ensures Advances(g, Probed(k, g, DoCount).1)
  {
    if g.counters.evidence == k.evidenceMark {
      CountedLog(k, g.log);
      var event := Counted(k.id, k.epochAt, k.seenTo, k.evidenceAt, k.looks);
      LogGrows(g.log, event, Retired);
      var g' := CountResult(k, g);
      if g.counters.timeouts + 1 >= MAX_IDLE_PROBE_TIMEOUTS { RetiredLog(g.log + [event]); }
      OneMoreTimeout(g, g');
    }
  }

  lemma CountResult(k: Task, g: Shared) returns (g': Shared)
    requires g.counters.evidence == k.evidenceMark
    ensures g' == Probed(k, g, DoCount).1 && g'.nextProbe == g.nextProbe && g'.epoch == g.epoch
    ensures g'.counters == g.counters.(timeouts := g.counters.timeouts + 1)
    ensures var log := g.log + [Counted(k.id, k.epochAt, k.seenTo, k.evidenceAt, k.looks)];
            g'.log == if g.counters.timeouts + 1 >= MAX_IDLE_PROBE_TIMEOUTS then log + [Retired] else log
  {
    g' := Probed(k, g, DoCount).1;
  }

  lemma LogGrows(log: seq<Event>, a: Event, b: Event)
    ensures log <= log + [a] <= log + [a] + [b] && log <= log + [a] + [b]
  {
  }

  lemma ProbeSettles(t: TaskId, k: Task, g: Shared, m: ProbeMove)
    requires ProbeReady(k, m) && !m.DoCount?
    ensures m.DoMarkEpoch? || m.DoMarkEvidence? || m.DoLoadEpoch? || Settled(k, Probed(k, g, m).0)
    ensures var g' := Probed(k, g, m).1; SameCounts(g, g'.(nextProbe := g.nextProbe)) && g.nextProbe <= g'.nextProbe
  {
  }

  lemma ProbeMarks(t: TaskId, k: Task, g: Shared, m: ProbeMove)
    requires ProbeReady(k, m) && (m.DoMarkEpoch? || m.DoMarkEvidence? || m.DoLoadEpoch?)
    requires MarkInv(k, g.log) && CounterInv(g)
    ensures MarkInv(Probed(k, g, m).0, g.log)
  {
    assert g.log[..|g.log|] == g.log;
  }

  lemma ProbeKeeps(t: TaskId, k: Task, g: Shared, m: ProbeMove)
    requires ProbeReady(k, m) && (m.DoCount? ==> k.kind == Probe) && MarkInv(k, g.log) && CounterInv(g)
    ensures MarkInv(Probed(k, g, m).0, Probed(k, g, m).1.log) && Advances(g, Probed(k, g, m).1)
  {
    if m.DoCount? {
      CountAdvances(k, g);
      CountSettles(k, g);
      SettledMark(k, Probed(k, g, m).0, g.log, Probed(k, g, m).1.log);
    } else {
      ProbeSettles(t, k, g, m);
      if m.DoMarkEpoch? || m.DoMarkEvidence? || m.DoLoadEpoch? {
        ProbeMarks(t, k, g, m);
      } else {
        SettledMark(k, Probed(k, g, m).0, g.log, g.log);
      }
    }
  }

  lemma PutKeeps(s: State, t: TaskId, next: (Task, Shared))
    requires Inv(s) && MarkInv(next.0, next.1.log) && Advances(s.g, next.1)
    ensures Inv(Put(s, t, next))
  {
    var s' := Put(s, t, next);
    forall u | u in s'.tasks
      ensures MarkInv(s'.tasks[u], s'.g.log)
    {
      if u != t { MarkStays(s.tasks[u], s.g.log, s'.g.log); }
    }
  }

  /** The reader's step, from the counters, the broadcast history and its own new phase. */
  lemma ReadStep(s: State, s': State)
    requires Inv(s) && s'.tasks.Keys == s.tasks.Keys && Advances(s.g, s'.g)
    requires forall t :: t in s.tasks ==> Settled(s.tasks[t], s'.tasks[t])
    requires ReaderInv(s'.reader, s'.g)
    requires forall i :: 0 <= i < |s'.shared| ==> Private(s'.shared[i])
    ensures Inv(s')
  {
    forall t | t in s'.tasks
      ensures MarkInv(s'.tasks[t], s'.g.log)
    {
      SettledMark(s.tasks[t], s'.tasks[t], s.g.log, s'.g.log);
    }
  }

  lemma DeliverSettles(tasks: map<TaskId, Task>, to: Option<TaskId>, msg: Json)
    ensures Deliver(tasks, to, msg).Keys == tasks.Keys
    ensures forall t :: t in tasks ==> Settled(tasks[t], Deliver(tasks, to, msg)[t])
  {
  }

  lemma AnswerAdvances(g: Shared, n: nat)
    ensures Advances(g, g.(pending := g.pending - {n}, counters := g.counters.(timeouts := 0)).Note(Answered(n)))
  {
    if CounterInv(g) { NoteKeeps(g.log, Answered(n)); }
  }

  lemma AnswerKeeps(s: State, s': State, msg: Json, n: nat)
    requires Inv(s) && s.reader == Reading && Routing.AnswersPending(s, s', msg, n)
    ensures Inv(s')
  {
    AnswerAdvances(s.g, n);
    DeliverSettles(s.tasks, Some(s.g.pending[n]), msg);
    ReadStep(s, s');
  }

  lemma PassedOnKeeps(s: State, s': State, msg: Json)
    requires Inv(s) && s.reader == Reading && Routing.GoesOn(s, s', msg)
    ensures Inv(s')
  {
    assert forall i :: 0 <= i < |s.shared| ==> Private(s.shared[i]);
    ReadStep(s, s');
  }

  lemma ReceiveKeeps(s: State, msg: Json)
    requires Inv(s) && s.reader == Reading
    ensures Inv(Received(s, msg))
  {
    var answered, n := Routing.ReceivedCases(s, msg);
    if answered { AnswerKeeps(s, Received(s, msg), msg, n); } else { PassedOnKeeps(s, Received(s, msg), msg); }
  }

  lemma JudgedAdvances(g: Shared, msg: Json, sequence: nat)
    requires 0 < sequence < g.nextProbe
    ensures Advances(g, Judged(g, msg, sequence))
  {
    if CounterInv(g) { NoteKeeps(g.log, Proven(sequence)); }
  }

  lemma SilentReads(s: State, m: ReaderMove)
    requires CanRead(s, m) && (m.Match? || m.ReplyEnd? || m.EndOfStream? || m.Shut?) && ReaderInv(s.reader, s.g)
    ensures var s' := ReadOn(s, m);
            && s'.tasks == s.tasks && SameCounts(s.g, s'.g) && ReaderInv(s'.reader, s'.g)
            && (s'.shared == s.shared || (HasMethod(s.reader.msg) && s'.shared == s.shared + [Broadcast(s.reader.msg, s.g.nextProbe)]))
  {
  }

  lemma SilentKeeps(s: State, m: ReaderMove)
    requires Inv(s) && CanRead(s, m) && (m.Match? || m.ReplyEnd? || m.EndOfStream? || m.Shut?)
    ensures Inv(ReadOn(s, m))
  {
    SilentReads(s, m);
    assert forall i :: 0 <= i < |s.shared| ==> Private(s.shared[i]);
    ReadStep(s, ReadOn(s, m));
  }

  lemma ReadKeeps(s: State, m: ReaderMove)
    requires Inv(s) && CanRead(s, m)
    ensures Inv(ReadOn(s, m))
  {
    match m
    case Receive(msg) => ReceiveKeeps(s, msg);
    case ReplyStart(t, body) => PutKeeps(s, t, (Fresh(Reply, Queued, body), s.g));
    case JudgeAnswer =>
      JudgedAdvances(s.g, s.reader.msg, s.reader.sequence);
      ReadStep(s, ReadOn(s, m));
    case SendAnswer =>
      DeliverSettles(s.tasks, s.reader.to, s.reader.msg);
      ReadStep(s, ReadOn(s, m));
    case _ => SilentKeeps(s, m);
  }

  lemma MoveKeeps(s: State, t: TaskId, m: Move)
    requires Inv(s) && t in s.tasks && CanMove(s.tasks[t], m)
    ensures Inv(Put(s, t, Moved(t, s.tasks[t], s.g, m)))
  {
    var k, next := s.tasks[t], Moved(t, s.tasks[t], s.g, m);
    MoveSettles(t, k, s.g, m);
    if m.DoAnnounce? || m.DoActivate? || m.DoLeave? { ActivityAdvances(t, k, s.g, m); }
    SettledMark(k, next.0, s.g.log, next.1.log);
    PutKeeps(s, t, next);
  }

  lemma SettledKeeps(s: State, t: TaskId, next: (Task, Shared))
    requires Inv(s) && t in s.tasks && Settled(s.tasks[t], next.0) && SameCounts(s.g, next.1)
    ensures Inv(Put(s, t, next))
  {
    SettledMark(s.tasks[t], next.0, s.g.log, next.1.log);
    PutKeeps(s, t, next);
  }

  lemma WriteSettles(k: Task, g: Shared, n: nat)
    requires CanWrite(k, n)
    ensures Settled(k, Wrote(k, g, n).0) && SameCounts(g, Wrote(k, g, n).1)
  {
  }

  lemma TaskKeeps(s: State, a: Action)
    requires Inv(s) && Enabled(s, a) && (a.OfTask? || a.OfLock? || a.OfProbe? || a.Write?)
    requires s.tasks[a.t].phase == Count ==> s.tasks[a.t].kind == Probe
    ensures Inv(Apply(s, a))
  {
    match a
    case OfTask(t, m) => MoveKeeps(s, t, m);
    case OfLock(t, m) =>
      LockMoveSettles(t, s.tasks[t], s.g, m);
      SettledKeeps(s, t, LockMoved(t, s.tasks[t], s.g, m));
    case OfProbe(t, m) =>
      ProbeKeeps(t, s.tasks[t], s.g, m);
      PutKeeps(s, t, Probed(s.tasks[t], s.g, m));
    case Write(t, n) =>
      WriteSettles(s.tasks[t], s.g, n);
      SettledKeeps(s, t, Wrote(s.tasks[t], s.g, n));
  }

  lemma ApplyKeeps(s: State, a: Action)
    requires Inv(s) && Routing.Inv(s) && Enabled(s, a)
    ensures Inv(Apply(s, a))
  {
    match a
    case Start(t, kind, body) =>
      PutKeeps(s, t, (Fresh(kind, if kind == Handshake then Activate else Entry, body), s.g));
    case OfReader(m) => ReadKeeps(s, m);
    case ProbeStart(t, body) => PutKeeps(s, t, (Fresh(Probe, Queued, body), s.g));
    case ProbeEnd =>
    case _ =>
      assert Routing.TaskInv(a.t, s.tasks[a.t], s.g, s.reader);
      TaskKeeps(s, a);
  }

  lemma NextKeeps(s: State, s': State)
    requires Inv(s) && Routing.Inv(s) && Next(s, s')
    ensures Inv(s')
  {
    var a :| Enabled(s, a) && s' == Apply(s, a);
    ApplyKeeps(s, a);
  }

  lemma {:induction false} RunKeeps(states: seq<State>, i: nat)
    requires Run(states) && i < |states|
    ensures Inv(states[i])
  {
    if i == 0 {
      InitialInv();
    } else {
      RunKeeps(states, i - 1);
      Known(states, i);
      NextKeeps(states[i - 1], states[i]);
    }
  }

  lemma InitialInv()
    ensures Inv(INITIAL)
  {
  }

  lemma Known(states: seq<State>, i: nat)
    requires Run(states) && 0 < i < |states|
    ensures Routing.Inv(states[i - 1]) && Next(states[i - 1], states[i])
  {
    Routing.RunKeeps(states, i - 1);
    assert StepAt(states, i);
  }

  // ----- what the history shows -----

  lemma {:induction false} NoBegunBetween(log: seq<Event>, i: nat, j: nat)
    requires i <= j <= |log|
    ensures Begins(log[..i]) <= Begins(log[..j])
    ensures Begins(log[..i]) == Begins(log[..j]) ==> forall p :: i <= p < j ==> !log[p].Begun?
  {
    if i < j {
      NoBegunBetween(log, i, j - 1);
      assert log[..j][..j - 1] == log[..j - 1];
    }
  }

  lemma {:induction false} NoProvenBetween(log: seq<Event>, i: nat, j: nat)
    requires i <= j <= |log|
    ensures Proofs(log[..i]) <= Proofs(log[..j])
    ensures Proofs(log[..i]) == Proofs(log[..j]) ==> forall p :: i <= p < j ==> !log[p].Proven?
  {
    if i < j {
      NoProvenBetween(log, i, j - 1);
      assert log[..j][..j - 1] == log[..j - 1];
    }
  }

  /** A streak goes back to a counted timeout with no sign of life after it. */
  lemma {:induction false} LastCounted(log: seq<Event>, end: nat) returns (c: nat)
    requires end <= |log| && Streak(log[..end]) > 0
    ensures c < end && log[c].Counted? && Streak(log[..c]) == Streak(log[..end]) - 1
    ensures forall p :: c <= p < end ==> !Sign(log[p])
  {
    var last := log[end - 1];
    assert log[..end][..end - 1] == log[..end - 1];
    if last.Counted? {
      c := end - 1;
    } else {
      c := LastCounted(log, end - 1);
    }
  }

  /** The timeout branch retires the server only after three counted timeouts with neither an
      answered request nor a valid probe answer since the first of them. */
  lemma RetiredAfterThreeTimeouts(states: seq<State>, i: nat, p: nat)
    requires Run(states) && i < |states| && p < |states[i].g.log| && states[i].g.log[p].Retired?
    ensures var log := states[i].g.log;
            exists a, b, c :: 0 <= a < b < c < p && log[a].Counted? && log[b].Counted? && log[c].Counted?
                              && forall q :: a <= q < p ==> !Sign(log[q])
  {
    RunKeeps(states, i);
    var log := states[i].g.log;
    var c := LastCounted(log, p);
    var b := LastCounted(log, c);
    var a := LastCounted(log, b);
  }

  /** A counted probe saw no ordinary operation announced between its two looks at the epoch, and
      no valid probe answer between its look at the evidence and the count. */
  lemma CountedProbesSawNoChange(states: seq<State>, i: nat, p: nat)
    requires Run(states) && i < |states| && p < |states[i].g.log| && states[i].g.log[p].Counted?
    ensures var log := states[i].g.log;
            && log[p].epochAt <= log[p].seenTo <= p && log[p].epochAt <= log[p].evidenceAt <= p
            && (forall q :: log[p].epochAt <= q < log[p].seenTo ==> !log[q].Begun?)
            && (forall q :: log[p].evidenceAt <= q < p ==> !log[q].Proven?)
  {
    RunKeeps(states, i);
    var log := states[i].g.log;
    assert FairCount(log, p);
    NoBegunBetween(log, log[p].epochAt, log[p].seenTo);
    NoProvenBetween(log, log[p].evidenceAt, p);
  }

  /** The counters never run ahead of the probes issued. */
  lemma CompletionsBelowIssued(states: seq<State>, i: nat)
    requires Run(states) && i < |states|
    ensures var g := states[i].g; g.counters.completions <= g.counters.latest < g.nextProbe
    ensures states[i].g.counters.timeouts == Streak(states[i].g.log)
  {
    RunKeeps(states, i);
  }

  /** No message without a method that carries the id of a probe issued by then is passed on. */
  lemma ProbeTrafficStaysPrivate(states: seq<State>, i: nat, b: Broadcast, sequence: nat)
    requires Run(states) && i < |states| && b in states[i].shared
    requires 0 < sequence < b.next <= U64_LIMIT && !HasMethod(b.msg)
    ensures Get(b.msg, "id") != Some(Str(HealthId(sequence)))
  {
    RunKeeps(states, i);
    HealthSequenceExact(b.msg, b.next, sequence);
  }
}
