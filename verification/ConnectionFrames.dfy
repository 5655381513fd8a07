/** Frame integrity: whatever the interleaving, gopls reads whole messages and at most one torn
    frame, and after a torn frame nothing is ever written again. */
module ConnectionFrames {
  import opened Decimal
  import opened Framing
  import opened Health
  import opened Connection

  /** The phases in which a task owns the stdin lock. */
  predicate Holds(p: Phase) {
    || p.Recheck? || p.Writing? || p.Unlock? || p.TornUnregister? || p.TornKill? || p.TornClear?
    || p.TornUnlock? || Cleared(p)
  }

  /** The lock is held, the generation was seen alive under it, and no frame is half written. */
  predicate Cleared(p: Phase) {
    || p.RecheckActivity? || p.RecheckPending? || p.MarkEpoch? || p.MarkEvidence? || p.AllocateProbe?
    || p.Register? || p.Flushing? || p.Written?
  }

  /** The task that began the frame on the stream has not yet marked the generation dead. */
  predicate Owns(p: Phase) { p.Writing? || p.TornUnregister? || p.TornKill? }

  ghost predicate Partial(p: string) { p == "" || exists body :: ProperPrefix(p, Frame(body)) }

  ghost predicate StreamInv(g: Shared) { g.stream == Encode(g.sent) + g.partial && Partial(g.partial) }

  predicate WritesPrefix(k: Task, partial: string) {
    k.phase.Writing? ==> k.phase.sent < |Frame(Message(k))| && partial == Frame(Message(k))[..k.phase.sent]
  }

  /** What holds of every task `k`, numbered `t`, in every reachable state. */
  predicate LockInv(t: TaskId, k: Task, g: Shared) {
    && (Holds(k.phase) <==> g.lock == Some(t))
    && (Cleared(k.phase) ==> g.partial == "")
    && (g.lock == Some(t) && g.partial != "" && g.alive ==> Owns(k.phase))
  }

  predicate TaskInv(t: TaskId, k: Task, g: Shared) { LockInv(t, k, g) && WritesPrefix(k, g.partial) }

  ghost predicate Inv(s: State) {
    && StreamInv(s.g)
    && (s.g.lock.Some? ==> s.g.lock.value in s.tasks)
    && (s.g.partial != "" && s.g.alive ==> s.g.lock.Some?)
    && forall t :: t in s.tasks ==> TaskInv(t, s.tasks[t], s.g)
  }

  /** What a step of task `t` may do to the state the other tasks rely on: only the owner of the
      lock writes, and only the owner unlocks. */
  predicate Guarantee(t: TaskId, g: Shared, g': Shared) {
    && (g'.lock == g.lock || (g.lock.None? && g'.lock == Some(t)) || (g.lock == Some(t) && g'.lock.None?))
    && (g'.alive ==> g.alive)
    && (g.lock != Some(t) ==> g'.partial == g.partial && g'.stream == g.stream && g'.sent == g.sent)
    && (g'.partial != "" && g'.alive && g.lock == Some(t) ==> g'.lock == Some(t))
  }

  predicate SameBytes(g: Shared, g': Shared) { g'.partial == g.partial && g'.stream == g.stream && g'.sent == g.sent }

  lemma MoveKeeps(t: TaskId, k: Task, g: Shared, m: Move)
    requires CanMove(k, m) && LockInv(t, k, g)
    ensures var next := Moved(t, k, g, m);
            LockInv(t, next.0, next.1) && Guarantee(t, g, next.1) && SameBytes(g, next.1) && !next.0.phase.Writing?
  {
  }

  lemma LockMoveKeeps(t: TaskId, k: Task, g: Shared, m: LockMove)
    requires CanLockMove(k, g, m) && LockInv(t, k, g)
    requires g.partial != "" && g.alive ==> g.lock.Some?
    ensures var next := LockMoved(t, k, g, m); LockInv(t, next.0, next.1) && Guarantee(t, g, next.1) && SameBytes(g, next.1)
    ensures LockMoved(t, k, g, m).0.phase.Writing? ==> LockMoved(t, k, g, m).0.phase.sent == 0 && g.partial == ""
  {
  }

  lemma LastBytes(g: Shared, body: string, chunk: string)
    requires StreamInv(g) && g.partial + chunk == Frame(body)
    ensures g.stream + chunk == Encode(g.sent + [body]) + ""
  {
    var sent := g.sent + [body];
    assert sent[..|sent| - 1] == g.sent;
    Associative(Encode(g.sent), g.partial, chunk);
  }

  /** What the next bytes of a message's frame make of the stream. */
  ghost predicate Follows(message: string, frame: string, from: nat, n: nat, g: Shared)
    requires from + n <= |frame|
  {
    var chunk := frame[from..from + n];
    if from + n == |frame| then g.stream + chunk == Encode(g.sent + [message]) + ""
    else
      && g.stream + chunk == Encode(g.sent) + (g.partial + chunk) && Partial(g.partial + chunk)
      && g.partial + chunk == frame[..from + n]
  }

  lemma NextBytes(message: string, from: nat, n: nat, g: Shared)
    requires from + n <= |Frame(message)| && g.partial == Frame(message)[..from] && StreamInv(g)
    ensures Follows(message, Frame(message), from, n, g)
  {
    var frame := Frame(message);
    var chunk := frame[from..from + n];
    Slices(frame, from, from + n);
    if from + n == |frame| {
      LastBytes(g, message, chunk);
    } else {
      Associative(Encode(g.sent), g.partial, chunk);
    }
  }

  lemma WriteBytesOf(message: string, frame: string, k: Task, g: Shared, n: nat)
    requires k.phase.Writing? && k.phase.sent + n <= |frame| && Follows(message, frame, k.phase.sent, n, g)
    ensures var next := WroteOf(message, frame, k, g, n);
            && StreamInv(next.1) && (next.0.phase.Flushing? || next.0.phase.Writing?)
            && (next.0.phase.Writing? ==> next.0.phase.sent < |frame| && next.1.partial == frame[..next.0.phase.sent])
            && SameMessage(k, next.0.(phase := k.phase))
  {
  }

  lemma WriteBytes(k: Task, g: Shared, n: nat)
    requires CanWrite(k, n) && WritesPrefix(k, g.partial) && StreamInv(g)
    ensures StreamInv(Wrote(k, g, n).1) && WritesPrefix(Wrote(k, g, n).0, Wrote(k, g, n).1.partial)
  {
    NextBytes(Message(k), k.phase.sent, n, g);
    WriteBytesOf(Message(k), Frame(Message(k)), k, g, n);
    assert Message(Wrote(k, g, n).0) == Message(k);
  }

  lemma Slices(frame: string, i: nat, j: nat)
    requires i <= j <= |frame|
    ensures frame[..i] + frame[i..j] == frame[..j]
    ensures if j == |frame| then frame[..j] == frame else ProperPrefix(frame[..j], frame)
  {
  }

  lemma WriteKeeps(t: TaskId, k: Task, g: Shared, n: nat)
    requires CanWrite(k, n) && TaskInv(t, k, g) && StreamInv(g)
    ensures var next := Wrote(k, g, n); TaskInv(t, next.0, next.1) && Guarantee(t, g, next.1) && StreamInv(next.1)
  {
    WriteBytes(k, g, n);
  }

  lemma ProbeKeepsEarly(t: TaskId, k: Task, g: Shared, m: ProbeMove)
    requires ProbeReady(k, m) && LockInv(t, k, g) && Early(m)
    ensures var next := Probed(k, g, m);
            && LockInv(t, next.0, next.1) && SameBytes(g, next.1) && !next.0.phase.Writing?
            && next.1.lock == g.lock && next.1.alive == g.alive
  {
  }

  lemma ProbeKeepsCount(t: TaskId, k: Task, g: Shared, m: ProbeMove)
    requires ProbeReady(k, m) && LockInv(t, k, g) && m.DoCount?
    ensures var next := Probed(k, g, m);
            && LockInv(t, next.0, next.1) && SameBytes(g, next.1) && !next.0.phase.Writing?
            && next.1.lock == g.lock && next.1.alive == g.alive
  {
  }

  lemma ProbeKeepsLate(t: TaskId, k: Task, g: Shared, m: ProbeMove)
    requires ProbeReady(k, m) && LockInv(t, k, g) && !Early(m) && !m.DoCount?
    ensures var next := Probed(k, g, m);
            && LockInv(t, next.0, next.1) && SameBytes(g, next.1) && !next.0.phase.Writing?
            && next.1.lock == g.lock && next.1.alive == g.alive
  {
  }

  lemma ProbeKeeps(t: TaskId, k: Task, g: Shared, m: ProbeMove)
    requires ProbeReady(k, m) && LockInv(t, k, g)
    ensures var next := Probed(k, g, m);
            && LockInv(t, next.0, next.1) && SameBytes(g, next.1) && !next.0.phase.Writing?
            && next.1.lock == g.lock && next.1.alive == g.alive
  {
    if Early(m) { ProbeKeepsEarly(t, k, g, m); } else if m.DoCount? { ProbeKeepsCount(t, k, g, m); } else { ProbeKeepsLate(t, k, g, m); }
  }

  /** A task's own step and its guarantee are enough for the whole state. */
  lemma PutKeeps(s: State, t: TaskId, next: (Task, Shared))
    requires Inv(s) && (s.g.lock == Some(t) ==> t in s.tasks)
    requires TaskInv(t, next.0, next.1) && Guarantee(t, s.g, next.1) && StreamInv(next.1)
    ensures Inv(Put(s, t, next))
  {
    var s' := Put(s, t, next);
    forall u | u in s'.tasks
      ensures TaskInv(u, s'.tasks[u], s'.g)
    {
      if u != t { assert TaskInv(u, s.tasks[u], s.g); }
    }
  }

  predicate SameMessage(k: Task, k': Task) { k'.phase == k.phase && k'.kind == k.kind && k'.id == k.id && k'.body == k.body }

  /** The reader never touches the lock or the stream, and never moves a task. */
  ghost predicate Untouched(s: State, s': State) {
    && s'.g.lock == s.g.lock && SameBytes(s.g, s'.g) && (s'.g.alive ==> s.g.alive)
    && s'.tasks.Keys == s.tasks.Keys
    && forall t :: t in s.tasks ==> SameMessage(s.tasks[t], s'.tasks[t])
  }

  lemma ReceiveUntouched(s: State, msg: Json)
    ensures Untouched(s, Received(s, msg))
  {
  }

  lemma ReadUntouched(s: State, m: ReaderMove)
    requires CanRead(s, m) && !m.ReplyStart?
    ensures Untouched(s, ReadOn(s, m))
  {
    if m.Receive? { ReceiveUntouched(s, m.msg); }
  }

  lemma ReadKeeps(s: State, m: ReaderMove)
    requires Inv(s) && CanRead(s, m) && !m.ReplyStart?
    ensures Inv(ReadOn(s, m)) && ReadOn(s, m).g.stream == s.g.stream
  {
    ReadUntouched(s, m);
    var s' := ReadOn(s, m);
    forall t | t in s'.tasks
      ensures TaskInv(t, s'.tasks[t], s'.g)
    {
      assert TaskInv(t, s.tasks[t], s.g);
    }
  }

  lemma ApplyKeeps(s: State, a: Action)
    requires Inv(s) && Enabled(s, a)
    ensures Inv(Apply(s, a))
  {
    match a
    case OfTask(t, m) =>
      MoveKeeps(t, s.tasks[t], s.g, m);
      PutKeeps(s, t, Moved(t, s.tasks[t], s.g, m));
    case OfLock(t, m) =>
      LockMoveKeeps(t, s.tasks[t], s.g, m);
      PutKeeps(s, t, LockMoved(t, s.tasks[t], s.g, m));
    case Write(t, n) =>
      WriteKeeps(t, s.tasks[t], s.g, n);
      PutKeeps(s, t, Wrote(s.tasks[t], s.g, n));
    case OfProbe(t, m) =>
      ProbeKeeps(t, s.tasks[t], s.g, m);
      PutKeeps(s, t, Probed(s.tasks[t], s.g, m));
    case OfReader(m) =>
      if m.ReplyStart? { PutKeeps(s, m.t, (Fresh(Reply, Queued, m.body), s.g)); } else { ReadKeeps(s, m); }
    case Start(t, kind, body) => PutKeeps(s, t, (Fresh(kind, if kind == Handshake then Activate else Entry, body), s.g));
    case ProbeStart(t, body) => PutKeeps(s, t, (Fresh(Probe, Queued, body), s.g));
    case ProbeEnd =>
  }

  lemma NextKeeps(s: State, s': State)
    requires Inv(s) && Next(s, s')
    ensures Inv(s')
  {
    var a :| Enabled(s, a) && s' == Apply(s, a);
    ApplyKeeps(s, a);
  }

  lemma {:induction false} RunKeeps(states: seq<State>, i: nat)
    requires Run(states) && i < |states|
    ensures Inv(states[i])
  {
    if i == 0 {
      assert Encode([]) + "" == "";
    } else {
      RunKeeps(states, i - 1);
      assert StepAt(states, i);
      NextKeeps(states[i - 1], states[i]);
    }
  }

  /** At every moment of every run gopls, reading its stdin as base-protocol frames, gets exactly
      the messages written in full, in order, and is left with a proper prefix of one frame. */
  lemma FrameIntegrity(states: seq<State>, i: nat)
    requires Run(states) && i < |states|
    ensures Decode(states[i].g.stream) == (states[i].g.sent, states[i].g.partial)
    ensures Partial(states[i].g.partial)
  {
    RunKeeps(states, i);
    DecodeEncode(states[i].g.sent, states[i].g.partial);
  }

  /** A frame was begun and nobody is writing it any more. */
  ghost predicate Torn(s: State) {
    s.g.partial != "" && forall t :: t in s.tasks ==> !s.tasks[t].phase.Writing?
  }

  /** By the time the lock of a torn frame is released, the generation is dead. */
  lemma TornIsDead(states: seq<State>, i: nat)
    requires Run(states) && i < |states| && Torn(states[i])
    ensures states[i].g.alive ==> states[i].g.lock.Some? && states[i].g.lock.value in states[i].tasks
                                  && states[i].tasks[states[i].g.lock.value].phase in {TornUnregister, TornKill}
  {
    RunKeeps(states, i);
    var s := states[i];
    if s.g.alive { assert TaskInv(s.g.lock.value, s.tasks[s.g.lock.value], s.g); }
  }

  lemma TornStep(s: State, a: Action)
    requires Inv(s) && Enabled(s, a) && Torn(s)
    ensures Torn(Apply(s, a)) && Apply(s, a).g.stream == s.g.stream
  {
    match a
    case OfTask(t, m) => MoveKeeps(t, s.tasks[t], s.g, m);
    case OfLock(t, m) => LockMoveKeeps(t, s.tasks[t], s.g, m);
    case OfProbe(t, m) => ProbeKeeps(t, s.tasks[t], s.g, m);
    case OfReader(m) => if !m.ReplyStart? { ReadUntouched(s, m); }
    case _ =>
  }

  lemma NextTorn(s: State, s': State)
    requires Inv(s) && Next(s, s') && Torn(s)
    ensures Torn(s') && s'.g.stream == s.g.stream
  {
    var a :| Enabled(s, a) && s' == Apply(s, a);
    TornStep(s, a);
  }

  /** After a torn frame no task ever writes another byte. */
  lemma {:induction false} NothingFollowsATornFrame(states: seq<State>, i: nat, j: nat)
    requires Run(states) && i <= j < |states| && Torn(states[i])
    ensures Torn(states[j]) && states[j].g.stream == states[i].g.stream
  {
    if i < j {
      NothingFollowsATornFrame(states, i, j - 1);
      RunKeeps(states, j - 1);
      assert StepAt(states, j);
      NextTorn(states[j - 1], states[j]);
    }
  }

  lemma Extend(states: seq<State>, a: Action) returns (longer: seq<State>)
    requires Run(states) && Enabled(states[|states| - 1], a)
    ensures Run(longer) && longer[|longer| - 1] == Apply(states[|states| - 1], a)
  {
    var s := states[|states| - 1];
    assert Next(s, Apply(s, a));
    longer := states + [Apply(s, a)];
    forall i | 0 < i < |longer| ensures StepAt(longer, i) {
      if i < |states| { assert StepAt(states, i); }
    }
  }

  /** A notification that has the lock and has seen the generation alive. */
  lemma NotificationWrites(body: string) returns (states: seq<State>)
    ensures Run(states)
    ensures var s := states[|states| - 1];
            s.tasks == map[0 := Fresh(Notification, Writing(0), body)] && s.g.partial == "" && s.g.alive
  {
    states := [INITIAL];
    states := Extend(states, Start(0, Notification, body));
    states := Extend(states, OfTask(0, DoEntry));
    states := Extend(states, OfTask(0, DoActivate));
    states := Extend(states, OfTask(0, DoAnnounce));
    states := Extend(states, OfLock(0, Acquire));
    states := Extend(states, OfLock(0, DoRecheck));
  }

  /** A frame can be torn anywhere: each proper prefix of it, once begun, can be all that is written. */
  lemma AnyPrefixCanBeTorn(body: string, n: nat) returns (states: seq<State>)
    requires 0 < n < |Frame(body)|
    ensures Run(states) && Torn(states[|states| - 1]) && states[|states| - 1].g.partial == Frame(body)[..n]
  {
    states := NotificationWrites(body);
    states := Extend(states, Write(0, n));
    assert states[|states| - 1].g.partial == Frame(body)[..n] && states[|states| - 1].tasks[0].phase == Writing(n);
    states := Extend(states, OfLock(0, Tear));
  }
}
