/** What a task waits for was asked: the message with its id is on the stream. */
module ConnectionMessages {
  import opened Decimal
  import opened Framing
  import opened Health
  import opened Connection
  import Frames = ConnectionFrames

  /** The task's frame is written in full. */
  predicate Asked(p: Phase) { p.Flushing? || p.Written? || p.Waiting? || p.Unregister? }

  predicate TaskInv(k: Task, g: Shared) { Asked(k.phase) ==> Message(k) in g.sent }

  predicate Inv(s: State) { forall t :: t in s.tasks ==> TaskInv(s.tasks[t], s.g) }

  /** Nothing sent is taken back, and a task asks only by writing. */
  predicate Step(k: Task, k': Task, g: Shared, g': Shared) {
    && g.sent <= g'.sent
    && (Asked(k'.phase) ==> k'.kind == k.kind && k'.id == k.id && k'.body == k.body && (Asked(k.phase) || Message(k) in g'.sent))
  }

  lemma MoveStep(t: TaskId, k: Task, g: Shared, m: Move)
    requires CanMove(k, m)
    ensures Step(k, Moved(t, k, g, m).0, g, Moved(t, k, g, m).1)
  {
  }

  lemma LockMoveStep(t: TaskId, k: Task, g: Shared, m: LockMove)
    requires CanLockMove(k, g, m)
    ensures Step(k, LockMoved(t, k, g, m).0, g, LockMoved(t, k, g, m).1)
  {
  }

  lemma ProbeStep(k: Task, g: Shared, m: ProbeMove)
    requires ProbeReady(k, m)
    ensures Step(k, Probed(k, g, m).0, g, Probed(k, g, m).1)
  {
  }

  lemma WriteStepOf(message: string, frame: string, k: Task, g: Shared, n: nat)
    requires k.phase.Writing? && k.phase.sent + n <= |frame|
    ensures var next := WroteOf(message, frame, k, g, n);
            && g.sent <= next.1.sent && next.0 == k.(phase := next.0.phase)
            && (next.0.phase.Flushing? || next.0.phase.Writing?) && (next.0.phase.Flushing? ==> message in next.1.sent)
  {
  }

  lemma WriteStep(k: Task, g: Shared, n: nat)
    requires CanWrite(k, n)
    ensures Step(k, Wrote(k, g, n).0, g, Wrote(k, g, n).1)
  {
    WriteStepOf(Message(k), Frame(Message(k)), k, g, n);
  }

  lemma SameMessage(k: Task, k': Task)
    requires k'.kind == k.kind && k'.id == k.id && k'.body == k.body
    ensures Message(k') == Message(k)
  {
  }

  lemma PutKeeps(s: State, t: TaskId, next: (Task, Shared))
    requires Inv(s) && s.g.sent <= next.1.sent && (if t in s.tasks then Step(s.tasks[t], next.0, s.g, next.1) else !Asked(next.0.phase))
    ensures Inv(Put(s, t, next))
  {
    forall u | u in Put(s, t, next).tasks ensures TaskInv(Put(s, t, next).tasks[u], next.1) {
      if u in s.tasks { assert TaskInv(s.tasks[u], s.g); }
      if u == t && t in s.tasks && Asked(next.0.phase) { SameMessage(s.tasks[t], next.0); }
    }
  }

  lemma ReadKeeps(s: State, s': State)
    requires Inv(s) && Frames.Untouched(s, s')
    ensures Inv(s')
  {
    forall t | t in s'.tasks ensures TaskInv(s'.tasks[t], s'.g) {
      assert TaskInv(s.tasks[t], s.g);
      SameMessage(s.tasks[t], s'.tasks[t]);
    }
  }

  lemma ApplyKeeps(s: State, a: Action)
    requires Inv(s) && Enabled(s, a)
    ensures Inv(Apply(s, a))
  {
    var s' := Apply(s, a);
    match a
    case Start(t, kind, body) => PutKeeps(s, t, (Fresh(kind, if kind == Handshake then Activate else Entry, body), s.g));
    case ProbeStart(t, body) => PutKeeps(s, t, (Fresh(Probe, Queued, body), s.g));
    case ProbeEnd =>
    case OfReader(m) =>
      if m.ReplyStart? { PutKeeps(s, m.t, (Fresh(Reply, Queued, m.body), s.g)); } else { Frames.ReadUntouched(s, m); ReadKeeps(s, s'); }
    case OfTask(t, m) =>
      MoveStep(t, s.tasks[t], s.g, m);
      PutKeeps(s, t, Moved(t, s.tasks[t], s.g, m));
    case OfLock(t, m) =>
      LockMoveStep(t, s.tasks[t], s.g, m);
      PutKeeps(s, t, LockMoved(t, s.tasks[t], s.g, m));
    case OfProbe(t, m) =>
      ProbeStep(s.tasks[t], s.g, m);
      PutKeeps(s, t, Probed(s.tasks[t], s.g, m));
    case Write(t, n) =>
      WriteStep(s.tasks[t], s.g, n);
      PutKeeps(s, t, Wrote(s.tasks[t], s.g, n));
  }

  lemma NextKeeps(s: State, s': State)
    requires Inv(s) && Next(s, s')
    ensures Inv(s')
  {
    var a :| Enabled(s, a) && s' == Apply(s, a);
    ApplyKeeps(s, a);
  }

  lemma {:induction false} RunKeeps(states: seq<State>, i: nat)
    requires Run(states) && i < |states|
    ensures Inv(states[i])
  {
    if i > 0 {
      RunKeeps(states, i - 1);
      assert StepAt(states, i);
      NextKeeps(states[i - 1], states[i]);
    }
  }

  /** A request or probe that waits has its message, with the id its answer is routed by, among the
      messages gopls reads from the stream. */
  lemma WaitingMeansAsked(states: seq<State>, i: nat, t: TaskId)
    requires Run(states) && i < |states| && t in states[i].tasks && states[i].tasks[t].phase == Waiting
    ensures Message(states[i].tasks[t]) in Decode(states[i].g.stream).0
  {
    RunKeeps(states, i);
    Frames.FrameIntegrity(states, i);
    assert TaskInv(states[i].tasks[t], states[i].g);
  }
}
