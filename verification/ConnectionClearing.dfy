/** What is left in the pending map after the generation was retired or its output ended. Clearing the
    map drops the senders, so that the requests that wait end their waits at once; a request that had
    already checked the flag can still register after it. */
module ConnectionClearing {
  import opened Decimal
  import opened Framing
  import opened Health
  import opened Connection
  import Frames = ConnectionFrames
  import Routing = ConnectionRouting
  import Idle = ConnectionIdle

  predicate AtMostOne(pending: map<nat, TaskId>) { forall a, b :: a in pending && b in pending ==> a == b }

  predicate Registering(k: Task) { k.kind == Request && k.phase == Register }

  /** Whoever is about to clear the map has marked the generation dead. */
  predicate Dead(s: State) {
    && (s.reader.FailClear? || s.reader.EndClear? ==> !s.g.alive)
    && forall t :: t in s.tasks && (s.tasks[t].phase.RetirePending? || s.tasks[t].phase.TornClear?) ==> !s.g.alive
  }

  /** After clearing there is at most one entry or one request about to make one. */
  predicate Late(s: State) {
    s.g.cleared ==>
      && !s.g.alive && AtMostOne(s.g.pending)
      && (s.g.pending != map[] ==> forall t :: t in s.tasks ==> !Registering(s.tasks[t]))
  }

  predicate Inv(s: State) { Dead(s) && Late(s) }

  /** What a step of task `t` may do to the map and the flag. */
  predicate Step(t: TaskId, k: Task, k': Task, g: Shared, g': Shared) {
    && (g'.alive ==> g.alive) && (g.cleared ==> g'.cleared) && (Registering(k') && !Registering(k) ==> g.alive && k.phase == Recheck)
    && (k'.phase.RetirePending? || k'.phase.TornClear? ==> !g'.alive)
    && (g'.cleared && !g.cleared ==> g'.pending == map[] && (k.phase.RetirePending? || k.phase.TornClear?))
    && (forall id :: id in g'.pending ==> (id in g.pending && g'.pending[id] == g.pending[id]) || (id == k.id && g'.pending[id] == t && Registering(k) && !Registering(k')))
  }

  lemma MoveStep(t: TaskId, k: Task, g: Shared, m: Move)
    requires CanMove(k, m) && (k.phase.RetirePending? || k.phase.TornClear? ==> !g.alive)
    ensures Step(t, k, Moved(t, k, g, m).0, g, Moved(t, k, g, m).1)
  {
  }

  lemma LockMoveStep(t: TaskId, k: Task, g: Shared, m: LockMove)
    requires CanLockMove(k, g, m) && (k.phase.RetirePending? || k.phase.TornClear? ==> !g.alive)
    ensures Step(t, k, LockMoved(t, k, g, m).0, g, LockMoved(t, k, g, m).1)
  {
  }

  lemma ProbeStep(t: TaskId, k: Task, g: Shared, m: ProbeMove)
    requires ProbeReady(k, m) && k.kind == Probe
    ensures Step(t, k, Probed(k, g, m).0, g, Probed(k, g, m).1)
  {
  }

  lemma WriteStep(t: TaskId, k: Task, g: Shared, n: nat)
    requires CanWrite(k, n)
    ensures Step(t, k, Wrote(k, g, n).0, g, Wrote(k, g, n).1)
  {
  }

  lemma PutKeeps(s: State, t: TaskId, next: (Task, Shared))
    requires Inv(s) && Frames.Inv(s) && t in s.tasks && Step(t, s.tasks[t], next.0, s.g, next.1)
    ensures Inv(Put(s, t, next))
  {
    var s' := Put(s, t, next);
    if s'.g.cleared && s'.g.pending != map[] {
      forall u | u in s'.tasks ensures !Registering(s'.tasks[u]) {
        assert Frames.TaskInv(t, s.tasks[t], s.g);
        if u != t { assert Frames.TaskInv(u, s.tasks[u], s.g); }
      }
    }
  }

  lemma FreshKeeps(s: State, t: TaskId, k: Task)
    requires Inv(s) && t !in s.tasks && !Registering(k) && !k.phase.RetirePending? && !k.phase.TornClear?
    ensures Inv(Put(s, t, (k, s.g)))
  {
  }

  /** What the reader may do to the map, the flag and the tasks. */
  ghost predicate Reads(s: State, s': State) {
    && (s'.g.alive ==> s.g.alive) && (s.g.cleared ==> s'.g.cleared) && (s'.reader.FailClear? || s'.reader.EndClear? ==> !s'.g.alive)
    && s'.tasks.Keys == s.tasks.Keys && (forall t :: t in s.tasks ==> s'.tasks[t] == s.tasks[t].(inbox := s'.tasks[t].inbox))
    && (s'.g.cleared && !s.g.cleared ==> s'.g.pending == map[] && (s.reader.FailClear? || s.reader.EndClear?))
    && (forall id :: id in s'.g.pending ==> id in s.g.pending && s'.g.pending[id] == s.g.pending[id])
  }

  lemma ReceiveReads(s: State, msg: Json)
    requires s.reader == Reading
    ensures Reads(s, Received(s, msg))
  {
  }

  lemma ReadReads(s: State, m: ReaderMove)
    requires CanRead(s, m) && !m.ReplyStart? && Dead(s)
    ensures Reads(s, ReadOn(s, m))
  {
    if m.Receive? { ReceiveReads(s, m.msg); }
  }

  lemma ReadKeeps(s: State, s': State)
    requires Inv(s) && Reads(s, s')
    ensures Inv(s')
  {
  }

  lemma ApplyKeeps(s: State, a: Action)
    requires Inv(s) && Frames.Inv(s) && Routing.Inv(s) && Enabled(s, a)
    ensures Inv(Apply(s, a))
  {
    var s' := Apply(s, a);
    match a
    case Start(t, kind, body) => FreshKeeps(s, t, Fresh(kind, if kind == Handshake then Activate else Entry, body));
    case ProbeStart(t, body) => FreshKeeps(s, t, Fresh(Probe, Queued, body));
    case ProbeEnd =>
    case OfReader(m) =>
      if m.ReplyStart? { FreshKeeps(s, m.t, Fresh(Reply, Queued, m.body)); } else { ReadReads(s, m); ReadKeeps(s, s'); }
    case _ =>
      assert Routing.TaskInv(a.t, s.tasks[a.t], s.g, s.reader);
      TaskStep(s, a);
      PutKeeps(s, a.t, (s'.tasks[a.t], s'.g));
  }

  lemma NextKeeps(s: State, s': State)
    requires Inv(s) && Frames.Inv(s) && Routing.Inv(s) && Next(s, s')
    ensures Inv(s')
  {
    var a :| Enabled(s, a) && s' == Apply(s, a);
    ApplyKeeps(s, a);
  }

  lemma TaskStep(s: State, a: Action)
    requires Dead(s) && Enabled(s, a) && (a.OfTask? || a.OfLock? || a.OfProbe? || a.Write?) && Routing.Kinded(s.tasks[a.t])
    ensures var s' := Apply(s, a);
            a.t in s'.tasks && s' == Put(s, a.t, (s'.tasks[a.t], s'.g)) && Step(a.t, s.tasks[a.t], s'.tasks[a.t], s.g, s'.g)
  {
    match a
    case OfTask(t, m) => MoveStep(t, s.tasks[t], s.g, m);
    case OfLock(t, m) => LockMoveStep(t, s.tasks[t], s.g, m);
    case OfProbe(t, m) => ProbeStep(t, s.tasks[t], s.g, m);
    case Write(t, n) => WriteStep(t, s.tasks[t], s.g, n);
  }

  lemma {:induction false} RunKeeps(states: seq<State>, i: nat)
    requires Run(states) && i < |states|
    ensures Inv(states[i])
  {
    if i > 0 {
      RunKeeps(states, i - 1);
      Frames.RunKeeps(states, i - 1);
      Routing.RunKeeps(states, i - 1);
      assert StepAt(states, i);
      NextKeeps(states[i - 1], states[i]);
    }
  }

  // ----- main results -----

  /** Once the map was cleared, by retirement, by a torn frame or at the end of the output, it never
      holds more than one entry: every other request that waits has lost its sender. */
  lemma AtMostOneAfterClearing(states: seq<State>, i: nat)
    requires Run(states) && i < |states| && states[i].g.cleared
    ensures !states[i].g.alive && AtMostOne(states[i].g.pending)
  {
    RunKeeps(states, i);
  }

  /** The request whose entry this is was between its check of the flag and its registration. */
  ghost predicate Straddles(states: seq<State>, i: nat, t: TaskId) {
    exists k, j :: 0 <= k < j < i < |states| && t in states[k].tasks && t in states[j].tasks
                   && states[k].g.alive && states[k].tasks[t].phase == Recheck
                   && states[j].g.cleared && Registering(states[j].tasks[t])
  }

  lemma {:induction false} RegisterAfterCheck(states: seq<State>, j: nat, t: TaskId) returns (k: nat)
    requires Run(states) && j < |states| && t in states[j].tasks && Registering(states[j].tasks[t])
    ensures k < j && t in states[k].tasks && states[k].g.alive && states[k].tasks[t].phase == Recheck
  {
    k := j - 1;
    StepFacts(states, j);
    if t in states[k].tasks && Registering(states[k].tasks[t]) {
      k := RegisterAfterCheck(states, k, t);
    } else {
      ChecksFirst(states[k], states[j], t);
    }
  }

  lemma StepFacts(states: seq<State>, j: nat)
    requires Run(states) && 0 < j < |states|
    ensures Next(states[j - 1], states[j]) && Inv(states[j - 1]) && Routing.Inv(states[j - 1])
  {
    RunKeeps(states, j - 1);
    Routing.RunKeeps(states, j - 1);
    assert StepAt(states, j);
  }

  lemma ChecksFirst(s: State, s': State, t: TaskId)
    requires Inv(s) && Routing.Inv(s) && Next(s, s') && t in s'.tasks && Registering(s'.tasks[t])
    requires !(t in s.tasks && Registering(s.tasks[t]))
    ensures t in s.tasks && s.g.alive && s.tasks[t].phase == Recheck
  {
    var a :| Enabled(s, a) && s' == Apply(s, a);
    if a.OfTask? || a.OfLock? || a.OfProbe? || a.Write? {
      assert Routing.TaskInv(a.t, s.tasks[a.t], s.g, s.reader);
      TaskStep(s, a);
    } else {
      NobodyRegisters(s, a, t);
    }
  }

  lemma NobodyRegisters(s: State, a: Action, t: TaskId)
    requires Dead(s) && Enabled(s, a) && !a.OfTask? && !a.OfLock? && !a.OfProbe? && !a.Write? && t in Apply(s, a).tasks
    ensures Registering(Apply(s, a).tasks[t]) ==> t in s.tasks && Registering(s.tasks[t])
  {
    if a.OfReader? && !a.reading.ReplyStart? { ReadReads(s, a.reading); }
  }

  lemma EntryIsNew(s: State, s': State, id: nat)
    requires Inv(s) && Routing.Inv(s) && Next(s, s') && s'.g.cleared && id in s'.g.pending
    ensures s.g.cleared
    ensures var t := s'.g.pending[id]; (id in s.g.pending && s.g.pending[id] == t) || (t in s.tasks && Registering(s.tasks[t]))
  {
    var a :| Enabled(s, a) && s' == Apply(s, a);
    match a
    case OfReader(m) => if !m.ReplyStart? { ReadReads(s, m); }
    case Start(t, kind, body) =>
    case ProbeStart(t, body) =>
    case ProbeEnd =>
    case _ =>
      assert Routing.TaskInv(a.t, s.tasks[a.t], s.g, s.reader);
      TaskStep(s, a);
  }

  /** An entry present after the clearing belongs to a request that had found the generation alive
      before and registered after. */
  lemma {:induction false} LateEntryStraddles(states: seq<State>, i: nat, id: nat)
    requires Run(states) && i < |states| && states[i].g.cleared && id in states[i].g.pending
    ensures Straddles(states, i, states[i].g.pending[id])
    decreases i, 1
  {
    StepFacts(states, i);
    EntryIsNew(states[i - 1], states[i], id);
    Earlier(states, i, id, states[i].g.pending[id]);
  }

  lemma Earlier(states: seq<State>, i: nat, id: nat, t: TaskId)
    requires Run(states) && 0 < i < |states| && states[i - 1].g.cleared
    requires (id in states[i - 1].g.pending && states[i - 1].g.pending[id] == t) || (t in states[i - 1].tasks && Registering(states[i - 1].tasks[t]))
    ensures Straddles(states, i, t)
    decreases i, 0
  {
    if t in states[i - 1].tasks && Registering(states[i - 1].tasks[t]) {
      var k := RegisterAfterCheck(states, i - 1, t);
    } else {
      LateEntryStraddles(states, i - 1, id);
      var k, j :| 0 <= k < j < i - 1 < |states| && t in states[k].tasks && t in states[j].tasks
                  && states[k].g.alive && states[k].tasks[t].phase == Recheck
                  && states[j].g.cleared && Registering(states[j].tasks[t]);
    }
  }

  /** And every such request makes an entry: one that stands at its registration when the map has been
      cleared makes, with its own next step, the only entry there is. */
  lemma StraddlerRegisters(states: seq<State>, i: nat, t: TaskId)
    requires Run(states) && 0 < i < |states| && states[i - 1].g.cleared
    requires t in states[i - 1].tasks && Registering(states[i - 1].tasks[t])
    ensures t in states[i].tasks
    ensures if states[i].tasks[t].phase == Register then Registering(states[i].tasks[t]) && states[i].g.cleared
            else states[i].g.pending == map[states[i].tasks[t].id := t]
  {
    StepFacts(states, i);
    var a :| Enabled(states[i - 1], a) && states[i] == Apply(states[i - 1], a);
    RegistersOrStays(states[i - 1], a, t);
    AtMostOneAfterClearing(states, i);
  }

  lemma RegistersOrStays(s: State, a: Action, t: TaskId)
    requires Dead(s) && Routing.Inv(s) && Enabled(s, a) && s.g.cleared && t in s.tasks && Registering(s.tasks[t])
    ensures var s' := Apply(s, a);
            && s'.g.cleared && t in s'.tasks
            && if s'.tasks[t].phase == Register then Registering(s'.tasks[t])
               else s'.tasks[t].id in s'.g.pending && s'.g.pending[s'.tasks[t].id] == t
  {
    match a
    case OfReader(m) => if !m.ReplyStart? { ReadReads(s, m); }
    case Start(u, kind, body) =>
    case ProbeStart(u, body) =>
    case ProbeEnd =>
    case _ =>
      assert Routing.TaskInv(a.t, s.tasks[a.t], s.g, s.reader);
      TaskStep(s, a);
      if a.t == t { RegisterIsNext(s, a); }
  }

  /** At its registration a request can do nothing else. */
  lemma RegisterIsNext(s: State, a: Action)
    requires Enabled(s, a) && (a.OfTask? || a.OfLock? || a.OfProbe? || a.Write?) && Registering(s.tasks[a.t])
    ensures var s' := Apply(s, a);
            s'.tasks[a.t].phase != Register && s'.tasks[a.t].id in s'.g.pending && s'.g.pending[s'.tasks[a.t].id] == a.t
  {
  }

  /** It happens: the output has ended and everything was cleared, and yet a request waits whose sender
      is still in the map. Only its timeout ends the wait. */
  lemma WaitsAfterTheEnd(body: string) returns (states: seq<State>)
    ensures Run(states)
    ensures var s := states[|states| - 1];
            && s.reader == Ended && !s.g.alive && s.g.pending == map[1 := 0]
            && 0 in s.tasks && s.tasks[0].kind == Request && s.tasks[0].phase == Waiting
  {
    states := [INITIAL];
    states := Idle.RequestBegins(states, 0, body);
    states := Frames.Extend(states, OfTask(0, DoAllocate));
    states := Frames.Extend(states, OfLock(0, Acquire));
    states := Frames.Extend(states, OfLock(0, DoRecheck));
    states := OutputEnds(states);
    states := Frames.Extend(states, OfLock(0, DoRegister));
    states := Idle.WritesAll(states, 0);
  }

  lemma OutputEnds(states: seq<State>) returns (longer: seq<State>)
    requires Run(states) && states[|states| - 1].reader == Reading
    ensures var s := states[|states| - 1];
            Run(longer) && longer[|longer| - 1]
              == s.(g := s.g.(alive := false, pending := map[], cleared := true, slot := None), reader := Ended)
  {
    longer := Frames.Extend(states, OfReader(EndOfStream));
    longer := Frames.Extend(longer, OfReader(Shut));
    longer := Frames.Extend(longer, OfReader(Shut));
    longer := Frames.Extend(longer, OfReader(Shut));
  }
}
