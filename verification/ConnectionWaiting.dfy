/** Nobody waits in vain: whoever waits for an answer in a live generation can still get it, and the probe
    loop stops only when the generation is dead. */
module ConnectionWaiting {
  import opened Decimal
  import opened Framing
  import opened Health
  import opened Connection
  import Routing = ConnectionRouting
  import Probes = ConnectionProbes

  /** Registered, and not past the wait for the answer. */
  predicate Expecting(p: Phase) { p.Writing? || p.Flushing? || p.Written? || p.Waiting? }

  /** The sender of the request's channel is in the map, unless it was used or the map was cleared. */
  predicate RequestInv(t: TaskId, k: Task, g: Shared) {
    k.kind == Request && Expecting(k.phase) ==> k.inbox != [] || g.cleared || (k.id in g.pending && g.pending[k.id] == t)
  }

  /** The sender of the probe's channel is in the slot or held by the reader, unless it was used or the
      generation is dead. */
  predicate ProbeInv(t: TaskId, k: Task, g: Shared, r: Reader) {
    k.kind == Probe && Expecting(k.phase) ==> k.inbox != [] || !g.alive || HoldsSender(r, t) || g.slot == Some((k.id, t))
  }

  /** Past the point at which a probe has retired the generation or given up on it. */
  predicate Over(p: Phase) { p.RetirePending? || p.RetireSlot? || (p.DropSlot? && !p.again) || (p.Done? && !p.ok) }

  predicate LoopInv(t: TaskId, k: Task, g: Shared, loop: Loop) {
    && (k.kind == Probe && !k.phase.Done? ==> loop == Probing(t))
    && (k.kind == Probe && Over(k.phase) ==> !g.alive) && (k.phase.RetirePending? || k.phase.RetireSlot? ==> !g.alive)
  }

  predicate TaskInv(t: TaskId, k: Task, s: State) {
    RequestInv(t, k, s.g) && ProbeInv(t, k, s.g, s.reader) && LoopInv(t, k, s.g, s.loop)
  }

  predicate StateInv(s: State) {
    && (s.loop == Stopped ==> !s.g.alive)
    && (s.loop.Probing? ==> s.loop.task in s.tasks && s.tasks[s.loop.task].kind == Probe)
    && (s.reader in {FailClear, EndClear, EndSlot, Ended} ==> !s.g.alive)
  }

  ghost predicate Inv(s: State) { StateInv(s) && forall t :: t in s.tasks ==> TaskInv(t, s.tasks[t], s) }

  // ----- the steps of a task -----

  /** What a step of task `t` does to the others: it touches no entry but that of its own id, and the slot
      only as a probe or when the generation is dead. */
  predicate Apart(k: Task, g: Shared, g': Shared) {
    && (g'.alive ==> g.alive) && (g.cleared ==> g'.cleared) && !k.phase.Done?
    && (g'.slot == g.slot || k.kind == Probe || !g'.alive)
    && (g'.cleared || forall id :: id in g.pending && id != k.id ==> id in g'.pending && g'.pending[id] == g.pending[id])
    && (g'.pending != g.pending && !g'.cleared ==> Routing.HasId(k))
  }

  /** And to itself. */
  predicate Own(t: TaskId, k: Task, g: Shared, k': Task, g': Shared, r: Reader) {
    && k'.kind == k.kind && RequestInv(t, k', g') && ProbeInv(t, k', g', r)
    && (k.kind == Probe && Over(k'.phase) ==> !g'.alive) && (k'.phase.RetirePending? || k'.phase.RetireSlot? ==> !g'.alive)
  }

  lemma MoveApart(t: TaskId, k: Task, g: Shared, m: Move)
    requires CanMove(k, m) && Routing.Kinded(k) && (k.phase.RetirePending? || k.phase.RetireSlot? ==> !g.alive)
    ensures Apart(k, g, Moved(t, k, g, m).1)
  {
  }

  lemma MoveOwn(t: TaskId, k: Task, g: Shared, m: Move, r: Reader)
    requires CanMove(k, m) && Routing.Kinded(k) && RequestInv(t, k, g) && ProbeInv(t, k, g, r)
    requires k.phase.RetirePending? || k.phase.RetireSlot? ==> !g.alive
    ensures Own(t, k, g, Moved(t, k, g, m).0, Moved(t, k, g, m).1, r)
  {
  }

  lemma LockMoveApart(t: TaskId, k: Task, g: Shared, m: LockMove)
    requires CanLockMove(k, g, m) && Routing.Kinded(k)
    ensures Apart(k, g, LockMoved(t, k, g, m).1)
  {
  }

  lemma LockMoveOwn(t: TaskId, k: Task, g: Shared, m: LockMove, r: Reader)
    requires CanLockMove(k, g, m) && Routing.Kinded(k) && RequestInv(t, k, g) && ProbeInv(t, k, g, r)
    ensures Own(t, k, g, LockMoved(t, k, g, m).0, LockMoved(t, k, g, m).1, r)
  {
  }

  lemma ProbeApart(k: Task, g: Shared, m: ProbeMove)
    requires ProbeReady(k, m) && k.kind == Probe
    ensures Apart(k, g, Probed(k, g, m).1)
  {
  }

  lemma ProbeOwnEarly(t: TaskId, k: Task, g: Shared, m: ProbeMove, r: Reader)
    requires CanProbe(t, k, g, r, m) && Early(m) && k.kind == Probe
    ensures Own(t, k, g, Probed(k, g, m).0, Probed(k, g, m).1, r)
  {
  }

  lemma ProbeOwn(t: TaskId, k: Task, g: Shared, m: ProbeMove, r: Reader)
    requires CanProbe(t, k, g, r, m) && k.kind == Probe && ProbeInv(t, k, g, r) && (Over(k.phase) ==> !g.alive)
    ensures Own(t, k, g, Probed(k, g, m).0, Probed(k, g, m).1, r)
  {
    if Early(m) { ProbeOwnEarly(t, k, g, m, r); }
  }

  lemma WriteApart(message: string, frame: string, t: TaskId, k: Task, g: Shared, n: nat, r: Reader)
    requires k.phase.Writing? && k.phase.sent + n <= |frame| && RequestInv(t, k, g) && ProbeInv(t, k, g, r)
    ensures var next := WroteOf(message, frame, k, g, n); Apart(k, g, next.1) && Own(t, k, g, next.0, next.1, r)
  {
  }

  lemma PutKeeps(s: State, t: TaskId, next: (Task, Shared))
    requires Inv(s) && Routing.Inv(s) && t in s.tasks
    requires Apart(s.tasks[t], s.g, next.1) && Own(t, s.tasks[t], s.g, next.0, next.1, s.reader)
    ensures Inv(Put(s, t, next))
  {
    var s' := Put(s, t, next);
    assert TaskInv(t, s.tasks[t], s);
    forall u | u in s'.tasks ensures TaskInv(u, s'.tasks[u], s') {
      if u != t {
        assert TaskInv(u, s.tasks[u], s);
        OtherKeeps(u, s.tasks[u], t, s.tasks[t], s, next.1);
      }
    }
  }

  lemma OtherKeeps(u: TaskId, j: Task, t: TaskId, k: Task, s: State, g': Shared)
    requires Routing.Inv(s) && u != t && u in s.tasks && t in s.tasks && s.tasks[u] == j && s.tasks[t] == k
    requires TaskInv(u, j, s) && TaskInv(t, k, s) && Apart(k, s.g, g')
    ensures RequestInv(u, j, g') && ProbeInv(u, j, g', s.reader) && LoopInv(u, j, g', s.loop)
  {
    assert Routing.TaskInv(u, j, s.g, s.reader) && Routing.TaskInv(t, k, s.g, s.reader);
  }

  lemma FreshKeeps(s: State, t: TaskId, k: Task, loop: Loop)
    requires Inv(s) && t !in s.tasks && !Expecting(k.phase) && !k.phase.Done? && !Over(k.phase)
    requires if k.kind == Probe then s.loop == Sleeping && loop == Probing(t) else loop == s.loop
    ensures Inv(Put(s, t, (k, s.g)).(loop := loop))
  {
    var s' := Put(s, t, (k, s.g)).(loop := loop);
    forall u | u in s'.tasks ensures TaskInv(u, s'.tasks[u], s') {
      if u != t { assert TaskInv(u, s.tasks[u], s); }
    }
  }

  // ----- the steps of the reader -----

  /** What the reader does: whoever loses its sender has got its message, or everything is over. */
  ghost predicate Reads(s: State, s': State) {
    && s'.loop == s.loop && s'.tasks.Keys == s.tasks.Keys && (s'.g.alive ==> s.g.alive) && (s.g.cleared ==> s'.g.cleared)
    && (s'.reader in {FailClear, EndClear, EndSlot, Ended} ==> !s'.g.alive)
    && forall t :: t in s.tasks ==> Hears(t, s.tasks[t], s'.tasks[t], s, s')
  }

  predicate Hears(t: TaskId, k: Task, k': Task, s: State, s': State) {
    && k' == k.(inbox := k'.inbox) && (k.inbox != [] ==> k'.inbox != [])
    && (k.id in s.g.pending && s.g.pending[k.id] == t ==> k'.inbox != [] || s'.g.cleared || (k.id in s'.g.pending && s'.g.pending[k.id] == t))
    && (s.g.slot == Some((k.id, t)) || HoldsSender(s.reader, t) ==>
          k'.inbox != [] || !s'.g.alive || HoldsSender(s'.reader, t) || s'.g.slot == Some((k.id, t)))
  }

  lemma ReceiveReads(s: State, msg: Json)
    requires s.reader == Reading
    ensures Reads(s, Received(s, msg))
  {
  }

  lemma ReadReads(s: State, m: ReaderMove)
    requires CanRead(s, m) && !m.ReplyStart? && StateInv(s)
    ensures Reads(s, ReadOn(s, m))
  {
    match m
    case Receive(msg) => ReceiveReads(s, msg);
    case Match =>
    case JudgeAnswer =>
    case SendAnswer =>
    case ReplyEnd =>
    case EndOfStream =>
    case Shut =>
  }

  lemma ReadKeeps(s: State, s': State)
    requires Inv(s) && Reads(s, s')
    ensures Inv(s')
  {
    forall t | t in s'.tasks ensures TaskInv(t, s'.tasks[t], s') {
      assert TaskInv(t, s.tasks[t], s) && Hears(t, s.tasks[t], s'.tasks[t], s, s');
    }
  }

  // ----- every run -----

  lemma TaskKeeps(s: State, a: Action)
    requires Inv(s) && Routing.Inv(s) && Enabled(s, a) && (a.OfTask? || a.OfLock? || a.OfProbe? || a.Write?)
    requires TaskInv(a.t, s.tasks[a.t], s) && Routing.Kinded(s.tasks[a.t])
    ensures Inv(Apply(s, a))
  {
    var k := s.tasks[a.t];
    match a
    case OfTask(t, m) =>
      MoveApart(t, k, s.g, m);
      MoveOwn(t, k, s.g, m, s.reader);
      PutKeeps(s, t, Moved(t, k, s.g, m));
    case OfLock(t, m) =>
      LockMoveApart(t, k, s.g, m);
      LockMoveOwn(t, k, s.g, m, s.reader);
      PutKeeps(s, t, LockMoved(t, k, s.g, m));
    case OfProbe(t, m) =>
      ProbeApart(k, s.g, m);
      ProbeOwn(t, k, s.g, m, s.reader);
      PutKeeps(s, t, Probed(k, s.g, m));
    case Write(t, n) =>
      WriteApart(Message(k), Frame(Message(k)), t, k, s.g, n, s.reader);
      PutKeeps(s, t, Wrote(k, s.g, n));
  }

  lemma ApplyKeeps(s: State, a: Action)
    requires Inv(s) && Routing.Inv(s) && Enabled(s, a)
    ensures Inv(Apply(s, a))
  {
    match a
    case Start(t, kind, body) => FreshKeeps(s, t, Fresh(kind, if kind == Handshake then Activate else Entry, body), s.loop);
    case ProbeStart(t, body) => FreshKeeps(s, t, Fresh(Probe, Queued, body), Probing(t));
    case ProbeEnd => EndKeeps(s);
    case OfReader(m) =>
      if m.ReplyStart? {
        ReplyKeeps(s, m.t, m.body);
      } else {
        ReadReads(s, m);
        ReadKeeps(s, ReadOn(s, m));
      }
    case _ =>
      assert Routing.TaskInv(a.t, s.tasks[a.t], s.g, s.reader) && TaskInv(a.t, s.tasks[a.t], s);
      TaskKeeps(s, a);
  }

  lemma EndKeeps(s: State)
    requires Inv(s) && Enabled(s, ProbeEnd)
    ensures Inv(Apply(s, ProbeEnd))
  {
    var s', t := Apply(s, ProbeEnd), s.loop.task;
    assert TaskInv(t, s.tasks[t], s);
    forall u | u in s'.tasks ensures TaskInv(u, s'.tasks[u], s') { assert TaskInv(u, s.tasks[u], s); }
  }

  lemma ReplyKeeps(s: State, t: TaskId, body: string)
    requires Inv(s) && CanRead(s, ReplyStart(t, body))
    ensures Inv(ReadOn(s, ReplyStart(t, body)))
  {
    var s' := ReadOn(s, ReplyStart(t, body));
    forall u | u in s'.tasks ensures TaskInv(u, s'.tasks[u], s') {
      if u != t { assert TaskInv(u, s.tasks[u], s); }
    }
  }

  lemma NextKeeps(s: State, s': State)
    requires Inv(s) && Routing.Inv(s) && Next(s, s')
    ensures Inv(s')
  {
    var a :| Enabled(s, a) && s' == Apply(s, a);
    ApplyKeeps(s, a);
  }

  lemma {:induction false} RunKeeps(states: seq<State>, i: nat)
    requires Run(states) && i < |states|
    ensures Inv(states[i])
  {
    if i == 0 {
      InitialInv();
    } else {
      RunKeeps(states, i - 1);
      Probes.Known(states, i);
      NextKeeps(states[i - 1], states[i]);
    }
  }

  lemma InitialInv()
    ensures Inv(INITIAL)
  {
  }

  // ----- main results -----

  /** A request that waits without its answer has its entry, until the map is cleared. */
  lemma WaitingRequestsCanBeAnswered(states: seq<State>, i: nat, t: TaskId)
    requires Run(states) && i < |states| && !states[i].g.cleared && t in states[i].tasks
    requires var k := states[i].tasks[t]; k.kind == Request && k.phase == Waiting && k.inbox == []
    ensures var s := states[i]; s.tasks[t].id in s.g.pending && s.g.pending[s.tasks[t].id] == t
  {
    RunKeeps(states, i);
    assert TaskInv(t, states[i].tasks[t], states[i]);
  }

  /** A probe that waits without its answer in a live generation is in the slot, or the reader holds its
      answer. */
  lemma WaitingProbesCanBeAnswered(states: seq<State>, i: nat, t: TaskId)
    requires Run(states) && i < |states| && states[i].g.alive && t in states[i].tasks
    requires var k := states[i].tasks[t]; k.kind == Probe && k.phase == Waiting && k.inbox == []
    ensures var s := states[i]; s.loop == Probing(t) && (s.g.slot == Some((s.tasks[t].id, t)) || HoldsSender(s.reader, t))
  {
    RunKeeps(states, i);
    assert TaskInv(t, states[i].tasks[t], states[i]);
  }

  /** The probe loop never stops on a live generation, and runs one probe at a time. */
  lemma LoopStopsOnlyWhenDead(states: seq<State>, i: nat)
    requires Run(states) && i < |states|
    ensures states[i].g.alive ==> states[i].loop != Stopped
    ensures forall t, u :: ProbeUnderWay(states[i], t) && ProbeUnderWay(states[i], u) ==> t == u
  {
    RunKeeps(states, i);
    forall t, u | ProbeUnderWay(states[i], t) && ProbeUnderWay(states[i], u) ensures t == u {
      assert TaskInv(t, states[i].tasks[t], states[i]) && TaskInv(u, states[i].tasks[u], states[i]);
    }
  }

  predicate ProbeUnderWay(s: State, t: TaskId) { t in s.tasks && s.tasks[t].kind == Probe && !s.tasks[t].phase.Done? }
}
