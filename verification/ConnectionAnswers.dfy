/** What an answer does: it reaches the request or the probe it is for, a probe with a valid answer keeps
    the server, and one with an invalid answer or the third timeout in a row retires it. */
module ConnectionAnswers {
  import opened Decimal
  import opened Framing
  import opened Health
  import opened Connection
  import Frames = ConnectionFrames
  import Routing = ConnectionRouting
  import Probes = ConnectionProbes
  import Idle = ConnectionIdle

  // ----- the number in the probe slot was issued -----

  predicate Registering(k: Task) { k.kind == Probe && k.phase == Register }

  predicate Issued(sequence: nat, g: Shared) { 0 < sequence < g.nextProbe }

  ghost predicate Inv(s: State) {
    && 0 < s.g.nextProbe && (s.g.slot.Some? ==> Issued(s.g.slot.value.0, s.g))
    && forall t :: t in s.tasks && Registering(s.tasks[t]) ==> Issued(s.tasks[t].id, s.g)
  }

  /** What a step may do to the numbers. */
  predicate Step(k: Task, k': Task, g: Shared, g': Shared) {
    && g.nextProbe <= g'.nextProbe
    && (g'.slot == g.slot || g'.slot.None? || (Registering(k) && g'.slot.value.0 == k.id))
    && (Registering(k') ==> (Registering(k) && k'.id == k.id) || (0 < g.nextProbe ==> Issued(k'.id, g')))
  }

  lemma MoveStep(t: TaskId, k: Task, g: Shared, m: Move)
    requires CanMove(k, m)
    ensures Step(k, Moved(t, k, g, m).0, g, Moved(t, k, g, m).1)
  {
  }

  lemma LockMoveStep(t: TaskId, k: Task, g: Shared, m: LockMove)
    requires CanLockMove(k, g, m) && Routing.Kinded(k)
    ensures Step(k, LockMoved(t, k, g, m).0, g, LockMoved(t, k, g, m).1)
  {
  }

  lemma ProbeStep(k: Task, g: Shared, m: ProbeMove)
    requires ProbeReady(k, m)
    ensures Step(k, Probed(k, g, m).0, g, Probed(k, g, m).1)
  {
  }

  lemma WriteStep(message: string, frame: string, k: Task, g: Shared, n: nat)
    requires k.phase.Writing? && k.phase.sent + n <= |frame|
    ensures Step(k, WroteOf(message, frame, k, g, n).0, g, WroteOf(message, frame, k, g, n).1)
  {
  }

  lemma PutKeeps(s: State, t: TaskId, next: (Task, Shared))
    requires Inv(s) && t in s.tasks && Step(s.tasks[t], next.0, s.g, next.1)
    ensures Inv(Put(s, t, next))
  {
  }

  lemma FreshKeeps(s: State, t: TaskId, k: Task)
    requires Inv(s) && t !in s.tasks && !Registering(k)
    ensures Inv(Put(s, t, (k, s.g)))
  {
  }

  /** What the reader may do to them. */
  ghost predicate Reads(s: State, s': State) {
    && s'.g.nextProbe == s.g.nextProbe && (s'.g.slot == s.g.slot || s'.g.slot.None?) && s'.tasks.Keys == s.tasks.Keys
    && forall t :: t in s.tasks ==> s'.tasks[t] == s.tasks[t].(inbox := s'.tasks[t].inbox)
  }

  lemma ReceiveReads(s: State, msg: Json)
    ensures Reads(s, Received(s, msg))
  {
  }

  lemma ReadReads(s: State, m: ReaderMove)
    requires CanRead(s, m) && !m.ReplyStart?
    ensures Reads(s, ReadOn(s, m))
  {
    if m.Receive? { ReceiveReads(s, m.msg); }
  }

  lemma TaskKeeps(s: State, a: Action)
    requires Inv(s) && Enabled(s, a) && (a.OfTask? || a.OfLock? || a.OfProbe? || a.Write?) && Routing.Kinded(s.tasks[a.t])
    ensures Inv(Apply(s, a))
  {
    var k := s.tasks[a.t];
    match a
    case OfTask(t, m) =>
      MoveStep(t, k, s.g, m);
      PutKeeps(s, t, Moved(t, k, s.g, m));
    case OfLock(t, m) =>
      LockMoveStep(t, k, s.g, m);
      PutKeeps(s, t, LockMoved(t, k, s.g, m));
    case OfProbe(t, m) =>
      ProbeStep(k, s.g, m);
      PutKeeps(s, t, Probed(k, s.g, m));
    case Write(t, n) =>
      WriteStep(Message(k), Frame(Message(k)), k, s.g, n);
      PutKeeps(s, t, Wrote(k, s.g, n));
  }

  lemma ApplyKeeps(s: State, a: Action)
    requires Inv(s) && Routing.Inv(s) && Enabled(s, a)
    ensures Inv(Apply(s, a))
  {
    match a
    case Start(t, kind, body) => FreshKeeps(s, t, Fresh(kind, if kind == Handshake then Activate else Entry, body));
    case ProbeStart(t, body) => FreshKeeps(s, t, Fresh(Probe, Queued, body));
    case ProbeEnd =>
    case OfReader(m) => if m.ReplyStart? { FreshKeeps(s, m.t, Fresh(Reply, Queued, m.body)); } else { ReadReads(s, m); }
    case _ =>
      assert Routing.TaskInv(a.t, s.tasks[a.t], s.g, s.reader);
      TaskKeeps(s, a);
  }

  lemma NextKeeps(s: State, s': State)
    requires Inv(s) && Routing.Inv(s) && Next(s, s')
    ensures Inv(s')
  {
    var a :| Enabled(s, a) && s' == Apply(s, a);
    ApplyKeeps(s, a);
  }

  lemma {:induction false} RunKeeps(states: seq<State>, i: nat)
    requires Run(states) && i < |states|
    ensures Inv(states[i])
  {
    if i == 0 {
      InitialInv();
    } else {
      RunKeeps(states, i - 1);
      Probes.Known(states, i);
      NextKeeps(states[i - 1], states[i]);
    }
  }

  lemma InitialInv()
    ensures Inv(INITIAL)
  {
  }

  // ----- requests -----

  /** The message answers request `n`, whatever it says. */
  predicate AnswersRequest(msg: Json, n: nat) { !HasMethod(msg) && Get(msg, "id") == Some(Int(n)) && n < U64_LIMIT }

  /** An answer to a pending request reaches it: the request finds exactly this message, its entry is
      gone, the streak of timeouts is broken, and nobody else hears of it. */
  lemma AnswerReachesItsRequest(states: seq<State>, i: nat, msg: Json, n: nat)
    requires Run(states) && i < |states| && states[i].reader == Reading && n in states[i].g.pending && AnswersRequest(msg, n)
    ensures var s, t := states[i], states[i].g.pending[n];
            var s' := Apply(s, OfReader(Receive(msg)));
            && t in s.tasks && s.tasks[t].kind == Request && s.tasks[t].id == n
            && s'.tasks == s.tasks[t := s.tasks[t].(inbox := [msg])]
            && s'.g.pending == s.g.pending - {n} && s'.g.counters == s.g.counters.(timeouts := 0)
            && s'.shared == s.shared && s'.reader == Reading && s'.g.alive == s.g.alive && s'.g.slot == s.g.slot
  {
    Routing.RunKeeps(states, i);
    var s, t := states[i], states[i].g.pending[n];
    assert Routing.TaskInv(t, s.tasks[t], s.g, s.reader);
    assert s.tasks[t].inbox + [msg] == [msg];
  }

  /** What else may come changes no task, no entry and no counter. Passed on to the listeners is what has
      no id, and what has one and no method but is neither the answer to a request that waits nor to an
      issued probe. A request of gopls's own, even with the number of a pending one, is replied to. */
  lemma OtherMessagesReachNoTask(s: State, msg: Json)
    requires s.reader == Reading && s.g.nextProbe <= U64_LIMIT
    requires forall n :: n in s.g.pending ==> !AnswersRequest(msg, n)
    ensures var s' := Apply(s, OfReader(Receive(msg)));
            && s'.tasks == s.tasks && s'.g == s.g
            && (HasMethod(msg) && Get(msg, "id").Some? && Get(msg, "method").value.Str? ==> s' == s.(reader := Replying(msg, None)))
            && (Get(msg, "id").None? ==> s' == Share(s, msg))
            && (!HasMethod(msg) && (forall q :: Issued(q, s.g) ==> Get(msg, "id") != Some(Str(HealthId(q)))) ==> s' == Share(s, msg))
  {
    var q := HealthSequence(msg, s.g.nextProbe);
    if q.Some? { HealthSequenceExact(msg, s.g.nextProbe, q.value); }
  }

  // ----- probes -----

  predicate AnswersProbe(msg: Json, sequence: nat) { !HasMethod(msg) && Get(msg, "id") == Some(Str(HealthId(sequence))) }

  /** A message with the id of an issued probe is recognised. */
  lemma ProbeAnswerIsRecognised(s: State, msg: Json, sequence: nat)
    requires s.reader == Reading && s.g.nextProbe <= U64_LIMIT && Issued(sequence, s.g) && AnswersProbe(msg, sequence)
    ensures Apply(s, OfReader(Receive(msg))) == s.(reader := Matching(msg, sequence))
  {
    HealthSequenceExact(msg, s.g.nextProbe, sequence);
  }

  /** The reader takes the sender of the probe in the slot, if it is the one answered. */
  lemma SlotIsMatched(s: State)
    requires s.reader.Matching? && s.g.slot.Some?
    ensures var s' := Apply(s, OfReader(Match));
            s' == if s.g.slot.value.0 == s.reader.sequence
                  then s.(g := s.g.(slot := None), reader := Judging(s.reader.msg, s.reader.sequence, Some(s.g.slot.value.1)))
                  else s.(reader := Judging(s.reader.msg, s.reader.sequence, None))
  {
  }

  /** Whatever happens in between: when the reader sends what it holds for a probe, the probe finds
      exactly this message. */
  lemma HeldAnswerIsDelivered(states: seq<State>, i: nat, t: TaskId)
    requires Run(states) && i < |states| && states[i].reader.Sending? && states[i].reader.to == Some(t)
    ensures var s, s' := states[i], Apply(states[i], OfReader(SendAnswer));
            && t in s.tasks && s.tasks[t].kind == Probe && AnswersProbe(s.reader.msg, s.tasks[t].id)
            && s' == s.(tasks := s.tasks[t := s.tasks[t].(inbox := [s.reader.msg])], reader := Reading)
  {
    Routing.RunKeeps(states, i);
    var s := states[i];
    assert Routing.TaskInv(t, s.tasks[t], s.g, s.reader);
    assert s.tasks[t].inbox + [s.reader.msg] == [s.reader.msg];
  }

  /** The counters after an answer with the id of an issued probe: only a valid one is evidence, and only the
      first valid one of the latest probe is a completion. */
  function CountersAfter(c: Counters, valid: bool, sequence: nat): Counters {
    if !valid then c
    else Counters(0, c.evidence + 1, if c.latest < sequence then sequence else c.latest,
                  c.completions + if c.latest < sequence then 1 else 0)
  }

  /** The answer to the probe that waits reaches it. */
  lemma AnswerReachesItsProbe(states: seq<State>, t: TaskId, sequence: nat, msg: Json) returns (longer: seq<State>)
    requires Run(states) && states[|states| - 1].reader == Reading && states[|states| - 1].g.nextProbe <= U64_LIMIT
    requires states[|states| - 1].g.slot == Some((sequence, t)) && AnswersProbe(msg, sequence)
    ensures Run(longer)
    ensures var s, s' := states[|states| - 1], longer[|longer| - 1];
            && t in s.tasks && s.tasks[t].kind == Probe && s.tasks[t].id == sequence
            && s' == s.(tasks := s.tasks[t := s.tasks[t].(inbox := [msg])], g := s'.g)
            && s'.g == s.g.(slot := None, log := s'.g.log,
                            counters := CountersAfter(s.g.counters, ValidResponse(msg, HealthId(sequence)), sequence))
  {
    longer := SlotIsTaken(states, t, sequence, msg);
    longer := Frames.Extend(longer, OfReader(JudgeAnswer));
    HeldAnswerIsDelivered(longer, |longer| - 1, t);
    longer := Frames.Extend(longer, OfReader(SendAnswer));
  }

  lemma SlotIsTaken(states: seq<State>, t: TaskId, sequence: nat, msg: Json) returns (longer: seq<State>)
    requires Run(states) && states[|states| - 1].reader == Reading && states[|states| - 1].g.nextProbe <= U64_LIMIT
    requires states[|states| - 1].g.slot == Some((sequence, t)) && AnswersProbe(msg, sequence)
    ensures Run(longer)
    ensures var s := states[|states| - 1];
            && t in s.tasks && s.tasks[t].kind == Probe && s.tasks[t].id == sequence
            && longer[|longer| - 1] == s.(g := s.g.(slot := None), reader := Judging(msg, sequence, Some(t)))
  {
    var s := states[|states| - 1];
    RunKeeps(states, |states| - 1);
    Routing.RunKeeps(states, |states| - 1);
    assert Routing.TaskInv(t, s.tasks[t], s.g, s.reader);
    ProbeAnswerIsRecognised(s, msg, sequence);
    longer := Frames.Extend(states, OfReader(Receive(msg)));
    SlotIsMatched(longer[|longer| - 1]);
    longer := Frames.Extend(longer, OfReader(Match));
  }

  /** A probe that waits for its answer, in the slot and run by the probe loop. */
  predicate Waits(s: State, t: TaskId, sequence: nat) {
    && s.reader == Reading && s.loop == Probing(t) && s.g.nextProbe <= U64_LIMIT && s.g.slot == Some((sequence, t))
    && t in s.tasks && s.tasks[t].phase == Waiting
  }

  /** A valid answer keeps the server: the loop goes on, the flag stays as it was, there is new evidence
      and the streak of timeouts is broken. */
  lemma ValidAnswerKeepsTheServer(states: seq<State>, t: TaskId, sequence: nat, msg: Json) returns (longer: seq<State>)
    requires Run(states) && Waits(states[|states| - 1], t, sequence) && ValidResponse(msg, HealthId(sequence))
    ensures Run(longer)
    ensures var s, s' := states[|states| - 1], longer[|longer| - 1];
            && s'.loop == Sleeping && s'.reader == Reading && s'.g.slot.None? && s'.shared == s.shared
            && s'.g.alive == s.g.alive && s'.g.pending == s.g.pending
            && s'.g.counters.timeouts == 0 && s'.g.counters.evidence == s.g.counters.evidence + 1
  {
    longer := AnswerReachesItsProbe(states, t, sequence, msg);
    longer := Frames.Extend(longer, OfProbe(t, Judge(true)));
    longer := Frames.Extend(longer, OfProbe(t, DoDropSlot));
    longer := Frames.Extend(longer, ProbeEnd);
  }

  /** So a result of any kind does. */
  lemma AnyResultKeepsTheServer(states: seq<State>, t: TaskId, sequence: nat, r: Json) returns (longer: seq<State>)
    requires Run(states) && Waits(states[|states| - 1], t, sequence)
    ensures Run(longer)
    ensures var s, s' := states[|states| - 1], longer[|longer| - 1];
            && s'.loop == Sleeping && s'.g.alive == s.g.alive
            && s'.g.counters.timeouts == 0 && s'.g.counters.evidence == s.g.counters.evidence + 1
  {
    AnswersAreValid(HealthId(sequence), r, 0, "", map[], map[]);
    longer := ValidAnswerKeepsTheServer(states, t, sequence, Response(Str(HealthId(sequence)), "result", r, map[]));
  }

  /** An invalid answer retires it: the flag is cleared, then the pending map and the slot, and the
      loop stops. */
  lemma InvalidAnswerRetires(states: seq<State>, t: TaskId, sequence: nat, msg: Json) returns (longer: seq<State>)
    requires Run(states) && Waits(states[|states| - 1], t, sequence)
    requires AnswersProbe(msg, sequence) && !ValidResponse(msg, HealthId(sequence))
    ensures Run(longer)
    ensures var s, s' := states[|states| - 1], longer[|longer| - 1];
            && s'.loop == Stopped && !s'.g.alive && s'.g.pending == map[] && s'.g.slot.None?
            && s'.g.counters == s.g.counters
  {
    longer := AnswerReachesItsProbe(states, t, sequence, msg);
    longer := Frames.Extend(longer, OfProbe(t, Judge(false)));
    longer := Retires(longer, t);
  }

  lemma Retires(states: seq<State>, t: TaskId) returns (longer: seq<State>)
    requires Run(states) && states[|states| - 1].loop == Probing(t)
    requires t in states[|states| - 1].tasks && states[|states| - 1].tasks[t].kind == Probe && states[|states| - 1].tasks[t].phase == RetireAlive
    ensures Run(longer)
    ensures var s, s' := states[|states| - 1], longer[|longer| - 1];
            && s'.loop == Stopped && s'.shared == s.shared && s'.reader == s.reader
            && s'.g == s.g.(alive := false, pending := map[], cleared := true, slot := None)
  {
    longer := RetiresGeneration(states, t);
    longer := Frames.Extend(longer, OfProbe(t, DoDropSlot));
    longer := Frames.Extend(longer, ProbeEnd);
  }

  lemma RetiresGeneration(states: seq<State>, t: TaskId) returns (longer: seq<State>)
    requires Run(states) && t in states[|states| - 1].tasks && states[|states| - 1].tasks[t].phase == RetireAlive
    ensures Run(longer)
    ensures var s := states[|states| - 1];
            longer[|longer| - 1] == s.(tasks := s.tasks[t := s.tasks[t].(phase := if s.tasks[t].kind == Probe then DropSlot(false) else Leave)],
                                       g := s.g.(alive := false, pending := map[], cleared := true, slot := None))
  {
    longer := Frames.Extend(states, OfTask(t, DoRetireAlive));
    longer := Frames.Extend(longer, OfTask(t, DoRetirePending));
    longer := Frames.Extend(longer, OfTask(t, DoRetireSlot));
  }

  // ----- other ends -----

  /** In a dead generation a request or notification is refused at once, uncounted and unannounced. */
  lemma DeadRefusesAtOnce(s: State, t: TaskId)
    requires !s.g.alive && Enabled(s, OfTask(t, DoEntry))
    ensures var s' := Apply(s, OfTask(t, DoEntry)); s'.g == s.g && s'.tasks[t].phase == Done(false)
  {
  }

  /** A probe that finds ordinary activity lets the lock go, and the loop goes on. */
  lemma BusyProbeStandsBack(states: seq<State>, t: TaskId, body: string) returns (longer: seq<State>)
    requires Run(states) && Free(states[|states| - 1], t) && states[|states| - 1].loop == Sleeping && states[|states| - 1].g.activity != 0
    ensures Run(longer)
    ensures var s, s' := states[|states| - 1], longer[|longer| - 1]; s'.loop == Sleeping && s'.g == s.g
  {
    longer := Frames.Extend(states, ProbeStart(t, body));
    longer := Frames.Extend(longer, OfLock(t, Acquire));
    longer := Frames.Extend(longer, OfLock(t, DoRecheck));
    longer := Frames.Extend(longer, OfProbe(t, DoRecheckActivity));
    longer := Frames.Extend(longer, OfLock(t, DoUnlock));
    longer := Frames.Extend(longer, ProbeEnd);
  }

  /** A probe whose sender was dropped ends the loop. */
  lemma AbandonedProbeStops(states: seq<State>, t: TaskId) returns (longer: seq<State>)
    requires Run(states) && states[|states| - 1].loop == Probing(t) && Enabled(states[|states| - 1], OfProbe(t, Abandoned))
    ensures Run(longer) && longer[|longer| - 1].loop == Stopped
  {
    longer := Frames.Extend(states, OfProbe(t, Abandoned));
    longer := Frames.Extend(longer, OfProbe(t, DoDropSlot));
    longer := Frames.Extend(longer, ProbeEnd);
  }

  /** A probe that cannot write its frame retires the generation, before it lets the lock go. */
  lemma TornProbeRetires(states: seq<State>, t: TaskId) returns (longer: seq<State>)
    requires Run(states) && states[|states| - 1].loop == Probing(t) && Enabled(states[|states| - 1], OfLock(t, Tear))
    requires states[|states| - 1].tasks[t].kind == Probe
    ensures Run(longer)
    ensures var s' := longer[|longer| - 1];
            s'.loop == Stopped && !s'.g.alive && s'.g.pending == map[] && s'.g.slot.None? && s'.g.lock.None?
  {
    longer := Torn(states, t);
    longer := Retires(longer, t);
  }

  lemma Torn(states: seq<State>, t: TaskId) returns (longer: seq<State>)
    requires Run(states) && Enabled(states[|states| - 1], OfLock(t, Tear)) && states[|states| - 1].tasks[t].kind != Request
    ensures Run(longer)
    ensures var s := states[|states| - 1];
            longer[|longer| - 1] == s.(tasks := s.tasks[t := s.tasks[t].(phase := AfterTorn(s.tasks[t].kind))],
                                       g := s.g.(alive := false, pending := map[], cleared := true, lock := None))
  {
    longer := Frames.Extend(states, OfLock(t, Tear));
    longer := Frames.Extend(longer, OfLock(t, DoTornKill));
    longer := Frames.Extend(longer, OfLock(t, DoTornClear));
    longer := Frames.Extend(longer, OfLock(t, DoTornUnlock));
  }

  /** A torn probe goes on to retire, a torn reply has failed, and ordinary operations count themselves out. */
  function AfterTorn(kind: Kind): Phase {
    match kind
    case Probe => RetireAlive
    case Reply => Done(false)
    case Request | Notification | Handshake => Leave
  }

  /** A reply that fails retires the generation and ends the reader. */
  lemma FailedReplyRetires(states: seq<State>) returns (longer: seq<State>)
    requires Run(states) && Enabled(states[|states| - 1], OfReader(ReplyEnd))
    requires var s := states[|states| - 1]; s.tasks[s.reader.task.value].phase == Done(false)
    ensures Run(longer)
    ensures var s := states[|states| - 1];
            longer[|longer| - 1] == s.(g := s.g.(alive := false, pending := map[], cleared := true, slot := None), reader := Ended)
  {
    longer := Frames.Extend(states, OfReader(ReplyEnd));
    longer := Frames.Extend(longer, OfReader(Shut));
    longer := Frames.Extend(longer, OfReader(Shut));
    longer := Frames.Extend(longer, OfReader(Shut));
    longer := Frames.Extend(longer, OfReader(Shut));
    longer := Frames.Extend(longer, OfReader(Shut));
  }

  /** A handshake that succeeds leaves the generation alone. */
  lemma HandshakeSucceeds(states: seq<State>, t: TaskId) returns (longer: seq<State>)
    requires Run(states) && Enabled(states[|states| - 1], OfTask(t, Shake(true))) && states[|states| - 1].tasks[t].kind == Handshake
    ensures Run(longer)
    ensures var s := states[|states| - 1];
            longer[|longer| - 1] == s.(tasks := s.tasks[t := s.tasks[t].(phase := Done(true))],
                                       g := s.g.(activity := s.g.activity - 1, log := s.g.log + [Left(t)]))
  {
    longer := Frames.Extend(states, OfTask(t, Shake(true)));
    longer := Frames.Extend(longer, OfTask(t, DoLeave));
  }

  /** One that fails retires it. */
  lemma FailedHandshakeRetires(states: seq<State>, t: TaskId) returns (longer: seq<State>)
    requires Run(states) && Enabled(states[|states| - 1], OfTask(t, Shake(false))) && states[|states| - 1].tasks[t].kind == Handshake
    ensures Run(longer)
    ensures var s := states[|states| - 1];
            longer[|longer| - 1] == s.(tasks := s.tasks[t := s.tasks[t].(phase := Leave)],
                                       g := s.g.(alive := false, pending := map[], cleared := true, slot := None))
  {
    longer := Frames.Extend(states, OfTask(t, Shake(false)));
    longer := RetiresGeneration(longer, t);
  }

  // ----- timeouts -----

  /** A probe about to count its timeout, with no evidence since it started. */
  predicate Counts(s: State, t: TaskId) {
    && s.loop == Probing(t) && t in s.tasks && s.tasks[t].kind == Probe && s.tasks[t].phase == Count
    && s.g.counters.evidence == s.tasks[t].evidenceMark
  }

  /** With two counted before it the third timeout retires the server. */
  lemma ThirdTimeoutRetires(states: seq<State>, t: TaskId) returns (longer: seq<State>)
    requires Run(states) && Counts(states[|states| - 1], t) && states[|states| - 1].g.counters.timeouts >= 2
    ensures Run(longer)
    ensures var s, s' := states[|states| - 1], longer[|longer| - 1];
            && s'.loop == Stopped && !s'.g.alive && s'.g.pending == map[] && s'.g.slot.None?
            && |s'.g.log| == |s.g.log| + 2 && s.g.log <= s'.g.log && s'.g.log[|s.g.log|].Counted? && s'.g.log[|s.g.log| + 1] == Retired
  {
    longer := Frames.Extend(states, OfProbe(t, DoCount));
    longer := Retires(longer, t);
  }

  /** With fewer the probe loop goes on and the server is kept. */
  lemma EarlierTimeoutsDoNot(states: seq<State>, t: TaskId) returns (longer: seq<State>)
    requires Run(states) && Counts(states[|states| - 1], t) && states[|states| - 1].g.counters.timeouts < 2
    ensures Run(longer)
    ensures var s, s' := states[|states| - 1], longer[|longer| - 1];
            && s'.loop == Sleeping && s'.g.alive == s.g.alive && s'.g.pending == s.g.pending
            && s'.g.counters == s.g.counters.(timeouts := s.g.counters.timeouts + 1)
            && |s'.g.log| == |s.g.log| + 1 && s.g.log <= s'.g.log && s'.g.log[|s.g.log|].Counted?
  {
    longer := Frames.Extend(states, OfProbe(t, DoCount));
    longer := Frames.Extend(longer, ProbeEnd);
  }

  // ----- in every run -----

  /** The decision to retire follows a counted timeout exactly when that is the third in a row. */
  predicate DecidedAt(log: seq<Event>, p: nat)
    requires p < |log|
  {
    Probes.Streak(log[..p + 1]) >= 3 <==> p + 1 < |log| && log[p + 1] == Retired
  }

  ghost predicate Decided(log: seq<Event>) { forall p: nat :: p < |log| && log[p].Counted? ==> DecidedAt(log, p) }

  /** What a step may add to the history. */
  ghost predicate LogStep(log: seq<Event>, log': seq<Event>) {
    || log' == log
    || (exists e: Event :: log' == log + [e] && !e.Counted? && e != Retired)
    || (exists e: Event :: e.Counted? && log' == if Probes.Streak(log) + 1 >= 3 then log + [e] + [Retired] else log + [e])
  }

  lemma LogStepKeeps(log: seq<Event>, log': seq<Event>)
    requires Decided(log) && LogStep(log, log')
    ensures Decided(log')
  {
    forall p: nat | p < |log'| && log'[p].Counted? ensures DecidedAt(log', p) {
      if p < |log| {
        assert DecidedAt(log, p) && log'[..p + 1] == log[..p + 1];
      } else {
        assert log'[..p + 1][..|log|] == log;
      }
    }
  }

  lemma NoteStep(log: seq<Event>, e: Event)
    requires !e.Counted? && e != Retired
    ensures LogStep(log, log + [e])
  {
  }

  lemma MoveLog(t: TaskId, k: Task, g: Shared, m: Move)
    requires CanMove(k, m)
    ensures LogStep(g.log, Moved(t, k, g, m).1.log)
  {
    Probes.MoveSettles(t, k, g, m);
    NoteStep(g.log, if m.DoAnnounce? then Begun(t) else if m.DoActivate? then Entered(t) else Left(t));
  }

  lemma ProbeLog(t: TaskId, k: Task, g: Shared, m: ProbeMove)
    requires ProbeReady(k, m) && Probes.CounterInv(g)
    ensures LogStep(g.log, Probed(k, g, m).1.log)
  {
    if !m.DoCount? {
      Probes.ProbeSettles(t, k, g, m);
    } else if g.counters.evidence == k.evidenceMark {
      var g' := Probes.CountResult(k, g);
      assert Counted(k.id, k.epochAt, k.seenTo, k.evidenceAt, k.looks).Counted?;
    }
  }

  lemma TaskLog(s: State, a: Action)
    requires Probes.Inv(s) && Enabled(s, a) && (a.OfTask? || a.OfLock? || a.OfProbe? || a.Write?)
    ensures LogStep(s.g.log, Apply(s, a).g.log)
  {
    match a
    case OfTask(t, m) => MoveLog(t, s.tasks[t], s.g, m);
    case OfLock(t, m) => Probes.LockMoveSettles(t, s.tasks[t], s.g, m);
    case OfProbe(t, m) => ProbeLog(t, s.tasks[t], s.g, m);
    case Write(t, n) => Probes.WriteSettles(s.tasks[t], s.g, n);
  }

  lemma NextLog(s: State, s': State)
    requires Probes.Inv(s) && Next(s, s')
    ensures LogStep(s.g.log, s'.g.log)
  {
    var a :| Enabled(s, a) && s' == Apply(s, a);
    match a
    case OfReader(m) => if !m.ReplyStart? { Idle.ReadHeard(s, m); }
    case Start(t, kind, body) =>
    case ProbeStart(t, body) =>
    case ProbeEnd =>
    case _ => TaskLog(s, a);
  }

  lemma {:induction false} RunDecides(states: seq<State>, i: nat)
    requires Run(states) && i < |states|
    ensures Decided(states[i].g.log)
  {
    if i > 0 {
      RunDecides(states, i - 1);
      Probes.Known(states, i);
      Probes.RunKeeps(states, i - 1);
      NextLog(states[i - 1], states[i]);
      LogStepKeeps(states[i - 1].g.log, states[i].g.log);
    }
  }

  /** In every run the timeout branch decides to retire right after a counted timeout if and only if no
      request was answered and no valid probe answer was seen since two counted timeouts before it. */
  lemma RetiredExactly(states: seq<State>, i: nat, p: nat)
    requires Run(states) && i < |states| && p < |states[i].g.log| && states[i].g.log[p].Counted?
    ensures var log := states[i].g.log;
            (p + 1 < |log| && log[p + 1] == Retired)
            <==> exists a, b :: 0 <= a < b < p && log[a].Counted? && log[b].Counted? && forall q :: a <= q < p ==> !Probes.Sign(log[q])
  {
    var log := states[i].g.log;
    RunDecides(states, i);
    assert DecidedAt(log, p);
    assert log[..p + 1][..p] == log[..p];
    if Probes.Streak(log[..p]) >= 2 {
      var b := Probes.LastCounted(log, p);
      var a := Probes.LastCounted(log, b);
    }
    if a, b :| 0 <= a < b < p && log[a].Counted? && log[b].Counted? && forall q :: a <= q < p ==> !Probes.Sign(log[q]) {
      StreakGrows(log, a, b);
      StreakGrows(log, b, p);
    }
  }

  /** A counted timeout with no sign of life after it adds to the streak. */
  lemma {:induction false} StreakGrows(log: seq<Event>, a: nat, end: nat)
    requires a < end <= |log| && log[a].Counted? && forall q :: a <= q < end ==> !Probes.Sign(log[q])
    ensures Probes.Streak(log[..end]) >= Probes.Streak(log[..a]) + 1
  {
    assert log[..end][..end - 1] == log[..end - 1];
    if end - 1 > a { StreakGrows(log, a, end - 1); }
  }

  // ----- whole lives -----

  /** In a live generation whose stdin is free. */
  predicate Free(s: State, t: TaskId) { s.g.alive && s.g.lock.None? && t !in s.tasks }

  /** A request can be written, answered with anything, and leave with that answer. */
  lemma RequestIsServed(states: seq<State>, t: TaskId, body: string, msg: Json) returns (longer: seq<State>)
    requires Run(states) && Free(states[|states| - 1], t) && states[|states| - 1].reader == Reading
    requires AnswersRequest(msg, states[|states| - 1].g.nextReq)
    ensures Run(longer)
    ensures var s, s' := states[|states| - 1], longer[|longer| - 1];
            && t in s'.tasks && s'.tasks[t].phase == Done(true) && s'.tasks[t].inbox == [msg] && s'.tasks[t].id == s.g.nextReq
            && s'.g.sent == s.g.sent + [Message(s'.tasks[t])] && s'.g.pending == s.g.pending && s'.g.alive && s'.g.lock.None?
            && s'.g.activity == s.g.activity && s'.g.epoch == s.g.epoch + 1 && s'.g.nextReq == s.g.nextReq + 1
            && s'.g.counters.timeouts == 0 && s'.shared == s.shared && s'.reader == Reading
  {
    var n := states[|states| - 1].g.nextReq;
    longer := RequestAsks(states, t, body);
    longer := AnswerTaken(longer, n, msg);
    assert states[|states| - 1].g.pending[n := t] - {n} == states[|states| - 1].g.pending;
    longer := Ends(longer, t);
  }

  lemma AnswerTaken(states: seq<State>, n: nat, msg: Json) returns (longer: seq<State>)
    requires Run(states) && states[|states| - 1].reader == Reading && n in states[|states| - 1].g.pending && AnswersRequest(msg, n)
    ensures Run(longer)
    ensures var s := states[|states| - 1];
            var t := s.g.pending[n];
            && t in s.tasks
            && longer[|longer| - 1] == s.(tasks := s.tasks[t := s.tasks[t].(inbox := [msg])],
                                          g := s.g.(pending := s.g.pending - {n}, counters := s.g.counters.(timeouts := 0),
                                                    log := s.g.log + [Answered(n)]))
  {
    AnswerReachesItsRequest(states, |states| - 1, msg, n);
    longer := Frames.Extend(states, OfReader(Receive(msg)));
  }

  lemma RequestAsks(states: seq<State>, t: TaskId, body: string) returns (longer: seq<State>)
    requires Run(states) && Free(states[|states| - 1], t)
    ensures Run(longer)
    ensures var s := states[|states| - 1];
            var n, k := s.g.nextReq, Fresh(Request, Waiting, body).(id := s.g.nextReq);
            && n !in s.g.pending
            && longer[|longer| - 1] ==
                 s.(tasks := s.tasks[t := k],
                    g := Idle.Sent(s.g, Message(k)).(activity := s.g.activity + 1, epoch := s.g.epoch + 1, log := s.g.log + [Entered(t)] + [Begun(t)],
                                                     nextReq := n + 1, owners := s.g.owners[n := t], pending := s.g.pending[n := t]))
  {
    NumbersBelow(states);
    longer := Idle.RequestBegins(states, t, body);
    longer := Idle.RequestRegisters(longer, t);
    longer := Idle.WritesAll(longer, t);
  }

  lemma NumbersBelow(states: seq<State>)
    requires Run(states)
    ensures var s := states[|states| - 1]; forall id :: id in s.g.pending ==> id < s.g.nextReq
  {
    var s := states[|states| - 1];
    Routing.RunKeeps(states, |states| - 1);
    forall id | id in s.g.pending ensures id < s.g.nextReq {
      assert Routing.TaskInv(s.g.pending[id], s.tasks[s.g.pending[id]], s.g, s.reader);
    }
  }

  /** A request that has its answer leaves. */
  lemma Ends(states: seq<State>, t: TaskId) returns (longer: seq<State>)
    requires Run(states) && t in states[|states| - 1].tasks
    requires var k := states[|states| - 1].tasks[t]; k.kind == Request && k.phase == Waiting && k.id !in states[|states| - 1].g.pending
    ensures Run(longer)
    ensures var s := states[|states| - 1];
            longer[|longer| - 1] == s.(tasks := s.tasks[t := s.tasks[t].(phase := Done(true))],
                                       g := s.g.(activity := s.g.activity - 1, log := s.g.log + [Left(t)]))
  {
    var s := states[|states| - 1];
    assert s.g.pending - {s.tasks[t].id} == s.g.pending;
    longer := Frames.Extend(states, OfTask(t, StopWaiting));
    longer := Frames.Extend(longer, OfTask(t, DoUnregister));
    longer := Frames.Extend(longer, OfTask(t, DoLeave));
  }

  /** A notification is written as it is. */
  lemma NotificationIsWritten(states: seq<State>, t: TaskId, body: string) returns (longer: seq<State>)
    requires Run(states) && Free(states[|states| - 1], t)
    ensures Run(longer)
    ensures var s, s' := states[|states| - 1], longer[|longer| - 1];
            && t in s'.tasks && s'.tasks[t].phase == Done(true) && s'.g.sent == s.g.sent + [body] && s'.g.alive && s'.g.lock.None?
            && s'.g.activity == s.g.activity && s'.g.epoch == s.g.epoch + 1 && s'.g.pending == s.g.pending && s'.shared == s.shared
  {
    longer := Frames.Extend(states, Start(t, Notification, body));
    longer := Frames.Extend(longer, OfTask(t, DoEntry));
    longer := Frames.Extend(longer, OfTask(t, DoActivate));
    longer := Frames.Extend(longer, OfTask(t, DoAnnounce));
    longer := Locks(longer, t);
    longer := Idle.WritesAll(longer, t);
    longer := Frames.Extend(longer, OfTask(t, DoLeave));
  }

  lemma Locks(states: seq<State>, t: TaskId) returns (longer: seq<State>)
    requires Run(states) && t in states[|states| - 1].tasks && states[|states| - 1].g.alive && states[|states| - 1].g.lock.None?
    requires var k := states[|states| - 1].tasks[t]; k.phase == Queued && (k.kind == Notification || k.kind == Reply)
    ensures Run(longer)
    ensures var s := states[|states| - 1];
            longer[|longer| - 1] == s.(tasks := s.tasks[t := s.tasks[t].(phase := Writing(0))], g := s.g.(lock := Some(t)))
  {
    longer := Frames.Extend(states, OfLock(t, Acquire));
    longer := Frames.Extend(longer, OfLock(t, DoRecheck));
  }

  /** A request of gopls's own, also one with the number of a request that waits, is replied to and then
      passed on; nobody who waits is touched. */
  lemma GoplsIsRepliedTo(states: seq<State>, t: TaskId, msg: Json, body: string) returns (longer: seq<State>)
    requires Run(states) && Free(states[|states| - 1], t) && states[|states| - 1].reader == Reading
    requires Get(msg, "id").Some? && Get(msg, "method").Some? && Get(msg, "method").value.Str?
    ensures Run(longer)
    ensures var s, s' := states[|states| - 1], longer[|longer| - 1];
            && t in s'.tasks && s'.tasks == s.tasks[t := s'.tasks[t]] && s'.g.sent == s.g.sent + [body]
            && s'.shared == s.shared + [Broadcast(msg, s.g.nextProbe)] && s'.reader == Reading
            && s'.g.pending == s.g.pending && s'.g.counters == s.g.counters && s'.g.alive && s'.g.lock.None?
  {
    longer := Frames.Extend(states, OfReader(Receive(msg)));
    longer := Replies(longer, t, body);
  }

  lemma Replies(states: seq<State>, t: TaskId, body: string) returns (longer: seq<State>)
    requires Run(states) && Free(states[|states| - 1], t)
    requires states[|states| - 1].reader.Replying? && states[|states| - 1].reader.task.None?
    ensures Run(longer)
    ensures var s := states[|states| - 1];
            longer[|longer| - 1] == s.(tasks := s.tasks[t := Fresh(Reply, Done(true), body)], g := Idle.Sent(s.g, body),
                                       reader := Reading, shared := s.shared + [Broadcast(s.reader.msg, s.g.nextProbe)])
  {
    longer := Frames.Extend(states, OfReader(ReplyStart(t, body)));
    longer := Locks(longer, t);
    longer := Idle.WritesAll(longer, t);
    longer := Frames.Extend(longer, OfReader(ReplyEnd));
  }
}
