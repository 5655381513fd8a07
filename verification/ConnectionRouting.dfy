/** Request routing: every pending entry belongs to one request in flight, an answer reaches only
    the task whose id it carries, at most once, and no exit leaves an entry behind. */
module ConnectionRouting {
  import opened Decimal
  import opened Framing
  import opened Health
  import opened Connection

  /** Before the task has given away the sender of its channel. */
  predicate Unregistered(p: Phase) {
    || p.Entry? || p.Activate? || p.Announce? || p.Allocate? || p.Queued? || p.Recheck?
    || p.RecheckActivity? || p.RecheckPending? || p.MarkEpoch? || p.MarkEvidence? || p.AllocateProbe? || p.Register?
  }

  /** While a request may have an entry in the pending map. */
  predicate Enrolled(p: Phase) {
    p.Writing? || p.Flushing? || p.Written? || p.TornUnregister? || p.Waiting? || p.Unregister?
  }

  predicate Numbered(p: Phase) { p.Queued? || p.Recheck? || p.Register? || Enrolled(p) }

  /** A request with an id of its own. */
  predicate HasId(k: Task) { k.kind == Request && Numbered(k.phase) }

  /** While a probe may be in the slot. */
  predicate Slotted(p: Phase) {
    || p.Writing? || p.Flushing? || p.Written? || p.TornKill? || p.TornClear? || p.TornUnlock? || p.Waiting?
    || p.RetireAlive? || p.RetirePending? || p.RetireSlot? || p.TimedOut? || p.DropSlot?
  }

  /** The phases only tasks of some kinds go through. */
  predicate Kinded(k: Task) {
    match k.phase
    case Allocate | TornUnregister | Unregister => k.kind == Request
    case Register | Waiting => k.kind == Request || k.kind == Probe
    case RecheckActivity | RecheckPending | MarkEpoch | MarkEvidence | AllocateProbe => k.kind == Probe
    case TimedOut | LoadActivity | LoadEpoch | Count | DropSlot(_) => k.kind == Probe
    case RetireAlive | RetirePending | RetireSlot => k.kind == Probe || k.kind == Handshake
    case Entry => k.kind == Request || k.kind == Notification
    case Activate | Announce | Leave => k.kind != Probe && k.kind != Reply
    case Shaking => k.kind == Handshake
    case Done(_) => true
    case _ => k.kind != Handshake
  }

  /** The message answers the task: it has the task's id and is not a request of gopls's own. */
  predicate Answers(msg: Json, k: Task) {
    && !HasMethod(msg)
    && Get(msg, "id") == Some(if k.kind == Request then Int(k.id) else Str(HealthId(k.id)))
  }

  predicate InboxInv(k: Task) {
    && |k.inbox| <= 1
    && (Unregistered(k.phase) ==> k.inbox == [])
    && forall i :: 0 <= i < |k.inbox| ==> Answers(k.inbox[i], k)
  }

  ghost predicate PendingInv(t: TaskId, k: Task, g: Shared) {
    && (HasId(k) ==> k.id in g.owners && g.owners[k.id] == t)
    && forall id :: id in g.pending && g.pending[id] == t ==>
                      k.kind == Request && id == k.id && Enrolled(k.phase) && k.inbox == []
  }

  predicate SlotInv(t: TaskId, k: Task, g: Shared, r: Reader) {
    && (g.slot.Some? && g.slot.value.1 == t ==>
          k.kind == Probe && g.slot.value.0 == k.id && Slotted(k.phase) && k.inbox == [] && !HoldsSender(r, t))
    && (HoldsSender(r, t) ==> k.kind == Probe && !Unregistered(k.phase) && k.inbox == [] && Answers(r.msg, k))
  }

  ghost predicate TaskInv(t: TaskId, k: Task, g: Shared, r: Reader) {
    Kinded(k) && InboxInv(k) && PendingInv(t, k, g) && SlotInv(t, k, g, r)
  }

  predicate ReaderInv(r: Reader, tasks: map<TaskId, Task>) {
    && ((r.Judging? || r.Sending?) && r.to.Some? ==> r.to.value in tasks)
    && (r.Matching? ==> !HasMethod(r.msg) && Get(r.msg, "id") == Some(Str(HealthId(r.sequence))))
  }

  ghost predicate StateInv(s: State) {
    && ReaderInv(s.reader, s.tasks)
    && (s.g.slot.Some? ==> s.g.slot.value.1 in s.tasks)
    && (forall id :: id in s.g.pending ==> s.g.pending[id] in s.tasks)
    && (forall id :: id in s.g.owners ==> id < s.g.nextReq)
    && forall t :: t in s.tasks ==> TaskInv(t, s.tasks[t], s.g, s.reader)
  }

  ghost predicate Inv(s: State) { StateInv(s) }

  /** A step of task `t` registers only itself. */
  ghost predicate PendingGuarantee(t: TaskId, g: Shared, g': Shared) {
    forall id :: id in g'.pending ==> g'.pending[id] == t || (id in g.pending && g'.pending[id] == g.pending[id])
  }

  /** A step of task `t` takes over nobody's id. */
  ghost predicate OwnerGuarantee(t: TaskId, g: Shared, g': Shared) {
    && ((g'.owners == g.owners && g'.nextReq == g.nextReq)
        || (g'.owners == g.owners[g.nextReq := t] && g'.nextReq == g.nextReq + 1))
    && (g'.slot.None? || g'.slot == g.slot || g'.slot.value.1 == t)
  }

  lemma MoveKinded(t: TaskId, k: Task, g: Shared, m: Move)
    requires CanMove(k, m) && Kinded(k)
    ensures Kinded(Moved(t, k, g, m).0) && OwnerGuarantee(t, g, Moved(t, k, g, m).1)
  {
  }

  lemma MoveInbox(t: TaskId, k: Task, g: Shared, m: Move)
    requires CanMove(k, m) && InboxInv(k)
    ensures InboxInv(Moved(t, k, g, m).0)
  {
    assert Moved(t, k, g, m).0.inbox == k.inbox;
  }

  lemma MovePending(t: TaskId, k: Task, g: Shared, m: Move)
    requires CanMove(k, m) && Kinded(k) && PendingInv(t, k, g)
    ensures PendingInv(t, Moved(t, k, g, m).0, Moved(t, k, g, m).1)
    ensures PendingGuarantee(t, g, Moved(t, k, g, m).1)
  {
  }

  lemma MoveSlot(t: TaskId, k: Task, g: Shared, r: Reader, m: Move)
    requires CanMove(k, m) && Kinded(k) && SlotInv(t, k, g, r)
    ensures SlotInv(t, Moved(t, k, g, m).0, Moved(t, k, g, m).1, r)
  {
  }

  lemma LockMoveKinded(t: TaskId, k: Task, g: Shared, m: LockMove)
    requires CanLockMove(k, g, m) && Kinded(k)
    ensures Kinded(LockMoved(t, k, g, m).0) && OwnerGuarantee(t, g, LockMoved(t, k, g, m).1)
  {
  }

  lemma LockMoveInbox(t: TaskId, k: Task, g: Shared, m: LockMove)
    requires CanLockMove(k, g, m) && InboxInv(k)
    ensures InboxInv(LockMoved(t, k, g, m).0)
  {
    assert LockMoved(t, k, g, m).0.inbox == k.inbox;
  }

  lemma LockMovePending(t: TaskId, k: Task, g: Shared, m: LockMove)
    requires CanLockMove(k, g, m) && Kinded(k) && InboxInv(k) && PendingInv(t, k, g)
    ensures PendingInv(t, LockMoved(t, k, g, m).0, LockMoved(t, k, g, m).1)
    ensures PendingGuarantee(t, g, LockMoved(t, k, g, m).1)
  {
  }

  lemma LockMoveSlotWriting(t: TaskId, k: Task, g: Shared, r: Reader, m: LockMove)
    requires CanLockMove(k, g, m) && (m.Acquire? || m.DoRecheck? || m.DoRegister? || m.Flush? || m.Tear?)
    requires Kinded(k) && InboxInv(k) && SlotInv(t, k, g, r)
    ensures SlotInv(t, LockMoved(t, k, g, m).0, LockMoved(t, k, g, m).1, r)
  {
  }

  lemma LockMoveSlot(t: TaskId, k: Task, g: Shared, r: Reader, m: LockMove)
    requires CanLockMove(k, g, m) && Kinded(k) && InboxInv(k) && SlotInv(t, k, g, r)
    ensures SlotInv(t, LockMoved(t, k, g, m).0, LockMoved(t, k, g, m).1, r)
  {
    if m.Acquire? || m.DoRecheck? || m.DoRegister? || m.Flush? || m.Tear? { LockMoveSlotWriting(t, k, g, r, m); }
  }

  lemma ProbeKindedEarly(t: TaskId, k: Task, g: Shared, m: ProbeMove)
    requires ProbeReady(k, m) && Kinded(k) && Early(m)
    ensures Kinded(Probed(k, g, m).0) && OwnerGuarantee(t, g, Probed(k, g, m).1)
    ensures Probed(k, g, m).1.pending == g.pending
  {
  }

  lemma ProbeKindedCount(t: TaskId, k: Task, g: Shared, m: ProbeMove)
    requires ProbeReady(k, m) && Kinded(k) && m.DoCount?
    ensures Kinded(Probed(k, g, m).0) && OwnerGuarantee(t, g, Probed(k, g, m).1)
    ensures Probed(k, g, m).1.pending == g.pending
  {
  }

  lemma ProbeKindedLate(t: TaskId, k: Task, g: Shared, m: ProbeMove)
    requires ProbeReady(k, m) && Kinded(k) && !Early(m) && !m.DoCount?
    ensures Kinded(Probed(k, g, m).0) && OwnerGuarantee(t, g, Probed(k, g, m).1)
    ensures Probed(k, g, m).1.pending == g.pending
  {
  }

  lemma ProbeKinded(t: TaskId, k: Task, g: Shared, m: ProbeMove)
    requires ProbeReady(k, m) && Kinded(k)
    ensures Kinded(Probed(k, g, m).0) && OwnerGuarantee(t, g, Probed(k, g, m).1)
    ensures Probed(k, g, m).1.pending == g.pending
  {
    if Early(m) { ProbeKindedEarly(t, k, g, m); } else if m.DoCount? { ProbeKindedCount(t, k, g, m); } else { ProbeKindedLate(t, k, g, m); }
  }

  lemma ProbeInboxEarly(t: TaskId, k: Task, g: Shared, m: ProbeMove)
    requires ProbeReady(k, m) && InboxInv(k) && Early(m)
    ensures InboxInv(Probed(k, g, m).0)
  {
    assert Probed(k, g, m).0.inbox == k.inbox;
  }

  lemma ProbeInboxLate(t: TaskId, k: Task, g: Shared, m: ProbeMove)
    requires ProbeReady(k, m) && InboxInv(k) && !Early(m)
    ensures InboxInv(Probed(k, g, m).0)
  {
    assert Probed(k, g, m).0.inbox == k.inbox;
  }

  lemma ProbeInbox(t: TaskId, k: Task, g: Shared, m: ProbeMove)
    requires ProbeReady(k, m) && InboxInv(k)
    ensures InboxInv(Probed(k, g, m).0)
  {
    if Early(m) { ProbeInboxEarly(t, k, g, m); } else { ProbeInboxLate(t, k, g, m); }
  }

  lemma ProbeSlotEarly(t: TaskId, k: Task, g: Shared, r: Reader, m: ProbeMove)
    requires ProbeReady(k, m) && Kinded(k) && SlotInv(t, k, g, r) && Early(m)
    ensures SlotInv(t, Probed(k, g, m).0, Probed(k, g, m).1, r)
  {
  }

  lemma ProbeSlotCount(t: TaskId, k: Task, g: Shared, r: Reader, m: ProbeMove)
    requires ProbeReady(k, m) && Kinded(k) && SlotInv(t, k, g, r) && m.DoCount?
    ensures SlotInv(t, Probed(k, g, m).0, Probed(k, g, m).1, r)
  {
  }

  lemma ProbeSlotLate(t: TaskId, k: Task, g: Shared, r: Reader, m: ProbeMove)
    requires ProbeReady(k, m) && Kinded(k) && SlotInv(t, k, g, r) && !Early(m) && !m.DoCount?
    ensures SlotInv(t, Probed(k, g, m).0, Probed(k, g, m).1, r)
  {
  }

  lemma ProbeSlot(t: TaskId, k: Task, g: Shared, r: Reader, m: ProbeMove)
    requires ProbeReady(k, m) && Kinded(k) && SlotInv(t, k, g, r)
    ensures SlotInv(t, Probed(k, g, m).0, Probed(k, g, m).1, r)
  {
    if Early(m) { ProbeSlotEarly(t, k, g, r, m); } else if m.DoCount? { ProbeSlotCount(t, k, g, r, m); } else { ProbeSlotLate(t, k, g, r, m); }
  }

  lemma ProbePending(t: TaskId, k: Task, g: Shared, m: ProbeMove)
    requires ProbeReady(k, m) && Kinded(k) && PendingInv(t, k, g)
    ensures PendingInv(t, Probed(k, g, m).0, Probed(k, g, m).1)
  {
  }

  lemma PutKeeps(s: State, t: TaskId, next: (Task, Shared))
    requires Inv(s) && TaskInv(t, next.0, next.1, s.reader)
    requires PendingGuarantee(t, s.g, next.1) && OwnerGuarantee(t, s.g, next.1)
    ensures Inv(Put(s, t, next))
  {
    var s' := Put(s, t, next);
    forall u | u in s'.tasks
      ensures TaskInv(u, s'.tasks[u], s'.g, s.reader)
    {
      if u != t { assert TaskInv(u, s.tasks[u], s.g, s.reader); }
    }
  }

  lemma FreshKeeps(s: State, t: TaskId, k: Task)
    requires Inv(s) && t !in s.tasks && Kinded(k) && k.inbox == [] && !HasId(k)
    ensures Inv(Put(s, t, (k, s.g)))
  {
    assert !HoldsSender(s.reader, t);
    assert TaskInv(t, k, s.g, s.reader);
    PutKeeps(s, t, (k, s.g));
  }

  /** Delivering an answer to the task of a pending entry keeps every task in order. */
  lemma AnswerKeeps(s: State, msg: Json, n: nat, s': State)
    requires Inv(s) && n in s.g.pending && s.reader == Reading
    requires !HasMethod(msg) && Get(msg, "id") == Some(Int(n))
    requires s'.tasks == Deliver(s.tasks, Some(s.g.pending[n]), msg) && s'.reader == s.reader
    requires s'.g.pending == s.g.pending - {n} && s'.g.owners == s.g.owners && s'.g.nextReq == s.g.nextReq
    requires s'.g.slot == s.g.slot
    ensures Inv(s')
  {
    forall t | t in s'.tasks
      ensures TaskInv(t, s'.tasks[t], s'.g, s'.reader)
    {
      assert TaskInv(t, s.tasks[t], s.g, s.reader);
    }
  }

  /** The message answers pending request `n`. */
  predicate AnswersPending(s: State, s': State, msg: Json, n: nat) {
    && n in s.g.pending && !HasMethod(msg) && Get(msg, "id") == Some(Int(n))
    && s' == s.(tasks := Deliver(s.tasks, Some(s.g.pending[n]), msg),
                g := s.g.(pending := s.g.pending - {n}, counters := s.g.counters.(timeouts := 0)).Note(Answered(n)))
  }

  /** The message is a request of gopls's own, the answer to an issued probe, or passed on to the listeners. */
  predicate GoesOn(s: State, s': State, msg: Json) {
    && s'.g == s.g && s'.tasks == s.tasks
    && if s'.reader.Replying? then s'.reader == Replying(msg, None) && HasMethod(msg) && s'.shared == s.shared
       else if s'.reader.Matching? then
         && s'.reader.msg == msg && !HasMethod(msg) && s'.shared == s.shared
         && 0 < s'.reader.sequence < s.g.nextProbe && Get(msg, "id") == Some(Str(HealthId(s'.reader.sequence)))
       else s'.reader == s.reader && s'.shared == s.shared + [Broadcast(msg, s.g.nextProbe)]
            && (HasMethod(msg) || HealthSequence(msg, s.g.nextProbe).None?)
  }

  lemma ReceivedCases(s: State, msg: Json) returns (answered: bool, n: nat)
    requires s.reader == Reading
    ensures if answered then AnswersPending(s, Received(s, msg), msg, n) else GoesOn(s, Received(s, msg), msg)
  {
    var id := Get(msg, "id");
    answered := id.Some? && !HasMethod(msg) && AsU64(id.value).Some? && AsU64(id.value).value in s.g.pending;
    n := if answered then AsU64(id.value).value else 0;
    if Received(s, msg).reader.Matching? { HealthSequenceSound(msg, s.g.nextProbe); }
  }

  lemma ReceiveKeeps(s: State, msg: Json)
    requires Inv(s) && s.reader == Reading
    ensures Inv(Received(s, msg))
  {
    var answered, n := ReceivedCases(s, msg);
    if answered { AnswerKeeps(s, msg, n, Received(s, msg)); } else { SameKeeps(s, Received(s, msg)); }
  }

  /** Only the reader has moved on, and it holds no sender. */
  lemma SameKeeps(s: State, s': State)
    requires Inv(s) && s'.tasks == s.tasks && ReaderInv(s'.reader, s.tasks)
    requires s'.g.pending == s.g.pending && s'.g.owners == s.g.owners && s'.g.nextReq == s.g.nextReq
    requires s'.g.slot == s.g.slot
    requires !(s'.reader.Judging? || s'.reader.Sending?) || (s.reader.Judging? && s'.reader == Sending(s.reader.msg, s.reader.to))
    ensures Inv(s')
  {
    forall t | t in s'.tasks
      ensures TaskInv(t, s'.tasks[t], s'.g, s'.reader)
    {
      assert TaskInv(t, s.tasks[t], s.g, s.reader);
    }
  }

  lemma MatchKeeps(s: State)
    requires Inv(s) && s.reader.Matching?
    ensures Inv(ReadOn(s, Match))
  {
    var s' := ReadOn(s, Match);
    forall t | t in s'.tasks
      ensures TaskInv(t, s'.tasks[t], s'.g, s'.reader)
    {
      assert TaskInv(t, s.tasks[t], s.g, s.reader);
      MatchTask(t, s.tasks[t], s.g, s.reader, s'.g, s'.reader);
    }
  }

  /** The sender goes from the slot to the reader, or stays. */
  lemma MatchTask(t: TaskId, k: Task, g: Shared, r: Reader, g': Shared, r': Reader)
    requires r.Matching? && !HasMethod(r.msg) && Get(r.msg, "id") == Some(Str(HealthId(r.sequence))) && TaskInv(t, k, g, r)
    requires g'.pending == g.pending && g'.owners == g.owners && r'.Judging? && r'.msg == r.msg
    requires if g.slot.Some? && g.slot.value.0 == r.sequence then g'.slot.None? && r'.to == Some(g.slot.value.1)
             else g'.slot == g.slot && r'.to.None?
    ensures TaskInv(t, k, g', r')
  {
  }

  lemma SendKeeps(s: State)
    requires Inv(s) && s.reader.Sending?
    ensures Inv(ReadOn(s, SendAnswer))
  {
    var s' := ReadOn(s, SendAnswer);
    forall t | t in s'.tasks
      ensures TaskInv(t, s'.tasks[t], s'.g, s'.reader)
    {
      assert TaskInv(t, s.tasks[t], s.g, s.reader);
    }
  }

  lemma ShutKeeps(s: State)
    requires Inv(s) && CanRead(s, Shut)
    ensures Inv(ReadOn(s, Shut))
  {
    LessKeeps(s, ReadOn(s, Shut));
  }

  /** Entries or the slot were cleared, and the reader holds no sender. */
  lemma LessKeeps(s: State, s': State)
    requires Inv(s) && s'.tasks == s.tasks && (s'.g.pending == s.g.pending || s'.g.pending == map[])
    requires s'.g.owners == s.g.owners && s'.g.nextReq == s.g.nextReq && (s'.g.slot == s.g.slot || s'.g.slot.None?)
    requires !s'.reader.Judging? && !s'.reader.Sending? && !s'.reader.Matching?
    ensures Inv(s')
  {
    forall t | t in s'.tasks
      ensures TaskInv(t, s'.tasks[t], s'.g, s'.reader)
    {
      assert TaskInv(t, s.tasks[t], s.g, s.reader);
    }
  }

  lemma ReadKeeps(s: State, m: ReaderMove)
    requires Inv(s) && CanRead(s, m)
    ensures Inv(ReadOn(s, m))
  {
    match m
    case Receive(msg) => ReceiveKeeps(s, msg);
    case Match => MatchKeeps(s);
    case JudgeAnswer => SameKeeps(s, ReadOn(s, m));
    case SendAnswer => SendKeeps(s);
    case ReplyStart(t, body) =>
      var k := Fresh(Reply, Queued, body);
      FreshKeeps(s, t, k);
      SameKeeps(Put(s, t, (k, s.g)), ReadOn(s, m));
    case ReplyEnd => SameKeeps(s, ReadOn(s, m));
    case EndOfStream => SameKeeps(s, ReadOn(s, m));
    case Shut => ShutKeeps(s);
  }

  lemma MoveKeeps(s: State, t: TaskId, m: Move)
    requires Inv(s) && t in s.tasks && CanMove(s.tasks[t], m)
    ensures Inv(Put(s, t, Moved(t, s.tasks[t], s.g, m)))
  {
    var k := s.tasks[t];
    assert TaskInv(t, k, s.g, s.reader);
    MoveKinded(t, k, s.g, m);
    MoveInbox(t, k, s.g, m);
    MovePending(t, k, s.g, m);
    MoveSlot(t, k, s.g, s.reader, m);
    PutKeeps(s, t, Moved(t, k, s.g, m));
  }

  lemma LockMoveKeeps(s: State, t: TaskId, m: LockMove)
    requires Inv(s) && t in s.tasks && CanLockMove(s.tasks[t], s.g, m)
    ensures Inv(Put(s, t, LockMoved(t, s.tasks[t], s.g, m)))
  {
    var k := s.tasks[t];
    assert TaskInv(t, k, s.g, s.reader);
    LockMoveKinded(t, k, s.g, m);
    LockMoveInbox(t, k, s.g, m);
    LockMovePending(t, k, s.g, m);
    LockMoveSlot(t, k, s.g, s.reader, m);
    PutKeeps(s, t, LockMoved(t, k, s.g, m));
  }

  lemma ProbeKeeps(s: State, t: TaskId, m: ProbeMove)
    requires Inv(s) && t in s.tasks && CanProbe(t, s.tasks[t], s.g, s.reader, m)
    ensures Inv(Put(s, t, Probed(s.tasks[t], s.g, m)))
  {
    var k := s.tasks[t];
    assert TaskInv(t, k, s.g, s.reader);
    ProbeKinded(t, k, s.g, m);
    ProbeInbox(t, k, s.g, m);
    ProbePending(t, k, s.g, m);
    ProbeSlot(t, k, s.g, s.reader, m);
    PutKeeps(s, t, Probed(k, s.g, m));
  }

  /** Whatever the message is. */
  lemma WriteTask(message: string, frame: string, t: TaskId, k: Task, g: Shared, r: Reader, n: nat)
    requires k.phase.Writing? && k.phase.sent + n <= |frame| && TaskInv(t, k, g, r)
    ensures var next := WroteOf(message, frame, k, g, n);
            TaskInv(t, next.0, next.1, r) && PendingGuarantee(t, g, next.1) && OwnerGuarantee(t, g, next.1)
  {
    var next := WroteOf(message, frame, k, g, n);
    StillWriting(t, k, g, r, next.0, next.1);
  }

  lemma StillWriting(t: TaskId, k: Task, g: Shared, r: Reader, k': Task, g': Shared)
    requires k.phase.Writing? && (k'.phase.Writing? || k'.phase.Flushing?) && k' == k.(phase := k'.phase) && TaskInv(t, k, g, r)
    requires g'.pending == g.pending && g'.owners == g.owners && g'.slot == g.slot
    ensures TaskInv(t, k', g', r)
  {
    assert k'.inbox == k.inbox;
  }

  lemma WriteKeeps(s: State, t: TaskId, n: nat)
    requires Inv(s) && t in s.tasks && CanWrite(s.tasks[t], n)
    ensures Inv(Put(s, t, Wrote(s.tasks[t], s.g, n)))
  {
    var k := s.tasks[t];
    assert TaskInv(t, k, s.g, s.reader);
    WriteTask(Message(k), Frame(Message(k)), t, k, s.g, s.reader, n);
    PutKeeps(s, t, Wrote(k, s.g, n));
  }

  lemma ApplyKeeps(s: State, a: Action)
    requires Inv(s) && Enabled(s, a)
    ensures Inv(Apply(s, a))
  {
    match a
    case Start(t, kind, body) => FreshKeeps(s, t, Fresh(kind, if kind == Handshake then Activate else Entry, body));
    case OfReader(m) => ReadKeeps(s, m);
    case ProbeStart(t, body) => FreshKeeps(s, t, Fresh(Probe, Queued, body));
    case ProbeEnd =>
    case OfTask(t, m) => MoveKeeps(s, t, m);
    case OfLock(t, m) => LockMoveKeeps(s, t, m);
    case OfProbe(t, m) => ProbeKeeps(s, t, m);
    case Write(t, n) => WriteKeeps(s, t, n);
  }

  lemma NextKeeps(s: State, s': State)
    requires Inv(s) && Next(s, s')
    ensures Inv(s')
  {
    var a :| Enabled(s, a) && s' == Apply(s, a);
    ApplyKeeps(s, a);
  }

  lemma {:induction false} RunKeeps(states: seq<State>, i: nat)
    requires Run(states) && i < |states|
    ensures Inv(states[i])
  {
    if i > 0 {
      RunKeeps(states, i - 1);
      assert StepAt(states, i);
      NextKeeps(states[i - 1], states[i]);
    }
  }

  /** Every pending entry belongs to one request in flight, the one that was given its id; ids are
      not shared; and a request that has left, by whatever exit, has no entry. */
  lemma PendingEntriesAreInFlight(states: seq<State>, i: nat)
    requires Run(states) && i < |states|
    ensures var s := states[i];
            && (forall id :: id in s.g.pending ==>
                  var t := s.g.pending[id];
                  t in s.tasks && s.tasks[t].kind == Request && s.tasks[t].id == id && Enrolled(s.tasks[t].phase))
            && (forall t, u | t in s.tasks && u in s.tasks && HasId(s.tasks[t]) && HasId(s.tasks[u]) ::
                  s.tasks[t].id == s.tasks[u].id ==> t == u)
            && (forall t :: t in s.tasks && (s.tasks[t].phase.Leave? || s.tasks[t].phase.Done?) ==>
                              t !in s.g.pending.Values && !(s.g.slot.Some? && s.g.slot.value.1 == t))
  {
    RunKeeps(states, i);
    var s := states[i];
    forall id | id in s.g.pending
      ensures var t := s.g.pending[id];
              t in s.tasks && s.tasks[t].kind == Request && s.tasks[t].id == id && Enrolled(s.tasks[t].phase)
    {
      assert TaskInv(s.g.pending[id], s.tasks[s.g.pending[id]], s.g, s.reader);
    }
    forall t, u | t in s.tasks && u in s.tasks && HasId(s.tasks[t]) && HasId(s.tasks[u])
      ensures s.tasks[t].id == s.tasks[u].id ==> t == u
    {
      assert TaskInv(t, s.tasks[t], s.g, s.reader) && TaskInv(u, s.tasks[u], s.g, s.reader);
    }
    forall t | t in s.tasks && (s.tasks[t].phase.Leave? || s.tasks[t].phase.Done?)
      ensures t !in s.g.pending.Values && !(s.g.slot.Some? && s.g.slot.value.1 == t)
    {
      assert TaskInv(t, s.tasks[t], s.g, s.reader);
    }
  }

  /** A request or a probe receives at most one message, with its own id and without a method. */
  lemma AtMostOneAnswer(states: seq<State>, i: nat, t: TaskId)
    requires Run(states) && i < |states| && t in states[i].tasks
    ensures |states[i].tasks[t].inbox| <= 1
    ensures forall msg :: msg in states[i].tasks[t].inbox ==> Answers(msg, states[i].tasks[t])
  {
    RunKeeps(states, i);
    assert TaskInv(t, states[i].tasks[t], states[i].g, states[i].reader);
  }
}
