/** The supervised gopls connection as a transition system: requests, notifications, automatic
    replies, health probes and the initialize handshake share one stdin, one map of pending
    requests, one liveness flag and one probe slot. One action is one atomic load or store, one
    section under a mutex, or the writing of some bytes; an await may end early in every state
    where the program awaits. Actions of all tasks interleave without restriction. */
module Connection {
  import opened Decimal
  import opened Framing
  import opened Health

  type TaskId = nat

  datatype Kind = Request | Notification | Reply | Probe | Handshake

  /** Where a task is. Each phase is named after the action the task performs next. */
  datatype Phase =
    | Entry            // load is_alive before anything else
    | Activate         // ordinary_activity.fetch_add
    | Announce         // ordinary_epoch.fetch_add
    | Allocate         // next_req_id.fetch_add
    | Queued           // waits for the stdin lock
    | Recheck          // load is_alive under the lock
    | RecheckActivity  // probe: load ordinary_activity under the lock
    | RecheckPending   // probe: look at the pending map under the lock
    | MarkEpoch        // probe: load ordinary_epoch
    | MarkEvidence     // probe: read the evidence epoch
    | AllocateProbe    // probe: next_probe_id.fetch_add
    | Register         // insert into the pending map, or fill the probe slot
    | Writing(sent: nat)
    | Flushing
    | Written          // the guard is disarmed; release the lock
    | TornUnregister   // the armed guard drops: remove the request's entry
    | TornKill         // store false to is_alive
    | TornClear        // clear the pending map
    | TornUnlock
    | Unlock           // nothing was written; release the lock
    | Waiting          // for the answer
    | Unregister       // the disarmed guard drops: remove the request's entry
    | Shaking          // handshake: its request and notification run as tasks of their own
    | RetireAlive      // retire the generation: is_alive, then the pending map, then the slot
    | RetirePending
    | RetireSlot
    | TimedOut         // probe: give up the slot
    | LoadActivity     // probe: load ordinary_activity after the timeout
    | LoadEpoch        // probe: load ordinary_epoch after the timeout
    | Count            // probe: count the timeout under the probe-state lock
    | DropSlot(again: bool) // probe: the slot guard drops; whether the loop goes on
    | Leave            // ordinary_activity.fetch_sub
    | Done(ok: bool)

  datatype Task = Task(
    kind: Kind,
    phase: Phase,
    body: string,           // the text of the message this task writes, after its id
    id: nat,                // the request id or the probe sequence number, once allocated
    inbox: seq<Json>,       // what came through the oneshot channel
    epochMark: nat,         // the epoch the probe loaded before it wrote, and the history then
    epochAt: nat,
    evidenceMark: nat,
    evidenceAt: nat,
    seenTo: nat,            // the history when the epoch was found unchanged
    looks: Looks
  )

  /** What a probe found when it looked for ordinary activity, and the history at that time: before
      it wrote, under the stdin lock, and after its timeout. */
  datatype Looks = Looks(
    idleAt: nat, activity: int, busy: bool, pending: nat,
    quietAt: nat, lastActivity: int, lastBusy: bool
  )

  datatype Counters = Counters(timeouts: nat, evidence: nat, latest: nat, completions: nat)

  datatype Loop = Sleeping | Probing(task: TaskId) | Stopped

  datatype Reader =
    | Reading
    | Matching(msg: Json, sequence: nat)                         // the id of an issued probe
    | Judging(msg: Json, sequence: nat, to: Option<TaskId>)      // the slot has been looked at
    | Sending(msg: Json, to: Option<TaskId>)                     // the counters are updated
    | Replying(msg: Json, task: Option<TaskId>)                  // a request of gopls's own
    | FailAlive | FailClear                                      // the reply failed: retire
    | EndAlive | EndClear | EndSlot | Ended                      // the output ended

  datatype Event =
    | Entered(task: TaskId)                      // an ordinary operation counted itself in
    | Begun(task: TaskId)                        // and announced itself
    | Left(task: TaskId)                         // and counted itself out
    | Answered(id: nat)                          // a pending request was answered
    | Proven(sequence: nat)                      // a valid probe answer was seen
    | Counted(sequence: nat, epochAt: nat, seenTo: nat, evidenceAt: nat, looks: Looks)
    | Retired                                    // the timeout branch decided to retire

  /** What the tasks share. */
  datatype Shared = Shared(
    lock: Option<TaskId>,           // the owner of the stdin lock
    alive: bool,
    stream: string,                 // every byte written to gopls's stdin
    pending: map<nat, TaskId>,      // request ids and the tasks their senders belong to
    nextReq: nat,
    activity: int,
    epoch: nat,
    counters: Counters,
    nextProbe: nat,
    slot: Option<(nat, TaskId)>,    // the probe sequence waiting and its task
    // history
    sent: seq<string>,              // the messages whose last byte is on the stream
    partial: string,                // the bytes after them
    owners: map<nat, TaskId>,       // who was given each request id
    log: seq<Event>,
    cleared: bool                   // whether the pending map was cleared for good
  ) {
    function Note(event: Event): Shared { this.(log := log + [event]) }
  }

  /** A message passed on to the listeners, with `next_probe_id` as the reader saw it. */
  datatype Broadcast = Broadcast(msg: Json, next: nat)

  datatype State = State(tasks: map<TaskId, Task>, g: Shared, loop: Loop, reader: Reader, shared: seq<Broadcast>)

  const INITIAL := State(
    map[],
    Shared(None, true, "", map[], 1, 0, 0, Counters(0, 0, 0, 0), 1, None, [], "", map[], [], false),
    Sleeping, Reading, [])

  const MAX_IDLE_PROBE_TIMEOUTS: nat := 3

  /** What a task does outside the stdin lock. */
  datatype Move =
    | DoEntry
    | DoActivate
    | DoAnnounce
    | DoAllocate
    | GiveUp            // a timeout or a cancellation before the lock is held
    | StopWaiting       // an answer, a dropped sender, a timeout or a cancellation
    | DoUnregister
    | Shake(ok: bool)
    | DoRetireAlive
    | DoRetirePending
    | DoRetireSlot
    | DoLeave

  /** What a task does to take, use and release the stdin lock, apart from writing. */
  datatype LockMove =
    | Acquire
    | DoRecheck
    | DoRegister
    | Flush
    | Tear              // a timeout, an error or a cancellation while writing
    | ReleaseWritten
    | DoTornUnregister
    | DoTornKill
    | DoTornClear
    | DoTornUnlock
    | DoUnlock

  /** What only a probe does. */
  datatype ProbeMove =
    | DoRecheckActivity
    | DoRecheckPending(busy: bool)
    | DoMarkEpoch
    | DoMarkEvidence
    | DoAllocateProbe
    | Judge(valid: bool) // act on the answer
    | Abandoned         // the sender was dropped
    | Expire            // no answer in time
    | DoTimedOut
    | DoLoadActivity
    | DoLoadEpoch(busy: bool)
    | DoCount
    | DoDropSlot

  predicate CanMove(k: Task, m: Move) {
    match m
    case DoEntry => k.phase == Entry
    case DoActivate => k.phase == Activate
    case DoAnnounce => k.phase == Announce
    case DoAllocate => k.phase == Allocate
    case GiveUp => k.phase == Queued || (k.kind == Request && k.phase == Allocate)
    case StopWaiting => k.kind == Request && k.phase == Waiting
    case DoUnregister => k.phase == Unregister
    case Shake(_) => k.phase == Shaking
    case DoRetireAlive => k.phase == RetireAlive
    case DoRetirePending => k.phase == RetirePending
    case DoRetireSlot => k.phase == RetireSlot
    case DoLeave => k.phase == Leave
  }

  predicate CanLockMove(k: Task, g: Shared, m: LockMove) {
    match m
    case Acquire => k.phase == Queued && g.lock.None?
    case DoRecheck => k.phase == Recheck
    case DoRegister => k.phase == Register
    case Flush => k.phase == Flushing
    case Tear => k.phase.Writing? || k.phase == Flushing
    case ReleaseWritten => k.phase == Written
    case DoTornUnregister => k.phase == TornUnregister
    case DoTornKill => k.phase == TornKill
    case DoTornClear => k.phase == TornClear
    case DoTornUnlock => k.phase == TornUnlock
    case DoUnlock => k.phase == Unlock
  }

  /** Where a task goes after it unlocks stdin without having written its frame. */
  function AfterUnlock(kind: Kind, torn: bool): Phase {
    match kind
    case Request | Notification | Handshake => Leave
    case Reply => Done(false)
    case Probe => if torn then RetireAlive else Done(true)
  }

  /** Task `t`, now `k`, makes the move `m`: the task and the shared state after it. */
  function Moved(t: TaskId, k: Task, g: Shared, m: Move): (Task, Shared)
    requires CanMove(k, m)
  {
    match m
    case DoEntry => (k.(phase := if g.alive then Activate else Done(false)), g)
    case DoActivate => (k.(phase := Announce), g.(activity := g.activity + 1).Note(Entered(t)))
    case DoAnnounce =>
      (k.(phase := match k.kind case Request => Allocate case Handshake => Shaking case _ => Queued),
       g.(epoch := g.epoch + 1).Note(Begun(t)))
    case DoAllocate =>
      (k.(phase := Queued, id := g.nextReq), g.(nextReq := g.nextReq + 1, owners := g.owners[g.nextReq := t]))
    case GiveUp => (k.(phase := AfterUnlock(k.kind, false)), g)
    case StopWaiting => (k.(phase := Unregister), g)
    case DoUnregister => (k.(phase := Leave), g.(pending := g.pending - {k.id}))
    case Shake(ok) => (k.(phase := if ok then Leave else RetireAlive), g)
    case DoRetireAlive => (k.(phase := RetirePending), g.(alive := false))
    case DoRetirePending => (k.(phase := RetireSlot), g.(pending := map[], cleared := true))
    case DoRetireSlot => (k.(phase := if k.kind == Probe then DropSlot(false) else Leave), g.(slot := None))
    case DoLeave => (k.(phase := Done(true)), g.(activity := g.activity - 1).Note(Left(t)))
  }

  function LockMoved(t: TaskId, k: Task, g: Shared, m: LockMove): (Task, Shared)
    requires CanLockMove(k, g, m)
  {
    match m
    case Acquire => (k.(phase := Recheck), g.(lock := Some(t)))
    case DoRecheck =>
      (k.(phase := if !g.alive then Unlock else match k.kind
                                                case Request => Register
                                                case Probe => RecheckActivity
                                                case _ => Writing(0)), g)
    case DoRegister =>
      (k.(phase := Writing(0)),
       if k.kind == Request then g.(pending := g.pending[k.id := t]) else g.(slot := Some((k.id, t))))
    case Flush => (k.(phase := Written), g)
    case Tear => (k.(phase := if k.kind == Request then TornUnregister else TornKill), g)
    case ReleaseWritten =>
      (k.(phase := match k.kind case Request | Probe => Waiting case Reply => Done(true) case _ => Leave),
       g.(lock := None))
    case DoTornUnregister => (k.(phase := TornKill), g.(pending := g.pending - {k.id}))
    case DoTornKill => (k.(phase := TornClear), g.(alive := false))
    case DoTornClear => (k.(phase := TornUnlock), g.(pending := map[], cleared := true))
    case DoTornUnlock => (k.(phase := AfterUnlock(k.kind, true)), g.(lock := None))
    case DoUnlock => (k.(phase := AfterUnlock(k.kind, false)), g.(lock := None))
  }

  /** The text a task writes: requests and probes are told apart by the id in it. */
  function Message(k: Task): string {
    match k.kind
    case Request => "{\"id\":" + Print(k.id) + "," + k.body
    case Probe => "{\"id\":\"" + HealthId(k.id) + "\"," + k.body
    case _ => k.body
  }

  predicate CanWrite(k: Task, n: nat) { k.phase.Writing? && 0 < n <= |Frame(Message(k))| - k.phase.sent }

  /** The next `n` bytes of the task's frame reach the stream. */
  function Wrote(k: Task, g: Shared, n: nat): (Task, Shared)
    requires CanWrite(k, n)
  {
    WroteOf(Message(k), Frame(Message(k)), k, g, n)
  }

  function WroteOf(message: string, frame: string, k: Task, g: Shared, n: nat): (Task, Shared)
    requires k.phase.Writing? && k.phase.sent + n <= |frame|
  {
    var from := k.phase.sent;
    var chunk := frame[from..from + n];
    if from + n == |frame|
    then (k.(phase := Flushing), g.(stream := g.stream + chunk, sent := g.sent + [message], partial := ""))
    else (k.(phase := Writing(from + n)), g.(stream := g.stream + chunk, partial := g.partial + chunk))
  }

  /** The reader took `t`'s sender out of the slot and has not used it yet. */
  predicate HoldsSender(r: Reader, t: TaskId) { (r.Judging? || r.Sending?) && r.to == Some(t) }

  /** The probe is where it makes the move. */
  predicate ProbeReady(k: Task, m: ProbeMove) {
    match m
    case DoRecheckActivity => k.phase == RecheckActivity
    case DoRecheckPending(_) => k.phase == RecheckPending
    case DoMarkEpoch => k.phase == MarkEpoch
    case DoMarkEvidence => k.phase == MarkEvidence
    case DoAllocateProbe => k.phase == AllocateProbe
    case Judge(_) | Abandoned | Expire => k.kind == Probe && k.phase == Waiting
    case DoTimedOut => k.phase == TimedOut
    case DoLoadActivity => k.phase == LoadActivity
    case DoLoadEpoch(_) => k.phase == LoadEpoch
    case DoCount => k.phase == Count
    case DoDropSlot => k.phase.DropSlot?
  }

  predicate CanProbe(t: TaskId, k: Task, g: Shared, r: Reader, m: ProbeMove) {
    && ProbeReady(k, m)
    && (m.Judge? ==> k.inbox != [] && m.valid == ValidResponse(k.inbox[0], HealthId(k.id)))
    && (m.Abandoned? ==> k.inbox == [] && g.slot != Some((k.id, t)) && !HoldsSender(r, t))
  }

  /** What a probe does before it writes. */
  predicate Early(m: ProbeMove) {
    m.DoRecheckActivity? || m.DoRecheckPending? || m.DoMarkEpoch? || m.DoMarkEvidence? || m.DoAllocateProbe?
  }

  /** The probe's slot guard, `ProbePending::drop`. */
  function FreeSlot(g: Shared, id: nat): Shared {
    if g.slot.Some? && g.slot.value.0 == id then g.(slot := None) else g
  }

  function Probed(k: Task, g: Shared, m: ProbeMove): (Task, Shared)
    requires m.DoDropSlot? ==> k.phase.DropSlot?
  {
    match m
    case DoRecheckActivity =>
      (k.(phase := if g.activity != 0 then Unlock else RecheckPending,
          looks := k.looks.(idleAt := |g.log|, activity := g.activity)), g)
    case DoRecheckPending(busy) =>
      (k.(phase := if busy || g.pending != map[] then Unlock else MarkEpoch,
          looks := k.looks.(busy := busy, pending := |g.pending|)), g)
    case DoMarkEpoch => (k.(phase := MarkEvidence, epochMark := g.epoch, epochAt := |g.log|), g)
    case DoMarkEvidence =>
      (k.(phase := AllocateProbe, evidenceMark := g.counters.evidence, evidenceAt := |g.log|), g)
    case DoAllocateProbe => (k.(phase := Register, id := g.nextProbe), g.(nextProbe := g.nextProbe + 1))
    case Judge(valid) => (k.(phase := if valid then DropSlot(true) else RetireAlive), g)
    case Abandoned => (k.(phase := DropSlot(false)), g)
    case Expire => (k.(phase := TimedOut), g)
    case DoTimedOut => (k.(phase := LoadActivity), FreeSlot(g, k.id))
    case DoLoadActivity =>
      (k.(phase := if g.activity != 0 then Done(true) else LoadEpoch,
          looks := k.looks.(quietAt := |g.log|, lastActivity := g.activity)), g)
    case DoLoadEpoch(busy) =>
      (if g.epoch != k.epochMark || busy then k.(phase := Done(true))
       else k.(phase := Count, seenTo := |g.log|, looks := k.looks.(lastBusy := busy)), g)
    case DoCount =>
      if g.counters.evidence != k.evidenceMark then (k.(phase := Done(true)), g) else
      var timeouts := g.counters.timeouts + 1;
      var g' := g.(counters := g.counters.(timeouts := timeouts))
                .Note(Counted(k.id, k.epochAt, k.seenTo, k.evidenceAt, k.looks));
      if timeouts >= MAX_IDLE_PROBE_TIMEOUTS
      then (k.(phase := RetireAlive), g'.Note(Retired)) else (k.(phase := Done(true)), g')
    case DoDropSlot => (k.(phase := Done(k.phase.again)), FreeSlot(g, k.id))
  }

  /** What the reader loop does. */
  datatype ReaderMove =
    | Receive(msg: Json)
    | Match                                // the section on the probe slot
    | JudgeAnswer                          // the section on the probe counters
    | SendAnswer
    | ReplyStart(t: TaskId, body: string)
    | ReplyEnd
    | EndOfStream
    | Shut                                 // one step of retiring or ending

  predicate CanRead(s: State, m: ReaderMove) {
    match m
    case Receive(msg) => s.reader == Reading
    case Match => s.reader.Matching?
    case JudgeAnswer => s.reader.Judging?
    case SendAnswer => s.reader.Sending?
    case ReplyStart(t, body) => t !in s.tasks && s.reader.Replying? && s.reader.task.None?
    case ReplyEnd =>
      && s.reader.Replying? && s.reader.task.Some? && s.reader.task.value in s.tasks
      && s.tasks[s.reader.task.value].phase.Done?
    case EndOfStream => s.reader == Reading
    case Shut => s.reader in {FailAlive, FailClear, EndAlive, EndClear, EndSlot}
  }

  /** The oneshot sender hands `msg` to its receiver. */
  function Deliver(tasks: map<TaskId, Task>, to: Option<TaskId>, msg: Json): map<TaskId, Task> {
    if to.Some? && to.value in tasks
    then tasks[to.value := tasks[to.value].(inbox := tasks[to.value].inbox + [msg])] else tasks
  }

  function Share(s: State, msg: Json): State {
    s.(shared := s.shared + [Broadcast(msg, s.g.nextProbe)])
  }

  /** The reader's treatment of one message, up to its first section on the probe slot or its
      first await. */
  function Received(s: State, msg: Json): State {
    var id := Get(msg, "id");
    if id.None? then Share(s, msg)
    else if HasMethod(msg) then
      if Get(msg, "method").value.Str? then s.(reader := Replying(msg, None)) else Share(s, msg)
    else if AsU64(id.value).Some? then
      var n := AsU64(id.value).value;
      if n in s.g.pending then
        s.(tasks := Deliver(s.tasks, Some(s.g.pending[n]), msg),
           g := s.g.(pending := s.g.pending - {n}, counters := s.g.counters.(timeouts := 0)).Note(Answered(n)))
      else Share(s, msg)
    else if HealthSequence(msg, s.g.nextProbe).Some? then
      s.(reader := Matching(msg, HealthSequence(msg, s.g.nextProbe).value))
    else Share(s, msg)
  }

  /** The section on the probe counters for an answer with the id of probe `sequence`. */
  function Judged(g: Shared, msg: Json, sequence: nat): Shared {
    if !ValidResponse(msg, HealthId(sequence)) then g else
    var c := g.counters.(evidence := g.counters.evidence + 1, timeouts := 0);
    g.(counters := if sequence > c.latest then c.(latest := sequence, completions := c.completions + 1) else c)
    .Note(Proven(sequence))
  }

  function Fresh(kind: Kind, phase: Phase, body: string): Task {
    Task(kind, phase, body, 0, [], 0, 0, 0, 0, 0, Looks(0, 0, false, 0, 0, 0, false))
  }

  function ReadOn(s: State, m: ReaderMove): State
    requires CanRead(s, m)
  {
    match m
    case Receive(msg) => Received(s, msg)
    case Match =>
      var mine := s.g.slot.Some? && s.g.slot.value.0 == s.reader.sequence;
      s.(g := if mine then s.g.(slot := None) else s.g,
         reader := Judging(s.reader.msg, s.reader.sequence, if mine then Some(s.g.slot.value.1) else None))
    case JudgeAnswer =>
      s.(g := Judged(s.g, s.reader.msg, s.reader.sequence), reader := Sending(s.reader.msg, s.reader.to))
    case SendAnswer => s.(tasks := Deliver(s.tasks, s.reader.to, s.reader.msg), reader := Reading)
    case ReplyStart(t, body) =>
      s.(tasks := s.tasks[t := Fresh(Reply, Queued, body)], reader := Replying(s.reader.msg, Some(t)))
    case ReplyEnd =>
      if s.tasks[s.reader.task.value].phase.ok then Share(s, s.reader.msg).(reader := Reading)
      else s.(reader := FailAlive)
    case EndOfStream => s.(reader := EndAlive)
    case Shut =>
      match s.reader
      case FailAlive => s.(g := s.g.(alive := false), reader := FailClear)
      case FailClear => s.(g := s.g.(pending := map[], cleared := true), reader := EndAlive)
      case EndAlive => s.(g := s.g.(alive := false), reader := EndClear)
      case EndClear => s.(g := s.g.(pending := map[], cleared := true), reader := EndSlot)
      case _ => s.(g := s.g.(slot := None), reader := Ended)
  }

  datatype Action =
    | Start(t: TaskId, kind: Kind, body: string)
    | OfTask(t: TaskId, move: Move)
    | OfLock(t: TaskId, lockMove: LockMove)
    | Write(t: TaskId, n: nat)
    | OfProbe(t: TaskId, probe: ProbeMove)
    | OfReader(reading: ReaderMove)
    | ProbeStart(t: TaskId, body: string)
    | ProbeEnd

  predicate Enabled(s: State, a: Action) {
    match a
    case Start(t, kind, _) => t !in s.tasks && (kind == Request || kind == Notification || kind == Handshake)
    case OfTask(t, m) => t in s.tasks && CanMove(s.tasks[t], m)
    case OfLock(t, m) => t in s.tasks && CanLockMove(s.tasks[t], s.g, m)
    case Write(t, n) => t in s.tasks && CanWrite(s.tasks[t], n)
    case OfProbe(t, m) => t in s.tasks && CanProbe(t, s.tasks[t], s.g, s.reader, m)
    case OfReader(m) => CanRead(s, m)
    case ProbeStart(t, _) => t !in s.tasks && s.loop == Sleeping
    case ProbeEnd => s.loop.Probing? && s.loop.task in s.tasks && s.tasks[s.loop.task].phase.Done?
  }

  /** Task `t` becomes `next.0`, and the shared state `next.1`. */
  function Put(s: State, t: TaskId, next: (Task, Shared)): State {
    s.(tasks := s.tasks[t := next.0], g := next.1)
  }

  /** The state after the enabled action `a`. */
  function Apply(s: State, a: Action): State
    requires Enabled(s, a)
  {
    match a
    case Start(t, kind, body) => Put(s, t, (Fresh(kind, if kind == Handshake then Activate else Entry, body), s.g))
    case OfTask(t, m) => Put(s, t, Moved(t, s.tasks[t], s.g, m))
    case OfLock(t, m) => Put(s, t, LockMoved(t, s.tasks[t], s.g, m))
    case Write(t, n) => Put(s, t, Wrote(s.tasks[t], s.g, n))
    case OfProbe(t, m) => Put(s, t, Probed(s.tasks[t], s.g, m))
    case OfReader(m) => ReadOn(s, m)
    case ProbeStart(t, body) => Put(s, t, (Fresh(Probe, Queued, body), s.g)).(loop := Probing(t))
    case ProbeEnd => s.(loop := if s.tasks[s.loop.task].phase.ok then Sleeping else Stopped)
  }

  ghost predicate Next(s: State, s': State) { exists a :: Enabled(s, a) && s' == Apply(s, a) }

  ghost predicate StepAt(states: seq<State>, i: nat)
    requires 0 < i < |states|
  {
    Next(states[i - 1], states[i])
  }

  /** A run of the connection, from its start. */
  ghost predicate Run(states: seq<State>) {
    && states != [] && states[0] == INITIAL
    && forall i :: 0 < i < |states| ==> StepAt(states, i)
  }
}
