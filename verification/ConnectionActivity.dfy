/** The activity counter that keeps probes away from a busy server is balanced on every exit. */
module ConnectionActivity {
  import opened Decimal
  import opened Health
  import opened Connection
  import Routing = ConnectionRouting

  /** An ordinary operation whose guard is alive: counted in and not yet counted out. */
  predicate Active(k: Task) {
    k.kind != Probe && k.kind != Reply && !k.phase.Entry? && !k.phase.Activate? && !k.phase.Done?
  }

  function ActiveTasks(tasks: map<TaskId, Task>): set<TaskId> { set t | t in tasks && Active(tasks[t]) }

  ghost predicate Inv(s: State) { s.g.activity == |ActiveTasks(s.tasks)| }

  function Weight(k: Task): int { if Active(k) then 1 else 0 }

  lemma SizeWithout(ts: set<TaskId>, t: TaskId)
    ensures |ts| == |ts - {t}| + if t in ts then 1 else 0
  {
    if t !in ts { assert ts - {t} == ts; }
  }

  lemma PutWeight(tasks: map<TaskId, Task>, t: TaskId, k: Task)
    ensures |ActiveTasks(tasks[t := k])| == |ActiveTasks(tasks)| + Weight(k) - if t in tasks then Weight(tasks[t]) else 0
  {
    OthersStay(tasks, t, k);
    SizeWithout(ActiveTasks(tasks), t);
    SizeWithout(ActiveTasks(tasks[t := k]), t);
  }

  lemma OthersStay(tasks: map<TaskId, Task>, t: TaskId, k: Task)
    ensures ActiveTasks(tasks[t := k]) - {t} == ActiveTasks(tasks) - {t}
  {
  }

  lemma MoveWeight(t: TaskId, k: Task, g: Shared, m: Move)
    requires CanMove(k, m) && Routing.Kinded(k)
    ensures Moved(t, k, g, m).1.activity - g.activity == Weight(Moved(t, k, g, m).0) - Weight(k)
  {
  }

  lemma LockMoveWeight(t: TaskId, k: Task, g: Shared, m: LockMove)
    requires CanLockMove(k, g, m) && Routing.Kinded(k)
    ensures LockMoved(t, k, g, m).1.activity == g.activity && Weight(LockMoved(t, k, g, m).0) == Weight(k)
  {
  }

  lemma ProbeWeight(t: TaskId, k: Task, g: Shared, m: ProbeMove)
    requires ProbeReady(k, m) && Routing.Kinded(k)
    ensures Probed(k, g, m).1.activity == g.activity && Weight(Probed(k, g, m).0) == Weight(k)
  {
  }

  lemma DeliverWeight(tasks: map<TaskId, Task>, to: Option<TaskId>, msg: Json)
    ensures ActiveTasks(Deliver(tasks, to, msg)) == ActiveTasks(tasks)
  {
  }

  lemma ReadWeight(s: State, m: ReaderMove)
    requires CanRead(s, m)
    ensures ReadOn(s, m).g.activity == s.g.activity && |ActiveTasks(ReadOn(s, m).tasks)| == |ActiveTasks(s.tasks)|
  {
    match m
    case Receive(msg) =>
      var s' := Received(s, msg);
      if s'.tasks != s.tasks { DeliverWeight(s.tasks, Some(s.g.pending[AsU64(Get(msg, "id").value).value]), msg); }
    case SendAnswer => DeliverWeight(s.tasks, s.reader.to, s.reader.msg);
    case ReplyStart(t, body) => PutWeight(s.tasks, t, Fresh(Reply, Queued, body));
    case _ =>
  }

  lemma ApplyKeeps(s: State, a: Action)
    requires Inv(s) && Routing.Inv(s) && Enabled(s, a)
    ensures Inv(Apply(s, a))
  {
    var s' := Apply(s, a);
    if a.OfReader? {
      ReadWeight(s, a.reading);
    } else if !a.ProbeEnd? {
      PutWeight(s.tasks, a.t, s'.tasks[a.t]);
      if a.t in s.tasks { assert Routing.TaskInv(a.t, s.tasks[a.t], s.g, s.reader); }
      match a
      case OfTask(t, m) => MoveWeight(t, s.tasks[t], s.g, m);
      case OfLock(t, m) => LockMoveWeight(t, s.tasks[t], s.g, m);
      case OfProbe(t, m) => ProbeWeight(t, s.tasks[t], s.g, m);
      case _ =>
    }
  }

  lemma NextKeeps(s: State, s': State)
    requires Inv(s) && Routing.Inv(s) && Next(s, s')
    ensures Inv(s')
  {
    var a :| Enabled(s, a) && s' == Apply(s, a);
    ApplyKeeps(s, a);
  }

  /** In every reachable state the counter is the number of ordinary operations under way, so it
      is zero exactly when none is: no timeout, error or cancellation leaks a count. */
  lemma {:induction false} ActivityIsBalanced(states: seq<State>, i: nat)
    requires Run(states) && i < |states|
    ensures states[i].g.activity == |ActiveTasks(states[i].tasks)|
    ensures states[i].g.activity == 0 <==> forall t :: t in states[i].tasks ==> !Active(states[i].tasks[t])
  {
    if i > 0 {
      ActivityIsBalanced(states, i - 1);
      Routing.RunKeeps(states, i - 1);
      assert StepAt(states, i);
      NextKeeps(states[i - 1], states[i]);
    }
    var tasks := states[i].tasks;
    assert forall t :: t in tasks && Active(tasks[t]) ==> t in ActiveTasks(tasks);
  }
}
