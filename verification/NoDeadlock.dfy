/** No reachable state has a cycle of waiting tasks, and every blocked task is waited free. */
module NoDeadlock {
  import opened Session
  import opened Invariant

  datatype Task = LifeTask | WorkerTask | KeepaliveTask(k: nat) | ControlTask(c: nat) | InlineTask | LifeWaiter

  function TaskOf(o: Owner): Task {
    match o
    case ByWorker => WorkerTask
    case ByKeepalive(k) => KeepaliveTask(k)
    case ByControl(c) => ControlTask(c)
    case Inline => InlineTask
  }

  /** A suspended teardown waits for this task to end. */
  predicate JoinedBy(s: State, at: TearPoint, b: Task) {
    match at
    case JoinKeepalive(k) => b == KeepaliveTask(k) && k in s.beats.all && s.beats.all[k].pc != Ended
    case JoinWorker => b == WorkerTask && s.worker != Stopped
    case _ => false
  }

  predicate HoldsTheLock(s: State, b: Task) {
    match b
    case KeepaliveTask(k) => s.lock == HeldByKeepalive(k)
    case ControlTask(c) => s.lock == HeldByControl(c)
    case _ => false
  }

  predicate WantsTheLock(s: State, a: Task) {
    match a
    case KeepaliveTask(k) => KeepaliveRuns(s, k, WantsLock)
    case ControlTask(c) => c in s.controls && s.controls[c].pc == WaitingLock
    case _ => false
  }

  predicate RunsHandler(s: State, a: Task) {
    s.handler != NoHandler && TaskOf(s.handler.owner) == a
  }

  /** Task a cannot go on before task b does something. */
  predicate WaitsFor(s: State, a: Task, b: Task) {
    || (a == LifeWaiter && b == LifeTask && s.life != Idle)
    || (a == LifeTask && s.life.LifeTearing? && JoinedBy(s, s.life.at, b))
    || (RunsHandler(s, a) && s.handler.HandlerTearing? && JoinedBy(s, s.handler.at, b))
    || (WantsTheLock(s, a) && HoldsTheLock(s, b))
  }

  /** Tasks that still have something to do. */
  predicate Alive(s: State, t: Task) {
    match t
    case LifeTask => s.life != Idle
    case WorkerTask => s.worker != Stopped
    case KeepaliveTask(k) => k in s.beats.all && s.beats.all[k].pc != Ended
    case ControlTask(c) => c in s.controls && !s.controls[c].pc.Done?
    case InlineTask => s.handler != NoHandler && s.handler.owner == Inline
    case LifeWaiter => s.life != Idle
  }

  /** The worker waits for a notification, and nobody waits for the worker. */
  predicate Parked(s: State, t: Task) {
    t == WorkerTask && s.worker == Getting && s.inbox.notices == [] && s.inbox.workerSet
  }

  /** The step is one of the task's own. */
  predicate StepOf(s: State, t: Task, e: Event) {
    || (t == LifeTask && e.OfLife?)
    || (t == WorkerTask && (e == OfNotices(WorkerGet) || e == OfNotices(UpdateCallbackReturns)))
    || (t.KeepaliveTask? && e.OfKeepalive? && e.k == t.k)
    || (t.ControlTask? && e.OfControl? && e.c == t.c)
    || (RunsHandler(s, t) && e.OfHandler?)
  }

  ghost predicate CanStep(s: State, t: Task) {
    exists e :: StepOf(s, t, e) && Enabled(s, e)
  }

  // ---- No cycle ---------------------------------------------------------

  predicate IsCancelled(s: State, t: Task) {
    t.KeepaliveTask? && t.k in s.beats.all && s.beats.all[t.k].cancelled
  }

  function Rank(s: State, t: Task): nat {
    if t == LifeWaiter then 6
    else if t == LifeTask then 5
    else if IsCancelled(s, t) then 0
    else if WantsTheLock(s, t) then 4
    else if t == WorkerTask then 2
    else if RunsHandler(s, t) then 3
    else 1
  }

  lemma WaitingDescends(s: State, a: Task, b: Task)
    requires Inv(s) && WaitsFor(s, a, b)
    ensures Rank(s, a) > Rank(s, b)
  {
    if WantsTheLock(s, a) && HoldsTheLock(s, b) {
      assert !WantsTheLock(s, b);
      assert a.KeepaliveTask? ==> s.beats.all[a.k].pc == WantsLock;
    }
  }

  ghost predicate WaitingChain(s: State, path: seq<Task>) {
    forall i | 0 <= i < |path| - 1 :: WaitsFor(s, path[i], path[i + 1])
  }

  lemma {:induction false} ChainDescends(s: State, path: seq<Task>)
    requires Inv(s) && |path| >= 2 && WaitingChain(s, path)
    ensures Rank(s, path[0]) > Rank(s, path[|path| - 1])
  {
    assert WaitsFor(s, path[0], path[1]);
    WaitingDescends(s, path[0], path[1]);
    if |path| > 2 {
      forall i | 0 <= i < |path[1..]| - 1 ensures WaitsFor(s, path[1..][i], path[1..][i + 1]) {
        assert WaitsFor(s, path[i + 1], path[i + 2]);
      }
      ChainDescends(s, path[1..]);
    }
  }

  /** In no reachable state do tasks wait for each other in a circle. */
  lemma NoCircularWait(s: State, path: seq<Task>)
    requires Reachable(s) && |path| >= 2 && WaitingChain(s, path)
    ensures path[0] != path[|path| - 1]
  {
    ReachableInv(s);
    ChainDescends(s, path);
  }

  // ---- Progress ---------------------------------------------------------

  lemma LifeProgress(s: State)
    requires Inv(s) && Alive(s, LifeTask)
    ensures CanStep(s, LifeTask) || exists b :: WaitsFor(s, LifeTask, b) && Alive(s, b)
  {
    if s.life.LifeTearing? {
      if JoinReady(s, s.life.at) {
        assert Enabled(s, OfLife(TearStep)) && StepOf(s, LifeTask, OfLife(TearStep));
      } else {
        var b := if s.life.at.JoinWorker? then WorkerTask else KeepaliveTask(s.life.at.k);
        assert WaitsFor(s, LifeTask, b) && Alive(s, b);
      }
    } else {
      var e := OfLife(if s.life.Awaiting? then Timeout else Proceed);
      assert Enabled(s, e) && StepOf(s, LifeTask, e);
    }
  }

  lemma HandlerProgress(s: State, t: Task)
    requires Inv(s) && RunsHandler(s, t)
    ensures CanStep(s, t) || exists b :: WaitsFor(s, t, b) && Alive(s, b)
  {
    match s.handler
    case HandlerTearing(_, _, at) =>
      if JoinReady(s, at) {
        assert Enabled(s, OfHandler(HandlerTearStep)) && StepOf(s, t, OfHandler(HandlerTearStep));
      } else {
        var b := if at.JoinWorker? then WorkerTask else KeepaliveTask(at.k);
        assert WaitsFor(s, t, b) && Alive(s, b);
      }
    case NotifyingLoss(_) =>
      assert Enabled(s, OfHandler(LossCallbackReturns)) && StepOf(s, t, OfHandler(LossCallbackReturns));
  }

  lemma WorkerProgress(s: State)
    requires Inv(s) && Alive(s, WorkerTask) && !Parked(s, WorkerTask)
    ensures CanStep(s, WorkerTask) || exists b :: WaitsFor(s, WorkerTask, b) && Alive(s, b)
  {
    match s.worker
    case Getting =>
      assert Enabled(s, OfNotices(WorkerGet)) && StepOf(s, WorkerTask, OfNotices(WorkerGet));
    case InCallback(_) =>
      assert Enabled(s, OfNotices(UpdateCallbackReturns)) && StepOf(s, WorkerTask, OfNotices(UpdateCallbackReturns));
    case InHandler(_) => HandlerProgress(s, WorkerTask);
    case Stopped =>
  }

  lemma LockProgress(s: State, t: Task)
    requires Inv(s) && WantsTheLock(s, t)
    ensures CanStep(s, t) || exists b :: WaitsFor(s, t, b) && Alive(s, b)
  {
    match s.lock
    case Free =>
      var e := if t.KeepaliveTask? then OfKeepalive(t.k, Locks) else OfControl(t.c, CallLocks);
      assert Enabled(s, e) && StepOf(s, t, e);
    case HeldByKeepalive(k) => assert WaitsFor(s, t, KeepaliveTask(k)) && Alive(s, KeepaliveTask(k));
    case HeldByControl(c) => assert WaitsFor(s, t, ControlTask(c)) && Alive(s, ControlTask(c));
  }

  lemma KeepaliveProgress(s: State, k: nat)
    requires Inv(s) && Alive(s, KeepaliveTask(k))
    ensures CanStep(s, KeepaliveTask(k)) || exists b :: WaitsFor(s, KeepaliveTask(k), b) && Alive(s, b)
  {
    var t := KeepaliveTask(k);
    if s.beats.all[k].pc == KeepalivePc.Failing {
      HandlerProgress(s, t);
    } else if s.beats.all[k].cancelled {
      assert Enabled(s, OfKeepalive(k, CancelledEnds)) && StepOf(s, t, OfKeepalive(k, CancelledEnds));
    } else if s.beats.all[k].pc == WantsLock {
      LockProgress(s, t);
    } else {
      var e := OfKeepalive(k, if s.beats.all[k].pc == Sleeping then Wakes else Wrote);
      assert Enabled(s, e) && StepOf(s, t, e);
    }
  }

  lemma ControlProgress(s: State, c: nat)
    requires Inv(s) && Alive(s, ControlTask(c))
    ensures CanStep(s, ControlTask(c)) || exists b :: WaitsFor(s, ControlTask(c), b) && Alive(s, b)
  {
    var t := ControlTask(c);
    match s.controls[c].pc
    case WaitingLock => LockProgress(s, t);
    case FailingWrite(_) => HandlerProgress(s, t);
    case Sending(_) => assert Enabled(s, OfControl(c, CallWrote)) && StepOf(s, t, OfControl(c, CallWrote));
    case AwaitingAck(_, _, _) => assert Enabled(s, OfControl(c, AckTimeout)) && StepOf(s, t, OfControl(c, AckTimeout));
    case Done(_, _) =>
  }

  lemma TaskProgress(s: State, t: Task)
    requires Inv(s) && Alive(s, t) && !Parked(s, t)
    ensures CanStep(s, t) || exists b :: WaitsFor(s, t, b) && Alive(s, b)
  {
    match t
    case LifeTask => LifeProgress(s);
    case WorkerTask => WorkerProgress(s);
    case KeepaliveTask(k) => KeepaliveProgress(s, k);
    case ControlTask(c) => ControlProgress(s, c);
    case InlineTask => HandlerProgress(s, InlineTask);
    case LifeWaiter => assert WaitsFor(s, LifeWaiter, LifeTask) && Alive(s, LifeTask);
  }

  /** Whoever is waited for is not parked: the stop marker is in the worker's queue. */
  lemma JoinedIsNotParked(s: State, a: Task, b: Task)
    requires Inv(s) && WaitsFor(s, a, b)
    ensures !Parked(s, b)
  {
  }

  lemma {:induction false} ProgressFrom(s: State, t: Task) returns (path: seq<Task>)
    requires Inv(s) && Alive(s, t) && !Parked(s, t)
    ensures path != [] && path[0] == t && WaitingChain(s, path) && CanStep(s, path[|path| - 1])
    decreases Rank(s, t)
  {
    if CanStep(s, t) {
      path := [t];
    } else {
      TaskProgress(s, t);
      var b :| WaitsFor(s, t, b) && Alive(s, b);
      WaitingDescends(s, t, b);
      JoinedIsNotParked(s, t, b);
      var rest := ProgressFrom(s, b);
      path := [t] + rest;
      forall i | 0 <= i < |path| - 1 ensures WaitsFor(s, path[i], path[i + 1]) {
        if i > 0 {
          assert WaitsFor(s, rest[i - 1], rest[i]);
        }
      }
    }
  }

  /**
    Teardown never deadlocks: whatever the interleaving, every unfinished task
    waits, directly or through a chain of waits, for a task that can take a step.
   */
  lemma EveryTaskIsFreed(s: State, t: Task)
    requires Reachable(s) && Alive(s, t) && !Parked(s, t)
    ensures exists path :: path != [] && path[0] == t && WaitingChain(s, path) && CanStep(s, path[|path| - 1])
  {
    ReachableInv(s);
    var path := ProgressFrom(s, t);
  }
}
