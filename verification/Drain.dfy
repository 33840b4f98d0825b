/** The worker's loop over the notification queue. */
module Drain {
  import opened Wrappers
  import opened Session
  import opened TaskInvariant
  import opened Invariant

  /** Elements still to take, the stop marker to come included. */
  function Load(i: Inbox): nat {
    |i.notices| + if i.workerSet then 1 else 0
  }

  lemma FinishLoad(s: State, t: Tearer)
    ensures Load(FinishTeardown(s, t).inbox) == Load(s.inbox)
  {
  }

  lemma StopLoad(s: State, t: Tearer)
    ensures Load(StopWorker(s, t).inbox) == Load(s.inbox)
  {
    FinishLoad(s, t);
    FinishLoad(s.(inbox := Stopping(s.inbox)), t);
  }

  lemma BeginLoad(s: State, t: Tearer)
    ensures Load(BeginTeardown(s, t).inbox) == Load(s.inbox)
  {
    StopLoad(s, t);
    StopLoad(s.(beats := s.beats.(task := None)), t);
  }

  lemma FailureLoad(s: State, error: Error, owner: Owner)
    ensures Load(HandleFailure(s, error, owner).inbox) == Load(s.inbox)
  {
    BeginLoad(RecordFailure(s, error), THandler(owner, error));
  }

  lemma ProcessLoad(s: State, p: Payload, f: nat)
    ensures Load(WorkerProcess(s, p, f).inbox) == Load(s.inbox)
  {
    match PayloadError(s, p)
    case Some(error) => FailureLoad(s.(worker := InHandler(f)), error, ByWorker);
    case None => AbsorbFrame(s, p.message);
  }

  /** Each pass of the loop leaves less to take, even one that stops the worker itself. */
  lemma TakeLoad(s: State)
    requires s.inbox.notices != []
    ensures Load(WorkerTake(s).inbox) < Load(s.inbox)
  {
    match s.inbox.notices[0]
    case Stop =>
    case Notice(p, f) => ProcessLoad(s.(inbox := Popped(s.inbox)), p, f);
  }

  /** The worker's passes until it stops, suspends or waits for a notification. */
  function Drained(s: State): State
    decreases Load(s.inbox)
  {
    if s.worker == Getting && s.inbox.notices != [] then
      TakeLoad(s);
      Drained(WorkerTake(s))
    else s
  }

  function Passes(n: nat): seq<Event> {
    seq(n, _ => OfNotices(WorkerGet))
  }

  lemma OnePass(s: State)
    requires s.worker == Getting && s.inbox.notices != []
    ensures NoticeStep(s, WorkerGet) == WorkerTake(s)
    ensures s.worker == Getting && s.inbox.notices != [] ==> Drained(s) == Drained(WorkerTake(s))
  {
  }

  lemma {:induction false} RunFrom(s: State, e: Event, events: seq<Event>)
    requires Enabled(s, e)
    ensures Run(s, [e] + events) == Run(Apply(s, e), events)
  {
    if events == [] {
      assert [e] + events == [e] && [e][..0] == [];
    } else {
      assert ([e] + events)[..|events|] == [e] + events[..|events| - 1];
      RunFrom(s, e, events[..|events| - 1]);
    }
  }

  lemma PassFirst(s: State, n: nat)
    requires Enabled(s, OfNotices(WorkerGet))
    ensures Run(s, Passes(n + 1)) == Run(Apply(s, OfNotices(WorkerGet)), Passes(n))
  {
    assert Passes(n + 1) == [OfNotices(WorkerGet)] + Passes(n);
    RunFrom(s, OfNotices(WorkerGet), Passes(n));
  }

  /** The loop is a run of the worker's steps, and ends only where the worker must wait. */
  lemma {:induction false} DrainedIsRun(s: State) returns (n: nat)
    requires Inv(s)
    ensures Run(s, Passes(n)) == Some(Drained(s)) && Inv(Drained(s))
    ensures Drained(s).worker == Getting ==> Drained(s).inbox.notices == []
    decreases Load(s.inbox)
  {
    if s.worker == Getting && s.inbox.notices != [] {
      TakeLoad(s);
      OnePass(s);
      InvStep(s, OfNotices(WorkerGet));
      var m := DrainedIsRun(WorkerTake(s));
      n := m + 1;
      PassFirst(s, m);
    } else {
      n := 0;
    }
  }

  lemma {:induction false} DrainedKeepsStopping(s: State)
    requires Inv(s) && !s.inbox.workerSet && s.link.failure.Some? && !s.cfg.updateCallback
    requires s.worker == Getting || s.worker == Stopped
    ensures var r := Drained(s);
            !r.inbox.workerSet && (r.worker == Getting || r.worker == Stopped) && r.inbox.arrived == s.inbox.arrived
    decreases Load(s.inbox)
  {
    if s.worker == Getting && s.inbox.notices != [] {
      TakeLoad(s);
      OnePass(s);
      InvStep(s, OfNotices(WorkerGet));
      TakeWhileStopping(s);
      DrainedKeepsStopping(WorkerTake(s));
    }
  }

  lemma TakeWhileStopping(s: State)
    requires s.worker == Getting && s.inbox.notices != []
    requires !s.inbox.workerSet && s.link.failure.Some? && !s.cfg.updateCallback
    ensures var r := WorkerTake(s);
            && !r.inbox.workerSet && r.link.failure.Some? && r.cfg == s.cfg
            && (r.worker == Getting || r.worker == Stopped) && r.inbox.arrived == s.inbox.arrived
  {
    if s.inbox.notices[0].Notice? {
      var s1 := s.(inbox := Popped(s.inbox));
      var p := s.inbox.notices[0].payload;
      if PayloadError(s1, p).None? {
        AbsorbFrame(s1, p.message);
      }
    }
  }

  /**
    After a failure, once the worker's reference is cleared, the loop runs to its
    end in one go and completes the future of every payload that was queued,
    each exactly once and in order.
   */
  lemma DrainCompletesEveryFuture(s: State)
    requires Reachable(s) && !s.inbox.workerSet && s.worker == Getting
    requires s.link.failure.Some? && !s.cfg.updateCallback
    ensures var r := Drained(s);
            && r.worker == Stopped && r.inbox.notices == []
            && r.inbox.completed == seq(|s.inbox.arrived|, i => i)
  {
    ReachableInv(s);
    var _ := DrainedIsRun(s);
    DrainedKeepsStopping(s);
  }
}
