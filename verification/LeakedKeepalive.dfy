/**
  `connect()` can return after its session failed and after the teardown of that
  failure, and then leaves a live keepalive task: a run that ends in such a
  state. The wait for the initial report finds the report queued before the
  failure, so lines 207-209 run. `disconnect()` would still cancel the task; it
  lives on into the next session when `connect()` is called without it.
 */
module LeakedKeepalive {
  import opened Wrappers
  import opened Json
  import opened Session
  import opened Reports
  import opened Invariant
  import opened SessionTheorems
  import opened Reconnect
  import opened Disturbance
  import opened Drain

  const CONFIG: Config := Config(None, false, false, false)
  const INFO: Message := Message(GetInfoRsp, Null, Null, Null, Null, Null)
  const REPORT: Message := Message(Report, Null, Null, Null, Null, Null)

  lemma AcceptsInfo(x: State)
    requires Served(x, INFO) && x.life.want == GetInfoRsp
    ensures Enabled(x, OfLife(Get))
    ensures var y := Apply(x, OfLife(Get));
            && Smooth(y) && SameTasks(x, y) && y.life == ReadDelay && y.data == x.data
            && y.stream.put == x.stream.put && y.inbox == x.inbox
  {
    QueueHoldsOne(x, INFO);
    InvStep(x, OfLife(Get));
  }

  lemma AcceptInfoBy(o: State, events: seq<Event>, x: State) returns (es: seq<Event>, y: State)
    requires Leads(o, events, x) && Served(x, INFO) && x.life.want == GetInfoRsp
    ensures Leads(o, es, y) && Smooth(y) && SameTasks(x, y) && y.life == ReadDelay && y.data == x.data
    ensures y.stream.put == x.stream.put && y.inbox == x.inbox
  {
    AcceptsInfo(x);
    Extend(o, events, x, OfLife(Get));
    es, y := events + [OfLife(Get)], Apply(x, OfLife(Get));
  }

  /** From BLESPP_OK to the wait for getInfo-rsp. */
  lemma AwaitInfo(o: State, events: seq<Event>, x: State) returns (es: seq<Event>, y: State)
    requires Leads(o, events, x) && Smooth(x) && x.life == WritingOk && x.data.deviceId.Some?
    ensures Leads(o, es, y) && Smooth(y) && SameTasks(x, y) && y.life.Awaiting? && y.life.want == GetInfoRsp
    ensures y.data == x.data && y.stream == x.stream && y.inbox == x.inbox
  {
    es, y := ProceedBy(o, events, x);
    es, y := ProceedBy(o, es, y);
    es, y := ProceedBy(o, es, y);
  }

  /** The wait for getInfo-rsp, its answer included. */
  lemma AskInfo(o: State, events: seq<Event>, x: State) returns (es: seq<Event>, y: State)
    requires Leads(o, events, x) && Smooth(x) && x.life == WritingOk && x.data.deviceId.Some? && x.cfg == CONFIG
    ensures Leads(o, es, y) && Smooth(y) && SameTasks(x, y) && y.life == ReadDelay && y.data.deviceId.Some?
    ensures NoReportYet(x) ==> NoReportYet(y)
  {
    es, y := AwaitInfo(o, events, x);
    es, y := Serve(o, es, y, INFO);
    es, y := AcceptInfoBy(o, es, y);
  }

  /** The initial read is sent and its report is queued, but not taken yet. */
  lemma AskReport(o: State, events: seq<Event>, x: State) returns (es: seq<Event>, y: State)
    requires Leads(o, events, x) && Smooth(x) && x.life == ReadDelay && x.data.deviceId.Some? && x.cfg == CONFIG
    ensures Leads(o, es, y) && SameTasks(x, y) && Served(y, REPORT) && y.life.want == Report
  {
    es, y := events, x;
    es, y := ProceedBy(o, es, y);
    es, y := ProceedBy(o, es, y);
    es, y := Serve(o, es, y, REPORT);
  }

  // ---- The failure between the report and the wait that takes it ---------

  /** The handshake still has its message to take; the rest follows the failure. */
  ghost predicate Late(y: State, m: Message) {
    && Inv(y) && y.cfg == CONFIG && y.link.failure.Some? && y.link.status == Disconnected
    && y.life.Awaiting? && y.life.want == m.kind && y.life.queue < |y.mail.heap|
    && y.mail.heap[y.life.queue] != [] && y.mail.heap[y.life.queue][0] == Msg(m)
  }

  /** Nothing but the handshake is left of the session. */
  ghost predicate WoundUp(y: State, m: Message) {
    Late(y, m) && y.handler == NoHandler && y.worker == Stopped && y.era.over
  }

  lemma GarbageArrives(x: State, m: Message)
    requires Served(x, m) && x.life.want == m.kind && x.cfg == CONFIG
    ensures var y := Apply(x, OfNotices(Notify(Undecodable)));
            && Served(y.(inbox := x.inbox), m) && y == x.(inbox := y.inbox) && Inv(y)
            && |y.inbox.notices| == 1 && y.inbox.notices[0].Notice? && y.inbox.notices[0].payload == Undecodable
            && y.inbox.workerSet
  {
    InvStep(x, OfNotices(Notify(Undecodable)));
    assert x.inbox.workerSet;
  }

  /** The worker records the failure and begins the teardown with the transport. */
  lemma GarbageRecorded(x: State, m: Message)
    requires x.life.Awaiting? && x.link.failure.None? && x.link.status != Disconnected
    requires !x.link.closing && !x.link.cleanupDone && x.beats.task.None?
    requires x.worker == Getting
    requires |x.inbox.notices| == 1 && x.inbox.notices[0].Notice? && x.inbox.notices[0].payload == Undecodable
    requires Queue(x.mail, x.life.queue) == [Msg(m)]
    ensures var y := Apply(x, OfNotices(WorkerGet));
            && y.link == x.link.(failure := Some(InvalidPayload), status := Disconnected, cleanupDone := true)
            && y.life == x.life && y.cfg == x.cfg && y.beats == x.beats
            && y.handler == HandlerTearing(ByWorker, InvalidPayload, Unsubscribing)
            && y.inbox.workerSet == x.inbox.workerSet && y.inbox.notices == []
            && y.life.queue < |y.mail.heap| && Queue(y.mail, y.life.queue) != []
            && Queue(y.mail, y.life.queue)[0] == Msg(m)
  {
  }

  lemma GarbageFails(x: State, m: Message)
    requires Inv(x) && x.cfg == CONFIG && x.life.Awaiting? && x.life.want == m.kind && x.link.failure.None?
    requires x.worker == Getting && x.inbox.workerSet && x.beats == Beats(None, map[])
    requires |x.inbox.notices| == 1 && x.inbox.notices[0].Notice? && x.inbox.notices[0].payload == Undecodable
    requires Queue(x.mail, x.life.queue) == [Msg(m)]
    ensures var y := Apply(x, OfNotices(WorkerGet));
            && Late(y, m) && y.handler == HandlerTearing(ByWorker, InvalidPayload, Unsubscribing)
            && y.inbox.workerSet && y.inbox.notices == [] && y.beats == x.beats && y.link.cleanupDone
  {
    InvStep(x, OfNotices(WorkerGet));
    assert x.link.status != Disconnected && !x.link.closing && !x.link.cleanupDone;
    GarbageRecorded(x, m);
  }

  lemma Unsubscribes(x: State, m: Message)
    requires Late(x, m) && x.handler == HandlerTearing(ByWorker, InvalidPayload, Unsubscribing)
    ensures var y := Apply(x, OfHandler(HandlerTearStep));
            && Late(y, m) && y.handler == HandlerTearing(ByWorker, InvalidPayload, Disconnecting)
            && y.inbox == x.inbox && y.beats == x.beats
  {
    InvStep(x, OfHandler(HandlerTearStep));
  }

  lemma Disconnects(x: State, m: Message)
    requires Late(x, m) && x.handler == HandlerTearing(ByWorker, InvalidPayload, Disconnecting)
    requires x.inbox.workerSet && x.inbox.notices == []
    ensures var y := Apply(x, OfHandler(HandlerTearStep));
            && Late(y, m) && y.handler == NoHandler && y.beats == x.beats && y.era.over
            && y.worker == Getting && y.inbox.notices == [Stop]
  {
    InvStep(x, OfHandler(HandlerTearStep));
  }

  lemma WorkerStops(x: State, m: Message)
    requires Late(x, m) && x.handler == NoHandler && x.worker == Getting && x.inbox.notices == [Stop] && x.era.over
    ensures var y := Apply(x, OfNotices(WorkerGet));
            WoundUp(y, m) && y.beats == x.beats
  {
    InvStep(x, OfNotices(WorkerGet));
  }

  lemma ConnectReturns(x: State)
    requires WoundUp(x, REPORT) && x.beats == Beats(None, map[])
    ensures Enabled(x, OfLife(Get))
    ensures var y := Apply(x, OfLife(Get));
            && y.life == Idle && y.link.status == Disconnected && y.link.failure.Some?
            && y.handler == NoHandler && y.worker == Stopped
            && KeepaliveRuns(y, y.era.session, Sleeping) && y.beats.task == Some(y.era.session)
            && |y.stream.accepted| == 3
  {
    InvStep(x, OfLife(Get));
  }

  /** A finished handshake that failed, with its keepalive alive and nothing else running. */
  ghost predicate Leaked(y: State) {
    && y.life == Idle && y.link.status == Disconnected && y.link.failure.Some?
    && y.handler == NoHandler && y.worker == Stopped
    && KeepaliveRuns(y, y.era.session, Sleeping) && y.beats.task == Some(y.era.session)
    && |y.stream.accepted| == 3
  }

  lemma FailLate(o: State, events: seq<Event>, x: State, m: Message) returns (es: seq<Event>, y: State)
    requires Leads(o, events, x) && Served(x, m) && x.life.want == m.kind && x.cfg == CONFIG
    requires x.beats == Beats(None, map[])
    ensures Leads(o, es, y) && Late(y, m) && y.handler == HandlerTearing(ByWorker, InvalidPayload, Unsubscribing)
    ensures y.inbox.workerSet && y.inbox.notices == [] && y.beats == x.beats
  {
    QueueHoldsOne(x, m);
    var garbage := OfNotices(Notify(Undecodable));
    GarbageArrives(x, m);
    Extend(o, events, x, garbage);
    var x1 := Apply(x, garbage);
    GarbageFails(x1, m);
    Extend(o, events + [garbage], x1, OfNotices(WorkerGet));
    es, y := events + [garbage] + [OfNotices(WorkerGet)], Apply(x1, OfNotices(WorkerGet));
  }

  lemma CloseLate(o: State, events: seq<Event>, x: State, m: Message) returns (es: seq<Event>, y: State)
    requires Leads(o, events, x) && Late(x, m)
    requires x.handler == HandlerTearing(ByWorker, InvalidPayload, Unsubscribing)
    requires x.inbox.workerSet && x.inbox.notices == [] && x.beats == Beats(None, map[])
    ensures Leads(o, es, y) && WoundUp(y, m) && y.beats == x.beats
  {
    var tear := OfHandler(HandlerTearStep);
    Unsubscribes(x, m);
    Extend(o, events, x, tear);
    es, y := events + [tear], Apply(x, tear);
    Disconnects(y, m);
    Extend(o, es, y, tear);
    es, y := es + [tear], Apply(y, tear);
    WorkerStops(y, m);
    Extend(o, es, y, OfNotices(WorkerGet));
    es, y := es + [OfNotices(WorkerGet)], Apply(y, OfNotices(WorkerGet));
  }

  lemma LeakFrom(o: State) returns (es: seq<Event>, y: State)
    requires JustOpened(o) && o.cfg == CONFIG && o.beats == Beats(None, map[])
    ensures Leads(o, es, y) && Leaked(y)
  {
    es, y := Identify(o, [], o);
    es, y := AskInfo(o, es, y);
    es, y := AskReport(o, es, y);
    es, y := FailLate(o, es, y, REPORT);
    es, y := CloseLate(o, es, y, REPORT);
    ConnectReturns(y);
    Extend(o, es, y, OfLife(Get));
    es, y := es + [OfLife(Get)], Apply(y, OfLife(Get));
  }

  /** The first session of a new client, just opened. */
  lemma Opened() returns (o: State)
    ensures o == Apply(Initial(CONFIG), OfLife(Connect)) && JustOpened(o) && Leads(o, [], o)
    ensures o.cfg == CONFIG && o.beats == Beats(None, map[]) && NoReportYet(o)
  {
    InitialInv(CONFIG);
    InvStep(Initial(CONFIG), OfLife(Connect));
    o := Apply(Initial(CONFIG), OfLife(Connect));
  }

  predicate CancelledAndDropped(s: State, k: nat) {
    k in s.beats.all && s.beats.all[k].cancelled && s.beats.task != Some(k)
  }

  /** The first step of `disconnect()` cancels the keepalive the client refers to. */
  lemma DisconnectCancels(s: State, k: nat)
    requires s.life == Idle && s.beats.task == Some(k) && k in s.beats.all
    ensures CancelledAndDropped(Apply(s, OfLife(Disconnect)), k)
  {
  }

  /**
    A state in which `connect()` has returned, the session has failed, nothing but
    its keepalive is running, and the next `connect()` may be entered. A call of
    `disconnect()` in this state would cancel the keepalive.
   */
  lemma ConnectCanLeakAKeepalive() returns (y: State)
    ensures Reachable(y) && Leaked(y) && Enabled(y, OfLife(Connect)) && !Quiet(y)
    ensures Enabled(y, OfLife(Disconnect)) && CancelledAndDropped(Apply(y, OfLife(Disconnect)), y.era.session)
  {
    var o := Opened();
    var es: seq<Event>;
    es, y := LeakFrom(o);
    RunWithin(o, es);
    RunFrom(Initial(CONFIG), OfLife(Connect), es);
    DisconnectCancels(y, y.era.session);
  }
}
