/**
  Every teardown, and every drain of the notification queue, comes to its end: a
  measure that no step of any task raises, and that each step of the tearing task
  and of the tasks it joins lowers.
 */
module TeardownEnds {
  import opened Wrappers
  import opened Session
  import opened Reports
  import opened TaskInvariant
  import opened TeardownEffect
  import opened Invariant
  import opened SessionTheorems
  import opened Drain

  // ---- The measure ------------------------------------------------------

  predicate HasEnded(s: State, k: nat) {
    k in s.beats.all ==> s.beats.all[k].pc == Ended
  }

  /** How far the failure handler is from its end. */
  function HandlerRank(s: State): nat {
    match s.handler
    case NoHandler => 0
    case NotifyingLoss(_) => 1
    case HandlerTearing(_, _, at) =>
      match at
      case JoinWorker => 2
      case Disconnecting => 3
      case Unsubscribing => 4
      case JoinKeepalive(k) => if HasEnded(s, k) then 5 else 6
  }

  function WorkerRank(s: State): nat {
    match s.worker
    case Stopped => 0
    case Getting => 1
    case InCallback(_) => 2
    case InHandler(_) => 2 + HandlerRank(s)
  }

  /** What the worker still has to do before it stops. */
  function WorkLeft(s: State): nat {
    9 * Load(s.inbox) + WorkerRank(s)
  }

  /** The two tasks a teardown can belong to. */
  datatype Side = OfLifecycle | OfFailure

  function PointOf(s: State, side: Side): Option<TearPoint> {
    match side
    case OfLifecycle => LifeAt(s.life)
    case OfFailure => HandlerAt(s.handler)
  }

  function Phase(at: TearPoint): nat {
    match at
    case JoinKeepalive(_) => 3
    case Unsubscribing => 2
    case Disconnecting => 1
    case JoinWorker => 0
  }

  function Rest(s: State, at: TearPoint): nat {
    match at
    case JoinKeepalive(k) => if HasEnded(s, k) then 0 else 1
    case JoinWorker => WorkLeft(s)
    case _ => 0
  }

  /** The teardown is over, or nearer its end in the lexicographic order of phase and rest. */
  predicate Nearer(s: State, side: Side, r: State)
    requires PointOf(s, side).Some?
  {
    var p, q := PointOf(s, side).value, PointOf(r, side);
    q.None? || Phase(q.value) < Phase(p) || (q.value == p && Rest(r, p) < Rest(s, p))
  }

  predicate NotFarther(s: State, side: Side, r: State)
    requires PointOf(s, side).Some?
  {
    var p, q := PointOf(s, side).value, PointOf(r, side);
    Nearer(s, side, r) || (q == Some(p) && Rest(r, p) == Rest(s, p))
  }

  // ---- The steps that count ---------------------------------------------

  function OwnStep(side: Side): Event {
    match side
    case OfLifecycle => OfLife(TearStep)
    case OfFailure => OfHandler(HandlerTearStep)
  }

  /** The end of the cancelled keepalive that a teardown at this point joins. */
  predicate EndsJoined(at: Option<TearPoint>, e: Event) {
    at.Some? && at.value.JoinKeepalive? && e == OfKeepalive(at.value.k, CancelledEnds)
  }

  /** A step of the worker, of the failure handler it runs, or of the keepalive that handler joins. */
  predicate WorkerWorks(s: State, e: Event) {
    || e == OfNotices(WorkerGet) || e == OfNotices(UpdateCallbackReturns)
    || (s.worker.InHandler? && (e.OfHandler? || EndsJoined(HandlerAt(s.handler), e)))
  }

  /** A step of the tearing task or of a task it joins. */
  predicate Furthers(s: State, side: Side, e: Event) {
    || e == OwnStep(side)
    || EndsJoined(PointOf(s, side), e)
    || (PointOf(s, side) == Some(JoinWorker) && WorkerWorks(s, e))
  }

  // ---- What other steps leave alone -------------------------------------

  predicate KeepEnding(ks: map<nat, Keepalive>, ls: map<nat, Keepalive>) {
    forall k | k in ks :: k in ls && (ks[k].pc == Ended ==> ls[k].pc == Ended)
  }

  /** Outside the worker's own steps, once its reference is cleared. */
  predicate WorkKept(s: State, r: State) {
    && r.inbox == s.inbox && r.worker == s.worker
    && (r.handler == s.handler || !s.worker.InHandler?)
    && KeepEnding(s.beats.all, r.beats.all)
  }

  lemma WorkKeptCounts(s: State, r: State)
    requires Tasks(s) && WorkKept(s, r)
    ensures WorkLeft(r) <= WorkLeft(s)
  {
  }

  predicate SameWork(s: State, r: State) {
    r.inbox == s.inbox && r.worker == s.worker
  }

  lemma LifeTearWork(s: State, reason: Reason)
    requires !s.inbox.workerSet
    ensures SameWork(s, BeginTeardown(s, TLife(reason)))
    ensures s.life.LifeTearing? ==> SameWork(s, ContinueTeardown(s, TLife(reason), s.life.at))
  {
  }

  lemma OtherTearWork(s: State, owner: Owner, error: Error)
    requires !s.inbox.workerSet && owner != ByWorker
    ensures SameWork(s, BeginTeardown(s, THandler(owner, error)))
  {
  }

  lemma OtherFailureWork(s: State, error: Error, owner: Owner)
    requires !s.inbox.workerSet && owner != ByWorker && OwnerFails(s, owner)
    requires s.handler != NoHandler ==> s.link.failure.Some?
    requires s.worker.InHandler? ==> s.handler != NoHandler
    ensures WorkKept(s, HandleFailure(s, error, owner))
  {
    HandleEffect(s, error, owner);
    OtherTearWork(RecordFailure(s, error), owner, error);
  }

  // ---- The worker's queue after its reference is cleared -----------------

  /** The worker is on its way to the stop marker; nothing more is queued for it. */
  predicate Draining(s: State) {
    !s.inbox.workerSet && s.life != Connecting
  }

  /** A step while the worker is stopping adds no work; a step of the worker's own lessens it. */
  ghost predicate Lessens(s: State, e: Event, r: State) {
    && Draining(r) && r.inbox.arrived == s.inbox.arrived
    && WorkLeft(r) <= WorkLeft(s)
    && (WorkerWorks(s, e) ==> WorkLeft(r) < WorkLeft(s))
  }

  lemma ContinueByWorker(s: State, error: Error, at: TearPoint)
    requires !s.inbox.workerSet && s.worker.InHandler? && at != JoinWorker && JoinReady(s, at)
    requires s.handler == HandlerTearing(ByWorker, error, at)
    ensures var r := ContinueTeardown(s, THandler(ByWorker, error), at);
            && Load(r.inbox) == Load(s.inbox) && !r.inbox.workerSet && r.inbox.arrived == s.inbox.arrived
            && WorkerRank(r) < WorkerRank(s)
  {
  }

  lemma ContinueByOther(s: State, owner: Owner, error: Error, at: TearPoint)
    requires !s.inbox.workerSet && owner != ByWorker
    ensures SameWork(s, ContinueTeardown(s, THandler(owner, error), at))
  {
  }

  lemma HandlerLessens(s: State, e: HandlerEvent)
    requires Inv(s) && HandlerEnabled(s, e) && Draining(s)
    ensures Lessens(s, OfHandler(e), HandlerStep(s, e))
  {
    HandlerWithin(s, e);
    match e
    case HandlerTearStep =>
      if s.handler.owner == ByWorker {
        ContinueByWorker(s, s.handler.error, s.handler.at);
      } else {
        ContinueByOther(s, s.handler.owner, s.handler.error, s.handler.at);
      }
    case LossCallbackReturns =>
  }

  lemma FailureByWorker(s: State, error: Error)
    requires !s.inbox.workerSet
    ensures var r := HandleFailure(s, error, ByWorker);
            !r.inbox.workerSet && r.inbox.arrived == s.inbox.arrived
  {
  }

  lemma TakeLessens(s: State)
    requires s.inbox.notices != [] && s.worker == Getting && !s.inbox.workerSet
    ensures var r := WorkerTake(s);
            && !r.inbox.workerSet && r.inbox.arrived == s.inbox.arrived
            && WorkLeft(r) < WorkLeft(s)
  {
    TakeLoad(s);
    if s.inbox.notices[0].Notice? {
      var s1 := s.(inbox := Popped(s.inbox));
      var p, f := s.inbox.notices[0].payload, s.inbox.notices[0].future;
      match PayloadError(s1, p) {
        case Some(error) => FailureByWorker(s1.(worker := InHandler(f)), error);
        case None => AbsorbFrame(s1, p.message);
      }
    }
  }

  lemma NoticeLessens(s: State, e: NoticeEvent)
    requires Inv(s) && NoticeEnabled(s, e) && Draining(s)
    ensures Lessens(s, OfNotices(e), NoticeStep(s, e))
  {
    NoticeWithin(s, e);
    match e
    case Notify(p) =>
      match PayloadError(s, p) {
        case Some(error) => OtherFailureWork(s, error, Inline);
        case None => AbsorbFrame(s, p.message);
      }
      WorkKeptCounts(s, NoticeStep(s, e));
    case WorkerGet => TakeLessens(s);
    case UpdateCallbackReturns =>
  }

  lemma BeatKept(s: State, k: nat, e: BeatEvent)
    requires Inv(s) && BeatEnabled(s, k, e) && Draining(s)
    ensures WorkKept(s, BeatStep(s, k, e))
  {
    match e
    case Locks =>
      if s.data.deviceId.None? {
        OtherFailureWork(SetKeepalive(s, k, KeepalivePc.Failing), NoIdentity, ByKeepalive(k));
      }
    case Lost(error) =>
      OtherFailureWork(SetKeepalive(s.(lock := Free), k, KeepalivePc.Failing), error, ByKeepalive(k));
    case _ =>
  }

  lemma BeatLessens(s: State, k: nat, e: BeatEvent)
    requires Inv(s) && BeatEnabled(s, k, e) && Draining(s)
    ensures Lessens(s, OfKeepalive(k, e), BeatStep(s, k, e))
  {
    BeatWithin(s, k, e);
    BeatKept(s, k, e);
    WorkKeptCounts(s, BeatStep(s, k, e));
  }

  lemma CallKept(s: State, c: nat, e: CallEvent)
    requires Inv(s) && CallEnabled(s, c, e) && Draining(s)
    ensures WorkKept(s, CallStep(s, c, e))
  {
    match e
    case CallLost(error) =>
      OtherFailureWork(SetControl(s, c, FailingWrite(IdOf(s.controls[c].pc))), error, ByControl(c));
    case AckGet => TakeFrame(s, c);
    case _ =>
  }

  lemma CallLessens(s: State, c: nat, e: CallEvent)
    requires Inv(s) && CallEnabled(s, c, e) && Draining(s)
    ensures Lessens(s, OfControl(c, e), CallStep(s, c, e))
  {
    CallWithin(s, c, e);
    CallKept(s, c, e);
    WorkKeptCounts(s, CallStep(s, c, e));
  }

  lemma AbortKept(s: State)
    requires !s.inbox.workerSet
    ensures WorkKept(s, AbortConnect(s)) && AbortConnect(s).life != Connecting
  {
    LifeTearWork(s, ConnectFailed);
    BeginEffect(s, TLife(ConnectFailed));
  }

  lemma JudgeKept(s: State, item: Item, want: Method, position: nat)
    requires Tasks(s) && !s.inbox.workerSet && s.life.Awaiting?
    ensures WorkKept(s, HandshakeJudge(s, item, want, position))
    ensures HandshakeJudge(s, item, want, position).life != Connecting
  {
    AbortKept(s);
    AbortKept(s.(stream := s.stream.(accepted := s.stream.accepted + [position])));
  }

  lemma ProceedKept(s: State)
    requires Tasks(s) && Draining(s) && ConnectSuspended(s.life)
    ensures WorkKept(s, ConnectGoesOn(s)) && ConnectGoesOn(s).life != Connecting
  {
    AbortKept(s);
  }

  lemma LifeKept(s: State, e: LifeEvent)
    requires Inv(s) && LifeEnabled(s, e) && Draining(s) && !Opens(s, OfLife(e))
    ensures WorkKept(s, LifeStep(s, e)) && LifeStep(s, e).life != Connecting
  {
    match e
    case Connect =>
    case Proceed => ProceedKept(s);
    case CallFails => AbortKept(s);
    case Get =>
      JudgeKept(s.(mail := TakeFrom(s.mail, s.life.queue), stream := Taken(s.stream, s.link.failure.Some?)),
                s.mail.heap[s.life.queue][0], s.life.want, s.stream.taken);
    case Timeout => AbortKept(s);
    case Disconnect =>
      var s1 := s.(link := s.link.(closing := true));
      LifeTearWork(s1, UserDisconnect);
      BeginEffect(s1, TLife(UserDisconnect));
    case TearStep =>
      LifeTearWork(s, s.life.reason);
      ContinueEffect(s, TLife(s.life.reason), s.life.at);
  }

  /** While the worker is stopping no step adds to its work, and its own steps lessen it. */
  lemma StepLessens(s: State, e: Event)
    requires Inv(s) && Enabled(s, e) && Draining(s) && !Opens(s, e)
    ensures Lessens(s, e, Apply(s, e))
  {
    match e
    case OfLife(l) =>
      LifeKept(s, l);
      WorkKeptCounts(s, Apply(s, e));
    case OfHandler(h) => HandlerLessens(s, h);
    case OfNotices(n) => NoticeLessens(s, n);
    case OfKeepalive(k, b) => BeatLessens(s, k, b);
    case OfControl(c, x) => CallLessens(s, c, x);
  }

  /** A step that the draining worker may take itself. */
  predicate DrainStep(e: Event) {
    || e == OfNotices(WorkerGet) || e == OfNotices(UpdateCallbackReturns) || e.OfHandler?
    || (e.OfKeepalive? && e.beat == CancelledEnds)
  }

  lemma HandlerCanStep(s: State) returns (e: Event)
    requires Inv(s) && s.handler != NoHandler
    requires s.handler.HandlerTearing? ==> s.handler.at != JoinWorker || s.worker == Stopped
    ensures Enabled(s, e) && DrainStep(e) && (e.OfHandler? || EndsJoined(HandlerAt(s.handler), e))
  {
    match s.handler
    case HandlerTearing(_, _, at) =>
      if JoinReady(s, at) {
        e := OfHandler(HandlerTearStep);
      } else {
        e := OfKeepalive(at.k, CancelledEnds);
      }
    case NotifyingLoss(_) => e := OfHandler(LossCallbackReturns);
  }

  /** A worker that was told to stop can always go on. */
  lemma WorkerCanStep(s: State) returns (e: Event)
    requires Inv(s) && Draining(s) && s.worker != Stopped
    ensures Enabled(s, e) && DrainStep(e) && WorkerWorks(s, e)
  {
    match s.worker
    case Getting => e := OfNotices(WorkerGet);
    case InCallback(_) => e := OfNotices(UpdateCallbackReturns);
    case InHandler(_) => e := HandlerCanStep(s);
  }

  predicate AllDrainSteps(events: seq<Event>) {
    forall i | 0 <= i < |events| :: DrainStep(events[i])
  }

  lemma DrainNext(o: State, events: seq<Event>, x: State) returns (es: seq<Event>, y: State)
    requires Leads(o, events, x) && AllDrainSteps(events) && Inv(x) && Draining(x) && x.worker != Stopped
    ensures Leads(o, es, y) && AllDrainSteps(es) && Inv(y) && Draining(y)
    ensures WorkLeft(y) < WorkLeft(x) && y.inbox.arrived == x.inbox.arrived
  {
    var e := WorkerCanStep(x);
    Extend(o, events, x, e);
    InvStep(x, e);
    StepLessens(x, e);
    es, y := events + [e], Apply(x, e);
  }

  lemma {:induction false} DrainOn(o: State, events: seq<Event>, x: State) returns (es: seq<Event>, y: State)
    requires Leads(o, events, x) && AllDrainSteps(events) && Inv(x) && Draining(x)
    ensures Leads(o, es, y) && AllDrainSteps(es) && Inv(y) && Draining(y)
    ensures y.worker == Stopped && y.inbox.arrived == x.inbox.arrived
    decreases WorkLeft(x)
  {
    if x.worker == Stopped {
      es, y := events, x;
    } else {
      var es1, x1 := DrainNext(o, events, x);
      es, y := DrainOn(o, es1, x1);
    }
  }

  /**
    From every state in which the worker was told to stop, whoever told it and
    whatever it is doing, its own steps, those of the failure handler and the end
    of a cancelled keepalive lead to its end, and then the future of every payload
    that was queued is completed, once and in order.
   */
  lemma DrainEnds(s: State)
    requires Reachable(s) && !s.inbox.workerSet && s.worker != Stopped
    ensures exists es, y | Leads(s, es, y) ::
              && AllDrainSteps(es)
              && y.worker == Stopped && y.inbox.notices == []
              && y.inbox.completed == seq(|s.inbox.arrived|, i => i)
  {
    ReachableInv(s);
    assert Leads(s, [], s);
    var es, y := DrainOn(s, [], s);
  }

  /** How many of the steps of a run the worker takes, its failure handler included. */
  ghost function WorkSteps(s: State, events: seq<Event>): nat
    requires Run(s, events).Some?
  {
    if events == [] then 0
    else
      var n := |events| - 1;
      WorkSteps(s, events[..n]) + if WorkerWorks(Run(s, events[..n]).value, events[n]) then 1 else 0
  }

  /**
    In every run, whatever the other tasks do, the worker takes at most as many
    steps as it had work left: it cannot drain for ever.
   */
  lemma {:induction false} DrainIsBounded(s: State, events: seq<Event>)
    requires Inv(s) && Draining(s) && Run(s, events).Some? && NeverOpens(s, events)
    ensures var r := Run(s, events).value;
            Draining(r) && WorkSteps(s, events) + WorkLeft(r) <= WorkLeft(s)
  {
    if events != [] {
      var n := |events| - 1;
      NeverOpensBefore(s, events);
      DrainIsBounded(s, events[..n]);
      RunsKeepInv(s, events[..n]);
      StepLessens(Run(s, events[..n]).value, events[n]);
    }
  }

  // ---- Teardowns --------------------------------------------------------

  lemma TearEnding(s: State, t: Tearer, r: State)
    requires TearEffect(s, t, r)
    ensures KeepEnding(s.beats.all, r.beats.all) && (t.TLife? ==> r.handler == s.handler)
  {
  }

  /** A failure while a handler is running changes neither it nor what has ended. */
  lemma FailureEnding(s: State, error: Error, owner: Owner)
    requires OwnerFails(s, owner)
    ensures var r := HandleFailure(s, error, owner);
            && KeepEnding(s.beats.all, r.beats.all)
            && (s.link.failure.Some? ==> r.handler == s.handler)
  {
    HandleEffect(s, error, owner);
  }

  /** Ended keepalives stay ended, and a running handler is moved by its own steps only. */
  predicate EndingKept(s: State, r: State) {
    && KeepEnding(s.beats.all, r.beats.all)
    && (s.link.failure.Some? ==> r.handler == s.handler)
  }

  lemma AbortEnding(s: State)
    ensures EndingKept(s, AbortConnect(s))
  {
    BeginEffect(s, TLife(ConnectFailed));
    TearEnding(s, TLife(ConnectFailed), AbortConnect(s));
  }

  lemma JudgeEnding(s: State, item: Item, want: Method, position: nat)
    requires Tasks(s) && s.life.Awaiting?
    ensures EndingKept(s, HandshakeJudge(s, item, want, position))
  {
    AbortEnding(s);
    AbortEnding(s.(stream := s.stream.(accepted := s.stream.accepted + [position])));
  }

  lemma ProceedEnding(s: State)
    ensures EndingKept(s, ConnectGoesOn(s))
  {
    AbortEnding(s);
  }

  lemma LifeEnding(s: State, e: LifeEvent)
    requires Inv(s) && LifeEnabled(s, e)
    ensures EndingKept(s, LifeStep(s, e))
  {
    match e
    case Connect =>
    case Proceed => ProceedEnding(s);
    case CallFails => AbortEnding(s);
    case Get =>
      JudgeEnding(s.(mail := TakeFrom(s.mail, s.life.queue), stream := Taken(s.stream, s.link.failure.Some?)),
                  s.mail.heap[s.life.queue][0], s.life.want, s.stream.taken);
    case Timeout => AbortEnding(s);
    case Disconnect =>
      var s1 := s.(link := s.link.(closing := true));
      BeginEffect(s1, TLife(UserDisconnect));
      TearEnding(s1, TLife(UserDisconnect), LifeStep(s, e));
    case TearStep =>
      ContinueEffect(s, TLife(s.life.reason), s.life.at);
      TearEnding(s, TLife(s.life.reason), LifeStep(s, e));
  }

  lemma NoticeEnding(s: State, e: NoticeEvent)
    requires Inv(s) && NoticeEnabled(s, e)
    ensures EndingKept(s, NoticeStep(s, e))
  {
    match e
    case Notify(p) =>
      match PayloadError(s, p) {
        case Some(error) => FailureEnding(s, error, Inline);
        case None => AbsorbFrame(s, p.message);
      }
    case WorkerGet =>
      if s.inbox.notices[0].Notice? {
        var s1 := s.(inbox := Popped(s.inbox));
        var p, f := s.inbox.notices[0].payload, s.inbox.notices[0].future;
        match PayloadError(s1, p) {
          case Some(error) => FailureEnding(s1.(worker := InHandler(f)), error, ByWorker);
          case None => AbsorbFrame(s1, p.message);
        }
      }
    case UpdateCallbackReturns =>
  }

  lemma BeatEnding(s: State, k: nat, e: BeatEvent)
    requires Inv(s) && BeatEnabled(s, k, e)
    ensures EndingKept(s, BeatStep(s, k, e))
  {
    match e
    case Locks =>
      if s.data.deviceId.None? {
        FailureEnding(SetKeepalive(s, k, KeepalivePc.Failing), NoIdentity, ByKeepalive(k));
      }
    case Lost(error) => FailureEnding(SetKeepalive(s.(lock := Free), k, KeepalivePc.Failing), error, ByKeepalive(k));
    case _ =>
  }

  lemma CallEnding(s: State, c: nat, e: CallEvent)
    requires Inv(s) && CallEnabled(s, c, e)
    ensures EndingKept(s, CallStep(s, c, e))
  {
    match e
    case CallLost(error) => FailureEnding(SetControl(s, c, FailingWrite(IdOf(s.controls[c].pc))), error, ByControl(c));
    case AckGet => TakeFrame(s, c);
    case _ =>
  }

  lemma HandlerEnding(s: State, e: HandlerEvent)
    requires Inv(s) && HandlerEnabled(s, e)
    ensures KeepEnding(s.beats.all, HandlerStep(s, e).beats.all)
  {
    match e
    case HandlerTearStep =>
      var t := THandler(s.handler.owner, s.handler.error);
      ContinueEffect(s, t, s.handler.at);
      TearEnding(s, t, HandlerStep(s, e));
    case LossCallbackReturns => ResumeEffect(s.(handler := NoHandler), s.handler.owner);
  }

  lemma StepEnding(s: State, e: Event)
    requires Inv(s) && Enabled(s, e)
    ensures KeepEnding(s.beats.all, Apply(s, e).beats.all)
    ensures !e.OfHandler? && s.link.failure.Some? ==> Apply(s, e).handler == s.handler
  {
    match e
    case OfLife(l) => LifeEnding(s, l);
    case OfHandler(h) => HandlerEnding(s, h);
    case OfNotices(n) => NoticeEnding(s, n);
    case OfKeepalive(k, b) => BeatEnding(s, k, b);
    case OfControl(c, x) => CallEnding(s, c, x);
  }

  lemma OwnStepNearer(s: State, side: Side)
    requires PointOf(s, side).Some? && Enabled(s, OwnStep(side))
    ensures Nearer(s, side, Apply(s, OwnStep(side)))
  {
  }

  /** No session is opened while a teardown is running. */
  lemma TearingKeepsOut(s: State, side: Side, e: Event)
    requires Inv(s) && Enabled(s, e) && PointOf(s, side).Some?
    ensures !Opens(s, e) && s.life != Connecting
    ensures PointOf(s, side) == Some(JoinWorker) ==> Draining(s)
  {
  }

  lemma PointStays(s: State, side: Side, e: Event)
    requires Inv(s) && Enabled(s, e) && PointOf(s, side).Some? && e != OwnStep(side)
    ensures PointOf(Apply(s, e), side) == PointOf(s, side)
  {
    TearingKeepsOut(s, side, e);
    match side
    case OfLifecycle => StepWithin(s, e);
    case OfFailure => StepEnding(s, e);
  }

  lemma JoinedNearer(s: State, k: nat, e: Event)
    requires Inv(s) && Enabled(s, e) && k in s.beats.all
    ensures HasEnded(s, k) ==> HasEnded(Apply(s, e), k)
    ensures e == OfKeepalive(k, CancelledEnds) ==> !HasEnded(s, k) && HasEnded(Apply(s, e), k)
  {
    StepEnding(s, e);
  }

  /**
    Whatever the other tasks do, no step takes a teardown farther from its end, and
    each step of the tearing task or of a task it joins brings it nearer.
   */
  lemma TeardownDescends(s: State, side: Side, e: Event)
    requires Inv(s) && Enabled(s, e) && PointOf(s, side).Some?
    ensures NotFarther(s, side, Apply(s, e))
    ensures Furthers(s, side, e) ==> Nearer(s, side, Apply(s, e))
  {
    if e == OwnStep(side) {
      OwnStepNearer(s, side);
    } else {
      TearingKeepsOut(s, side, e);
      PointStays(s, side, e);
      match PointOf(s, side).value {
        case JoinKeepalive(k) => JoinedNearer(s, k, e);
        case JoinWorker => StepLessens(s, e);
        case _ =>
      }
    }
  }

  /** A teardown or a task it joins can always go on. */
  lemma TeardownCanStep(s: State, side: Side) returns (e: Event)
    requires Inv(s) && PointOf(s, side).Some?
    ensures Enabled(s, e) && Furthers(s, side, e) && (e == OwnStep(side) || DrainStep(e))
  {
    var at := PointOf(s, side).value;
    if JoinReady(s, at) {
      e := OwnStep(side);
    } else if at.JoinKeepalive? {
      e := OfKeepalive(at.k, CancelledEnds);
    } else {
      e := WorkerCanStep(s);
    }
  }

  /** Steps of the tearing task and of the tasks a teardown joins. */
  predicate AllTeardownSteps(side: Side, events: seq<Event>) {
    forall i | 0 <= i < |events| :: events[i] == OwnStep(side) || DrainStep(events[i])
  }

  lemma TeardownNext(o: State, side: Side, events: seq<Event>, x: State) returns (es: seq<Event>, y: State)
    requires Leads(o, events, x) && AllTeardownSteps(side, events) && Inv(x) && PointOf(x, side).Some?
    ensures Leads(o, es, y) && AllTeardownSteps(side, es) && Inv(y) && Nearer(x, side, y)
  {
    var e := TeardownCanStep(x, side);
    TearingKeepsOut(x, side, e);
    Extend(o, events, x, e);
    InvStep(x, e);
    TeardownDescends(x, side, e);
    es, y := events + [e], Apply(x, e);
  }

  lemma {:induction false} TeardownOn(o: State, side: Side, events: seq<Event>, x: State)
    returns (es: seq<Event>, y: State)
    requires Leads(o, events, x) && AllTeardownSteps(side, events) && Inv(x)
    ensures Leads(o, es, y) && AllTeardownSteps(side, es) && PointOf(y, side).None?
    decreases if PointOf(x, side).Some? then 1 + Phase(PointOf(x, side).value) else 0,
              if PointOf(x, side).Some? then Rest(x, PointOf(x, side).value) else 0
  {
    if PointOf(x, side).None? {
      es, y := events, x;
    } else {
      var es1, x1 := TeardownNext(o, side, events, x);
      es, y := TeardownOn(o, side, es1, x1);
    }
  }

  /**
    Every teardown that is suspended anywhere, of `disconnect`, of an aborted
    `connect` or of a session failure, is led to its end by its own steps and
    those of the tasks it joins alone.
   */
  lemma TeardownEnds(s: State, side: Side)
    requires Reachable(s) && PointOf(s, side).Some?
    ensures exists es, y | Leads(s, es, y) :: AllTeardownSteps(side, es) && PointOf(y, side).None?
  {
    ReachableInv(s);
    assert Leads(s, [], s);
    var es, y := TeardownOn(s, side, [], s);
  }
}
