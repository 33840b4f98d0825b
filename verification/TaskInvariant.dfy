/** Who runs, who holds the lock, who is cancelled, and where the stop marker is. */
module TaskInvariant {
  import opened Wrappers
  import opened Session
  import opened Reports

  predicate HoldsLock(pc: ControlPc) {
    pc.Sending? || pc.AwaitingAck? || pc.FailingWrite?
  }

  predicate Handshaking(life: Lifecycle) {
    ConnectSuspended(life) || life.Awaiting?
  }

  function HandlerOwners(h: Handler): set<Owner> {
    if h == NoHandler then {} else {h.owner}
  }

  function LifeAt(life: Lifecycle): Option<TearPoint> {
    if life.LifeTearing? then Some(life.at) else None
  }

  function HandlerAt(h: Handler): Option<TearPoint> {
    if h.HandlerTearing? then Some(h.at) else None
  }

  /** The tasks inside the failure handler are exactly the owners given. */
  ghost predicate Failing(os: set<Owner>, w: Worker, ks: map<nat, Keepalive>, cs: map<nat, Control>) {
    && (w.InHandler? <==> ByWorker in os)
    && (forall k | k in ks :: ks[k].pc == KeepalivePc.Failing <==> ByKeepalive(k) in os)
    && (forall c | c in cs :: cs[c].pc.FailingWrite? <==> ByControl(c) in os)
    && (forall k | ByKeepalive(k) in os :: k in ks)
    && (forall c | ByControl(c) in os :: c in cs)
  }

  ghost predicate OneLockHolder(lock: Lock, ks: map<nat, Keepalive>, cs: map<nat, Control>) {
    && (forall k | k in ks :: ks[k].pc == Writing <==> lock == HeldByKeepalive(k))
    && (forall c | c in cs :: HoldsLock(cs[c].pc) <==> lock == HeldByControl(c))
    && (lock.HeldByKeepalive? ==> lock.k in ks)
    && (lock.HeldByControl? ==> lock.c in cs)
  }

  /** A cancelled keepalive never runs the handler; the referenced one is not cancelled. */
  ghost predicate BeatsSane(b: Beats) {
    && (forall k | k in b.all && b.all[k].cancelled :: b.all[k].pc != KeepalivePc.Failing)
    && (b.task.Some? ==> b.task.value in b.all && !b.all[b.task.value].cancelled)
  }

  /** A keepalive belongs to a session whose handshake was completed. */
  ghost predicate BeatsOfPast(ks: map<nat, Keepalive>, session: nat, life: Lifecycle) {
    forall k | k in ks :: k <= session && (Handshaking(life) ==> k < session)
  }

  /** The stop marker is the last element, present exactly from the moment the reference is cleared. */
  ghost predicate StopMarkerLast(i: Inbox, w: Worker) {
    && (w == Stopped ==> !i.workerSet && i.notices == [])
    && (w != Stopped && !i.workerSet ==> i.notices != [])
    && (forall n | 0 <= n < |i.notices| ::
          i.notices[n] == Stop <==> !i.workerSet && n == |i.notices| - 1)
  }

  predicate Busy(w: Worker) {
    w.InCallback? || w.InHandler?
  }

  /**
    The worker takes the queued payloads in order of arrival, one at a time, and
    completes the future of each before it takes the next.
   */
  ghost predicate Feed(i: Inbox, w: Worker) {
    && i.started <= |i.arrived|
    && |i.completed| == i.started - (if Busy(w) then 1 else 0)
    && (forall n | 0 <= n < |i.completed| :: i.completed[n] == n)
    && (Busy(w) ==> w.future == i.started - 1)
    && |i.arrived| - i.started == |i.notices| - (if !i.workerSet && w != Stopped then 1 else 0)
    && (forall n | 0 <= n < |i.notices| && i.notices[n].Notice? ::
          i.started + n < |i.arrived| && i.notices[n] == Notice(i.arrived[i.started + n], i.started + n))
  }

  /** What a teardown waits for was cancelled or told to stop before. */
  predicate PointSane(at: Option<TearPoint>, ks: map<nat, Keepalive>, workerSet: bool) {
    match at
    case Some(JoinKeepalive(k)) => k in ks && ks[k].cancelled
    case Some(JoinWorker) => !workerSet
    case _ => true
  }

  /** A handler never waits for the worker that runs it. */
  predicate NoSelfJoin(h: Handler) {
    h.HandlerTearing? && h.at == JoinWorker ==> h.owner != ByWorker
  }

  predicate RefNotOwner(task: Option<nat>, os: set<Owner>) {
    task.Some? ==> ByKeepalive(task.value) !in os
  }

  predicate NotYetConnected(s: State) {
    s.life == Connecting ==> s.worker == Stopped && s.handler == NoHandler && s.link.status == Disconnected
  }

  ghost predicate Tasks(s: State) {
    && Failing(HandlerOwners(s.handler), s.worker, s.beats.all, s.controls)
    && OneLockHolder(s.lock, s.beats.all, s.controls)
    && BeatsSane(s.beats)
    && BeatsOfPast(s.beats.all, s.era.session, s.life)
    && RefNotOwner(s.beats.task, HandlerOwners(s.handler))
    && StopMarkerLast(s.inbox, s.worker)
    && Feed(s.inbox, s.worker)
    && PointSane(LifeAt(s.life), s.beats.all, s.inbox.workerSet)
    && PointSane(HandlerAt(s.handler), s.beats.all, s.inbox.workerSet)
    && NoSelfJoin(s.handler)
    && NotYetConnected(s)
    && (s.handler != NoHandler ==> s.link.failure.Some?)
  }

  // ---- The steps of a teardown ------------------------------------------

  function OwnersDuring(h: Handler, t: Tearer): set<Owner> {
    if t.THandler? then {t.owner} else HandlerOwners(h)
  }

  /** The invariant while `t` runs its teardown, before it suspends again. */
  ghost predicate TasksBut(s: State, t: Tearer) {
    && Failing(OwnersDuring(s.handler, t), s.worker, s.beats.all, s.controls)
    && OneLockHolder(s.lock, s.beats.all, s.controls)
    && BeatsSane(s.beats)
    && BeatsOfPast(s.beats.all, s.era.session, s.life)
    && StopMarkerLast(s.inbox, s.worker)
    && Feed(s.inbox, s.worker)
    && (t.TLife? ==>
          && PointSane(HandlerAt(s.handler), s.beats.all, s.inbox.workerSet)
          && NoSelfJoin(s.handler)
          && RefNotOwner(s.beats.task, HandlerOwners(s.handler))
          && (s.handler != NoHandler ==> s.link.failure.Some?))
    && (t.THandler? ==>
          && PointSane(LifeAt(s.life), s.beats.all, s.inbox.workerSet)
          && s.life != Connecting
          && s.link.failure.Some?)
  }

  predicate RefDropped(s: State, t: Tearer) {
    RefNotOwner(s.beats.task, OwnersDuring(s.handler, t))
  }

  /** The invariant while `owner` is about to return from the failure handler. */
  ghost predicate TasksPlus(s: State, owner: Owner) {
    && Failing(HandlerOwners(s.handler) + {owner}, s.worker, s.beats.all, s.controls)
    && (owner == Inline || owner !in HandlerOwners(s.handler))
    && OneLockHolder(s.lock, s.beats.all, s.controls)
    && BeatsSane(s.beats)
    && BeatsOfPast(s.beats.all, s.era.session, s.life)
    && RefNotOwner(s.beats.task, HandlerOwners(s.handler))
    && StopMarkerLast(s.inbox, s.worker)
    && Feed(s.inbox, s.worker)
    && PointSane(LifeAt(s.life), s.beats.all, s.inbox.workerSet)
    && PointSane(HandlerAt(s.handler), s.beats.all, s.inbox.workerSet)
    && NoSelfJoin(s.handler)
    && NotYetConnected(s)
    && (s.handler != NoHandler ==> s.link.failure.Some?)
  }

  lemma ResumeWorkerTasks(s: State)
    requires TasksPlus(s, ByWorker)
    ensures Tasks(Resume(s, ByWorker))
  {
  }

  lemma ResumeKeepaliveTasks(s: State, k: nat)
    requires TasksPlus(s, ByKeepalive(k))
    ensures Tasks(Resume(s, ByKeepalive(k)))
  {
  }

  lemma ResumeControlTasks(s: State, c: nat)
    requires TasksPlus(s, ByControl(c))
    ensures Tasks(Resume(s, ByControl(c)))
  {
  }

  lemma ResumeTasks(s: State, owner: Owner)
    requires TasksPlus(s, owner)
    ensures Tasks(Resume(s, owner))
  {
    match owner
    case ByWorker => ResumeWorkerTasks(s);
    case ByKeepalive(k) => ResumeKeepaliveTasks(s, k);
    case ByControl(c) => ResumeControlTasks(s, c);
    case Inline =>
  }

  lemma SuspendTasks(s: State, t: Tearer, at: TearPoint)
    requires TasksBut(s, t) && RefDropped(s, t) && PointSane(Some(at), s.beats.all, s.inbox.workerSet)
    requires at == JoinWorker && t.THandler? ==> t.owner != ByWorker
    ensures Tasks(SuspendTear(s, t, at))
  {
  }

  lemma FinishTasks(s: State, t: Tearer)
    requires TasksBut(s, t) && RefDropped(s, t)
    ensures Tasks(FinishTeardown(s, t))
  {
    var s1 := CloseSession(s);
    if t.THandler? && !s.cfg.lostCallback {
      ResumeTasks(s1.(handler := NoHandler), t.owner);
    }
  }

  lemma StopWorkerTasks(s: State, t: Tearer)
    requires TasksBut(s, t) && RefDropped(s, t)
    ensures Tasks(StopWorker(s, t))
  {
    if !s.inbox.workerSet {
      FinishTasks(s, t);
    } else {
      var s1 := s.(inbox := Stopping(s.inbox));
      assert TasksBut(s1, t);
      if t.THandler? && t.owner == ByWorker {
        FinishTasks(s1, t);
      } else {
        SuspendTasks(s1, t, JoinWorker);
      }
    }
  }

  lemma CleanupTasks(s: State, t: Tearer)
    requires TasksBut(s, t) && RefDropped(s, t)
    ensures Tasks(CleanupTransport(s, t))
  {
    if s.link.cleanupDone {
      StopWorkerTasks(s, t);
    } else {
      SuspendTasks(s.(link := s.link.(cleanupDone := true), loss := s.loss.(stops := s.loss.stops + 1)),
                   t, Unsubscribing);
    }
  }

  lemma BeginTasks(s: State, t: Tearer)
    requires TasksBut(s, t)
    ensures Tasks(BeginTeardown(s, t))
  {
    match s.beats.task
    case None => CleanupTasks(s, t);
    case Some(k) =>
      if t.THandler? && t.owner == ByKeepalive(k) {
        CleanupTasks(s.(beats := s.beats.(task := None)), t);
      } else {
        SuspendTasks(s.(beats := Cancelled(s.beats, k)), t, JoinKeepalive(k));
      }
  }

  lemma ContinueTasks(s: State, t: Tearer, at: TearPoint)
    requires TasksBut(s, t) && RefDropped(s, t)
    ensures Tasks(ContinueTeardown(s, t, at))
  {
    match at
    case JoinKeepalive(_) => CleanupTasks(s, t);
    case Unsubscribing =>
      SuspendTasks(s.(loss := s.loss.(disconnects := s.loss.disconnects + 1)), t, Disconnecting);
    case Disconnecting => StopWorkerTasks(s, t);
    case JoinWorker => FinishTasks(s, t);
  }

  lemma FailureTasks(s: State, error: Error, owner: Owner)
    requires TasksPlus(s, owner)
    ensures Tasks(HandleFailure(s, error, owner))
  {
    if s.link.failure.Some? || s.link.status == Disconnected {
      ResumeTasks(s, owner);
    } else if s.link.closing {
      ResumeTasks(RecordFailure(s, error), owner);
    } else {
      assert {} + {owner} == {owner};
      BeginTasks(RecordFailure(s, error), THandler(owner, error));
    }
  }

  // ---- The steps of the tasks -------------------------------------------

  /** An absorbed message changes the queues, the state and the status, nothing else. */
  predicate Absorbs(s: State, r: State) {
    && r.cfg == s.cfg && r.era == s.era && r.loss == s.loss && r.inbox == s.inbox && r.outbox == s.outbox
    && r.beats == s.beats && r.controls == s.controls && r.lock == s.lock
    && r.life == s.life && r.handler == s.handler && r.worker == s.worker
    && r.link == s.link.(status := r.link.status)
    && (r.link.status == s.link.status || (s.link.status == ProtocolReady && r.link.status == Ready))
    && r.data == s.data.(state := r.data.state, lastError := r.data.lastError)
    && r.mail == s.mail.(heap := r.mail.heap) && |r.mail.heap| == |s.mail.heap|
    && r.stream == s.stream.(put := r.stream.put)
  }

  lemma ReportFrame(s: State, m: Message)
    requires m.kind == Report
    ensures Absorbs(s, ApplyMessage(s, m)) && ApplyMessage(s, m).link == s.link
  {
  }

  lemma ApplyFrame(s: State, m: Message)
    ensures Absorbs(s, ApplyMessage(s, m)) && ApplyMessage(s, m).link == s.link
  {
    if m.kind == Report {
      ReportFrame(s, m);
    }
  }

  lemma AbsorbFrame(s: State, m: Message)
    ensures Absorbs(s, Absorb(s, m))
  {
    ApplyFrame(s, m);
  }

  lemma AbsorbTasks(s: State, m: Message)
    requires Tasks(s)
    ensures Tasks(Absorb(s, m))
  {
    AbsorbFrame(s, m);
  }

  lemma ProcessTasks(s: State, p: Payload, f: nat)
    requires Tasks(s.(worker := InCallback(f)))
    ensures Tasks(WorkerProcess(s, p, f))
  {
    match PayloadError(s, p)
    case Some(error) => FailureTasks(s.(worker := InHandler(f)), error, ByWorker);
    case None => AbsorbFrame(s, p.message);
  }

  lemma PopTasks(s: State)
    requires Tasks(s) && s.worker == Getting && s.inbox.notices != []
    ensures var s1 := s.(inbox := Popped(s.inbox));
            match s.inbox.notices[0]
            case Stop => Tasks(s1.(worker := Stopped))
            case Notice(_, f) => Tasks(s1.(worker := InCallback(f)))
  {
  }

  lemma TakeTasks(s: State)
    requires Tasks(s) && s.worker == Getting && s.inbox.notices != []
    ensures Tasks(WorkerTake(s))
  {
    PopTasks(s);
    match s.inbox.notices[0]
    case Stop =>
    case Notice(p, f) => ProcessTasks(s.(inbox := Popped(s.inbox)), p, f);
  }

  lemma DeliverTasks(s: State, p: Payload)
    requires Tasks(s)
    ensures Tasks(Deliver(s, p))
  {
    if !s.inbox.workerSet {
      match PayloadError(s, p)
      case Some(error) => FailureTasks(s, error, Inline);
      case None => AbsorbTasks(s, p.message);
    }
  }

  lemma AbortTasks(s: State)
    requires Tasks(s)
    ensures Tasks(AbortConnect(s))
  {
    BeginTasks(s, TLife(ConnectFailed));
  }

  lemma FinishConnectTasks(s: State)
    requires Tasks(s) && s.life.Awaiting?
    ensures Tasks(FinishConnect(s))
  {
  }

  lemma AcceptTasks(s: State, m: Message)
    requires Tasks(s) && s.life.Awaiting?
    ensures Tasks(AcceptHandshake(s, m))
  {
    match m.kind
    case Blespp => if BadIdentity(s, m) { AbortTasks(s); }
    case GetInfoRsp =>
    case _ => FinishConnectTasks(s);
  }

  lemma JudgeTasks(s: State, item: Item, want: Method, position: nat)
    requires Tasks(s) && s.life.Awaiting?
    ensures Tasks(HandshakeJudge(s, item, want, position))
  {
    match item
    case Closed(_) => AbortTasks(s);
    case Msg(m) =>
      if m.kind == want {
        AcceptTasks(s.(stream := s.stream.(accepted := s.stream.accepted + [position])), m);
      } else if s.link.failure.Some? {
        AbortTasks(s);
      }
  }

  lemma HandshakeTasks(s: State, want: Method, q: nat)
    requires Tasks(s) && s.life.Awaiting? && Queue(s.mail, q) != []
    ensures Tasks(HandshakeTake(s, want, q))
  {
    JudgeTasks(s.(mail := TakeFrom(s.mail, q), stream := Taken(s.stream, s.link.failure.Some?)),
               s.mail.heap[q][0], want, s.stream.taken);
  }

  lemma WaitTasks(s: State, want: Method)
    requires Tasks(s) && ConnectSuspended(s.life) && s.life != Connecting
    ensures Tasks(BeginWait(s, want))
  {
    AbortTasks(s);
  }

  lemma RequestTasks(s: State, kind: Kind, next: Lifecycle)
    requires Tasks(s) && ConnectSuspended(s.life) && ConnectSuspended(next) && next != Connecting
    ensures Tasks(SendOrAbort(s, kind, next))
  {
    AbortTasks(s);
  }

  lemma ConnectTasks(s: State)
    requires Tasks(s) && ConnectSuspended(s.life)
    ensures Tasks(ConnectGoesOn(s))
  {
    match s.life
    case Subscribing => WaitTasks(s, Blespp);
    case SppDelay => RequestTasks(s, GetInfo, WritingInfo);
    case WritingInfo => WaitTasks(s, GetInfoRsp);
    case ReadDelay => RequestTasks(s, InitialRead, WritingRead);
    case WritingRead => WaitTasks(s, Report);
    case _ =>
  }

  lemma KeepaliveAcquireTasks(s: State, k: nat)
    requires Tasks(s) && KeepaliveRuns(s, k, WantsLock) && s.lock == Free
    ensures Tasks(KeepaliveAcquire(s, k))
  {
    if s.data.deviceId.None? {
      FailureTasks(SetKeepalive(s, k, KeepalivePc.Failing), NoIdentity, ByKeepalive(k));
    }
  }

  lemma KeepaliveLostTasks(s: State, k: nat, error: Error)
    requires Tasks(s) && KeepaliveRuns(s, k, Writing)
    ensures Tasks(KeepaliveWriteFails(s, k, error))
  {
    FailureTasks(SetKeepalive(s.(lock := Free), k, KeepalivePc.Failing), error, ByKeepalive(k));
  }

  lemma EndControlTasks(s: State, c: nat, outcome: Outcome)
    requires Tasks(s) && c in s.controls && !s.controls[c].pc.FailingWrite?
    ensures Tasks(EndControl(s, c, outcome))
  {
  }

  lemma ControlLocksTasks(s: State, c: nat)
    requires Tasks(s) && c in s.controls && s.controls[c].pc == WaitingLock && s.lock == Free
    ensures Tasks(ControlAcquire(s, c))
  {
    EndControlTasks(s, c, ConnectionFailed);
    EndControlTasks(s, c, Unidentified);
  }

  lemma ControlWroteTasks(s: State, c: nat)
    requires Tasks(s) && c in s.controls && s.controls[c].pc.Sending?
    ensures Tasks(ControlAwaitAck(s, c))
  {
    EndControlTasks(s, c, ConnectionFailed);
  }

  lemma ControlLostTasks(s: State, c: nat, error: Error)
    requires Tasks(s) && c in s.controls && s.controls[c].pc.Sending?
    ensures Tasks(ControlWriteFails(s, c, error))
  {
    FailureTasks(SetControl(s, c, FailingWrite(IdOf(s.controls[c].pc))), error, ByControl(c));
  }

  lemma ControlGetTasks(s: State, c: nat)
    requires Tasks(s) && c in s.controls && s.controls[c].pc.AwaitingAck? && Queue(s.mail, s.controls[c].pc.queue) != []
    ensures Tasks(ControlTake(s, c))
  {
    var ctl := s.controls[c];
    var s1 := s.(mail := TakeFrom(s.mail, ctl.pc.queue),
                 controls := s.controls[c := ctl.(seen := ctl.seen + [s.mail.heap[ctl.pc.queue][0]])]);
    assert Tasks(s1);
    forall o: Outcome { EndControlTasks(s1, c, o); }
  }

  lemma LifeTasks(s: State, e: LifeEvent)
    requires Tasks(s) && LifeEnabled(s, e)
    ensures Tasks(LifeStep(s, e))
  {
    match e
    case Connect =>
    case Proceed => ConnectTasks(s);
    case CallFails => AbortTasks(s);
    case Get => HandshakeTasks(s, s.life.want, s.life.queue);
    case Timeout => AbortTasks(s);
    case Disconnect => BeginTasks(s.(link := s.link.(closing := true)), TLife(UserDisconnect));
    case TearStep => ContinueTasks(s, TLife(s.life.reason), s.life.at);
  }

  lemma HandlerTasks(s: State, e: HandlerEvent)
    requires Tasks(s) && HandlerEnabled(s, e)
    ensures Tasks(HandlerStep(s, e))
  {
    match e
    case HandlerTearStep => ContinueTasks(s, THandler(s.handler.owner, s.handler.error), s.handler.at);
    case LossCallbackReturns => ResumeTasks(s.(handler := NoHandler), s.handler.owner);
  }

  lemma NoticeTasks(s: State, e: NoticeEvent)
    requires Tasks(s) && NoticeEnabled(s, e)
    ensures Tasks(NoticeStep(s, e))
  {
    match e
    case Notify(p) => DeliverTasks(s, p);
    case WorkerGet => TakeTasks(s);
    case UpdateCallbackReturns =>
  }

  lemma BeatTasks(s: State, k: nat, e: BeatEvent)
    requires Tasks(s) && BeatEnabled(s, k, e)
    ensures Tasks(BeatStep(s, k, e))
  {
    match e
    case Wakes =>
    case Locks => KeepaliveAcquireTasks(s, k);
    case Wrote =>
    case Lost(error) => KeepaliveLostTasks(s, k, error);
    case CancelledEnds =>
  }

  lemma CallTasks(s: State, c: nat, e: CallEvent)
    requires Tasks(s) && CallEnabled(s, c, e)
    ensures Tasks(CallStep(s, c, e))
  {
    match e
    case Called(property, value) =>
    case CallLocks => ControlLocksTasks(s, c);
    case CallWrote => ControlWroteTasks(s, c);
    case CallLost(error) => ControlLostTasks(s, c, error);
    case AckGet => ControlGetTasks(s, c);
    case AckTimeout => EndControlTasks(s, c, TimedOut);
  }

  lemma TasksStep(s: State, e: Event)
    requires Tasks(s) && Enabled(s, e)
    ensures Tasks(Apply(s, e))
  {
    match e
    case OfLife(l) => LifeTasks(s, l);
    case OfHandler(h) => HandlerTasks(s, h);
    case OfNotices(n) => NoticeTasks(s, n);
    case OfKeepalive(k, b) => BeatTasks(s, k, b);
    case OfControl(c, x) => CallTasks(s, c, x);
  }
}
