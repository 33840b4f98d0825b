/** Every step of every task keeps the whole invariant. */
module Invariant {
  import opened Wrappers
  import opened Session
  import opened Reports
  import opened TaskInvariant
  import opened TeardownEffect
  import opened LinkInvariant
  import opened QueueInvariant
  import opened StreamInvariant
  import opened IdentityInvariant
  import opened WireInvariant
  import opened AckInvariant

  /** The invariant on the shared fields. */
  ghost predicate Shared(s: State) {
    && CleanedOnce(s)
    && Linked(s)
    && Queues(s)
    && Streamed(s)
    && Identified(s)
    && Wired(s)
    && Numbered(s.outbox)
    && Acked(s.controls)
  }

  ghost predicate Inv(s: State) {
    Tasks(s) && Shared(s)
  }

  /** The shared invariant without what it says of the lifecycle holder's point. */
  ghost predicate Core(s: State) {
    && LinkCore(s)
    && QueuesCore(s)
    && s.stream.lateTakes <= 1 && (s.link.failure.None? ==> s.stream.lateTakes == 0)
    && StreamCore(s.stream, s.beats.all, s.era.session)
    && (s.link.failure.None? ==> AllMessages(s.stream.put))
    && OneIdentity(s.cfg.target, s.data)
    && WiredCore(s)
    && Numbered(s.outbox)
    && Acked(s.controls)
  }

  // ---- Teardown and failure ---------------------------------------------

  lemma TearShared(s: State, t: Tearer, r: State)
    requires Core(s) && MayTear(s, t) && TearEffect(s, t, r) && CleanedOnce(r)
    requires (t.THandler? ==> Shared(s)) && (t != TLife(ConnectFailed) ==> Identified(s))
    requires t == TLife(UserDisconnect) ==> !Unacknowledged(s.life)
    ensures Shared(r)
  {
    TearLink(s, t, r);
    TearQueues(s, t, r);
    TearStream(s, t, r);
    TearIdentity(s, t, r);
    TearWire(s, t, r);
    assert Acked(r.controls) by {
      CallsEndAcked(s.controls, r.controls);
    }
  }

  lemma TasksShared(s: State, r: State)
    requires Shared(s) && OnlyTasks(s, r)
    ensures Shared(r)
  {
    CallsEndAcked(s.controls, r.controls);
  }

  lemma FailureRest(s: State, error: Error, owner: Owner, r: State)
    requires Shared(s) && FailureEffect(s, error, owner, r)
    ensures Numbered(r.outbox) && Acked(r.controls)
  {
    CallsEndAcked(s.controls, r.controls);
  }

  lemma FailureShared(s: State, error: Error, owner: Owner)
    requires Shared(s) && OwnerFails(s, owner)
    ensures Shared(HandleFailure(s, error, owner))
  {
    var r := HandleFailure(s, error, owner);
    HandleEffect(s, error, owner);
    HandleCleaned(s, error, owner);
    FailureLink(s, error, owner, r);
    FailureQueues(s, error, owner, r);
    FailureStream(s, error, owner, r);
    FailureIdentity(s, error, owner, r);
    FailureWire(s, error, owner, r);
    FailureRest(s, error, owner, r);
  }

  lemma AbortShared(s: State)
    requires Core(s) && CleanedOnce(s) && LifeAt(s.life) == None && !s.link.closing
    ensures Shared(AbortConnect(s))
  {
    BeginEffect(s, TLife(ConnectFailed));
    BeginCleaned(s, TLife(ConnectFailed));
    TearShared(s, TLife(ConnectFailed), AbortConnect(s));
  }

  lemma DisconnectShared(s: State)
    requires Shared(s) && s.life == Idle
    ensures Shared(BeginTeardown(s.(link := s.link.(closing := true)), TLife(UserDisconnect)))
  {
    var s1 := s.(link := s.link.(closing := true));
    BeginEffect(s1, TLife(UserDisconnect));
    BeginCleaned(s1, TLife(UserDisconnect));
    TearShared(s1, TLife(UserDisconnect), BeginTeardown(s1, TLife(UserDisconnect)));
  }

  lemma LifeTearShared(s: State)
    requires Shared(s) && s.life.LifeTearing?
    ensures Shared(ContinueTeardown(s, TLife(s.life.reason), s.life.at))
  {
    var t := TLife(s.life.reason);
    ContinueEffect(s, t, s.life.at);
    ContinueCleaned(s, t, s.life.at);
    TearShared(s, t, ContinueTeardown(s, t, s.life.at));
  }

  lemma HandlerTearShared(s: State)
    requires Inv(s) && s.handler.HandlerTearing?
    ensures Shared(ContinueTeardown(s, THandler(s.handler.owner, s.handler.error), s.handler.at))
  {
    var t := THandler(s.handler.owner, s.handler.error);
    assert OwnerFails(s, s.handler.owner);
    ContinueEffect(s, t, s.handler.at);
    ContinueCleaned(s, t, s.handler.at);
    TearShared(s, t, ContinueTeardown(s, t, s.handler.at));
  }

  lemma LossReturnsShared(s: State)
    requires Inv(s) && s.handler.NotifyingLoss?
    ensures Shared(Resume(s.(handler := NoHandler), s.handler.owner))
  {
    var s1 := s.(handler := NoHandler);
    assert OwnerFails(s1, s.handler.owner);
    ResumeEffect(s1, s.handler.owner);
    TasksShared(s1, Resume(s1, s.handler.owner));
  }

  // ---- Notifications ----------------------------------------------------

  lemma AbsorbShared(s: State, m: Message)
    requires Shared(s) && (m.kind == Blespp || !ForeignIdentity(s, m))
    ensures Shared(Absorb(s, m))
  {
    AbsorbLink(s, m);
    AbsorbQueues(s, m);
    AbsorbStream(s, m);
    AbsorbIdentity(s, m);
    AbsorbWire(s, m);
    AbsorbFrame(s, m);
  }

  lemma ProcessShared(s: State, p: Payload, f: nat)
    requires Shared(s)
    ensures Shared(WorkerProcess(s, p, f))
  {
    match PayloadError(s, p)
    case Some(error) => FailureShared(s.(worker := InHandler(f)), error, ByWorker);
    case None =>
      AbsorbShared(s, p.message);
      var r := Absorb(s, p.message);
      TasksShared(r, r.(worker := InCallback(f)));
      TasksShared(r, Complete(r, f));
  }

  lemma DeliverShared(s: State, p: Payload)
    requires Shared(s)
    ensures Shared(Deliver(s, p))
  {
    if s.inbox.workerSet {
      TasksShared(s, s.(inbox := Queued(s.inbox, p)));
    } else {
      match PayloadError(s, p)
      case Some(error) => FailureShared(s, error, Inline);
      case None => AbsorbShared(s, p.message);
    }
  }

  // ---- connect() --------------------------------------------------------

  lemma OpenShared(s: State)
    requires Inv(s) && s.life == Idle && s.link.status == Disconnected && s.handler == NoHandler
    ensures Shared(OpenSession(s))
  {
  }

  lemma StartShared(s: State)
    requires Shared(s) && s.life == Connecting
    ensures Shared(StartWorker(s))
  {
  }

  lemma WaitShared(s: State, want: Method)
    requires Shared(s) && Handshaking(s.life) && s.life != Connecting
    requires Accepted(s.life) == Accepted(Awaiting(want, s.mail.reports)) && Wanted(Accepted(s.life)) == want
    requires s.life == (match want case Blespp => Subscribing case GetInfoRsp => WritingInfo case _ => WritingRead)
    ensures Shared(BeginWait(s, want))
  {
    if s.link.failure.Some? {
      AbortShared(s);
    }
  }

  lemma RequestWired(s: State, kind: Kind, next: Lifecycle)
    requires Wired(s) && OneIdentity(s.cfg.target, s.data) && s.data.deviceId.Some?
    requires (s.life == SppDelay && kind == GetInfo && next == WritingInfo)
             || (s.life == ReadDelay && kind == InitialRead && next == WritingRead)
    ensures Wired(Send(s, kind, Extra(kind), s.era.session).(life := next))
  {
    SendWire(s, kind, Extra(kind), s.era.session);
  }

  lemma RequestShared(s: State, kind: Kind, next: Lifecycle)
    requires Shared(s)
    requires (s.life == SppDelay && kind == GetInfo && next == WritingInfo)
             || (s.life == ReadDelay && kind == InitialRead && next == WritingRead)
    ensures Shared(SendOrAbort(s, kind, next))
  {
    if s.data.deviceId.None? {
      AbortShared(s);
    } else {
      SendNumbered(s, kind, Extra(kind), s.era.session);
      RequestWired(s, kind, next);
    }
  }

  lemma ProceedShared(s: State)
    requires Shared(s) && ConnectSuspended(s.life)
    ensures Shared(ConnectGoesOn(s))
  {
    match s.life
    case Connecting => StartShared(s);
    case Subscribing => WaitShared(s, Blespp);
    case WritingOk =>
    case SppDelay => RequestShared(s, GetInfo, WritingInfo);
    case WritingInfo => WaitShared(s, GetInfoRsp);
    case ReadDelay => RequestShared(s, InitialRead, WritingRead);
    case WritingRead => WaitShared(s, Report);
    case _ =>
  }

  /** The handshake took `item` and has not judged it yet. */
  ghost predicate TookOne(s: State) {
    Core(s) && CleanedOnce(s) && s.life.Awaiting? && !s.link.closing
  }

  lemma TakeShared(s: State)
    requires Shared(s) && s.life.Awaiting? && Queue(s.mail, s.life.queue) != []
    ensures TookOne(s.(mail := TakeFrom(s.mail, s.life.queue), stream := Taken(s.stream, s.link.failure.Some?)))
    ensures s.mail.heap[s.life.queue][0] == s.stream.put[s.stream.taken]
    ensures s.stream.taken < |s.stream.put|
  {
    TakeStream(s, s.stream.put[s.stream.taken], s.link.failure.Some?);
  }

  /** The handshake took the message it waits for. */
  ghost predicate Matched(s: State) {
    && TookOne(s) && Stage(s) && Identified(s)
    && |s.stream.accepted| == Accepted(s.life) + 1 && From(s.stream.accepted) == s.stream.taken
    && PhaseOfLife(s.life, Scan(s.outbox.wire, s.era.session))
  }

  lemma HelloWired(s: State, m: Message)
    requires Matched(s) && s.life.want == Blespp && !BadIdentity(s, m)
    ensures Wired(SendOk(EstablishIdentity(s, m.deviceId.s)).(life := WritingOk))
  {
    var x := Sent(BlesppOk, BLESPP_OK_MESSAGE_ID, NoContent, None, s.era.session, s.link.failure.Some?);
    ScanAppend(s.outbox.wire, x, s.era.session);
  }

  lemma HelloShared(s: State, m: Message)
    requires Matched(s) && s.life.want == Blespp && !BadIdentity(s, m)
    ensures Shared(SendOk(EstablishIdentity(s, m.deviceId.s)).(life := WritingOk))
  {
    HelloWired(s, m);
    EstablishKeeps(s, m);
  }

  lemma InfoShared(s: State)
    requires Matched(s) && s.life.want == GetInfoRsp
    ensures Shared(s.(link := s.link.(status := ProtocolReady), life := ReadDelay))
  {
  }

  lemma ReportShared(s: State)
    requires Matched(s) && s.life.want == Report
    ensures Shared(FinishConnect(s))
  {
  }

  lemma AcceptShared(s: State, m: Message)
    requires Matched(s) && m.kind == s.life.want
    ensures Shared(AcceptHandshake(s, m))
  {
    match m.kind
    case Blespp => if BadIdentity(s, m) { AbortShared(s); } else { HelloShared(s, m); }
    case GetInfoRsp => InfoShared(s);
    case _ => ReportShared(s);
  }

  lemma JudgeShared(s: State, item: Item, position: nat)
    requires TookOne(s)
    requires Matches(item, s.life.want) ==> Matched(s.(stream := s.stream.(accepted := s.stream.accepted + [position])))
    requires item.Msg? && item.message.kind != s.life.want && s.link.failure.None? ==> Shared(s)
    ensures Shared(HandshakeJudge(s, item, s.life.want, position))
  {
    match item
    case Closed(_) => AbortShared(s);
    case Msg(m) =>
      if m.kind == s.life.want {
        AcceptShared(s.(stream := s.stream.(accepted := s.stream.accepted + [position])), m);
      } else if s.link.failure.Some? {
        AbortShared(s);
      }
  }

  lemma TakeJudged(s: State)
    requires Shared(s) && s.life.Awaiting? && Queue(s.mail, s.life.queue) != []
    ensures var s1 := s.(mail := TakeFrom(s.mail, s.life.queue), stream := Taken(s.stream, s.link.failure.Some?));
            var item := s.mail.heap[s.life.queue][0];
            && (Matches(item, s.life.want) ==>
                  Matched(s1.(stream := s1.stream.(accepted := s1.stream.accepted + [s.stream.taken]))))
            && (item.Msg? && item.message.kind != s.life.want && s.link.failure.None? ==> Shared(s1))
  {
    TakeShared(s);
    TakeStream(s, s.mail.heap[s.life.queue][0], s.link.failure.Some?);
  }

  lemma GetShared(s: State)
    requires Shared(s) && s.life.Awaiting? && Queue(s.mail, s.life.queue) != []
    ensures Shared(HandshakeTake(s, s.life.want, s.life.queue))
  {
    TakeShared(s);
    TakeJudged(s);
    JudgeShared(s.(mail := TakeFrom(s.mail, s.life.queue), stream := Taken(s.stream, s.link.failure.Some?)),
                s.mail.heap[s.life.queue][0], s.stream.taken);
  }

  lemma LifeShared(s: State, e: LifeEvent)
    requires Inv(s) && LifeEnabled(s, e)
    ensures Shared(LifeStep(s, e))
  {
    match e
    case Connect => if s.link.status == Disconnected { OpenShared(s); }
    case Proceed => ProceedShared(s);
    case CallFails => AbortShared(s);
    case Get => GetShared(s);
    case Timeout => AbortShared(s);
    case Disconnect => DisconnectShared(s);
    case TearStep => LifeTearShared(s);
  }

  lemma HandlerShared(s: State, e: HandlerEvent)
    requires Inv(s) && HandlerEnabled(s, e)
    ensures Shared(HandlerStep(s, e))
  {
    match e
    case HandlerTearStep => HandlerTearShared(s);
    case LossCallbackReturns => LossReturnsShared(s);
  }

  lemma NoticeShared(s: State, e: NoticeEvent)
    requires Inv(s) && NoticeEnabled(s, e)
    ensures Shared(NoticeStep(s, e))
  {
    match e
    case Notify(p) => DeliverShared(s, p);
    case WorkerGet =>
      var s1 := s.(inbox := Popped(s.inbox));
      TasksShared(s, s1);
      match s.inbox.notices[0] {
        case Stop => TasksShared(s1, s1.(worker := Stopped));
        case Notice(p, f) => ProcessShared(s1, p, f);
      }
    case UpdateCallbackReturns => TasksShared(s, Complete(s, s.worker.future));
  }

  // ---- Keepalives and control calls -------------------------------------

  lemma KeepaliveSendShared(s: State, k: nat)
    requires Inv(s) && KeepaliveRuns(s, k, WantsLock) && s.data.deviceId.Some?
    ensures Shared(KeepaliveAcquire(s, k))
  {
    SendWire(s, KeepaliveRead, GetAll, k);
    SendNumbered(s, KeepaliveRead, GetAll, k);
  }

  lemma BeatShared(s: State, k: nat, e: BeatEvent)
    requires Inv(s) && BeatEnabled(s, k, e)
    ensures Shared(BeatStep(s, k, e))
  {
    match e
    case Wakes => TasksShared(s, SetKeepalive(s, k, WantsLock));
    case Locks =>
      if s.data.deviceId.Some? {
        KeepaliveSendShared(s, k);
      } else {
        TasksShared(s, SetKeepalive(s, k, KeepalivePc.Failing));
        FailureShared(SetKeepalive(s, k, KeepalivePc.Failing), NoIdentity, ByKeepalive(k));
      }
    case Wrote => TasksShared(s, SetKeepalive(s, k, Sleeping).(lock := Free));
    case Lost(error) =>
      var s1 := SetKeepalive(s.(lock := Free), k, KeepalivePc.Failing);
      TasksShared(s, s1);
      FailureShared(s1, error, ByKeepalive(k));
    case CancelledEnds => TasksShared(s, KeepaliveCancel(s, k));
  }

  lemma EndShared(s: State, c: nat, outcome: Outcome)
    requires Shared(s) && c in s.controls && !s.controls[c].pc.Done?
    requires outcome != Succeeded && outcome != CommandRejected
    ensures Shared(EndControl(s, c, outcome))
  {
    EndAcked(s, c, outcome);
  }

  /** The parts of the shared invariant that do not look at the calls, the wire or the ids. */
  ghost predicate Quieter(s: State) {
    CleanedOnce(s) && Linked(s) && StreamHeld(s.mail, s.stream) && HandshakeWait(s) && Streamed(s) && Identified(s)
  }

  lemma CallSendsQuiet(s: State, c: nat, r: State)
    requires Quieter(s) && r == s.(outbox := r.outbox, controls := r.controls, lock := r.lock)
    ensures Quieter(r)
  {
  }

  lemma CallSendsWired(s: State, c: nat)
    requires Wired(s) && OneIdentity(s.cfg.target, s.data) && s.data.deviceId.Some? && s.link.failure.None?
    requires c in s.controls && s.controls[c].pc == WaitingLock
    ensures Wired(ControlAcquire(s, c))
  {
    SendWire(s, Write, Setting(s.controls[c].property, s.controls[c].value), s.controls[c].began);
  }

  lemma CallSendsShared(s: State, c: nat)
    requires Shared(s) && c in s.controls && s.controls[c].pc == WaitingLock
    requires s.link.failure.None? && s.data.deviceId.Some?
    ensures Shared(ControlAcquire(s, c))
  {
    CallSendsWired(s, c);
    SendNumbered(s, Write, Setting(s.controls[c].property, s.controls[c].value), s.controls[c].began);
    CallSendsQuiet(s, c, ControlAcquire(s, c));
  }

  lemma CallLocksShared(s: State, c: nat)
    requires Shared(s) && c in s.controls && s.controls[c].pc == WaitingLock
    ensures Shared(ControlAcquire(s, c))
  {
    if s.link.failure.Some? {
      EndShared(s, c, ConnectionFailed);
    } else if s.data.deviceId.None? {
      EndShared(s, c, Unidentified);
    } else {
      CallSendsShared(s, c);
    }
  }

  lemma CallWroteShared(s: State, c: nat)
    requires Shared(s) && CallSends(s, c)
    ensures Shared(ControlAwaitAck(s, c))
  {
    if s.link.failure.Some? {
      EndShared(s, c, ConnectionFailed);
    } else {
      CallSendsQuiet(s, c, ControlAwaitAck(s, c));
    }
  }

  lemma CallLostShared(s: State, c: nat, error: Error)
    requires Shared(s) && CallSends(s, c)
    ensures Shared(ControlWriteFails(s, c, error))
  {
    var s1 := SetControl(s, c, FailingWrite(IdOf(s.controls[c].pc)));
    assert Shared(s1);
    FailureShared(s1, error, ByControl(c));
  }

  lemma TakeFrame(s: State, c: nat)
    requires CallAwaits(s, c) && Queue(s.mail, s.controls[c].pc.queue) != []
    ensures var r := ControlTake(s, c);
            && r.cfg == s.cfg && r.era == s.era && r.link == s.link && r.loss == s.loss && r.data == s.data
            && r.stream == s.stream && r.outbox == s.outbox && r.beats == s.beats
            && r.life == s.life && r.handler == s.handler
            && r.mail == s.mail.(heap := r.mail.heap)
            && r.controls.Keys == s.controls.Keys
            && (forall x | x in s.controls && x != c :: r.controls[x] == s.controls[x])
            && r.controls[c].began == s.controls[c].began && r.controls[c].property == s.controls[c].property
            && (r.controls[c].pc == s.controls[c].pc || r.controls[c].pc.Done?)
  {
  }

  lemma AckGetShared(s: State, c: nat)
    requires Inv(s) && CallAwaits(s, c) && Queue(s.mail, s.controls[c].pc.queue) != []
    ensures Shared(ControlTake(s, c))
  {
    TakeAcked(s, c);
    TakeQueues(s, c);
    TakeFrame(s, c);
  }

  lemma CallShared(s: State, c: nat, e: CallEvent)
    requires Inv(s) && CallEnabled(s, c, e)
    ensures Shared(CallStep(s, c, e))
  {
    match e
    case Called(property, value) =>
    case CallLocks => CallLocksShared(s, c);
    case CallWrote => CallWroteShared(s, c);
    case CallLost(error) => CallLostShared(s, c, error);
    case AckGet => AckGetShared(s, c);
    case AckTimeout => EndShared(s, c, TimedOut);
  }

  // ---- Runs -------------------------------------------------------------

  lemma InitialInv(cfg: Config)
    ensures Inv(Initial(cfg))
  {
  }

  lemma InvStep(s: State, e: Event)
    requires Inv(s) && Enabled(s, e)
    ensures Inv(Apply(s, e))
  {
    TasksStep(s, e);
    match e
    case OfLife(l) => LifeShared(s, l);
    case OfHandler(h) => HandlerShared(s, h);
    case OfNotices(n) => NoticeShared(s, n);
    case OfKeepalive(k, b) => BeatShared(s, k, b);
    case OfControl(c, x) => CallShared(s, c, x);
  }

  lemma {:induction false} RunsKeepInv(s: State, events: seq<Event>)
    requires Inv(s)
    ensures Run(s, events).Some? ==> Inv(Run(s, events).value)
  {
    if events != [] && Run(s, events).Some? {
      RunsKeepInv(s, events[..|events| - 1]);
      InvStep(Run(s, events[..|events| - 1]).value, events[|events| - 1]);
    }
  }

  /** The invariant holds in every interleaving. */
  lemma ReachableInv(s: State)
    requires Reachable(s)
    ensures Inv(s)
  {
    var events: seq<Event> :| Run(Initial(s.cfg), events) == Some(s);
    InitialInv(s.cfg);
    RunsKeepInv(Initial(s.cfg), events);
  }
}
