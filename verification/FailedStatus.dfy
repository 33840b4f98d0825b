/**
  The status of a session that failed. It is DISCONNECTED, with one exception: a
  handshake that takes its getInfo-rsp after the failure raises it once more, up to
  READY. And what still changes the state once a session is over.
 */
module FailedStatus {
  import opened Wrappers
  import opened Json
  import opened Session
  import opened Reports
  import opened TaskInvariant
  import opened TeardownEffect
  import opened LinkInvariant
  import opened StreamInvariant
  import opened Invariant
  import opened SessionTheorems
  import opened Disturbance
  import opened LeakedKeepalive
  import opened ReadyTheorems
  import opened Drain

  // ---- A failed session that is DISCONNECTED ------------------------------

  /** The handshake takes its getInfo-rsp. */
  predicate TakesInfo(s: State, e: Event) {
    && e == OfLife(Get) && s.life.Awaiting? && s.life.want == GetInfoRsp
    && Queue(s.mail, s.life.queue) != [] && Matches(Queue(s.mail, s.life.queue)[0], GetInfoRsp)
  }

  lemma NoticeStaysDown(s: State, e: NoticeEvent)
    requires NoticeEnabled(s, e) && s.link.status == Disconnected
    ensures NoticeStep(s, e).link.status == Disconnected
  {
    match e
    case Notify(p) =>
      if !s.inbox.workerSet {
        match PayloadError(s, p) {
          case Some(error) => FailureLowers(s, error, Inline);
          case None => AbsorbFrame(s, p.message);
        }
      }
    case WorkerGet =>
      if s.inbox.notices[0].Notice? {
        var s1 := s.(inbox := Popped(s.inbox));
        var p, f := s.inbox.notices[0].payload, s.inbox.notices[0].future;
        match PayloadError(s1, p) {
          case Some(error) => FailureLowers(s1.(worker := InHandler(f)), error, ByWorker);
          case None => AbsorbFrame(s1, p.message);
        }
      }
    case UpdateCallbackReturns =>
  }

  lemma JudgeStaysDown(s: State, item: Item, want: Method, position: nat)
    requires s.link.status == Disconnected
    ensures HandshakeJudge(s, item, want, position).link.status != Disconnected <==>
              want == GetInfoRsp && Matches(item, want)
  {
    AbortLowers(s);
    AbortLowers(s.(stream := s.stream.(accepted := s.stream.accepted + [position])));
  }

  lemma GoesOnStaysDown(s: State)
    requires s.life != Connecting
    ensures Lowers(s, ConnectGoesOn(s))
  {
    AbortLowers(s);
  }

  lemma LifeStaysDown(s: State, e: LifeEvent)
    requires Inv(s) && LifeEnabled(s, e) && !Opens(s, OfLife(e))
    requires s.link.failure.Some? && s.link.status == Disconnected
    ensures LifeStep(s, e).link.status != Disconnected <==> TakesInfo(s, OfLife(e))
  {
    match e
    case Connect =>
    case Proceed => GoesOnStaysDown(s);
    case CallFails => AbortLowers(s);
    case Get =>
      JudgeStaysDown(s.(mail := TakeFrom(s.mail, s.life.queue), stream := Taken(s.stream, s.link.failure.Some?)),
                     s.mail.heap[s.life.queue][0], s.life.want, s.stream.taken);
    case Timeout => AbortLowers(s);
    case Disconnect => BeginEffect(s.(link := s.link.(closing := true)), TLife(UserDisconnect));
    case TearStep => ContinueEffect(s, TLife(s.life.reason), s.life.at);
  }

  lemma StepStaysDown(s: State, e: Event)
    requires Inv(s) && Enabled(s, e) && !Opens(s, e)
    requires s.link.failure.Some? && s.link.status == Disconnected
    ensures Apply(s, e).link.status != Disconnected <==> TakesInfo(s, e)
  {
    match e
    case OfLife(l) => LifeStaysDown(s, l);
    case OfHandler(h) => HandlerLowers(s, h);
    case OfNotices(n) => NoticeStaysDown(s, n);
    case OfKeepalive(k, b) => BeatLowers(s, k, b);
    case OfControl(c, x) => CallLowers(s, c, x);
  }

  /**
    A failed session that is DISCONNECTED leaves that status in a step if and only if
    its handshake takes its getInfo-rsp in this step.
   */
  lemma LeavesDisconnectedIff(s: State, e: Event)
    requires Reachable(s) && Enabled(s, e) && !Opens(s, e)
    requires s.link.failure.Some? && s.link.status == Disconnected
    ensures Apply(s, e).link.status != Disconnected <==> TakesInfo(s, e)
  {
    ReachableInv(s);
    StepStaysDown(s, e);
  }

  // ---- Where a failed session may not be DISCONNECTED ----------------------

  /** The handshake is between its getInfo-rsp and the abort that its next wait brings. */
  predicate Belated(life: Lifecycle) {
    life.ReadDelay? || life.WritingRead? || (life.LifeTearing? && life.reason == ConnectFailed)
  }

  predicate DownUnlessBelated(s: State) {
    s.link.failure.Some? && !Belated(s.life) ==> s.link.status == Disconnected
  }

  /** A failure that is recorded in this step disconnects. */
  predicate FailsDown(s: State, r: State) {
    s.link.failure.None? && r.link.failure.Some? ==> r.link.status == Disconnected
  }

  lemma FailureFailsDown(s: State, error: Error, owner: Owner)
    requires OwnerFails(s, owner)
    ensures FailsDown(s, HandleFailure(s, error, owner))
  {
    HandleEffect(s, error, owner);
  }

  lemma NoticeFailsDown(s: State, e: NoticeEvent)
    requires NoticeEnabled(s, e)
    ensures FailsDown(s, NoticeStep(s, e))
  {
    match e
    case Notify(p) =>
      if !s.inbox.workerSet {
        match PayloadError(s, p) {
          case Some(error) => FailureFailsDown(s, error, Inline);
          case None => AbsorbFrame(s, p.message);
        }
      }
    case WorkerGet =>
      if s.inbox.notices[0].Notice? {
        var s1 := s.(inbox := Popped(s.inbox));
        var p, f := s.inbox.notices[0].payload, s.inbox.notices[0].future;
        match PayloadError(s1, p) {
          case Some(error) => FailureFailsDown(s1.(worker := InHandler(f)), error, ByWorker);
          case None => AbsorbFrame(s1, p.message);
        }
      }
    case UpdateCallbackReturns =>
  }

  lemma BeatFailsDown(s: State, k: nat, e: BeatEvent)
    requires BeatEnabled(s, k, e)
    ensures FailsDown(s, BeatStep(s, k, e))
  {
    match e
    case Locks =>
      if s.data.deviceId.None? {
        FailureFailsDown(SetKeepalive(s, k, KeepalivePc.Failing), NoIdentity, ByKeepalive(k));
      }
    case Lost(error) =>
      FailureFailsDown(SetKeepalive(s.(lock := Free), k, KeepalivePc.Failing), error, ByKeepalive(k));
    case _ =>
  }

  lemma CallFailsDown(s: State, c: nat, e: CallEvent)
    requires CallEnabled(s, c, e)
    ensures FailsDown(s, CallStep(s, c, e))
  {
    match e
    case CallLost(error) =>
      FailureFailsDown(SetControl(s, c, FailingWrite(IdOf(s.controls[c].pc))), error, ByControl(c));
    case AckGet => TakeFrame(s, c);
    case _ =>
  }

  lemma AbortDown(s: State)
    ensures var r := AbortConnect(s); Belated(r.life) || r.link.status == Disconnected
    ensures AbortConnect(s).link.failure == s.link.failure
  {
    BeginEffect(s, TLife(ConnectFailed));
  }

  lemma JudgeDown(s: State, item: Item, position: nat)
    requires Linked(s) && s.life.Awaiting?
    ensures DownUnlessBelated(HandshakeJudge(s, item, s.life.want, position))
  {
    AbortDown(s);
    AbortDown(s.(stream := s.stream.(accepted := s.stream.accepted + [position])));
  }

  lemma GoesOnDown(s: State)
    requires Linked(s) && ConnectSuspended(s.life) && DownUnlessBelated(s)
    ensures DownUnlessBelated(ConnectGoesOn(s))
  {
    AbortDown(s);
  }

  lemma LifeDown(s: State, e: LifeEvent)
    requires Inv(s) && LifeEnabled(s, e) && DownUnlessBelated(s)
    ensures DownUnlessBelated(LifeStep(s, e))
  {
    match e
    case Connect =>
    case Proceed => GoesOnDown(s);
    case CallFails => AbortDown(s);
    case Get =>
      JudgeDown(s.(mail := TakeFrom(s.mail, s.life.queue), stream := Taken(s.stream, s.link.failure.Some?)),
                s.mail.heap[s.life.queue][0], s.stream.taken);
    case Timeout => AbortDown(s);
    case Disconnect => BeginEffect(s.(link := s.link.(closing := true)), TLife(UserDisconnect));
    case TearStep => ContinueEffect(s, TLife(s.life.reason), s.life.at);
  }

  lemma OthersDown(s: State, e: Event)
    requires Inv(s) && Enabled(s, e) && DownUnlessBelated(s) && !e.OfLife?
    ensures DownUnlessBelated(Apply(s, e))
  {
    StepWithin(s, e);
    if s.link.failure.Some? {
      if s.link.status == Disconnected {
        StepStaysDown(s, e);
      }
    } else {
      match e {
        case OfHandler(h) => HandlerWithin(s, h);
        case OfNotices(n) => NoticeFailsDown(s, n);
        case OfKeepalive(k, b) => BeatFailsDown(s, k, b);
        case OfControl(c, x) => CallFailsDown(s, c, x);
      }
    }
  }

  lemma StepDown(s: State, e: Event)
    requires Inv(s) && Enabled(s, e) && DownUnlessBelated(s)
    ensures DownUnlessBelated(Apply(s, e))
  {
    if e.OfLife? {
      LifeDown(s, e.life);
    } else {
      OthersDown(s, e);
    }
  }

  lemma {:induction false} RunDown(s: State, events: seq<Event>)
    requires Inv(s) && DownUnlessBelated(s) && Run(s, events).Some?
    ensures DownUnlessBelated(Run(s, events).value)
  {
    if events != [] {
      var n := |events| - 1;
      RunDown(s, events[..n]);
      RunsKeepInv(s, events[..n]);
      StepDown(Run(s, events[..n]).value, events[n]);
    }
  }

  /**
    A failed session is DISCONNECTED unless its own handshake is between its
    getInfo-rsp and the end of its abort; in particular no client that is idle,
    waiting or disconnecting is READY after a failure. A session that was torn down
    without a failure is DISCONNECTED as well.
   */
  lemma FailedIsDisconnected(s: State)
    requires Reachable(s)
    ensures s.link.failure.Some? && !s.life.ReadDelay? && !s.life.WritingRead?
            && !(s.life.LifeTearing? && s.life.reason == ConnectFailed) ==>
              s.link.status == Disconnected
    ensures s.link.failure.None? && s.era.over ==> s.link.status == Disconnected
  {
    ReachableInv(s);
    var events: seq<Event> :| Run(Initial(s.cfg), events) == Some(s);
    InitialInv(s.cfg);
    RunDown(Initial(s.cfg), events);
  }

  // ---- The exception ------------------------------------------------------

  lemma TakesInfoLate(x: State)
    requires WoundUp(x, INFO)
    ensures Enabled(x, OfLife(Get))
    ensures var y := Apply(x, OfLife(Get));
            && y.life == ReadDelay && y.link.status == ProtocolReady && y.link.failure.Some? && y.era == x.era
            && y.handler == NoHandler && y.worker == Stopped && y.inbox == x.inbox && y.cfg == x.cfg
            && y.data == x.data
  {
  }

  /** A torn-down session whose handshake took its getInfo-rsp all the same. */
  predicate Revived(y: State) {
    && y.link.failure.Some? && y.era.over && y.handler == NoHandler && y.worker == Stopped && y.life == ReadDelay
  }

  lemma InfoInline(x: State)
    requires Revived(x) && x.link.status == ProtocolReady && !x.inbox.workerSet
    ensures var y := Apply(x, OfNotices(Notify(Decoded(INFO)))); Revived(y) && y.link.status == Ready
  {
    AbsorbFrame(x, INFO);
    AbsorbRaises(x, INFO);
  }

  lemma ReviveFrom(o: State, events: seq<Event>, x: State) returns (es: seq<Event>, y: State)
    requires Leads(o, events, x) && WoundUp(x, INFO)
    ensures Leads(o, es, y) && Revived(y) && y.link.status == Ready
  {
    TakesInfoLate(x);
    Extend(o, events, x, OfLife(Get));
    var es1, x1 := events + [OfLife(Get)], Apply(x, OfLife(Get));
    InfoInline(x1);
    var info := OfNotices(Notify(Decoded(INFO)));
    Extend(o, es1, x1, info);
    es, y := es1 + [info], Apply(x1, info);
  }

  lemma FailBeforeInfo(o: State) returns (es: seq<Event>, y: State)
    requires JustOpened(o) && o.cfg == CONFIG && o.beats == Beats(None, map[])
    ensures Leads(o, es, y) && WoundUp(y, INFO)
  {
    es, y := Identify(o, [], o);
    es, y := AwaitInfo(o, es, y);
    es, y := Serve(o, es, y, INFO);
    es, y := FailLate(o, es, y, INFO);
    es, y := CloseLate(o, es, y, INFO);
  }

  /**
    A client that is READY although its session failed, its transport is disconnected
    and its teardown is over: the handshake was woken by the getInfo-rsp just before
    the failure, and one more message came before its next wait.
   */
  lemma FailedYetReady() returns (y: State)
    ensures Reachable(y) && Revived(y) && y.link.status == Ready
  {
    var o := Opened();
    var es, x := FailBeforeInfo(o);
    es, y := ReviveFrom(o, es, x);
    RunWithin(o, es);
    RunFrom(Initial(CONFIG), OfLife(Connect), es);
  }

  // ---- The state of a session that is over --------------------------------

  /** A teardown has reset the session and every task of it but control calls and keepalives is done. */
  predicate AllOver(s: State) {
    s.era.over && s.life == Idle && s.handler == NoHandler && s.worker == Stopped
  }

  lemma BeatKeepsState(s: State, k: nat, e: BeatEvent)
    requires BeatEnabled(s, k, e) && (s.link.failure.Some? || s.link.status == Disconnected)
    ensures BeatStep(s, k, e).data == s.data
  {
  }

  lemma CallKeepsState(s: State, c: nat, e: CallEvent)
    requires CallEnabled(s, c, e) && (s.link.failure.Some? || s.link.status == Disconnected)
    ensures CallStep(s, c, e).data == s.data
  {
    if e == AckGet {
      TakeFrame(s, c);
    }
  }

  lemma InlineState(s: State, p: Payload)
    requires !s.inbox.workerSet && (s.link.failure.Some? || s.link.status == Disconnected)
    ensures Deliver(s, p).data.state
            == if Applied(s, p) && p.message.kind == Report then WithReport(s.data.state, p.message) else s.data.state
  {
  }

  /**
    Once a session is over, and until `connect` or `disconnect` is called, the state
    changes by a report that still arrives and is of this device, and by nothing else.
   */
  lemma LateStateIff(s: State, e: Event)
    requires Reachable(s) && AllOver(s) && Enabled(s, e) && !e.OfLife?
    ensures Apply(s, e).data.state
            == match e
               case OfNotices(Notify(p)) =>
                 if Applied(s, p) && p.message.kind == Report then WithReport(s.data.state, p.message) else s.data.state
               case _ => s.data.state
  {
    ReachableInv(s);
    match e
    case OfNotices(n) => if n.Notify? { InlineState(s, n.payload); }
    case OfKeepalive(k, b) => BeatKeepsState(s, k, b);
    case OfControl(c, x) => CallKeepsState(s, c, x);
    case _ =>
  }

  const LATE: Message := Message(Report, Null, Null, Null, Obj(map[]), Null)

  lemma LateReport(x: State)
    requires AllOver(x) && !x.inbox.workerSet && x.link.status == Disconnected && x.data.state == EMPTY_STATE
    ensures var y := Apply(x, OfNotices(Notify(Decoded(LATE)))); AllOver(y) && y.data.state != EMPTY_STATE
  {
    InlineState(x, Decoded(LATE));
    AbsorbFrame(x, LATE);
  }

  lemma DisconnectNew() returns (es: seq<Event>, y: State)
    ensures Run(Initial(CONFIG), es) == Some(y) && AllOver(y) && !y.inbox.workerSet
    ensures y.link.status == Disconnected && y.data.state == EMPTY_STATE && y.cfg == CONFIG && y.loss.disconnects == 1
  {
    var a := Initial(CONFIG);
    var b := Apply(a, OfLife(Disconnect));
    var c := Apply(b, OfLife(TearStep));
    y := Apply(c, OfLife(TearStep));
    es := [OfLife(Disconnect)] + ([OfLife(TearStep)] + ([OfLife(TearStep)] + []));
    RunFrom(c, OfLife(TearStep), []);
    RunFrom(b, OfLife(TearStep), [OfLife(TearStep)] + []);
    RunFrom(a, OfLife(Disconnect), [OfLife(TearStep)] + ([OfLife(TearStep)] + []));
  }

  /** A report that arrives after `disconnect` has returned still changes the state. */
  lemma DisconnectedYetChanged() returns (y: State)
    ensures Reachable(y) && AllOver(y) && y.loss.disconnects == 1 && y.data.state != EMPTY_STATE
  {
    var es, x := DisconnectNew();
    var late := OfNotices(Notify(Decoded(LATE)));
    LateReport(x);
    y := Apply(x, late);
    assert (es + [late])[..|es|] == es;
    AbsorbFrame(x, LATE);
    assert Run(Initial(y.cfg), es + [late]) == Some(y);
  }
}
