/** When a session is protocol-ready and when it is READY, and that READY may come before any report. */
module ReadyTheorems {
  import opened Wrappers
  import opened Session
  import opened Reports
  import opened TaskInvariant
  import opened TeardownEffect
  import opened LinkInvariant
  import opened StreamInvariant
  import opened Invariant
  import opened SessionTheorems
  import opened Disturbance
  import opened LeakedKeepalive
  import opened Drain

  predicate Up(status: Status) {
    status == ProtocolReady || status == Ready
  }

  /** No failure is recorded and no teardown has reset the session. */
  predicate Calm(s: State) {
    s.link.failure.None? && !s.era.over
  }

  /** In a calm session the handshake has its getInfo-rsp exactly when the status says so. */
  predicate Promoted(s: State) {
    Calm(s) ==> (Up(s.link.status) <==> |s.stream.accepted| >= 2)
  }

  /** The step leaves the status and the acceptances alone, or ends the calm. */
  predicate SameProgress(s: State, r: State) {
    Calm(r) ==>
      && Calm(s) && r.stream.accepted == s.stream.accepted
      && (r.link.status == s.link.status
          || (s.link.status == Disconnected && r.link.status == Connected)
          || (s.link.status == ProtocolReady && r.link.status == Ready))
  }

  lemma FailureProgress(s: State, error: Error, owner: Owner)
    requires OwnerFails(s, owner)
    ensures SameProgress(s, HandleFailure(s, error, owner))
  {
    HandleEffect(s, error, owner);
  }

  lemma AbsorbProgress(s: State, m: Message)
    ensures SameProgress(s, Absorb(s, m))
  {
    AbsorbFrame(s, m);
  }

  lemma AbortProgress(s: State)
    ensures SameProgress(s, AbortConnect(s))
  {
    BeginEffect(s, TLife(ConnectFailed));
  }

  lemma NoticeProgress(s: State, e: NoticeEvent)
    requires NoticeEnabled(s, e)
    ensures SameProgress(s, NoticeStep(s, e))
  {
    match e
    case Notify(p) =>
      if !s.inbox.workerSet {
        match PayloadError(s, p) {
          case Some(error) => FailureProgress(s, error, Inline);
          case None => AbsorbProgress(s, p.message);
        }
      }
    case WorkerGet =>
      if s.inbox.notices[0].Notice? {
        var s1 := s.(inbox := Popped(s.inbox));
        var p, f := s.inbox.notices[0].payload, s.inbox.notices[0].future;
        match PayloadError(s1, p) {
          case Some(error) => FailureProgress(s1.(worker := InHandler(f)), error, ByWorker);
          case None => AbsorbProgress(s1, p.message);
        }
      }
    case UpdateCallbackReturns =>
  }

  lemma HandlerProgresses(s: State, e: HandlerEvent)
    requires Inv(s) && HandlerEnabled(s, e)
    ensures SameProgress(s, HandlerStep(s, e))
  {
    HandlerWithin(s, e);
  }

  lemma BeatProgress(s: State, k: nat, e: BeatEvent)
    requires BeatEnabled(s, k, e)
    ensures SameProgress(s, BeatStep(s, k, e))
  {
    match e
    case Locks =>
      if s.data.deviceId.None? {
        FailureProgress(SetKeepalive(s, k, KeepalivePc.Failing), NoIdentity, ByKeepalive(k));
      }
    case Lost(error) => FailureProgress(SetKeepalive(s.(lock := Free), k, KeepalivePc.Failing), error, ByKeepalive(k));
    case _ =>
  }

  lemma CallProgress(s: State, c: nat, e: CallEvent)
    requires CallEnabled(s, c, e)
    ensures SameProgress(s, CallStep(s, c, e))
  {
    match e
    case CallLost(error) =>
      FailureProgress(SetControl(s, c, FailingWrite(IdOf(s.controls[c].pc))), error, ByControl(c));
    case AckGet => TakeFrame(s, c);
    case _ =>
  }

  lemma ProceedProgress(s: State)
    requires Linked(s) && ConnectSuspended(s.life)
    ensures SameProgress(s, ConnectGoesOn(s))
  {
    AbortProgress(s);
  }

  lemma LifeProgresses(s: State, e: LifeEvent)
    requires Inv(s) && LifeEnabled(s, e) && !Opens(s, OfLife(e)) && e != Get
    ensures SameProgress(s, LifeStep(s, e))
  {
    match e
    case Connect =>
    case Proceed => ProceedProgress(s);
    case CallFails => AbortProgress(s);
    case Timeout => AbortProgress(s);
    case Disconnect =>
      var s1 := s.(link := s.link.(closing := true));
      BeginEffect(s1, TLife(UserDisconnect));
    case TearStep => ContinueEffect(s, TLife(s.life.reason), s.life.at);
  }

  lemma AcceptPromoted(s: State, m: Message, position: nat)
    requires Linked(s) && Promoted(s) && s.life.Awaiting? && m.kind == s.life.want
    requires |s.stream.accepted| == Accepted(s.life)
    ensures Promoted(AcceptHandshake(s.(stream := s.stream.(accepted := s.stream.accepted + [position])), m))
  {
    AbortProgress(s.(stream := s.stream.(accepted := s.stream.accepted + [position])));
  }

  lemma GetPromoted(s: State)
    requires Inv(s) && Promoted(s) && LifeEnabled(s, Get)
    ensures Promoted(LifeStep(s, Get))
  {
    var s1 := s.(mail := TakeFrom(s.mail, s.life.queue), stream := Taken(s.stream, s.link.failure.Some?));
    var item := s.mail.heap[s.life.queue][0];
    AbortProgress(s1);
    if Matches(item, s.life.want) {
      AcceptPromoted(s1, item.message, s.stream.taken);
    }
  }

  lemma StepPromoted(s: State, e: Event)
    requires Inv(s) && Enabled(s, e) && Promoted(s)
    ensures Promoted(Apply(s, e))
  {
    match e
    case OfLife(l) => if l == Get { GetPromoted(s); } else if !Opens(s, e) { LifeProgresses(s, l); }
    case OfHandler(h) => HandlerProgresses(s, h);
    case OfNotices(n) => NoticeProgress(s, n);
    case OfKeepalive(k, b) => BeatProgress(s, k, b);
    case OfControl(c, x) => CallProgress(s, c, x);
  }

  lemma {:induction false} RunPromoted(s: State, events: seq<Event>)
    requires Inv(s) && Promoted(s) && Run(s, events).Some?
    ensures Promoted(Run(s, events).value)
  {
    if events != [] {
      var n := |events| - 1;
      RunPromoted(s, events[..n]);
      RunsKeepInv(s, events[..n]);
      StepPromoted(Run(s, events[..n]).value, events[n]);
    }
  }

  /**
    While no failure is recorded and no teardown has reset the session, its status
    is PROTOCOL_READY or READY exactly when the handshake accepted a getInfo-rsp.
   */
  lemma ProtocolReadyIff(s: State)
    requires Reachable(s) && s.link.failure.None? && !s.era.over
    ensures s.link.status == ProtocolReady || s.link.status == Ready <==> |s.stream.accepted| >= 2
  {
    var events: seq<Event> :| Run(Initial(s.cfg), events) == Some(s);
    InitialInv(s.cfg);
    RunPromoted(Initial(s.cfg), events);
  }

  // ---- READY ------------------------------------------------------------

  /** The payload is applied: it decodes, is of this device, is no BLESPP and has a hashable method. */
  predicate Applied(s: State, p: Payload) {
    PayloadError(s, p).None? && p.message.kind != Blespp && p.message.kind != UnhashableMethod
  }

  /** The steps that apply a message after the handshake's getInfo-rsp, and the end of the handshake. */
  predicate Promotes(s: State, e: Event) {
    match e
    case OfNotices(Notify(p)) => !s.inbox.workerSet && Applied(s, p)
    case OfNotices(WorkerGet) =>
      s.inbox.notices != [] && s.inbox.notices[0].Notice? && Applied(s, s.inbox.notices[0].payload)
    case OfLife(Get) =>
      s.life.Awaiting? && s.life.want == Report && Queue(s.mail, s.life.queue) != []
      && Matches(Queue(s.mail, s.life.queue)[0], Report)
    case _ => false
  }

  /** The status stays, or the session is disconnected. */
  predicate Lowers(s: State, r: State) {
    r.link.status == s.link.status || r.link.status == Disconnected
  }

  lemma FailureLowers(s: State, error: Error, owner: Owner)
    requires OwnerFails(s, owner)
    ensures Lowers(s, HandleFailure(s, error, owner))
  {
    HandleEffect(s, error, owner);
  }

  lemma AbortLowers(s: State)
    ensures Lowers(s, AbortConnect(s))
  {
    BeginEffect(s, TLife(ConnectFailed));
  }

  lemma AbsorbRaises(s: State, m: Message)
    requires s.link.status == ProtocolReady
    ensures Absorb(s, m).link.status == Ready <==> m.kind != Blespp && m.kind != UnhashableMethod
  {
    ApplyFrame(s, m);
  }

  lemma NoticePromotes(s: State, e: NoticeEvent)
    requires NoticeEnabled(s, e) && s.link.status == ProtocolReady
    ensures NoticeStep(s, e).link.status == Ready <==> Promotes(s, OfNotices(e))
  {
    match e
    case Notify(p) =>
      if !s.inbox.workerSet {
        match PayloadError(s, p) {
          case Some(error) => FailureLowers(s, error, Inline);
          case None => AbsorbRaises(s, p.message);
        }
      }
    case WorkerGet =>
      if s.inbox.notices[0].Notice? {
        var s1 := s.(inbox := Popped(s.inbox));
        var p, f := s.inbox.notices[0].payload, s.inbox.notices[0].future;
        match PayloadError(s1, p) {
          case Some(error) => FailureLowers(s1.(worker := InHandler(f)), error, ByWorker);
          case None => AbsorbRaises(s1, p.message);
        }
      }
    case UpdateCallbackReturns =>
  }

  lemma HandlerLowers(s: State, e: HandlerEvent)
    requires Inv(s) && HandlerEnabled(s, e)
    ensures Lowers(s, HandlerStep(s, e))
  {
    match e
    case HandlerTearStep => ContinueEffect(s, THandler(s.handler.owner, s.handler.error), s.handler.at);
    case LossCallbackReturns => ResumeEffect(s.(handler := NoHandler), s.handler.owner);
  }

  lemma BeatLowers(s: State, k: nat, e: BeatEvent)
    requires BeatEnabled(s, k, e)
    ensures Lowers(s, BeatStep(s, k, e))
  {
    match e
    case Locks =>
      if s.data.deviceId.None? {
        FailureLowers(SetKeepalive(s, k, KeepalivePc.Failing), NoIdentity, ByKeepalive(k));
      }
    case Lost(error) => FailureLowers(SetKeepalive(s.(lock := Free), k, KeepalivePc.Failing), error, ByKeepalive(k));
    case _ =>
  }

  lemma CallLowers(s: State, c: nat, e: CallEvent)
    requires CallEnabled(s, c, e)
    ensures Lowers(s, CallStep(s, c, e))
  {
    match e
    case CallLost(error) =>
      FailureLowers(SetControl(s, c, FailingWrite(IdOf(s.controls[c].pc))), error, ByControl(c));
    case AckGet => TakeFrame(s, c);
    case _ =>
  }

  lemma GetPromotes(s: State)
    requires Inv(s) && LifeEnabled(s, Get) && s.link.status == ProtocolReady
    ensures LifeStep(s, Get).link.status == Ready <==> Promotes(s, OfLife(Get))
  {
    var s1 := s.(mail := TakeFrom(s.mail, s.life.queue), stream := Taken(s.stream, s.link.failure.Some?));
    AbortLowers(s1);
    AbortLowers(s1.(stream := s1.stream.(accepted := s1.stream.accepted + [s.stream.taken])));
  }

  lemma LifeLowers(s: State, e: LifeEvent)
    requires Inv(s) && LifeEnabled(s, e) && e != Get && s.link.status == ProtocolReady
    ensures Lowers(s, LifeStep(s, e))
  {
    match e
    case Connect =>
    case Proceed => AbortLowers(s);
    case CallFails => AbortLowers(s);
    case Timeout => AbortLowers(s);
    case Disconnect => BeginEffect(s.(link := s.link.(closing := true)), TLife(UserDisconnect));
    case TearStep => ContinueEffect(s, TLife(s.life.reason), s.life.at);
  }

  /**
    A step makes a protocol-ready client READY if and only if it applies a message
    other than BLESPP, of whatever method, or takes the report the handshake ends with.
   */
  lemma ReadyIff(s: State, e: Event)
    requires Reachable(s) && Enabled(s, e) && s.link.status == ProtocolReady
    ensures Apply(s, e).link.status == Ready <==> Promotes(s, e)
  {
    ReachableInv(s);
    StepReadies(s, e);
  }

  lemma StepReadies(s: State, e: Event)
    requires Inv(s) && Enabled(s, e) && s.link.status == ProtocolReady
    ensures Apply(s, e).link.status == Ready <==> Promotes(s, e)
  {
    match e
    case OfLife(l) => if l == Get { GetPromotes(s); } else { LifeLowers(s, l); }
    case OfHandler(h) => HandlerLowers(s, h);
    case OfNotices(n) => NoticePromotes(s, n);
    case OfKeepalive(k, b) => BeatLowers(s, k, b);
    case OfControl(c, x) => CallLowers(s, c, x);
  }

  lemma AcceptReady(s: State, m: Message, position: nat)
    requires Linked(s) && s.life.Awaiting? && m.kind == s.life.want
    ensures var r := AcceptHandshake(s.(stream := s.stream.(accepted := s.stream.accepted + [position])), m);
            Calm(r) ==>
              && Calm(s)
              && (r.link.status == Ready <==>
                    s.link.status == Ready || (s.link.status == ProtocolReady && m.kind == Report))
  {
    AbortProgress(s.(stream := s.stream.(accepted := s.stream.accepted + [position])));
  }

  lemma GetReady(s: State)
    requires Inv(s) && LifeEnabled(s, Get) && Calm(LifeStep(s, Get))
    ensures Calm(s)
    ensures LifeStep(s, Get).link.status == Ready <==>
              s.link.status == Ready || (s.link.status == ProtocolReady && Promotes(s, OfLife(Get)))
  {
    var s1 := s.(mail := TakeFrom(s.mail, s.life.queue), stream := Taken(s.stream, s.link.failure.Some?));
    var item := s.mail.heap[s.life.queue][0];
    if Matches(item, s.life.want) {
      AcceptReady(s1, item.message, s.stream.taken);
    } else {
      AbortProgress(s1);
    }
  }

  /** In a session that goes on calmly READY is reached by a promoting step only, and is kept. */
  lemma ReadyStep(s: State, e: Event)
    requires Inv(s) && Enabled(s, e) && !Opens(s, e) && Calm(Apply(s, e))
    ensures Calm(s)
    ensures Apply(s, e).link.status == Ready <==>
              s.link.status == Ready || (s.link.status == ProtocolReady && Promotes(s, e))
  {
    if e == OfLife(Get) {
      GetReady(s);
    } else {
      match e {
        case OfLife(l) => LifeProgresses(s, l);
        case OfHandler(h) => HandlerProgresses(s, h);
        case OfNotices(n) => NoticeProgress(s, n);
        case OfKeepalive(k, b) => BeatProgress(s, k, b);
        case OfControl(c, x) => CallProgress(s, c, x);
      }
      if s.link.status == ProtocolReady {
        StepReadies(s, e);
      }
    }
  }

  /** Some step of the run promoted a protocol-ready client. */
  ghost predicate PromotedIn(o: State, events: seq<Event>) {
    exists n :: 0 <= n < |events| && PromotedAt(o, events, n)
  }

  ghost predicate PromotedAt(o: State, events: seq<Event>, n: nat)
    requires n < |events|
  {
    match Run(o, events[..n])
    case None => false
    case Some(x) => x.link.status == ProtocolReady && Promotes(x, events[n])
  }

  lemma PromotedInLonger(o: State, events: seq<Event>)
    requires events != []
    ensures PromotedIn(o, events) <==>
              PromotedIn(o, events[..|events| - 1]) || PromotedAt(o, events, |events| - 1)
  {
    var n := |events| - 1;
    var init := events[..n];
    forall i | 0 <= i < n ensures PromotedAt(o, init, i) <==> PromotedAt(o, events, i) {
      assert init[..i] == events[..i];
    }
  }

  /**
    In every run from the opening of a session, as long as it has neither failed nor
    been torn down: the client is READY if and only if, while it was protocol-ready, a
    step applied a message other than BLESPP or took the handshake's report.
   */
  lemma {:induction false} ReadyIffPromoted(o: State, events: seq<Event>)
    requires Inv(o) && o.life == Connecting
    requires Run(o, events).Some? && NeverOpens(o, events) && Calm(Run(o, events).value)
    ensures Run(o, events).value.link.status == Ready <==> PromotedIn(o, events)
  {
    if events != [] {
      var n := |events| - 1;
      var x := Run(o, events[..n]).value;
      NeverOpensBefore(o, events);
      RunsKeepInv(o, events[..n]);
      ReadyStep(x, events[n]);
      ReadyIffPromoted(o, events[..n]);
      PromotedInLonger(o, events);
    }
  }

  // ---- READY without a report -------------------------------------------

  lemma InfoPromotes(x: State)
    requires Inv(x) && x.life == ReadDelay && x.link.failure.None? && x.worker == Getting && x.cfg == CONFIG
    requires |x.inbox.notices| == 1 && x.inbox.notices[0].Notice? && x.inbox.notices[0].payload == Decoded(INFO)
    ensures var y := Apply(x, OfNotices(WorkerGet));
            && y.link.status == Ready && y.life == ReadDelay && y.inbox.arrived == x.inbox.arrived
            && (y.stream.put == x.stream.put || y.stream.put == x.stream.put + [Msg(INFO)])
  {
    ApplyFrame(x.(inbox := Popped(x.inbox)), INFO);
  }

  lemma PromoteBy(o: State, events: seq<Event>, x: State) returns (es: seq<Event>, y: State)
    requires Leads(o, events, x)
    requires Inv(x) && x.life == ReadDelay && x.link.failure.None? && x.worker == Getting && x.cfg == CONFIG
    requires |x.inbox.notices| == 1 && x.inbox.notices[0].Notice? && x.inbox.notices[0].payload == Decoded(INFO)
    ensures Leads(o, es, y) && y.link.status == Ready && y.life == ReadDelay && y.inbox.arrived == x.inbox.arrived
    ensures y.stream.put == x.stream.put || y.stream.put == x.stream.put + [Msg(INFO)]
  {
    InfoPromotes(x);
    Extend(o, events, x, OfNotices(WorkerGet));
    es, y := events + [OfNotices(WorkerGet)], Apply(x, OfNotices(WorkerGet));
  }

  lemma PromoteEarly(o: State, events: seq<Event>, x: State) returns (es: seq<Event>, y: State)
    requires Leads(o, events, x) && Smooth(x) && x.life == ReadDelay && x.cfg == CONFIG && NoReportYet(x)
    ensures Leads(o, es, y) && y.link.status == Ready && y.life == ReadDelay && NoReportYet(y)
  {
    var es1, x1 := HearBy(o, events, x, INFO);
    es, y := PromoteBy(o, es1, x1);
  }

  lemma ReadyEarlyFrom(o: State) returns (es: seq<Event>, y: State)
    requires JustOpened(o) && o.cfg == CONFIG && NoReportYet(o)
    ensures Leads(o, es, y) && y.link.status == Ready && y.life == ReadDelay && NoReportYet(y)
  {
    es, y := Identify(o, [], o);
    es, y := AskInfo(o, es, y);
    es, y := PromoteEarly(o, es, y);
  }

  /** A second getInfo-rsp makes the client READY before the initial read is sent and before any report. */
  lemma ReadyBeforeAnyReport() returns (y: State)
    ensures Reachable(y) && y.link.status == Ready && y.life == ReadDelay && NoReportYet(y)
  {
    var o := Opened();
    var es: seq<Event>;
    es, y := ReadyEarlyFrom(o);
    RunWithin(o, es);
    RunFrom(Initial(CONFIG), OfLife(Connect), es);
  }
}
