/** The connection-lost callback is called exactly once for a failure that nobody was closing on. */
module LossNotice {
  import opened Wrappers
  import opened Session
  import opened Reports
  import opened TaskInvariant
  import opened TeardownEffect
  import opened LinkInvariant
  import opened Invariant

  /** When the call has been made: as soon as the teardown of the failure is over. */
  predicate NoticeDue(s: State) {
    s.link.failure.Some? && !s.loss.whileClosing && s.cfg.lostCallback && !s.handler.HandlerTearing?
  }

  predicate Notified(s: State) {
    && (NoticeDue(s) ==> s.loss.lost == [s.link.failure.value])
    && (!s.cfg.lostCallback ==> s.loss.lost == [])
  }

  /** The step leaves the failure, its notice and a tearing handler as they are. */
  predicate SameNotice(s: State, r: State) {
    && r.cfg == s.cfg && r.link.failure == s.link.failure
    && r.loss.whileClosing == s.loss.whileClosing && r.loss.lost == s.loss.lost
    && r.handler.HandlerTearing? == s.handler.HandlerTearing?
  }

  lemma ResumeNotice(s: State, owner: Owner)
    requires OwnerFails(s, owner)
    ensures SameNotice(s, Resume(s, owner))
  {
    ResumeEffect(s, owner);
  }

  lemma LifeTearNotice(s: State, reason: Reason, r: State)
    requires TearEffect(s, TLife(reason), r)
    ensures SameNotice(s, r)
  {
  }

  lemma FailureNotice(s: State, error: Error, owner: Owner)
    requires Linked(s) && OwnerFails(s, owner) && Notified(s)
    ensures Notified(HandleFailure(s, error, owner))
  {
    HandleEffect(s, error, owner);
  }

  lemma AbsorbNotice(s: State, m: Message)
    ensures SameNotice(s, Absorb(s, m))
  {
    AbsorbFrame(s, m);
  }

  lemma NoticeNotified(s: State, e: NoticeEvent)
    requires Inv(s) && NoticeEnabled(s, e) && Notified(s)
    ensures Notified(NoticeStep(s, e))
  {
    match e
    case Notify(p) =>
      if !s.inbox.workerSet {
        match PayloadError(s, p) {
          case Some(error) => FailureNotice(s, error, Inline);
          case None => AbsorbNotice(s, p.message);
        }
      }
    case WorkerGet =>
      if s.inbox.notices[0].Notice? {
        var s1 := s.(inbox := Popped(s.inbox));
        var p, f := s.inbox.notices[0].payload, s.inbox.notices[0].future;
        match PayloadError(s1, p) {
          case Some(error) => FailureNotice(s1.(worker := InHandler(f)), error, ByWorker);
          case None => AbsorbNotice(s1, p.message);
        }
      }
    case UpdateCallbackReturns =>
  }

  lemma HandlerNotified(s: State, e: HandlerEvent)
    requires Inv(s) && HandlerEnabled(s, e) && Notified(s)
    ensures Notified(HandlerStep(s, e))
  {
    match e
    case HandlerTearStep => ContinueEffect(s, THandler(s.handler.owner, s.handler.error), s.handler.at);
    case LossCallbackReturns => ResumeNotice(s.(handler := NoHandler), s.handler.owner);
  }

  lemma BeatNotified(s: State, k: nat, e: BeatEvent)
    requires Inv(s) && BeatEnabled(s, k, e) && Notified(s)
    ensures Notified(BeatStep(s, k, e))
  {
    match e
    case Locks =>
      if s.data.deviceId.None? {
        FailureNotice(SetKeepalive(s, k, KeepalivePc.Failing), NoIdentity, ByKeepalive(k));
      }
    case Lost(error) =>
      FailureNotice(SetKeepalive(s.(lock := Free), k, KeepalivePc.Failing), error, ByKeepalive(k));
    case _ =>
  }

  lemma CallNotified(s: State, c: nat, e: CallEvent)
    requires Inv(s) && CallEnabled(s, c, e) && Notified(s)
    ensures Notified(CallStep(s, c, e))
  {
    match e
    case CallLost(error) =>
      FailureNotice(SetControl(s, c, FailingWrite(IdOf(s.controls[c].pc))), error, ByControl(c));
    case AckGet => TakeFrame(s, c);
    case _ =>
  }

  lemma AbortNotice(s: State)
    ensures SameNotice(s, AbortConnect(s))
  {
    BeginEffect(s, TLife(ConnectFailed));
  }

  lemma JudgeNotice(s: State, item: Item, want: Method, position: nat)
    ensures SameNotice(s, HandshakeJudge(s, item, want, position))
  {
    AbortNotice(s);
    AbortNotice(s.(stream := s.stream.(accepted := s.stream.accepted + [position])));
  }

  lemma ProceedNotice(s: State)
    ensures SameNotice(s, ConnectGoesOn(s))
  {
    AbortNotice(s);
  }

  lemma LifeNotified(s: State, e: LifeEvent)
    requires Inv(s) && LifeEnabled(s, e) && Notified(s)
    ensures Notified(LifeStep(s, e))
  {
    match e
    case Connect =>
    case Proceed => ProceedNotice(s);
    case CallFails => AbortNotice(s);
    case Get =>
      JudgeNotice(s.(mail := TakeFrom(s.mail, s.life.queue), stream := Taken(s.stream, s.link.failure.Some?)),
                  s.mail.heap[s.life.queue][0], s.life.want, s.stream.taken);
    case Timeout => AbortNotice(s);
    case Disconnect =>
      var s1 := s.(link := s.link.(closing := true));
      BeginEffect(s1, TLife(UserDisconnect));
      LifeTearNotice(s1, UserDisconnect, LifeStep(s, e));
    case TearStep =>
      ContinueEffect(s, TLife(s.life.reason), s.life.at);
      LifeTearNotice(s, s.life.reason, LifeStep(s, e));
  }

  lemma StepNotified(s: State, e: Event)
    requires Inv(s) && Enabled(s, e) && Notified(s)
    ensures Notified(Apply(s, e))
  {
    match e
    case OfLife(l) => LifeNotified(s, l);
    case OfHandler(h) => HandlerNotified(s, h);
    case OfNotices(n) => NoticeNotified(s, n);
    case OfKeepalive(k, b) => BeatNotified(s, k, b);
    case OfControl(c, x) => CallNotified(s, c, x);
  }

  lemma {:induction false} RunNotified(s: State, events: seq<Event>)
    requires Inv(s) && Notified(s) && Run(s, events).Some?
    ensures Notified(Run(s, events).value)
  {
    if events != [] {
      var n := |events| - 1;
      RunNotified(s, events[..n]);
      RunsKeepInv(s, events[..n]);
      StepNotified(Run(s, events[..n]).value, events[n]);
    }
  }

  lemma ReachableNotified(s: State)
    requires Reachable(s)
    ensures Notified(s)
  {
    var events: seq<Event> :| Run(Initial(s.cfg), events) == Some(s);
    InitialInv(s.cfg);
    RunNotified(Initial(s.cfg), events);
  }
}
