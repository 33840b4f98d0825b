/** When a session fails, over all steps of all tasks, and with which error. */
module FailureLaw {
  import opened Wrappers
  import opened Json
  import opened Session
  import opened Reports
  import opened TaskInvariant
  import opened TeardownEffect
  import opened Invariant

  /** What is wrong with a payload: it does not decode, or it names another device than the client's. */
  function PayloadCause(s: State, p: Payload): Option<Error> {
    match p
    case Undecodable => Some(InvalidPayload)
    case Decoded(m) =>
      if m.kind != Blespp && m.deviceId != Null && s.data.deviceId.Some? && m.deviceId != Str(s.data.deviceId.value)
      then Some(IdentityMismatch) else None
  }

  /** The payload a step processes: one that arrives while no worker is referenced, or the worker's next. */
  function Processed(s: State, e: Event): Option<Payload> {
    match e
    case OfNotices(Notify(p)) => if s.inbox.workerSet then None else Some(p)
    case OfNotices(WorkerGet) =>
      if s.inbox.notices != [] && s.inbox.notices[0].Notice? then Some(s.inbox.notices[0].payload) else None
    case _ => None
  }

  /** What the step reports to the failure handler. */
  function Cause(s: State, e: Event): Option<Error> {
    match e
    case OfNotices(_) => if Processed(s, e).Some? then PayloadCause(s, Processed(s, e).value) else None
    case OfKeepalive(_, Locks) => if s.data.deviceId.None? then Some(NoIdentity) else None
    case OfKeepalive(_, Lost(error)) => Some(error)
    case OfControl(_, CallLost(error)) => Some(error)
    case _ => None
  }

  /** The failure recorded after the handler was called with an error. */
  function Recorded(s: State, error: Error): Option<Error> {
    if s.link.failure.None? && s.link.status != Disconnected then Some(error) else s.link.failure
  }

  lemma HandlerRecords(s: State, error: Error, owner: Owner)
    requires OwnerFails(s, owner)
    ensures HandleFailure(s, error, owner).link.failure == Recorded(s, error)
  {
    HandleEffect(s, error, owner);
  }

  lemma NoticeRecords(s: State, e: NoticeEvent)
    requires NoticeEnabled(s, e)
    ensures var cause := Cause(s, OfNotices(e));
            NoticeStep(s, e).link.failure == if cause.Some? then Recorded(s, cause.value) else s.link.failure
  {
    match e
    case Notify(p) =>
      if !s.inbox.workerSet {
        match PayloadError(s, p) {
          case Some(error) => HandlerRecords(s, error, Inline);
          case None => AbsorbFrame(s, p.message);
        }
      }
    case WorkerGet =>
      if s.inbox.notices[0].Notice? {
        var s1 := s.(inbox := Popped(s.inbox));
        var p, f := s.inbox.notices[0].payload, s.inbox.notices[0].future;
        match PayloadError(s1, p) {
          case Some(error) => HandlerRecords(s1.(worker := InHandler(f)), error, ByWorker);
          case None => AbsorbFrame(s1, p.message);
        }
      }
    case UpdateCallbackReturns =>
  }

  lemma BeatRecords(s: State, k: nat, e: BeatEvent)
    requires BeatEnabled(s, k, e)
    ensures var cause := Cause(s, OfKeepalive(k, e));
            BeatStep(s, k, e).link.failure == if cause.Some? then Recorded(s, cause.value) else s.link.failure
  {
    match e
    case Locks =>
      if s.data.deviceId.None? {
        HandlerRecords(SetKeepalive(s, k, KeepalivePc.Failing), NoIdentity, ByKeepalive(k));
      }
    case Lost(error) =>
      HandlerRecords(SetKeepalive(s.(lock := Free), k, KeepalivePc.Failing), error, ByKeepalive(k));
    case _ =>
  }

  lemma CallRecords(s: State, c: nat, e: CallEvent)
    requires CallEnabled(s, c, e)
    ensures var cause := Cause(s, OfControl(c, e));
            CallStep(s, c, e).link.failure == if cause.Some? then Recorded(s, cause.value) else s.link.failure
  {
    match e
    case CallLost(error) =>
      HandlerRecords(SetControl(s, c, FailingWrite(IdOf(s.controls[c].pc))), error, ByControl(c));
    case AckGet => TakeFrame(s, c);
    case _ =>
  }

  lemma HandlerKeepsFailure(s: State, e: HandlerEvent)
    requires Inv(s) && HandlerEnabled(s, e)
    ensures HandlerStep(s, e).link.failure == s.link.failure
  {
    match e
    case HandlerTearStep => ContinueEffect(s, THandler(s.handler.owner, s.handler.error), s.handler.at);
    case LossCallbackReturns => ResumeEffect(s.(handler := NoHandler), s.handler.owner);
  }

  lemma AbortKeepsFailure(s: State)
    ensures AbortConnect(s).link.failure == s.link.failure
  {
    BeginEffect(s, TLife(ConnectFailed));
  }

  lemma JudgeKeepsFailure(s: State, item: Item, want: Method, position: nat)
    ensures HandshakeJudge(s, item, want, position).link.failure == s.link.failure
  {
    AbortKeepsFailure(s);
    AbortKeepsFailure(s.(stream := s.stream.(accepted := s.stream.accepted + [position])));
  }

  lemma LifeKeepsFailure(s: State, e: LifeEvent)
    requires LifeEnabled(s, e) && !(e == Connect && s.link.status == Disconnected)
    ensures LifeStep(s, e).link.failure == s.link.failure
  {
    match e
    case Connect =>
    case Proceed => AbortKeepsFailure(s);
    case CallFails => AbortKeepsFailure(s);
    case Get =>
      JudgeKeepsFailure(s.(mail := TakeFrom(s.mail, s.life.queue), stream := Taken(s.stream, s.link.failure.Some?)),
                        s.mail.heap[s.life.queue][0], s.life.want, s.stream.taken);
    case Timeout => AbortKeepsFailure(s);
    case Disconnect => BeginEffect(s.(link := s.link.(closing := true)), TLife(UserDisconnect));
    case TearStep => ContinueEffect(s, TLife(s.life.reason), s.life.at);
  }

  /**
    The recorded failure after any step: none when a session is opened; the cause of
    this step when the session was connected and had not failed; else the one before.
    The causes are a payload that does not decode or names another device, a
    keepalive without an identity, and a failing write of a keepalive or a call.
   */
  lemma FailureIs(s: State, e: Event)
    requires Reachable(s) && Enabled(s, e)
    ensures Apply(s, e).link.failure ==
            if e == OfLife(Connect) && s.link.status == Disconnected then None
            else if s.link.failure.Some? || s.link.status == Disconnected then s.link.failure
            else Cause(s, e)
  {
    ReachableInv(s);
    match e
    case OfLife(l) => if !(l == Connect && s.link.status == Disconnected) { LifeKeepsFailure(s, l); }
    case OfHandler(h) => HandlerKeepsFailure(s, h);
    case OfNotices(n) => NoticeRecords(s, n);
    case OfKeepalive(k, b) => BeatRecords(s, k, b);
    case OfControl(c, x) => CallRecords(s, c, x);
  }
}
