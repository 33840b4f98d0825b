/** What a notification does: where a payload goes, and what an accepted message changes. */
module MessageLaw {
  import opened Wrappers
  import opened Session
  import opened Reports
  import opened TaskInvariant
  import opened TeardownEffect
  import opened QueueInvariant
  import opened AckInvariant
  import opened Invariant
  import opened FailureLaw

  /** The message a step accepts: it processes a payload with which nothing is wrong. */
  function AcceptedMessage(s: State, e: Event): Option<Message> {
    match Processed(s, e)
    case None => None
    case Some(p) => if PayloadCause(s, p).None? then Some(p.message) else None
  }

  /** The methods a handshake's queue is offered. */
  predicate ForHandshake(kind: Method) {
    kind.Blespp? || kind.GetInfoRsp? || kind.ReadReply? || kind.Report? || kind.ErrorReport?
  }

  function Added(s: State, m: Message, q: nat): seq<Item> {
    (if q == s.mail.writeResults && m.kind == Report && WriteRsp(m).Some? then [Msg(m)] else [])
    + (if q == s.mail.reports && s.mail.waitActive && ForHandshake(m.kind) then [Msg(m)] else [])
  }

  /** A method the client acts on: not BLESPP, which only the handshake reads, and hashable. */
  predicate ActedOn(m: Message) {
    m.kind != Blespp && m.kind != UnhashableMethod
  }

  /** What an accepted message changes, and all it changes of these fields. */
  ghost predicate Changes(s: State, m: Message, r: State) {
    && |r.mail.heap| == |s.mail.heap| && r.mail == s.mail.(heap := r.mail.heap)
    && (forall q | 0 <= q < |s.mail.heap| :: r.mail.heap[q] == s.mail.heap[q] + Added(s, m, q))
    && r.data == s.data.(
         state := if m.kind == Report then WithReport(s.data.state, m) else s.data.state,
         lastError := if m.kind == ErrorReport && s.link.status != Disconnected then Some(m) else s.data.lastError)
    && r.link == s.link.(status := if s.link.status == ProtocolReady && ActedOn(m) then Ready else s.link.status)
    && r.beats == s.beats && r.controls == s.controls && r.lock == s.lock && r.life == s.life
    && r.handler == s.handler && r.outbox == s.outbox && r.loss == s.loss && r.era == s.era
  }

  lemma QueueGets(s: State, m: Message, q: nat)
    requires StreamHeld(s.mail, s.stream) && q < |s.mail.heap|
    ensures |Absorb(s, m).mail.heap| == |s.mail.heap|
    ensures Absorb(s, m).mail.heap[q] == s.mail.heap[q] + Added(s, m, q)
  {
    AbsorbMail(s, m);
  }

  lemma AbsorbData(s: State, m: Message)
    ensures Absorb(s, m).data == s.data.(
              state := if m.kind == Report then WithReport(s.data.state, m) else s.data.state,
              lastError := if m.kind == ErrorReport && s.link.status != Disconnected then Some(m) else s.data.lastError)
    ensures Absorb(s, m).link
            == s.link.(status := if s.link.status == ProtocolReady && ActedOn(m) then Ready else s.link.status)
  {
    ApplyFrame(s, m);
    ApplyData(s, m);
  }

  lemma ApplyData(s: State, m: Message)
    ensures ApplyMessage(s, m).data == s.data.(
              state := if m.kind == Report then WithReport(s.data.state, m) else s.data.state,
              lastError := if m.kind == ErrorReport && s.link.status != Disconnected then Some(m) else s.data.lastError)
  {
  }

  lemma AbsorbChanges(s: State, m: Message)
    requires StreamHeld(s.mail, s.stream)
    ensures Changes(s, m, Absorb(s, m))
  {
    AbsorbFrame(s, m);
    AbsorbData(s, m);
    forall q | 0 <= q < |s.mail.heap| ensures Absorb(s, m).mail.heap[q] == s.mail.heap[q] + Added(s, m, q) {
      QueueGets(s, m, q);
    }
  }

  /** What the worker does after it took this payload and accepted its message. */
  predicate CallsBackOrCompletes(s: State, m: Message, r: State)
    requires s.inbox.notices != [] && s.inbox.notices[0].Notice?
  {
    var f := s.inbox.notices[0].future;
    && r.inbox.notices == s.inbox.notices[1..] && r.inbox.arrived == s.inbox.arrived
    && (if s.cfg.updateCallback && ActedOn(m)
        then r.worker == InCallback(f) && r.inbox.completed == s.inbox.completed
        else r.worker == Getting && r.inbox.completed == s.inbox.completed + [f])
  }

  lemma WorkerAccepts(s: State)
    requires StreamHeld(s.mail, s.stream) && NoticeEnabled(s, WorkerGet)
    requires AcceptedMessage(s, OfNotices(WorkerGet)).Some?
    ensures var m, r := AcceptedMessage(s, OfNotices(WorkerGet)).value, WorkerTake(s);
            Changes(s, m, r) && CallsBackOrCompletes(s, m, r)
  {
    var s1 := s.(inbox := Popped(s.inbox));
    var m := s.inbox.notices[0].payload.message;
    AbsorbChanges(s1, m);
    AbsorbFrame(s1, m);
  }

  lemma InlineAccepts(s: State, p: Payload)
    requires StreamHeld(s.mail, s.stream) && AcceptedMessage(s, OfNotices(Notify(p))).Some?
    ensures Changes(s, p.message, Deliver(s, p))
    ensures Deliver(s, p).inbox == s.inbox && Deliver(s, p).worker == s.worker
  {
    AbsorbChanges(s, p.message);
    AbsorbFrame(s, p.message);
  }

  /**
    What a step that accepts a message changes: the queues, the state, the last
    error and the status, each by the method of the message. The worker then calls
    back, if there is a callback and the message is one the client acts on, or
    completes the future of the payload and asks for the next.
   */
  lemma AcceptedMessageChanges(s: State, e: Event)
    requires Reachable(s) && Enabled(s, e) && AcceptedMessage(s, e).Some?
    ensures Changes(s, AcceptedMessage(s, e).value, Apply(s, e))
    ensures if e == OfNotices(WorkerGet) then CallsBackOrCompletes(s, AcceptedMessage(s, e).value, Apply(s, e))
            else Apply(s, e).inbox == s.inbox && Apply(s, e).worker == s.worker
  {
    ReachableInv(s);
    if e == OfNotices(WorkerGet) {
      WorkerAccepts(s);
    } else {
      InlineAccepts(s, e.notice.payload);
    }
  }

  /** With a worker referenced a payload is queued behind all others with a new future, and nothing else changes. */
  lemma QueuedForWorker(s: State, p: Payload)
    requires s.inbox.workerSet
    ensures Enabled(s, OfNotices(Notify(p)))
    ensures Apply(s, OfNotices(Notify(p)))
            == s.(inbox := s.inbox.(notices := s.inbox.notices + [Notice(p, |s.inbox.arrived|)],
                                    arrived := s.inbox.arrived + [p]))
  {
  }

  // ---- The last device error --------------------------------------------

  lemma FailureKeepsError(s: State, error: Error, owner: Owner)
    requires OwnerFails(s, owner)
    ensures HandleFailure(s, error, owner).data.lastError == s.data.lastError
  {
    HandleEffect(s, error, owner);
  }

  lemma BeatKeepsError(s: State, k: nat, e: BeatEvent)
    requires BeatEnabled(s, k, e)
    ensures BeatStep(s, k, e).data.lastError == s.data.lastError
  {
    match e
    case Locks =>
      if s.data.deviceId.None? {
        FailureKeepsError(SetKeepalive(s, k, KeepalivePc.Failing), NoIdentity, ByKeepalive(k));
      }
    case Lost(error) =>
      FailureKeepsError(SetKeepalive(s.(lock := Free), k, KeepalivePc.Failing), error, ByKeepalive(k));
    case _ =>
  }

  lemma CallKeepsError(s: State, c: nat, e: CallEvent)
    requires CallEnabled(s, c, e)
    ensures CallStep(s, c, e).data.lastError == s.data.lastError
  {
    match e
    case CallLost(error) =>
      FailureKeepsError(SetControl(s, c, FailingWrite(IdOf(s.controls[c].pc))), error, ByControl(c));
    case AckGet => TakeFrame(s, c);
    case _ =>
  }

  lemma AbortKeepsError(s: State)
    ensures AbortConnect(s).data.lastError == s.data.lastError
  {
    BeginEffect(s, TLife(ConnectFailed));
  }

  lemma JudgeKeepsError(s: State, item: Item, want: Method, position: nat)
    ensures HandshakeJudge(s, item, want, position).data.lastError == s.data.lastError
  {
    AbortKeepsError(s);
    AbortKeepsError(s.(stream := s.stream.(accepted := s.stream.accepted + [position])));
  }

  lemma LifeKeepsError(s: State, e: LifeEvent)
    requires LifeEnabled(s, e) && !(e == Connect && s.link.status == Disconnected)
    ensures LifeStep(s, e).data.lastError == s.data.lastError
  {
    match e
    case Connect =>
    case Proceed => AbortKeepsError(s);
    case CallFails => AbortKeepsError(s);
    case Get =>
      JudgeKeepsError(s.(mail := TakeFrom(s.mail, s.life.queue), stream := Taken(s.stream, s.link.failure.Some?)),
                      s.mail.heap[s.life.queue][0], s.life.want, s.stream.taken);
    case Timeout => AbortKeepsError(s);
    case Disconnect => BeginEffect(s.(link := s.link.(closing := true)), TLife(UserDisconnect));
    case TearStep => ContinueEffect(s, TLife(s.life.reason), s.life.at);
  }

  lemma NoticeKeepsError(s: State, e: NoticeEvent)
    requires NoticeEnabled(s, e) && AcceptedMessage(s, OfNotices(e)).None?
    ensures NoticeStep(s, e).data.lastError == s.data.lastError
  {
    match e
    case Notify(p) => if !s.inbox.workerSet { FailureKeepsError(s, PayloadError(s, p).value, Inline); }
    case WorkerGet =>
      if s.inbox.notices[0].Notice? {
        var s1 := s.(inbox := Popped(s.inbox));
        var p, f := s.inbox.notices[0].payload, s.inbox.notices[0].future;
        FailureKeepsError(s1.(worker := InHandler(f)), PayloadError(s1, p).value, ByWorker);
      }
    case UpdateCallbackReturns =>
  }

  /**
    `last_error` is the last error message accepted while connected, and None from the
    opening of a session until then; no failure and no teardown touches it.
   */
  lemma LastErrorIs(s: State, e: Event)
    requires Reachable(s) && Enabled(s, e)
    ensures var accepted := AcceptedMessage(s, e);
            Apply(s, e).data.lastError ==
            if e == OfLife(Connect) && s.link.status == Disconnected then None
            else if accepted.Some? && accepted.value.kind == ErrorReport && s.link.status != Disconnected then accepted
            else s.data.lastError
  {
    if AcceptedMessage(s, e).Some? {
      AcceptedMessageChanges(s, e);
    } else {
      ReachableInv(s);
      match e {
        case OfLife(l) => if !(l == Connect && s.link.status == Disconnected) { LifeKeepsError(s, l); }
        case OfHandler(h) => HandlerKeepsError(s, h);
        case OfNotices(n) => NoticeKeepsError(s, n);
        case OfKeepalive(k, b) => BeatKeepsError(s, k, b);
        case OfControl(c, x) => CallKeepsError(s, c, x);
      }
    }
  }

  lemma HandlerKeepsError(s: State, e: HandlerEvent)
    requires Inv(s) && HandlerEnabled(s, e)
    ensures HandlerStep(s, e).data.lastError == s.data.lastError
  {
    match e
    case HandlerTearStep => ContinueEffect(s, THandler(s.handler.owner, s.handler.error), s.handler.at);
    case LossCallbackReturns => ResumeEffect(s.(handler := NoHandler), s.handler.owner);
  }
}
