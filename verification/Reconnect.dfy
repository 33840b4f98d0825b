/**
  When a new session can be disturbed by tasks of an earlier one. The writes of
  a session's own tasks are always in order; all its writes are in order, in
  every continuation, exactly when no task of an earlier session can still write.
 */
module Reconnect {
  import opened Session
  import opened Reports
  import opened TaskInvariant
  import opened TeardownEffect
  import opened WireLanguage
  import opened Invariant
  import opened SessionTheorems

  predicate LiveBeat(b: Keepalive) {
    b.pc != Ended && !b.cancelled
  }

  /** Before `connect`: no keepalive is still running and no control call waits for the lock. */
  predicate Quiet(s: State) {
    && (forall k | k in s.beats.all :: !LiveBeat(s.beats.all[k]))
    && (forall c | c in s.controls :: s.controls[c].pc != WaitingLock)
  }

  // ---- Quiet: every write is one of the session's own --------------------

  predicate OwnBeats(ks: map<nat, Keepalive>, session: nat) {
    forall k | k in ks && k != session :: !LiveBeat(ks[k])
  }

  predicate OwnCalls(cs: map<nat, Control>, session: nat) {
    forall c | c in cs && cs[c].began != session :: cs[c].pc != WaitingLock
  }

  predicate OwnWrites(wire: seq<Sent>, session: nat) {
    forall i | 0 <= i < |wire| :: wire[i].origin == session
  }

  predicate Undisturbed(s: State) {
    && OwnBeats(s.beats.all, s.era.session)
    && OwnCalls(s.controls, s.era.session)
    && OwnWrites(s.outbox.wire, s.era.session)
  }

  /** The parts of the state that decide who may write. */
  predicate Alike(s: State, r: State) {
    && r.era.session == s.era.session && r.outbox == s.outbox
    && BeatsSettle(s.beats.all, r.beats.all) && CallsEnd(s.controls, r.controls)
  }

  lemma FailureAlike(s: State, error: Error, owner: Owner)
    requires OwnerFails(s, owner)
    ensures Alike(s, HandleFailure(s, error, owner))
  {
    HandleEffect(s, error, owner);
  }

  lemma AbortAlike(s: State)
    ensures Alike(s, AbortConnect(s))
  {
    BeginEffect(s, TLife(ConnectFailed));
  }

  lemma ProcessAlike(s: State, p: Payload, f: nat)
    ensures Alike(s, WorkerProcess(s, p, f))
  {
    match PayloadError(s, p)
    case Some(error) => FailureAlike(s.(worker := InHandler(f)), error, ByWorker);
    case None => AbsorbFrame(s, p.message);
  }

  lemma NoticeAlike(s: State, e: NoticeEvent)
    requires NoticeEnabled(s, e)
    ensures Alike(s, NoticeStep(s, e))
  {
    match e
    case Notify(p) =>
      if !s.inbox.workerSet {
        match PayloadError(s, p) {
          case Some(error) => FailureAlike(s, error, Inline);
          case None => AbsorbFrame(s, p.message);
        }
      }
    case WorkerGet =>
      if s.inbox.notices[0].Notice? {
        ProcessAlike(s.(inbox := Popped(s.inbox)), s.inbox.notices[0].payload, s.inbox.notices[0].future);
      }
    case UpdateCallbackReturns =>
  }

  lemma HandlerAlike(s: State, e: HandlerEvent)
    requires Tasks(s) && HandlerEnabled(s, e)
    ensures Alike(s, HandlerStep(s, e))
  {
    match e
    case HandlerTearStep => ContinueEffect(s, THandler(s.handler.owner, s.handler.error), s.handler.at);
    case LossCallbackReturns => ResumeEffect(s.(handler := NoHandler), s.handler.owner);
  }

  lemma SendUndisturbed(s: State, kind: Kind, content: Content, origin: nat)
    requires OwnWrites(s.outbox.wire, s.era.session) && origin == s.era.session
    ensures OwnWrites(Send(s, kind, content, origin).outbox.wire, s.era.session)
  {
  }

  lemma JudgeUndisturbed(s: State, item: Item, want: Method, position: nat)
    requires Undisturbed(s)
    ensures Undisturbed(HandshakeJudge(s, item, want, position))
  {
    AbortAlike(s);
    if item.Msg? && item.message.kind == want {
      AbortAlike(s.(stream := s.stream.(accepted := s.stream.accepted + [position])));
    }
  }

  lemma ProceedUndisturbed(s: State)
    requires Undisturbed(s)
    ensures Undisturbed(ConnectGoesOn(s))
  {
    AbortAlike(s);
    SendUndisturbed(s, GetInfo, NoContent, s.era.session);
    SendUndisturbed(s, InitialRead, GetAll, s.era.session);
  }

  lemma LifeUndisturbed(s: State, e: LifeEvent)
    requires Undisturbed(s) && LifeEnabled(s, e) && !Opens(s, OfLife(e))
    ensures Undisturbed(LifeStep(s, e))
  {
    match e
    case Connect =>
    case Proceed => ProceedUndisturbed(s);
    case CallFails => AbortAlike(s);
    case Get =>
      JudgeUndisturbed(s.(mail := TakeFrom(s.mail, s.life.queue), stream := Taken(s.stream, s.link.failure.Some?)),
                       s.mail.heap[s.life.queue][0], s.life.want, s.stream.taken);
    case Timeout => AbortAlike(s);
    case Disconnect => BeginEffect(s.(link := s.link.(closing := true)), TLife(UserDisconnect));
    case TearStep => ContinueEffect(s, TLife(s.life.reason), s.life.at);
  }

  lemma BeatUndisturbed(s: State, k: nat, e: BeatEvent)
    requires Undisturbed(s) && BeatEnabled(s, k, e)
    ensures Undisturbed(BeatStep(s, k, e))
  {
    match e
    case Wakes =>
    case Locks =>
      if s.data.deviceId.None? {
        FailureAlike(SetKeepalive(s, k, KeepalivePc.Failing), NoIdentity, ByKeepalive(k));
      } else {
        SendUndisturbed(s, KeepaliveRead, GetAll, k);
      }
    case Wrote =>
    case Lost(error) => FailureAlike(SetKeepalive(s.(lock := Free), k, KeepalivePc.Failing), error, ByKeepalive(k));
    case CancelledEnds =>
  }

  lemma CallUndisturbed(s: State, c: nat, e: CallEvent)
    requires Undisturbed(s) && CallEnabled(s, c, e)
    ensures Undisturbed(CallStep(s, c, e))
  {
    match e
    case Called(_, _) =>
    case CallLocks =>
      var ctl := s.controls[c];
      SendUndisturbed(s, Write, Setting(ctl.property, ctl.value), ctl.began);
    case CallWrote =>
    case CallLost(error) =>
      FailureAlike(SetControl(s, c, FailingWrite(IdOf(s.controls[c].pc))), error, ByControl(c));
    case AckGet => TakeFrame(s, c);
    case AckTimeout =>
  }

  lemma StepUndisturbed(s: State, e: Event)
    requires Inv(s) && Undisturbed(s) && Enabled(s, e) && !Opens(s, e)
    ensures Undisturbed(Apply(s, e))
  {
    match e
    case OfLife(l) => LifeUndisturbed(s, l);
    case OfHandler(h) => HandlerAlike(s, h);
    case OfNotices(n) => NoticeAlike(s, n);
    case OfKeepalive(k, b) => BeatUndisturbed(s, k, b);
    case OfControl(c, x) => CallUndisturbed(s, c, x);
  }

  lemma {:induction false} RunUndisturbed(s: State, events: seq<Event>)
    requires Inv(s) && Undisturbed(s) && Run(s, events).Some? && NeverOpens(s, events)
    ensures Undisturbed(Run(s, events).value)
  {
    if events != [] {
      var init := events[..|events| - 1];
      NeverOpensBefore(s, events);
      RunUndisturbed(s, init);
      RunsKeepInv(s, init);
      StepUndisturbed(Run(s, init).value, events[|events| - 1]);
    }
  }

  lemma {:induction false} AllOwn(wire: seq<Sent>, session: nat)
    requires OwnWrites(wire, session)
    ensures Own(wire, session) == Kinds(wire)
  {
    if wire != [] {
      AllOwn(wire[..|wire| - 1], session);
    }
  }

  /** All writes of the session are in order. */
  predicate WritesInOrder(s: State) {
    InOrder(Kinds(s.outbox.wire))
  }

  lemma QuietKeepsOrder(s: State, events: seq<Event>)
    requires Inv(s) && Enabled(s, OfLife(Connect)) && Opens(s, OfLife(Connect)) && Quiet(s)
    requires Run(OpenSession(s), events).Some? && NeverOpens(OpenSession(s), events)
    ensures WritesInOrder(Run(OpenSession(s), events).value)
  {
    var o := OpenSession(s);
    InvStep(s, OfLife(Connect));
    RunUndisturbed(o, events);
    RunsKeepInv(o, events);
    var r := Run(o, events).value;
    AllOwn(r.outbox.wire, r.era.session);
    ScanIsInOrder(r.outbox.wire, r.era.session);
  }
}
