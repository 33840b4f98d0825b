/** What is written to the transport, by which step, and on whose behalf. */
module WriteLaw {
  import opened Wrappers
  import opened Session
  import opened Reports
  import opened TaskInvariant
  import opened TeardownEffect
  import opened StreamInvariant
  import opened Invariant
  import opened StepEffect
  import opened SessionTheorems
  import opened ConnectLaw

  /** The id of the next request. */
  function FreshId(s: State): nat {
    if s.outbox.messageId == 1009 then 1010 else s.outbox.messageId
  }

  /** A request, if the client has an identity. */
  function Requested(s: State, kind: Kind, content: Content, origin: nat): seq<Sent> {
    if s.data.deviceId.None? then []
    else [Sent(kind, FreshId(s), content, s.data.deviceId, origin, s.link.failure.Some?)]
  }

  /** What a step hands to the transport. */
  function Written(s: State, e: Event): seq<Sent> {
    match e
    case OfLife(Proceed) =>
      if s.life == SppDelay then Requested(s, GetInfo, NoContent, s.era.session)
      else if s.life == ReadDelay then Requested(s, InitialRead, GetAll, s.era.session)
      else []
    case OfLife(Get) =>
      if s.life.Awaiting? && s.life.want == Blespp && Queue(s.mail, s.life.queue) != []
         && Matches(Queue(s.mail, s.life.queue)[0], Blespp)
         && NamesDevice(s.cfg.target, Queue(s.mail, s.life.queue)[0].message)
      then [Sent(BlesppOk, 1009, NoContent, None, s.era.session, s.link.failure.Some?)] else []
    case OfKeepalive(k, Locks) => Requested(s, KeepaliveRead, GetAll, k)
    case OfControl(c, CallLocks) =>
      if c in s.controls && s.link.failure.None?
      then Requested(s, Write, Setting(s.controls[c].property, s.controls[c].value), s.controls[c].began) else []
    case _ => []
  }

  /** The writes before and those of this step; every request, but not BLESPP_OK, draws an id. */
  predicate Writes(s: State, written: seq<Sent>, r: State) {
    && r.outbox.wire == s.outbox.wire + written
    && (if written == [] || written[0].kind == BlesppOk
        then r.outbox.messageId == s.outbox.messageId && r.outbox.issued == s.outbox.issued
        else r.outbox.messageId == FreshId(s) + 1 && r.outbox.issued == s.outbox.issued + [FreshId(s)])
  }

  lemma FailureWritesNothing(s: State, error: Error, owner: Owner)
    requires OwnerFails(s, owner)
    ensures HandleFailure(s, error, owner).outbox == s.outbox
  {
    HandleEffect(s, error, owner);
  }

  lemma NoticeWritesNothing(s: State, e: NoticeEvent)
    requires NoticeEnabled(s, e)
    ensures NoticeStep(s, e).outbox == s.outbox
  {
    match e
    case Notify(p) =>
      if !s.inbox.workerSet {
        match PayloadError(s, p) {
          case Some(error) => FailureWritesNothing(s, error, Inline);
          case None => AbsorbFrame(s, p.message);
        }
      }
    case WorkerGet =>
      if s.inbox.notices[0].Notice? {
        var s1 := s.(inbox := Popped(s.inbox));
        var p, f := s.inbox.notices[0].payload, s.inbox.notices[0].future;
        match PayloadError(s1, p) {
          case Some(error) => FailureWritesNothing(s1.(worker := InHandler(f)), error, ByWorker);
          case None => AbsorbFrame(s1, p.message);
        }
      }
    case UpdateCallbackReturns =>
  }

  lemma HandlerWritesNothing(s: State, e: HandlerEvent)
    requires Inv(s) && HandlerEnabled(s, e)
    ensures HandlerStep(s, e).outbox == s.outbox
  {
    match e
    case HandlerTearStep => ContinueEffect(s, THandler(s.handler.owner, s.handler.error), s.handler.at);
    case LossCallbackReturns => ResumeEffect(s.(handler := NoHandler), s.handler.owner);
  }

  lemma BeatWrites(s: State, k: nat, e: BeatEvent)
    requires BeatEnabled(s, k, e)
    ensures Writes(s, Written(s, OfKeepalive(k, e)), BeatStep(s, k, e))
  {
    match e
    case Locks =>
      if s.data.deviceId.None? {
        FailureWritesNothing(SetKeepalive(s, k, KeepalivePc.Failing), NoIdentity, ByKeepalive(k));
      }
    case Lost(error) =>
      FailureWritesNothing(SetKeepalive(s.(lock := Free), k, KeepalivePc.Failing), error, ByKeepalive(k));
    case _ =>
  }

  lemma CallWrites(s: State, c: nat, e: CallEvent)
    requires CallEnabled(s, c, e)
    ensures Writes(s, Written(s, OfControl(c, e)), CallStep(s, c, e))
  {
    match e
    case CallLost(error) =>
      FailureWritesNothing(SetControl(s, c, FailingWrite(IdOf(s.controls[c].pc))), error, ByControl(c));
    case AckGet => TakeFrame(s, c);
    case _ =>
  }

  lemma AbortWritesNothing(s: State)
    ensures AbortConnect(s).outbox == s.outbox
  {
    BeginEffect(s, TLife(ConnectFailed));
  }

  lemma GoesOnWrites(s: State)
    requires ConnectSuspended(s.life)
    ensures Writes(s, Written(s, OfLife(Proceed)), ConnectGoesOn(s))
  {
    AbortWritesNothing(s);
  }

  lemma JudgeWrites(s: State, item: Item, position: nat)
    requires s.life.Awaiting?
    requires s.life.want == Blespp || s.life.want == GetInfoRsp || s.life.want == Report
    ensures var hello := Matches(item, Blespp) && s.life.want == Blespp && NamesDevice(s.cfg.target, item.message);
            var ok := Sent(BlesppOk, 1009, NoContent, None, s.era.session, s.link.failure.Some?);
            HandshakeJudge(s, item, s.life.want, position).outbox
            == s.outbox.(wire := s.outbox.wire + if hello then [ok] else [])
  {
    AbortWritesNothing(s);
    AbortWritesNothing(s.(stream := s.stream.(accepted := s.stream.accepted + [position])));
  }

  lemma LifeWrites(s: State, e: LifeEvent)
    requires Inv(s) && LifeEnabled(s, e) && !Opens(s, OfLife(e))
    ensures Writes(s, Written(s, OfLife(e)), LifeStep(s, e))
  {
    match e
    case Connect =>
    case Proceed => GoesOnWrites(s);
    case CallFails => AbortWritesNothing(s);
    case Get =>
      JudgeWrites(s.(mail := TakeFrom(s.mail, s.life.queue), stream := Taken(s.stream, s.link.failure.Some?)),
                  s.mail.heap[s.life.queue][0], s.stream.taken);
    case Timeout => AbortWritesNothing(s);
    case Disconnect => BeginEffect(s.(link := s.link.(closing := true)), TLife(UserDisconnect));
    case TearStep => ContinueEffect(s, TLife(s.life.reason), s.life.at);
  }

  lemma StepWrites(s: State, e: Event)
    requires Inv(s) && Enabled(s, e) && !Opens(s, e)
    ensures Writes(s, Written(s, e), Apply(s, e))
  {
    match e
    case OfLife(l) => LifeWrites(s, l);
    case OfHandler(h) => HandlerWritesNothing(s, h);
    case OfNotices(n) => NoticeWritesNothing(s, n);
    case OfKeepalive(k, b) => BeatWrites(s, k, b);
    case OfControl(c, x) => CallWrites(s, c, x);
  }

  /**
    Exactly these steps write, and this: the handshake BLESPP_OK for a BLESPP it
    accepts, getInfo and the read after its delays; a keepalive a read when it gets
    the lock; a control call its own property and value when it gets the lock and
    no failure is recorded. No other step of any task writes or draws an id.
   */
  lemma WritesAre(s: State, e: Event)
    requires Reachable(s) && Enabled(s, e) && !Opens(s, e)
    ensures Writes(s, Written(s, e), Apply(s, e))
  {
    ReachableInv(s);
    StepWrites(s, e);
  }

  // ---- Every write is some call's own ------------------------------------

  /** The call that sent a write: same id, property, value and session. */
  predicate IsFrom(x: Sent, ctl: Control) {
    && !ctl.pc.WaitingLock? && IdOf(ctl.pc) == x.id && ctl.began == x.origin
    && x.content == Setting(ctl.property, ctl.value)
  }

  ghost predicate WritesHaveCalls(s: State) {
    forall i | 0 <= i < |s.outbox.wire| && s.outbox.wire[i].kind == Write ::
      exists c :: c in s.controls && IsFrom(s.outbox.wire[i], s.controls[c])
  }

  /** A call keeps what it is about, and its id once it has one. */
  predicate CallsKept(s: State, r: State) {
    forall c | c in s.controls ::
      && c in r.controls
      && r.controls[c].began == s.controls[c].began && r.controls[c].property == s.controls[c].property
      && r.controls[c].value == s.controls[c].value
      && (!s.controls[c].pc.WaitingLock? ==>
            !r.controls[c].pc.WaitingLock? && IdOf(r.controls[c].pc) == IdOf(s.controls[c].pc))
  }

  lemma BackgroundKeepsCalls(s: State, r: State)
    requires CallsEnd(s.controls, r.controls)
    ensures CallsKept(s, r)
  {
  }

  lemma OwnCallKept(s: State, c: nat, e: CallEvent)
    requires CallEnabled(s, c, e) && c in s.controls
    ensures var x, y := s.controls[c], CallStep(s, c, e).controls;
            && c in y && y[c].began == x.began && y[c].property == x.property && y[c].value == x.value
            && (!x.pc.WaitingLock? ==> !y[c].pc.WaitingLock? && IdOf(y[c].pc) == IdOf(x.pc))
  {
    match e
    case CallLost(error) =>
      FailureBackground(SetControl(s, c, FailingWrite(IdOf(s.controls[c].pc))), error, ByControl(c));
    case AckGet => TakeFrame(s, c);
    case _ =>
  }

  lemma OtherCallsKept(s: State, c: nat, e: CallEvent)
    requires CallEnabled(s, c, e)
    ensures forall x | x in s.controls && x != c ::
              && x in CallStep(s, c, e).controls
              && (CallStep(s, c, e).controls[x] == s.controls[x]
                  || (s.controls[x].pc.FailingWrite?
                      && CallStep(s, c, e).controls[x]
                         == s.controls[x].(pc := Done(s.controls[x].pc.id, ConnectionFailed))))
  {
    match e
    case CallLost(error) =>
      FailureBackground(SetControl(s, c, FailingWrite(IdOf(s.controls[c].pc))), error, ByControl(c));
    case AckGet => TakeFrame(s, c);
    case _ =>
  }

  lemma CallKeepsCalls(s: State, c: nat, e: CallEvent)
    requires CallEnabled(s, c, e)
    ensures CallsKept(s, CallStep(s, c, e))
  {
    OtherCallsKept(s, c, e);
    if c in s.controls {
      OwnCallKept(s, c, e);
    }
  }

  lemma LifeKeepsCalls(s: State, e: LifeEvent)
    requires Inv(s) && LifeEnabled(s, e)
    ensures CallsEnd(s.controls, LifeStep(s, e).controls)
  {
    if e == Get {
      GetTakes(s);
    } else {
      LifeBackground(s, e);
    }
  }

  lemma StepKeepsCalls(s: State, e: Event)
    requires Inv(s) && Enabled(s, e)
    ensures CallsKept(s, Apply(s, e))
  {
    if e.OfControl? {
      CallKeepsCalls(s, e.c, e.call);
    } else {
      OthersEndCalls(s, e);
      BackgroundKeepsCalls(s, Apply(s, e));
    }
  }

  lemma OthersEndCalls(s: State, e: Event)
    requires Inv(s) && Enabled(s, e) && !e.OfControl?
    ensures CallsEnd(s.controls, Apply(s, e).controls)
  {
    match e
    case OfLife(l) => LifeKeepsCalls(s, l);
    case OfHandler(h) => HandlerBackground(s, h);
    case OfNotices(n) => NoticeBackground(s, n);
    case OfKeepalive(k, b) => BeatBackground(s, k, b);
  }

  /** The only step that writes a control write makes its call the sender. */
  lemma SenderIsCall(s: State, e: Event)
    requires Enabled(s, e) && Written(s, e) != [] && Written(s, e)[0].kind == Write
    ensures e.OfControl? && e.c in Apply(s, e).controls && IsFrom(Written(s, e)[0], Apply(s, e).controls[e.c])
  {
  }

  lemma OldWritesHaveCalls(s: State, r: State, i: nat)
    requires WritesHaveCalls(s) && CallsKept(s, r) && i < |s.outbox.wire| && s.outbox.wire[i].kind == Write
    ensures exists c :: c in r.controls && IsFrom(s.outbox.wire[i], r.controls[c])
  {
    var c :| c in s.controls && IsFrom(s.outbox.wire[i], s.controls[c]);
    assert c in r.controls && IsFrom(s.outbox.wire[i], r.controls[c]);
  }

  lemma StepWritesHaveCalls(s: State, e: Event)
    requires Inv(s) && Enabled(s, e) && WritesHaveCalls(s)
    ensures WritesHaveCalls(Apply(s, e))
  {
    if !Opens(s, e) {
      var r := Apply(s, e);
      StepWrites(s, e);
      StepKeepsCalls(s, e);
      forall i | 0 <= i < |r.outbox.wire| && r.outbox.wire[i].kind == Write
        ensures exists c :: c in r.controls && IsFrom(r.outbox.wire[i], r.controls[c])
      {
        if i < |s.outbox.wire| {
          OldWritesHaveCalls(s, r, i);
        } else {
          SenderIsCall(s, e);
        }
      }
    }
  }

  lemma {:induction false} RunWritesHaveCalls(s: State, events: seq<Event>)
    requires Inv(s) && WritesHaveCalls(s) && Run(s, events).Some?
    ensures WritesHaveCalls(Run(s, events).value)
  {
    if events != [] {
      var n := |events| - 1;
      RunWritesHaveCalls(s, events[..n]);
      RunsKeepInv(s, events[..n]);
      StepWritesHaveCalls(Run(s, events[..n]).value, events[n]);
    }
  }

  /** Every control write on the wire carries the property, the value and the id of one call. */
  lemma EveryWriteIsACall(s: State, i: nat)
    requires Reachable(s) && i < |s.outbox.wire| && s.outbox.wire[i].kind == Write
    ensures exists c :: c in s.controls && IsFrom(s.outbox.wire[i], s.controls[c])
  {
    var events: seq<Event> :| Run(Initial(s.cfg), events) == Some(s);
    InitialInv(s.cfg);
    RunWritesHaveCalls(Initial(s.cfg), events);
  }

  // ---- Without permission -------------------------------------------------

  /** A client that may not control: every call was refused at once, and none was written. */
  ghost predicate OnlyRefused(s: State) {
    !s.cfg.allowControl ==>
      && (forall c | c in s.controls :: s.controls[c].pc == Done(0, NotReady))
      && (forall i | 0 <= i < |s.outbox.wire| :: s.outbox.wire[i].kind != Write)
  }

  lemma RefusedStaysSo(s: State, e: Event)
    requires Inv(s) && Enabled(s, e) && OnlyRefused(s) && !s.cfg.allowControl
    ensures forall c | c in Apply(s, e).controls :: Apply(s, e).controls[c].pc == Done(0, NotReady)
  {
    if e.OfControl? {
      OtherCallsKept(s, e.c, e.call);
    } else {
      OthersEndCalls(s, e);
    }
  }

  lemma {:induction false} RunOnlyRefuses(s: State, events: seq<Event>)
    requires Inv(s) && OnlyRefused(s) && Run(s, events).Some?
    ensures OnlyRefused(Run(s, events).value) && Run(s, events).value.cfg == s.cfg
  {
    if events != [] {
      var n := |events| - 1;
      RunOnlyRefuses(s, events[..n]);
      RunsKeepInv(s, events[..n]);
      var x := Run(s, events[..n]).value;
      StepOnlyRefuses(x, events[n]);
    }
  }

  lemma StepOnlyRefuses(s: State, e: Event)
    requires Inv(s) && Enabled(s, e) && OnlyRefused(s)
    ensures OnlyRefused(Apply(s, e)) && Apply(s, e).cfg == s.cfg
  {
    if !Opens(s, e) {
      StepWithin(s, e);
      StepWrites(s, e);
    }
    if !s.cfg.allowControl {
      RefusedStaysSo(s, e);
    }
  }

  /** Unless controls are allowed no control write ever reaches the transport. */
  lemma NoWriteWithoutPermission(s: State)
    requires Reachable(s) && !s.cfg.allowControl
    ensures forall i | 0 <= i < |s.outbox.wire| :: s.outbox.wire[i].kind != Write
    ensures forall c | c in s.controls :: s.controls[c].pc == Done(0, NotReady)
  {
    var events: seq<Event> :| Run(Initial(s.cfg), events) == Some(s);
    InitialInv(s.cfg);
    RunOnlyRefuses(Initial(s.cfg), events);
  }
}
