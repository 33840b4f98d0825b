/**
  What any step does to the control calls, the queues and the keepalives it is not
  a step of.
 */
module StepEffect {
  import opened Wrappers
  import opened Session
  import opened Reports
  import opened TaskInvariant
  import opened TeardownEffect
  import opened QueueInvariant
  import opened Invariant

  /** Queues are only added, and only appended to. */
  predicate Grows(m: Mail, n: Mail) {
    |m.heap| <= |n.heap| && forall q | 0 <= q < |m.heap| :: m.heap[q] <= n.heap[q]
  }

  /** A keepalive that runs its loop: not cancelled and not in the failure handler. */
  predicate Looping(b: Keepalive) {
    b.pc != Ended && b.pc != KeepalivePc.Failing && !b.cancelled
  }

  /** No keepalive enters its loop, and one that loses its reference leaves it. */
  predicate LoopsEnd(b: Beats, d: Beats) {
    && (forall k | k in d.all && Looping(d.all[k]) :: k in b.all && Looping(b.all[k]))
    && (d.task == b.task
        || (d.task == None && forall k | k in d.all && Looping(d.all[k]) :: b.task != Some(k)))
  }

  predicate Background(s: State, r: State) {
    && CallsEnd(s.controls, r.controls) && Grows(s.mail, r.mail) && LoopsEnd(s.beats, r.beats)
    && r.era.failed >= s.era.failed
  }

  lemma BeginBackground(s: State, t: Tearer)
    requires t.THandler? ==> OwnerFails(s, t.owner)
    requires t.THandler? && t.owner.ByKeepalive? && t.owner.k in s.beats.all ==> !Looping(s.beats.all[t.owner.k])
    ensures Background(s, BeginTeardown(s, t)) && BeginTeardown(s, t).beats.task == None
  {
    BeginEffect(s, t);
    BeginDropsReference(s, t);
  }

  lemma BeginDropsReference(s: State, t: Tearer)
    ensures BeginTeardown(s, t).beats.task == None
    ensures s.beats.task.Some? && !(t.THandler? && t.owner == ByKeepalive(s.beats.task.value)) ==>
              var k := s.beats.task.value;
              k in BeginTeardown(s, t).beats.all ==> BeginTeardown(s, t).beats.all[k].cancelled
  {
  }

  lemma ContinueKeepsReference(s: State, t: Tearer, at: TearPoint)
    ensures ContinueTeardown(s, t, at).beats.task == s.beats.task
  {
  }

  lemma ContinueBackground(s: State, t: Tearer, at: TearPoint)
    requires t.THandler? ==> OwnerFails(s, t.owner)
    ensures Background(s, ContinueTeardown(s, t, at)) && ContinueTeardown(s, t, at).beats.task == s.beats.task
  {
    ContinueEffect(s, t, at);
    ContinueKeepsReference(s, t, at);
  }

  lemma ResumeBackground(s: State, owner: Owner)
    requires OwnerFails(s, owner)
    ensures Background(s, Resume(s, owner)) && Resume(s, owner).beats.task == s.beats.task
  {
    ResumeEffect(s, owner);
  }

  lemma RecordBackground(s: State, error: Error)
    ensures Background(s, RecordFailure(s, error))
    ensures RecordFailure(s, error).beats == s.beats && RecordFailure(s, error).controls == s.controls
  {
  }

  lemma BackgroundTwice(s: State, r: State, x: State)
    requires Background(s, r) && r.controls == s.controls && r.beats == s.beats && Background(r, x)
    ensures Background(s, x)
  {
  }

  lemma FailureBackground(s: State, error: Error, owner: Owner)
    requires OwnerFails(s, owner)
    requires owner.ByKeepalive? && owner.k in s.beats.all ==> !Looping(s.beats.all[owner.k])
    ensures Background(s, HandleFailure(s, error, owner))
  {
    if s.link.failure.Some? || s.link.status == Disconnected {
      ResumeBackground(s, owner);
    } else {
      var s1 := RecordFailure(s, error);
      RecordBackground(s, error);
      if s.link.closing {
        ResumeBackground(s1, owner);
      } else {
        BeginBackground(s1, THandler(owner, error));
      }
      BackgroundTwice(s, s1, HandleFailure(s, error, owner));
    }
  }

  lemma MailedGrows(s: State, m: Message)
    ensures Grows(s.mail, Mailed(s, m).mail)
  {
  }

  lemma AbsorbBackground(s: State, m: Message)
    ensures Background(s, Absorb(s, m))
  {
    AbsorbFrame(s, m);
    AbsorbMail(s, m);
    MailedGrows(s, m);
  }

  lemma ProcessBackground(s: State, p: Payload, f: nat)
    ensures Background(s, WorkerProcess(s, p, f))
  {
    match PayloadError(s, p)
    case Some(error) => FailureBackground(s.(worker := InHandler(f)), error, ByWorker);
    case None => AbsorbBackground(s, p.message);
  }

  lemma NoticeBackground(s: State, e: NoticeEvent)
    requires NoticeEnabled(s, e)
    ensures Background(s, NoticeStep(s, e))
  {
    match e
    case Notify(p) =>
      if !s.inbox.workerSet {
        match PayloadError(s, p) {
          case Some(error) => FailureBackground(s, error, Inline);
          case None => AbsorbBackground(s, p.message);
        }
      }
    case WorkerGet =>
      if s.inbox.notices[0].Notice? {
        ProcessBackground(s.(inbox := Popped(s.inbox)), s.inbox.notices[0].payload, s.inbox.notices[0].future);
      }
    case UpdateCallbackReturns =>
  }

  lemma HandlerBackground(s: State, e: HandlerEvent)
    requires Tasks(s) && HandlerEnabled(s, e)
    ensures Background(s, HandlerStep(s, e))
  {
    match e
    case HandlerTearStep => ContinueBackground(s, THandler(s.handler.owner, s.handler.error), s.handler.at);
    case LossCallbackReturns => ResumeBackground(s.(handler := NoHandler), s.handler.owner);
  }

  lemma BeatBackground(s: State, k: nat, e: BeatEvent)
    requires BeatEnabled(s, k, e)
    ensures Background(s, BeatStep(s, k, e))
  {
    match e
    case Locks =>
      if s.data.deviceId.None? {
        FailureBackground(SetKeepalive(s, k, KeepalivePc.Failing), NoIdentity, ByKeepalive(k));
      }
    case Lost(error) =>
      FailureBackground(SetKeepalive(s.(lock := Free), k, KeepalivePc.Failing), error, ByKeepalive(k));
    case _ =>
  }

  lemma AbortBackground(s: State)
    ensures Background(s, AbortConnect(s)) && AbortConnect(s).beats.task == None
  {
    BeginBackground(s, TLife(ConnectFailed));
  }

  lemma WaitBackground(s: State, want: Method)
    ensures Background(s, BeginWait(s, want))
  {
    AbortBackground(s);
  }

  lemma RequestBackground(s: State, kind: Kind, next: Lifecycle)
    ensures Background(s, SendOrAbort(s, kind, next))
  {
    AbortBackground(s);
  }

  lemma ProceedBackground(s: State)
    ensures Background(s, ConnectGoesOn(s))
  {
    match s.life
    case Subscribing => WaitBackground(s, Blespp);
    case SppDelay => RequestBackground(s, GetInfo, WritingInfo);
    case WritingInfo => WaitBackground(s, GetInfoRsp);
    case ReadDelay => RequestBackground(s, InitialRead, WritingRead);
    case WritingRead => WaitBackground(s, Report);
    case _ =>
  }

  /** Steps of the lifecycle holder other than a take from its queue. */
  lemma LifeBackground(s: State, e: LifeEvent)
    requires LifeEnabled(s, e) && e != Get
    ensures Background(s, LifeStep(s, e))
  {
    match e
    case Connect =>
    case Proceed => ProceedBackground(s);
    case CallFails => AbortBackground(s);
    case Timeout => AbortBackground(s);
    case Disconnect => BeginBackground(s.(link := s.link.(closing := true)), TLife(UserDisconnect));
    case TearStep => ContinueBackground(s, TLife(s.life.reason), s.life.at);
  }

  /** The handshake's take leaves the calls and every other queue; only its end makes a keepalive. */
  predicate TakesOne(s: State, q: nat, r: State) {
    && r.controls == s.controls && r.era.failed == s.era.failed
    && |s.mail.heap| <= |r.mail.heap|
    && (forall p | 0 <= p < |s.mail.heap| && p != q :: r.mail.heap[p] == s.mail.heap[p])
    && (LoopsEnd(s.beats, r.beats)
        || (s.life.Awaiting? && s.life.want == Report && r.life == Idle
            && r.beats == Beats(Some(s.era.session), s.beats.all[s.era.session := Keepalive(Sleeping, false)])))
  }

  lemma AbortTakes(s: State)
    ensures var r := AbortConnect(s);
            && LoopsEnd(s.beats, r.beats) && r.controls == s.controls && r.era.failed == s.era.failed
            && |s.mail.heap| <= |r.mail.heap| && (forall p | 0 <= p < |s.mail.heap| :: r.mail.heap[p] == s.mail.heap[p])
  {
    AbortBackground(s);
    BeginEffect(s, TLife(ConnectFailed));
    AbortKeepsCalls(s);
  }

  lemma AbortKeepsCalls(s: State)
    ensures AbortConnect(s).controls == s.controls
  {
  }

  lemma JudgeTakes(s: State, item: Item, position: nat)
    requires s.life.Awaiting?
    requires s.life.want == Blespp || s.life.want == GetInfoRsp || s.life.want == Report
    ensures TakesOne(s, s.life.queue, HandshakeJudge(s, item, s.life.want, position))
  {
    AbortTakes(s);
    AbortTakes(s.(stream := s.stream.(accepted := s.stream.accepted + [position])));
  }

  lemma GetTakes(s: State)
    requires s.life.Awaiting? && Queue(s.mail, s.life.queue) != []
    requires s.life.want == Blespp || s.life.want == GetInfoRsp || s.life.want == Report
    ensures TakesOne(s, s.life.queue, HandshakeTake(s, s.life.want, s.life.queue))
  {
    JudgeTakes(s.(mail := TakeFrom(s.mail, s.life.queue), stream := Taken(s.stream, s.link.failure.Some?)),
               s.mail.heap[s.life.queue][0], s.stream.taken);
  }

  // ---- Control calls ----------------------------------------------------

  /** The step of one call leaves the others; its failing write ends calls in the handler only. */
  predicate OneCall(s: State, c: nat, r: State) {
    && (forall x | x in s.controls && x != c ::
          x in r.controls
          && (r.controls[x] == s.controls[x]
              || (s.controls[x].pc.FailingWrite? && r.controls[x].pc.Done?)))
    && r.controls.Keys == s.controls.Keys + {c}
    && LoopsEnd(s.beats, r.beats) && r.era.failed >= s.era.failed
  }

  lemma CallLostEffect(s: State, c: nat, error: Error)
    requires CallSends(s, c)
    ensures OneCall(s, c, ControlWriteFails(s, c, error))
    ensures Grows(s.mail, ControlWriteFails(s, c, error).mail)
    ensures !CallAwaits(ControlWriteFails(s, c, error), c)
  {
    FailureBackground(SetControl(s, c, FailingWrite(IdOf(s.controls[c].pc))), error, ByControl(c));
  }

  lemma CallEffect(s: State, c: nat, e: CallEvent)
    requires CallEnabled(s, c, e)
    ensures OneCall(s, c, CallStep(s, c, e))
    ensures e != AckGet ==> Grows(s.mail, CallStep(s, c, e).mail)
  {
    match e
    case CallLost(error) => CallLostEffect(s, c, error);
    case AckGet => TakeFrame(s, c);
    case _ =>
  }
}
