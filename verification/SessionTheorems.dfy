/** What holds of the client in every interleaving of its tasks. */
module SessionTheorems {
  import opened Wrappers
  import opened Session
  import opened Reports
  import opened TaskInvariant
  import opened TeardownEffect
  import opened LinkInvariant
  import opened QueueInvariant
  import opened StreamInvariant
  import opened IdentityInvariant
  import opened Json
  import opened AckInvariant
  import opened Invariant
  import opened StepEffect
  import opened LossNotice

  // ---- A failure wakes every wait ---------------------------------------

  /**
    A wait begun in a session that failed finds an element in its queue, the
    sentinel among them, so it is not blocked. The handshake takes at most one
    element after the failure.
   */
  lemma FailureWakesEveryWait(s: State)
    requires Reachable(s)
    ensures s.life.Awaiting? && s.link.failure.Some? ==>
              && Enabled(s, OfLife(Get))
              && HasClosed(Queue(s.mail, s.life.queue))
              && s.stream.lateTakes == 0
    ensures forall c | CallAwaits(s, c) && s.controls[c].pc.since in s.era.failed ::
              && Enabled(s, OfControl(c, AckGet))
              && HasClosed(Queue(s.mail, s.controls[c].pc.queue))
    ensures s.stream.lateTakes <= 1
  {
    ReachableInv(s);
  }

  // ---- What no step undoes ----------------------------------------------

  /** The reports queue's length, with room for the one sentinel still to come. */
  function Bound(s: State): nat {
    |Queue(s.mail, s.mail.reports)| + if s.link.failure.None? then 1 else 0
  }

  /** A step inside one session keeps its failure and, once the waits are over, its queue's bound. */
  predicate Within(s: State, r: State) {
    && r.cfg == s.cfg
    && r.era.session == s.era.session
    && (s.link.failure.Some? ==> r.link.failure == s.link.failure)
    && (!s.mail.waitActive ==> !r.mail.waitActive && Bound(r) <= Bound(s))
  }

  lemma TearWithin(s: State, t: Tearer, r: State)
    requires TearEffect(s, t, r)
    ensures Within(s, r) && (t.THandler? ==> r.life == s.life)
  {
  }

  lemma RecordWithin(s: State, error: Error)
    requires Queues(s) && s.link.failure.None?
    ensures Within(s, RecordFailure(s, error)) && RecordFailure(s, error).life == s.life
  {
  }

  lemma FailureWithin(s: State, error: Error, owner: Owner)
    requires Queues(s) && OwnerFails(s, owner)
    ensures Within(s, HandleFailure(s, error, owner)) && HandleFailure(s, error, owner).life == s.life
  {
    HandleEffect(s, error, owner);
    if s.link.failure.None? && s.link.status != Disconnected {
      RecordWithin(s, error);
      if !s.link.closing {
        TearWithin(RecordFailure(s, error), THandler(owner, error), HandleFailure(s, error, owner));
      }
    }
  }

  lemma AbsorbWithin(s: State, m: Message)
    requires Queues(s)
    ensures Within(s, Absorb(s, m)) && Absorb(s, m).life == s.life
  {
    AbsorbFrame(s, m);
    AbsorbMail(s, m);
  }

  lemma ProcessWithin(s: State, p: Payload, f: nat)
    requires Queues(s)
    ensures Within(s, WorkerProcess(s, p, f)) && WorkerProcess(s, p, f).life == s.life
  {
    match PayloadError(s, p)
    case Some(error) => FailureWithin(s.(worker := InHandler(f)), error, ByWorker);
    case None => AbsorbWithin(s, p.message);
  }

  lemma NoticeWithin(s: State, e: NoticeEvent)
    requires Queues(s) && NoticeEnabled(s, e)
    ensures Within(s, NoticeStep(s, e)) && NoticeStep(s, e).life == s.life
  {
    match e
    case Notify(p) =>
      if !s.inbox.workerSet {
        match PayloadError(s, p) {
          case Some(error) => FailureWithin(s, error, Inline);
          case None => AbsorbWithin(s, p.message);
        }
      }
    case WorkerGet =>
      if s.inbox.notices[0].Notice? {
        ProcessWithin(s.(inbox := Popped(s.inbox)), s.inbox.notices[0].payload, s.inbox.notices[0].future);
      }
    case UpdateCallbackReturns =>
  }

  lemma HandlerWithin(s: State, e: HandlerEvent)
    requires Inv(s) && HandlerEnabled(s, e)
    ensures Within(s, HandlerStep(s, e)) && HandlerStep(s, e).life == s.life
  {
    match e
    case HandlerTearStep =>
      var t := THandler(s.handler.owner, s.handler.error);
      ContinueEffect(s, t, s.handler.at);
      TearWithin(s, t, HandlerStep(s, e));
    case LossCallbackReturns => ResumeEffect(s.(handler := NoHandler), s.handler.owner);
  }

  lemma BeatWithin(s: State, k: nat, e: BeatEvent)
    requires Queues(s) && BeatEnabled(s, k, e)
    ensures Within(s, BeatStep(s, k, e)) && BeatStep(s, k, e).life == s.life
  {
    match e
    case Locks =>
      if s.data.deviceId.None? {
        FailureWithin(SetKeepalive(s, k, KeepalivePc.Failing), NoIdentity, ByKeepalive(k));
      }
    case Lost(error) => FailureWithin(SetKeepalive(s.(lock := Free), k, KeepalivePc.Failing), error, ByKeepalive(k));
    case _ =>
  }

  lemma CallLostWithin(s: State, c: nat, error: Error)
    requires Queues(s) && CallSends(s, c)
    ensures Within(s, ControlWriteFails(s, c, error)) && ControlWriteFails(s, c, error).life == s.life
  {
    FailureWithin(SetControl(s, c, FailingWrite(IdOf(s.controls[c].pc))), error, ByControl(c));
  }

  lemma AckGetWithin(s: State, c: nat)
    requires Queues(s) && CallAwaits(s, c) && Queue(s.mail, s.controls[c].pc.queue) != []
    ensures Within(s, ControlTake(s, c)) && ControlTake(s, c).life == s.life
  {
    assert s.controls[c].pc.queue % 2 == 1;
    assert s.mail.reports % 2 == 0;
  }

  lemma CallWithin(s: State, c: nat, e: CallEvent)
    requires Queues(s) && CallEnabled(s, c, e)
    ensures Within(s, CallStep(s, c, e)) && CallStep(s, c, e).life == s.life
  {
    match e
    case Called(_, _) =>
    case CallLocks =>
    case CallWrote =>
    case CallLost(error) => CallLostWithin(s, c, error);
    case AckGet => AckGetWithin(s, c);
    case AckTimeout =>
  }

  /** Every step except the opening of the next session. */
  predicate Opens(s: State, e: Event) {
    e == OfLife(Connect) && s.link.status == Disconnected
  }

  lemma AbortWithin(s: State)
    ensures Within(s, AbortConnect(s))
    ensures !AbortConnect(s).life.Awaiting?
  {
    BeginEffect(s, TLife(ConnectFailed));
    TearWithin(s, TLife(ConnectFailed), AbortConnect(s));
  }

  lemma JudgeWithin(s: State, item: Item, want: Method, position: nat)
    ensures Within(s, HandshakeJudge(s, item, want, position))
    ensures s.link.failure.Some? ==> !HandshakeJudge(s, item, want, position).life.Awaiting?
  {
    AbortWithin(s);
    if item.Msg? && item.message.kind == want {
      AbortWithin(s.(stream := s.stream.(accepted := s.stream.accepted + [position])));
    }
  }

  /** In a failed session no step of the lifecycle holder ends in a wait. */
  lemma LifeWithin(s: State, e: LifeEvent)
    requires Queues(s) && LifeEnabled(s, e) && !Opens(s, OfLife(e))
    ensures Within(s, LifeStep(s, e))
    ensures s.link.failure.Some? ==> !LifeStep(s, e).life.Awaiting?
  {
    match e
    case Connect =>
    case Proceed => AbortWithin(s);
    case CallFails => AbortWithin(s);
    case Get =>
      JudgeWithin(s.(mail := TakeFrom(s.mail, s.life.queue), stream := Taken(s.stream, s.link.failure.Some?)),
                  s.mail.heap[s.life.queue][0], s.life.want, s.stream.taken);
    case Timeout => AbortWithin(s);
    case Disconnect =>
      var s1 := s.(link := s.link.(closing := true));
      BeginEffect(s1, TLife(UserDisconnect));
      TearWithin(s1, TLife(UserDisconnect), LifeStep(s, e));
    case TearStep =>
      ContinueEffect(s, TLife(s.life.reason), s.life.at);
      TearWithin(s, TLife(s.life.reason), LifeStep(s, e));
  }

  lemma StepWithin(s: State, e: Event)
    requires Inv(s) && Enabled(s, e) && !Opens(s, e)
    ensures Within(s, Apply(s, e))
    ensures !e.OfLife? ==> Apply(s, e).life == s.life
    ensures e.OfLife? && s.link.failure.Some? ==> !Apply(s, e).life.Awaiting?
  {
    match e
    case OfLife(l) => LifeWithin(s, l);
    case OfHandler(h) => HandlerWithin(s, h);
    case OfNotices(n) => NoticeWithin(s, n);
    case OfKeepalive(k, b) => BeatWithin(s, k, b);
    case OfControl(c, x) => CallWithin(s, c, x);
  }

  /**
    After the failure every step of a waiting task ends its wait, and no step of
    any task begins a wait: what still waits is left exactly where it was. So a
    wait takes at most one more element until the next session is opened.
   */
  lemma NoWaitAfterFailure(s: State, e: Event)
    requires Reachable(s) && Enabled(s, e) && s.link.failure.Some? && !Opens(s, e)
    ensures var r := Apply(s, e);
            && r.link.failure == s.link.failure
            && (r.life.Awaiting? ==> r.life == s.life && !e.OfLife?)
            && (e.OfControl? ==> !CallAwaits(r, e.c))
            && forall x | CallAwaits(r, x) :: CallAwaits(s, x) && r.controls[x] == s.controls[x]
  {
    ReachableInv(s);
    StepWithin(s, e);
    if e.OfControl? {
      CallEndsWait(s, e.c, e.call);
    }
    NoWaitBegins(s, e);
  }

  lemma NoWaitBegins(s: State, e: Event)
    requires Inv(s) && Enabled(s, e) && s.link.failure.Some?
    ensures forall x | CallAwaits(Apply(s, e), x) ::
              CallAwaits(s, x) && Apply(s, e).controls[x] == s.controls[x]
  {
    match e
    case OfLife(l) => if l == Get { GetTakes(s); } else { LifeBackground(s, l); }
    case OfHandler(h) => HandlerBackground(s, h);
    case OfNotices(n) => NoticeBackground(s, n);
    case OfKeepalive(k, b) => BeatBackground(s, k, b);
    case OfControl(c, x) => CallBeginsNoWait(s, c, x);
  }

  lemma CallBeginsNoWait(s: State, c: nat, e: CallEvent)
    requires CallEnabled(s, c, e) && s.link.failure.Some?
    ensures forall x | CallAwaits(CallStep(s, c, e), x) ::
              CallAwaits(s, x) && CallStep(s, c, e).controls[x] == s.controls[x]
  {
    CallEndsWait(s, c, e);
    CallEffect(s, c, e);
  }

  lemma TakeEndsWait(s: State, c: nat)
    requires CallAwaits(s, c) && Queue(s.mail, s.controls[c].pc.queue) != [] && s.link.failure.Some?
    ensures !CallAwaits(ControlTake(s, c), c)
  {
  }

  lemma CallEndsWait(s: State, c: nat, e: CallEvent)
    requires CallEnabled(s, c, e) && s.link.failure.Some?
    ensures !CallAwaits(CallStep(s, c, e), c)
  {
    if e == AckGet {
      TakeEndsWait(s, c);
    }
  }

  // ---- One failure, one notice, one cleanup -----------------------------

  /**
    Per session: one recorded failure. The connection-lost callback, if there is
    one, is called exactly once and with that failure, once its teardown is over,
    unless it was first seen while closing; then it is never called. At most one
    stop and one disconnect of the transport, both made once cleanup is over.
   */
  lemma FailureReportedOnce(s: State)
    requires Reachable(s)
    ensures s.loss.recorded <= 1
    ensures s.loss.lost ==
            if s.link.failure.Some? && !s.loss.whileClosing && s.cfg.lostCallback && !s.handler.HandlerTearing?
            then [s.link.failure.value] else []
    ensures s.loss.stops <= 1 && s.loss.disconnects <= 1
    ensures s.link.cleanupDone && LifeAt(s.life) != Some(Unsubscribing)
            && HandlerAt(s.handler) != Some(Unsubscribing) ==>
              s.loss.stops == 1 && s.loss.disconnects == 1
  {
    ReachableInv(s);
    ReachableNotified(s);
  }

  /** No step but the opening of the next session replaces a recorded failure. */
  lemma FirstFailureStays(s: State, e: Event)
    requires Reachable(s) && Enabled(s, e) && s.link.failure.Some? && !Opens(s, e)
    ensures Apply(s, e).link.failure == s.link.failure
  {
    ReachableInv(s);
    StepWithin(s, e);
  }

  // ---- Notifications ----------------------------------------------------

  /**
    The worker's next payload is the earliest one whose future is not completed,
    futures are completed once and in order of arrival, a stop marker is always
    last, and a stopped worker has completed the future of every payload queued.
   */
  lemma NotificationsInOrder(s: State)
    requires Reachable(s)
    ensures s.inbox.completed == seq(|s.inbox.completed|, i => i) && |s.inbox.completed| <= |s.inbox.arrived|
    ensures Enabled(s, OfNotices(WorkerGet)) && s.inbox.notices[0].Notice? ==>
              var n := |s.inbox.completed|;
              n < |s.inbox.arrived| && s.inbox.notices[0] == Notice(s.inbox.arrived[n], n)
    ensures forall i | 0 <= i < |s.inbox.notices| && s.inbox.notices[i] == Stop ::
              i == |s.inbox.notices| - 1 && !s.inbox.workerSet
    ensures s.worker == Stopped ==> |s.inbox.completed| == |s.inbox.arrived| && s.inbox.notices == []
    ensures s.inbox.workerSet ==>
              |s.inbox.notices| + |s.inbox.completed| + (if Busy(s.worker) then 1 else 0) == |s.inbox.arrived|
  {
    ReachableInv(s);
  }

  // ---- The handshake ----------------------------------------------------

  /**
    A completed handshake accepted three messages of its own queue: the first
    BLESPP, the first getInfo-rsp after it and the first report after that. What
    lay between was discarded, and no sentinel lay before the last of them.
   */
  lemma HandshakeIsGreedy(s: State)
    requires Reachable(s) && s.era.session in s.beats.all
    ensures |s.stream.accepted| == 3 && Greedy(s.stream.put, s.stream.accepted)
    ensures forall b | Greedy(s.stream.put, b) && |b| == 3 :: b == s.stream.accepted
    ensures forall i | 0 <= i <= s.stream.accepted[2] :: s.stream.put[i].Msg?
  {
    ReachableInv(s);
    var put, a := s.stream.put, s.stream.accepted;
    forall b | Greedy(put, b) && |b| == 3 ensures b == a {
      GreedyUnique(put, b, a);
    }
    GreedyReach(put, a);
  }

  lemma {:induction false} GreedyReach(put: seq<Item>, a: seq<nat>)
    requires Greedy(put, a)
    ensures From(a) <= |put| && forall i | 0 <= i < From(a) :: put[i].Msg?
    decreases |a|
  {
    if a != [] {
      GreedyReach(put, a[..|a| - 1]);
    }
  }

  /** Without a failure a message of another method is consumed and changes nothing else. */
  lemma OthersAreDiscarded(s: State)
    requires Reachable(s) && Enabled(s, OfLife(Get)) && s.link.failure.None?
    ensures var q := s.life.queue;
            var item := s.mail.heap[q][0];
            && s.stream.taken < |s.stream.put| && item == s.stream.put[s.stream.taken]
            && item.Msg?
            && (item.message.kind != s.life.want ==>
                  Apply(s, OfLife(Get)) ==
                  s.(mail := s.mail.(heap := s.mail.heap[q := s.mail.heap[q][1..]]),
                     stream := s.stream.(taken := s.stream.taken + 1)))
  {
    ReachableInv(s);
  }

  // ---- How connect() ends -----------------------------------------------

  predicate Connects(life: Lifecycle) {
    Handshaking(life) || (life.LifeTearing? && life.reason == ConnectFailed)
  }

  /** What a raise of `connect` leaves behind. */
  predicate Blank(s: State) {
    && s.link.status == Disconnected
    && Queue(s.mail, s.mail.reports) == [] && Queue(s.mail, s.mail.writeResults) == [] && !s.mail.waitActive
    && s.data.state == EMPTY_STATE && s.data.deviceId == s.cfg.target
  }

  /** What a return of `connect` leaves behind. */
  predicate Joined(s: State) {
    && s.beats.task == Some(s.era.session) && KeepaliveRuns(s, s.era.session, Sleeping) && !s.mail.waitActive
    && (if s.link.failure.None? then s.link.status == Ready && s.data.identified && !s.era.over
        else s.link.status == Disconnected)
  }

  lemma AbortExit(s: State)
    ensures AbortConnect(s).life == Idle ==> Blank(AbortConnect(s))
    ensures AbortConnect(s).stream == s.stream
  {
    BeginEffect(s, TLife(ConnectFailed));
  }

  lemma TearExit(s: State)
    requires s.life.LifeTearing?
    ensures var r := ContinueTeardown(s, TLife(s.life.reason), s.life.at); r.life == Idle ==> Blank(r)
    ensures ContinueTeardown(s, TLife(s.life.reason), s.life.at).stream == s.stream
  {
    ContinueEffect(s, TLife(s.life.reason), s.life.at);
  }

  lemma FinishExit(s: State)
    requires Linked(s) && s.life.Awaiting? && s.life.want == Report && Identified(s)
    ensures Joined(FinishConnect(s)) && FinishConnect(s).stream == s.stream
  {
  }

  lemma JudgeExit(s: State, item: Item, position: nat)
    requires LinkCore(s) && Stage(s) && Identified(s) && s.life.Awaiting? && |s.stream.accepted| == Accepted(s.life)
    ensures var r := HandshakeJudge(s, item, s.life.want, position);
            r.life == Idle ==> if |r.stream.accepted| == 3 then Joined(r) else Blank(r)
  {
    AbortExit(s);
    if Matches(item, s.life.want) {
      var s1 := s.(stream := s.stream.(accepted := s.stream.accepted + [position]));
      AbortExit(s1);
      if s.life.want == Report {
        FinishExit(s1);
      }
    }
  }

  lemma GetExit(s: State)
    requires Inv(s) && s.life.Awaiting? && Queue(s.mail, s.life.queue) != []
    ensures var r := HandshakeTake(s, s.life.want, s.life.queue);
            r.life == Idle ==> if |r.stream.accepted| == 3 then Joined(r) else Blank(r)
  {
    JudgeExit(s.(mail := TakeFrom(s.mail, s.life.queue), stream := Taken(s.stream, s.link.failure.Some?)),
              s.mail.heap[s.life.queue][0], s.stream.taken);
  }

  lemma ProceedExit(s: State)
    requires Inv(s) && ConnectSuspended(s.life)
    ensures var r := ConnectGoesOn(s);
            r.stream == s.stream && |s.stream.accepted| < 3 && (r.life == Idle ==> Blank(r))
  {
    AbortExit(s);
  }

  /**
    `connect` ends in two ways. It returns after its third acceptance, READY if no
    failure was recorded meanwhile and disconnected if one was; or it raises, and
    leaves a disconnected client with fresh queues, an empty state and the target
    identity.
   */
  lemma ConnectEndsClean(s: State, e: LifeEvent)
    requires Reachable(s) && LifeEnabled(s, e) && Connects(s.life) && LifeStep(s, e).life == Idle
    ensures var r := LifeStep(s, e);
            if |s.stream.accepted| < 3 && |r.stream.accepted| == 3 then Joined(r) else Blank(r)
  {
    ReachableInv(s);
    if e == Get {
      GetExit(s);
      HandshakeHasFewer(s);
    } else {
      RaisingExit(s, e);
    }
  }

  lemma HandshakeHasFewer(s: State)
    requires Streamed(s) && s.life.Awaiting?
    ensures |s.stream.accepted| < 3
  {
  }

  /** Every end of `connect` but the take of its last report is a raise. */
  lemma RaisingExit(s: State, e: LifeEvent)
    requires Inv(s) && LifeEnabled(s, e) && Connects(s.life) && LifeStep(s, e).life == Idle && e != Get
    ensures Blank(LifeStep(s, e)) && LifeStep(s, e).stream == s.stream
  {
    match e
    case Proceed => ProceedExit(s);
    case CallFails => AbortExit(s);
    case Timeout => AbortExit(s);
    case TearStep => TearExit(s);
    case _ =>
  }

  // ---- Identity ---------------------------------------------------------

  /**
    The state never carries an identity other than the client's; from the BLESPP
    acceptance to the next reset they agree; a constructor id is the only one.
   */
  lemma IdentityNeverMixed(s: State)
    requires Reachable(s)
    ensures s.data.deviceId.Some? ==> s.data.state.deviceId.None? || s.data.state.deviceId == s.data.deviceId
    ensures s.data.identified ==> s.data.deviceId.Some? && s.data.state.deviceId == s.data.deviceId
    ensures s.cfg.target.Some? ==>
              && s.data.deviceId == s.cfg.target
              && (s.data.state.deviceId.None? || s.data.state.deviceId == s.cfg.target)
    ensures s.life == Idle && s.link.status == Ready && s.link.failure.None? ==> s.data.identified
  {
    ReachableInv(s);
  }

  // ---- Control calls ----------------------------------------------------

  /** At most one call is between the acquisition of the lock and the end of its wait. */
  lemma OneWriteInFlight(s: State, c: nat, d: nat)
    requires Reachable(s) && c in s.controls && d in s.controls
    requires HoldsLock(s.controls[c].pc) && HoldsLock(s.controls[d].pc)
    ensures c == d && s.lock == HeldByControl(c)
  {
    ReachableInv(s);
  }

  /** No control write is sent once a failure is recorded. */
  lemma WritesOnlyWithoutFailure(s: State, i: nat)
    requires Reachable(s) && i < |s.outbox.wire| && s.outbox.wire[i].kind == Write
    ensures !s.outbox.wire[i].late
  {
    ReachableInv(s);
  }

  /**
    A finished call succeeded, or was rejected, exactly when the last item it took is
    the first acknowledgement of its own write: a message with `writeRsp` that names
    its property or echoes its id, and whose `writeRsp` is zero or is not.
   */
  lemma FirstCorrelatedDecides(s: State, c: nat)
    requires Reachable(s) && c in s.controls && s.controls[c].pc.Done?
    ensures var ctl := s.controls[c];
            var decided := LastIsFirst(ctl.seen, ctl.property, ctl.pc.id);
            && (ctl.pc.outcome == Succeeded <==>
                  decided && IsZero(WriteRsp(ctl.seen[|ctl.seen| - 1].message).value))
            && (ctl.pc.outcome == CommandRejected <==>
                  decided && !IsZero(WriteRsp(ctl.seen[|ctl.seen| - 1].message).value))
            && (ctl.pc.outcome != Succeeded && ctl.pc.outcome != CommandRejected ==>
                  NoneFor(ctl.seen, ctl.property, ctl.pc.id))
  {
    ReachableInv(s);
    JudgedIsVerdict(s.controls[c]);
    LastDecides(s.controls[c].seen, s.controls[c].property, s.controls[c].pc.id);
  }

  lemma LastDecides(seen: seq<Item>, property: string, id: nat)
    ensures LastIsFirst(seen, property, id) ==> !NoneFor(seen, property, id)
  {
  }

  // ---- Message ids ------------------------------------------------------

  /** Over the client's whole life ids increase strictly and skip 1009. */
  lemma MessageIdsIncrease(s: State, i: nat, j: nat)
    requires Reachable(s) && i < j < |s.outbox.issued|
    ensures s.outbox.issued[i] < s.outbox.issued[j]
    ensures s.outbox.issued[i] == (if i + 1 < 1009 then i + 1 else i + 2) && s.outbox.issued[i] != 1009
  {
    ReachableInv(s);
  }

  /** An echoed id names at most one request. */
  lemma EchoNamesOneRequest(echo: Json, m: nat, n: nat)
    requires PrintsAs(echo, m) && PrintsAs(echo, n)
    ensures m == n
  {
    if echo.Str? {
      DecimalInjective(m, n);
    }
  }

  // ---- The reports queue after the handshake ----------------------------

  /** No step of the run opens a session. */
  ghost predicate NeverOpens(s: State, events: seq<Event>) {
    forall n | 0 <= n < |events| && Run(s, events[..n]).Some? :: !Opens(Run(s, events[..n]).value, events[n])
  }

  lemma NeverOpensBefore(s: State, events: seq<Event>)
    requires NeverOpens(s, events) && events != []
    ensures NeverOpens(s, events[..|events| - 1])
  {
    var init := events[..|events| - 1];
    forall n | 0 <= n < |init| && Run(s, init[..n]).Some? ensures !Opens(Run(s, init[..n]).value, init[n]) {
      assert init[..n] == events[..n];
    }
  }

  /** A continuation that opens no further session leads from o to x. */
  ghost predicate Leads(o: State, events: seq<Event>, x: State) {
    Run(o, events) == Some(x) && NeverOpens(o, events)
  }

  lemma Extend(o: State, events: seq<Event>, x: State, e: Event)
    requires Leads(o, events, x) && Enabled(x, e) && !Opens(x, e)
    ensures Leads(o, events + [e], Apply(x, e))
  {
    var es := events + [e];
    assert es[..|events|] == events;
    forall n | 0 <= n < |es| && Run(o, es[..n]).Some? ensures !Opens(Run(o, es[..n]).value, es[n]) {
      if n < |events| {
        assert es[..n] == events[..n];
      }
    }
  }

  lemma {:induction false} RunWithin(s: State, events: seq<Event>)
    requires Inv(s) && Run(s, events).Some? && NeverOpens(s, events)
    ensures Within(s, Run(s, events).value)
  {
    if events != [] {
      var init := events[..|events| - 1];
      NeverOpensBefore(s, events);
      RunWithin(s, init);
      RunsKeepInv(s, init);
      StepWithin(Run(s, init).value, events[|events| - 1]);
    }
  }

  /**
    Once no handshake waits, no stream of notifications makes the reports queue
    grow by more than the one sentinel of a failure.
   */
  lemma ReportsQueueBounded(s: State, events: seq<Event>)
    requires Reachable(s) && s.life == Idle && Run(s, events).Some? && NeverOpens(s, events)
    ensures var r := Run(s, events).value;
            |Queue(r.mail, r.mail.reports)| <= |Queue(s.mail, s.mail.reports)| + 1
    ensures s.link.failure.Some? ==>
              var r := Run(s, events).value;
              |Queue(r.mail, r.mail.reports)| <= |Queue(s.mail, s.mail.reports)|
  {
    ReachableInv(s);
    RunWithin(s, events);
  }
}
