/** A task of an earlier session that can still write does break the order of some continuation. */
module Disturbance {
  import opened Json
  import opened Session
  import opened Reports
  import opened TaskInvariant
  import opened LinkInvariant
  import opened QueueInvariant
  import opened WireLanguage
  import opened Invariant
  import opened SessionTheorems
  import opened Reconnect

  /** The new session has not connected yet and nothing was written in it. */
  ghost predicate JustOpened(x: State) {
    Inv(x) && x.life == Connecting && x.outbox.wire == [] && x.stream.put == []
  }

  predicate Poised(x: State, k: nat) {
    KeepaliveRuns(x, k, WantsLock)
  }

  predicate Waiting(x: State, c: nat) {
    c in x.controls && x.controls[c].pc == WaitingLock
  }

  /** Whoever is sleeping or waiting for the lock still is. */
  ghost predicate KeepsWaiters(x: State, y: State) {
    && (forall k | Poised(x, k) :: Poised(y, k))
    && (forall k | KeepaliveRuns(x, k, Sleeping) :: KeepaliveRuns(y, k, Sleeping))
    && (forall c | Waiting(x, c) :: Waiting(y, c))
  }

  /** The step with which the holder of the lock gives it up. */
  function Release(x: State): Event {
    match x.lock
    case HeldByControl(c) =>
      OfControl(c, if c in x.controls && x.controls[c].pc.AwaitingAck? then AckTimeout else CallLost(InvalidPayload))
    case HeldByKeepalive(k) =>
      OfKeepalive(k, if k in x.beats.all && x.beats.all[k].cancelled then CancelledEnds else Wrote)
    case Free => OfLife(Proceed)
  }

  lemma CallReleases(x: State)
    requires JustOpened(x) && x.lock.HeldByControl?
    ensures Enabled(x, Release(x)) && !Opens(x, Release(x))
    ensures var y := Apply(x, Release(x));
            && y.lock == Free && y.life == x.life && y.outbox == x.outbox && y.stream == x.stream && y.cfg == x.cfg
            && KeepsWaiters(x, y)
  {
  }

  lemma BeatReleases(x: State)
    requires JustOpened(x) && x.lock.HeldByKeepalive?
    ensures Enabled(x, Release(x)) && !Opens(x, Release(x))
    ensures var y := Apply(x, Release(x));
            && y.lock == Free && y.life == x.life && y.outbox == x.outbox && y.stream == x.stream && y.cfg == x.cfg
            && KeepsWaiters(x, y)
  {
  }

  lemma HolderReleases(x: State)
    requires JustOpened(x) && x.lock != Free
    ensures Enabled(x, Release(x)) && !Opens(x, Release(x))
    ensures var y := Apply(x, Release(x));
            && y.lock == Free && y.life == x.life && y.outbox == x.outbox && y.stream == x.stream && y.cfg == x.cfg
            && KeepsWaiters(x, y)
  {
    if x.lock.HeldByControl? {
      CallReleases(x);
    } else {
      BeatReleases(x);
    }
  }

  lemma FreeTheLock(o: State, events: seq<Event>, x: State) returns (es: seq<Event>, y: State)
    requires Leads(o, events, x) && JustOpened(x)
    ensures Leads(o, es, y) && JustOpened(y) && y.lock == Free && y.cfg == x.cfg && KeepsWaiters(x, y)
  {
    if x.lock == Free {
      es, y := events, x;
    } else {
      HolderReleases(x);
      Extend(o, events, x, Release(x));
      InvStep(x, Release(x));
      es, y := events + [Release(x)], Apply(x, Release(x));
    }
  }

  // ---- Steps of a handshake without failures -----------------------------

  /** The tasks that wait for the lock are as they were. */
  predicate SameTasks(x: State, y: State) {
    y.beats == x.beats && y.controls == x.controls && y.lock == x.lock && y.cfg == x.cfg
  }

  /** The worker is idle and the handshake has taken everything queued for it. */
  ghost predicate Smooth(x: State) {
    && Inv(x) && x.link.failure.None? && Handshaking(x.life) && x.life != Connecting
    && x.worker == Getting && x.inbox.notices == [] && x.stream.taken == |x.stream.put|
  }

  /** The same with one message left for the handshake to take. */
  ghost predicate Served(x: State, m: Message) {
    && Inv(x) && x.link.failure.None? && x.life.Awaiting?
    && x.worker == Getting && x.inbox.notices == []
    && |x.stream.put| == x.stream.taken + 1 && x.stream.put[x.stream.taken] == Msg(m)
  }

  /** No report has arrived in the session, and none was offered to the handshake. */
  predicate NoReportYet(x: State) {
    && (forall i | 0 <= i < |x.inbox.arrived| && x.inbox.arrived[i].Decoded? ::
          x.inbox.arrived[i].message.kind != Report)
    && (forall i | 0 <= i < |x.stream.put| && x.stream.put[i].Msg? :: x.stream.put[i].message.kind != Report)
  }

  /** A message the worker absorbs for the handshake without calling back. */
  predicate Plain(x: State, m: Message) {
    && (m.kind == Blespp || (!x.cfg.updateCallback && m.deviceId == Null))
    && (m.kind == Blespp || m.kind == GetInfoRsp || m.kind == Report)
  }

  lemma StartsWorker(x: State)
    requires JustOpened(x)
    ensures var y := Apply(x, OfLife(Proceed));
            && Smooth(y) && SameTasks(x, y) && y.life == Subscribing && y.outbox == x.outbox
            && y.stream == x.stream && y.inbox.arrived == x.inbox.arrived
  {
    InvStep(x, OfLife(Proceed));
  }

  /** The handshake went on after a transport call or a timer. */
  ghost predicate WentOn(x: State, y: State) {
    && Smooth(y) && SameTasks(x, y) && y.data == x.data && y.stream == x.stream && y.inbox == x.inbox
    && match x.life
       case WritingOk => y.life == SppDelay
       case SppDelay => y.life == WritingInfo
       case WritingInfo => y.life.Awaiting? && y.life.want == GetInfoRsp
       case ReadDelay => y.life == WritingRead
       case WritingRead => y.life.Awaiting? && y.life.want == Report
       case _ => true
  }

  lemma Proceeds(x: State)
    requires Smooth(x) && ConnectSuspended(x.life) && x.data.deviceId.Some?
    ensures WentOn(x, Apply(x, OfLife(Proceed)))
  {
    InvStep(x, OfLife(Proceed));
  }

  lemma ProceedBy(o: State, events: seq<Event>, x: State) returns (es: seq<Event>, y: State)
    requires Leads(o, events, x) && Smooth(x) && ConnectSuspended(x.life) && x.data.deviceId.Some?
    ensures Leads(o, es, y) && WentOn(x, y)
  {
    Proceeds(x);
    Extend(o, events, x, OfLife(Proceed));
    es, y := events + [OfLife(Proceed)], Apply(x, OfLife(Proceed));
  }

  lemma BeginsWait(x: State)
    requires Smooth(x) && x.life == Subscribing
    ensures var y := Apply(x, OfLife(Proceed));
            && Smooth(y) && SameTasks(x, y) && y.life.Awaiting? && y.life.want == Blespp && y.outbox == x.outbox
            && y.stream == x.stream && y.inbox == x.inbox
  {
    InvStep(x, OfLife(Proceed));
  }

  lemma BeginWaitBy(o: State, events: seq<Event>, x: State) returns (es: seq<Event>, y: State)
    requires Leads(o, events, x) && Smooth(x) && x.life == Subscribing
    ensures Leads(o, es, y) && Smooth(y) && SameTasks(x, y) && y.life.Awaiting? && y.life.want == Blespp
    ensures y.outbox == x.outbox && y.stream == x.stream && y.inbox == x.inbox
  {
    BeginsWait(x);
    Extend(o, events, x, OfLife(Proceed));
    es, y := events + [OfLife(Proceed)], Apply(x, OfLife(Proceed));
  }

  /** A message was queued for the idle worker, and nothing else changed. */
  ghost predicate Heard(x: State, m: Message, y: State) {
    && Inv(y) && y == x.(inbox := y.inbox) && y.worker == Getting
    && |y.inbox.notices| == 1 && y.inbox.notices[0].Notice? && y.inbox.notices[0].payload == Decoded(m)
    && y.inbox.arrived == x.inbox.arrived + [Decoded(m)]
  }

  lemma Hears(x: State, m: Message)
    requires Smooth(x)
    ensures Heard(x, m, Apply(x, OfNotices(Notify(Decoded(m)))))
  {
    InvStep(x, OfNotices(Notify(Decoded(m))));
    assert x.inbox.workerSet;
  }

  lemma HearBy(o: State, events: seq<Event>, x: State, m: Message) returns (es: seq<Event>, y: State)
    requires Leads(o, events, x) && Smooth(x)
    ensures Leads(o, es, y) && Heard(x, m, y)
  {
    var arrives := OfNotices(Notify(Decoded(m)));
    Hears(x, m);
    Extend(o, events, x, arrives);
    es, y := events + [arrives], Apply(x, arrives);
  }

  /** The worker queued the message it took for the handshake. */
  ghost predicate PassedOn(x: State, m: Message, y: State) {
    && Served(y, m) && SameTasks(x, y) && y.life == x.life && y.outbox == x.outbox
    && y.data.deviceId == x.data.deviceId
    && y.stream.put == x.stream.put + [Msg(m)] && y.inbox.arrived == x.inbox.arrived
  }

  /** One message is left in the queue of the idle worker. */
  predicate OneNotice(x: State, m: Message) {
    && x.worker == Getting && x.link.failure.None? && Plain(x, m)
    && |x.inbox.notices| == 1 && x.inbox.notices[0].Notice? && x.inbox.notices[0].payload == Decoded(m)
  }

  lemma ServesFrame(x: State, m: Message)
    requires OneNotice(x, m)
    ensures var y := Apply(x, OfNotices(WorkerGet));
            && SameTasks(x, y) && y.life == x.life && y.outbox == x.outbox && y.data.deviceId == x.data.deviceId
            && y.inbox.arrived == x.inbox.arrived && y.inbox.notices == []
            && y.worker == Getting && y.link.failure.None?
  {
    AbsorbFrame(x.(inbox := Popped(x.inbox)), m);
  }

  lemma ServesQueue(x: State, m: Message)
    requires OneNotice(x, m) && x.mail.waitActive && x.mail.reports == x.stream.reports
    ensures var y := Apply(x, OfNotices(WorkerGet));
            y.stream == x.stream.(put := x.stream.put + [Msg(m)])
  {
    AbsorbMail(x.(inbox := Popped(x.inbox)), m);
  }

  lemma WaitsOnOwnQueue(x: State)
    requires Linked(x) && x.life.Awaiting? && x.link.failure.None?
    ensures x.mail.waitActive && x.mail.reports == x.stream.reports
  {
  }

  lemma Serves(x: State, m: Message)
    requires Inv(x) && x.life.Awaiting? && OneNotice(x, m) && x.stream.taken == |x.stream.put|
    ensures PassedOn(x, m, Apply(x, OfNotices(WorkerGet)))
  {
    InvStep(x, OfNotices(WorkerGet));
    WaitsOnOwnQueue(x);
    ServesFrame(x, m);
    ServesQueue(x, m);
  }

  lemma PassOnBy(o: State, events: seq<Event>, x: State, m: Message) returns (es: seq<Event>, y: State)
    requires Leads(o, events, x)
    requires Inv(x) && x.life.Awaiting? && OneNotice(x, m) && x.stream.taken == |x.stream.put|
    ensures Leads(o, es, y) && PassedOn(x, m, y)
  {
    Serves(x, m);
    Extend(o, events, x, OfNotices(WorkerGet));
    es, y := events + [OfNotices(WorkerGet)], Apply(x, OfNotices(WorkerGet));
  }

  lemma QueueHoldsOne(x: State, m: Message)
    requires Served(x, m)
    ensures Queue(x.mail, x.life.queue) == [Msg(m)] && Enabled(x, OfLife(Get))
  {
  }

  const HELLO: Message := Message(Blespp, Null, Str("D"), Null, Null, Null)

  lemma AcceptsHello(x: State)
    requires Served(x, HELLO) && x.life.want == Blespp && x.cfg.target.None?
    ensures Enabled(x, OfLife(Get))
    ensures var y := Apply(x, OfLife(Get));
            && Smooth(y) && SameTasks(x, y) && y.life == WritingOk && y.data.deviceId.Some?
            && y.stream.put == x.stream.put && y.inbox == x.inbox
            && |y.outbox.wire| == |x.outbox.wire| + 1
            && (x.outbox.wire == [] ==> y.outbox.wire[0].kind == BlesppOk)
  {
    QueueHoldsOne(x, HELLO);
    InvStep(x, OfLife(Get));
  }

  lemma ServedNoReport(x: State, m: Message, x1: State, y: State)
    requires x1.inbox.arrived == x.inbox.arrived + [Decoded(m)] && x1.stream == x.stream
    requires y.stream.put == x1.stream.put + [Msg(m)] && y.inbox.arrived == x1.inbox.arrived
    ensures m.kind != Report && NoReportYet(x) ==> NoReportYet(y)
  {
  }

  lemma AcceptHelloBy(o: State, events: seq<Event>, x: State) returns (es: seq<Event>, y: State)
    requires Leads(o, events, x) && Served(x, HELLO) && x.life.want == Blespp && x.cfg.target.None?
    requires x.outbox.wire == []
    ensures Leads(o, es, y) && Smooth(y) && SameTasks(x, y) && y.life == WritingOk && Speaks(y)
    ensures y.stream.put == x.stream.put && y.inbox == x.inbox
  {
    AcceptsHello(x);
    Extend(o, events, x, OfLife(Get));
    es, y := events + [OfLife(Get)], Apply(x, OfLife(Get));
  }

  /** A message arrives and the worker queues it for the handshake. */
  lemma Serve(o: State, events: seq<Event>, x: State, m: Message) returns (es: seq<Event>, y: State)
    requires Leads(o, events, x) && Smooth(x) && x.life.Awaiting? && Plain(x, m)
    ensures Leads(o, es, y) && Served(y, m)
    ensures SameTasks(x, y) && y.life == x.life && y.outbox == x.outbox && y.data.deviceId == x.data.deviceId
    ensures m.kind != Report && NoReportYet(x) ==> NoReportYet(y)
  {
    var es1, x1 := HearBy(o, events, x, m);
    es, y := PassOnBy(o, es1, x1, m);
    ServedNoReport(x, m, x1, y);
  }

  /** The client has an identity and has written nothing, or only BLESPP_OK. */
  ghost predicate Speaks(y: State) {
    && Inv(y) && y.data.deviceId.Some? && y.link.failure.None?
    && (y.outbox.wire == [] || (|y.outbox.wire| == 1 && y.outbox.wire[0].kind == BlesppOk))
  }

  lemma Greet(o: State, events: seq<Event>, x: State) returns (es: seq<Event>, y: State)
    requires Leads(o, events, x) && Smooth(x) && x.life == Subscribing && x.cfg.target.None? && x.outbox.wire == []
    ensures Leads(o, es, y) && Speaks(y) && SameTasks(x, y) && Smooth(y) && y.life == WritingOk
    ensures NoReportYet(x) ==> NoReportYet(y)
  {
    es, y := BeginWaitBy(o, events, x);
    es, y := Serve(o, es, y, HELLO);
    es, y := AcceptHelloBy(o, es, y);
  }

  lemma StartBy(o: State, events: seq<Event>, x: State) returns (es: seq<Event>, y: State)
    requires Leads(o, events, x) && JustOpened(x)
    ensures Leads(o, es, y) && Smooth(y) && SameTasks(x, y) && y.life == Subscribing && y.outbox == x.outbox
    ensures NoReportYet(x) ==> NoReportYet(y)
  {
    StartsWorker(x);
    Extend(o, events, x, OfLife(Proceed));
    es, y := events + [OfLife(Proceed)], Apply(x, OfLife(Proceed));
  }

  lemma TargetSpeaks(x: State)
    requires JustOpened(x) && x.cfg.target.Some?
    ensures Speaks(x)
  {
  }

  lemma IdentifyByHello(o: State, events: seq<Event>, x: State) returns (es: seq<Event>, y: State)
    requires Leads(o, events, x) && JustOpened(x) && x.cfg.target.None?
    ensures Leads(o, es, y) && Speaks(y) && SameTasks(x, y) && Smooth(y) && y.life == WritingOk
    ensures NoReportYet(x) ==> NoReportYet(y)
  {
    var es1, x1 := StartBy(o, events, x);
    es, y := Greet(o, es1, x1);
  }

  lemma Identify(o: State, events: seq<Event>, x: State) returns (es: seq<Event>, y: State)
    requires Leads(o, events, x) && JustOpened(x)
    ensures Leads(o, es, y) && Speaks(y) && SameTasks(x, y)
    ensures x.cfg.target.None? ==> Smooth(y) && y.life == WritingOk
    ensures NoReportYet(x) ==> NoReportYet(y)
  {
    if x.cfg.target.Some? {
      es, y := events, x;
      TargetSpeaks(x);
    } else {
      es, y := IdentifyByHello(o, events, x);
    }
  }

  // ---- The task of the earlier session writes ---------------------------

  lemma WriteBreaksOrder(y: State, k: Kind, z: State)
    requires Speaks(y) && (k == KeepaliveRead || k == Write)
    requires |z.outbox.wire| == |y.outbox.wire| + 1 && z.outbox.wire[..|y.outbox.wire|] == y.outbox.wire
    requires z.outbox.wire[|y.outbox.wire|].kind == k
    ensures !WritesInOrder(z)
  {
    var t := Kinds(z.outbox.wire);
    if y.outbox.wire == [] {
      assert t[0] == k;
    } else {
      assert t[1] == k;
    }
  }

  lemma KeepaliveBreaks(o: State, events: seq<Event>, x: State, k: nat) returns (es: seq<Event>, z: State)
    requires Leads(o, events, x) && JustOpened(x) && Poised(x, k)
    ensures Leads(o, es, z) && !WritesInOrder(z)
  {
    var es1, x1 := FreeTheLock(o, events, x);
    assert Poised(x1, k);
    var es2, y := Identify(o, es1, x1);
    var locks := OfKeepalive(k, Locks);
    assert Poised(y, k);
    Extend(o, es2, y, locks);
    es, z := es2 + [locks], Apply(y, locks);
    WriteBreaksOrder(y, KeepaliveRead, z);
  }

  lemma ControlBreaks(o: State, events: seq<Event>, x: State, c: nat) returns (es: seq<Event>, z: State)
    requires Leads(o, events, x) && JustOpened(x) && Waiting(x, c)
    ensures Leads(o, es, z) && !WritesInOrder(z)
  {
    var es1, x1 := FreeTheLock(o, events, x);
    assert Waiting(x1, c);
    var es2, y := Identify(o, es1, x1);
    var locks := OfControl(c, CallLocks);
    assert Waiting(y, c);
    Extend(o, es2, y, locks);
    es, z := es2 + [locks], Apply(y, locks);
    WriteBreaksOrder(y, Write, z);
  }

  /** A writing keepalive goes back to sleep. */
  lemma Settles(o: State, events: seq<Event>, x: State, k: nat) returns (es: seq<Event>, y: State)
    requires Leads(o, events, x) && JustOpened(x) && k in x.beats.all && LiveBeat(x.beats.all[k])
    ensures Leads(o, es, y) && JustOpened(y) && (Poised(y, k) || KeepaliveRuns(y, k, Sleeping))
  {
    if x.beats.all[k].pc == Writing {
      var wrote := OfKeepalive(k, Wrote);
      Extend(o, events, x, wrote);
      InvStep(x, wrote);
      es, y := events + [wrote], Apply(x, wrote);
    } else {
      assert x.beats.all[k].pc != KeepalivePc.Failing;
      es, y := events, x;
    }
  }

  /** A live keepalive gets to where it wants the lock. */
  lemma Wakens(o: State, events: seq<Event>, x: State, k: nat) returns (es: seq<Event>, y: State)
    requires Leads(o, events, x) && JustOpened(x) && k in x.beats.all && LiveBeat(x.beats.all[k])
    ensures Leads(o, es, y) && JustOpened(y) && Poised(y, k)
  {
    es, y := Settles(o, events, x, k);
    if !Poised(y, k) {
      var wakes := OfKeepalive(k, Wakes);
      Extend(o, es, y, wakes);
      InvStep(y, wakes);
      es, y := es + [wakes], Apply(y, wakes);
    }
  }

  lemma StaleTaskBreaks(s: State) returns (es: seq<Event>, z: State)
    requires Inv(s) && Enabled(s, OfLife(Connect)) && Opens(s, OfLife(Connect)) && !Quiet(s)
    ensures Leads(OpenSession(s), es, z) && !WritesInOrder(z)
  {
    var o := OpenSession(s);
    InvStep(s, OfLife(Connect));
    assert Leads(o, [], o) && JustOpened(o);
    if exists k :: k in s.beats.all && LiveBeat(s.beats.all[k]) {
      var k :| k in s.beats.all && LiveBeat(s.beats.all[k]);
      var es1, y := Wakens(o, [], o, k);
      es, z := KeepaliveBreaks(o, es1, y, k);
    } else {
      var c :| c in s.controls && s.controls[c].pc == WaitingLock;
      es, z := ControlBreaks(o, [], o, c);
    }
  }

  /**
    Every continuation of a `connect` keeps all the session's writes in order if
    and only if, when it is called, no keepalive task of an earlier session is
    alive and no control call is waiting for the lock.
   */
  lemma OrderIffQuiet(s: State)
    requires Reachable(s) && s.link.status == Disconnected && Enabled(s, OfLife(Connect))
    ensures Quiet(s) <==> forall es, z | Leads(OpenSession(s), es, z) :: WritesInOrder(z)
  {
    ReachableInv(s);
    if Quiet(s) {
      forall es, z | Leads(OpenSession(s), es, z) ensures WritesInOrder(z) {
        QuietKeepsOrder(s, es);
      }
    } else {
      var es, z := StaleTaskBreaks(s);
    }
  }
}
