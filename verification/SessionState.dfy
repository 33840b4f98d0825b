/**
  The state a session holds is the fold of the reports its worker took: this joins
  the protocol to report merging.
 */
module SessionState {
  import opened Wrappers
  import opened Session
  import opened Reports
  import opened ReportTheorems
  import opened TaskInvariant
  import opened TeardownEffect
  import opened QueueInvariant
  import opened Invariant
  import opened MessageLaw
  import opened SessionTheorems

  /** The reports among the payloads, in order. */
  function ReportsOf(payloads: seq<Payload>): seq<Message> {
    if payloads == [] then []
    else
      var last := payloads[|payloads| - 1];
      ReportsOf(payloads[..|payloads| - 1])
      + if last.Decoded? && last.message.kind == Report then [last.message] else []
  }

  /** The state without its device id, which BLESPP sets too. */
  function Body(s: SolarFlowState): SolarFlowState {
    s.(deviceId := None)
  }

  lemma ReportBody(a: SolarFlowState, b: SolarFlowState, m: Message)
    requires Body(a) == Body(b)
    ensures Body(WithReport(a, m)) == Body(WithReport(b, m))
  {
  }

  /** A session without a failure whose worker still has its reference. */
  predicate Live(s: State) {
    s.link.failure.None? && s.inbox.workerSet
  }

  /** The payloads the worker has taken since the session was at position `start`. */
  function TakenSince(s: State, start: nat): seq<Payload>
    requires start <= s.inbox.started <= |s.inbox.arrived|
  {
    s.inbox.arrived[start..s.inbox.started]
  }

  ghost predicate Holds(s: State, base: SolarFlowState, start: nat) {
    Live(s) ==>
      && s.link.status != Disconnected
      && start <= s.inbox.started <= |s.inbox.arrived|
      && Body(s.data.state) == Body(Folded(base, ReportsOf(TakenSince(s, start))))
  }

  /** The step leaves the session's state and payloads alone, or ends its life. */
  predicate Untouched(s: State, r: State) {
    Live(r) ==>
      && Live(s) && (r.link.status == Disconnected ==> s.link.status == Disconnected)
      && r.inbox.arrived == s.inbox.arrived && r.inbox.started == s.inbox.started
      && Body(r.data.state) == Body(s.data.state)
      && r.stream.put == s.stream.put && (r.mail.waitActive ==> s.mail.waitActive)
  }

  lemma AbortUntouched(s: State)
    ensures Untouched(s, AbortConnect(s))
  {
  }

  lemma DisconnectUntouched(s: State)
    ensures Untouched(s, BeginTeardown(s.(link := s.link.(closing := true)), TLife(UserDisconnect)))
  {
  }

  lemma LifeTearUntouched(s: State)
    requires s.life.LifeTearing? && PointSane(LifeAt(s.life), s.beats.all, s.inbox.workerSet)
    ensures Untouched(s, ContinueTeardown(s, TLife(s.life.reason), s.life.at))
  {
  }

  lemma FailureUntouched(s: State, error: Error, owner: Owner)
    requires OwnerFails(s, owner)
    ensures Untouched(s, HandleFailure(s, error, owner))
  {
    HandleEffect(s, error, owner);
  }

  lemma HandlerUntouched(s: State, e: HandlerEvent)
    requires Inv(s) && HandlerEnabled(s, e)
    ensures Untouched(s, HandlerStep(s, e))
  {
    HandlerWithin(s, e);
  }

  lemma BeatUntouched(s: State, k: nat, e: BeatEvent)
    requires BeatEnabled(s, k, e)
    ensures Untouched(s, BeatStep(s, k, e))
  {
    match e
    case Locks =>
      if s.data.deviceId.None? {
        FailureUntouched(SetKeepalive(s, k, KeepalivePc.Failing), NoIdentity, ByKeepalive(k));
      }
    case Lost(error) =>
      FailureUntouched(SetKeepalive(s.(lock := Free), k, KeepalivePc.Failing), error, ByKeepalive(k));
    case _ =>
  }

  lemma CallUntouched(s: State, c: nat, e: CallEvent)
    requires CallEnabled(s, c, e)
    ensures Untouched(s, CallStep(s, c, e))
  {
    match e
    case CallLost(error) =>
      FailureUntouched(SetControl(s, c, FailingWrite(IdOf(s.controls[c].pc))), error, ByControl(c));
    case AckGet => TakeFrame(s, c);
    case _ =>
  }

  lemma GetUntouched(s: State)
    requires LifeEnabled(s, Get)
    ensures Untouched(s, LifeStep(s, Get))
  {
    JudgeUntouched(s.(mail := TakeFrom(s.mail, s.life.queue), stream := Taken(s.stream, s.link.failure.Some?)),
                   s.mail.heap[s.life.queue][0], s.life.want, s.stream.taken);
  }

  lemma AcceptUntouched(s: State, m: Message)
    ensures Untouched(s, AcceptHandshake(s, m))
  {
    AbortUntouched(s);
  }

  lemma JudgeUntouched(s: State, item: Item, want: Method, position: nat)
    ensures Untouched(s, HandshakeJudge(s, item, want, position))
  {
    AbortUntouched(s);
    if item.Msg? && item.message.kind == want {
      AcceptUntouched(s.(stream := s.stream.(accepted := s.stream.accepted + [position])), item.message);
    }
  }

  lemma ProceedUntouched(s: State)
    requires s.life != Connecting
    ensures Untouched(s, ConnectGoesOn(s))
  {
    AbortUntouched(s);
  }

  lemma LifeUntouched(s: State, e: LifeEvent)
    requires Inv(s) && LifeEnabled(s, e) && s.life != Connecting && !Opens(s, OfLife(e))
    ensures Untouched(s, LifeStep(s, e))
  {
    match e
    case Connect =>
    case Proceed => ProceedUntouched(s);
    case CallFails => AbortUntouched(s);
    case Get => GetUntouched(s);
    case Timeout => AbortUntouched(s);
    case Disconnect => DisconnectUntouched(s);
    case TearStep => LifeTearUntouched(s);
  }

  // ---- The worker takes a payload ---------------------------------------

  lemma ApplyBody(s: State, m: Message)
    ensures ApplyMessage(s, m).data.state
            == if m.kind == Report then WithReport(s.data.state, m) else s.data.state
  {
  }

  lemma AbsorbBody(s: State, m: Message)
    ensures Absorb(s, m).data.state == if m.kind == Report then WithReport(s.data.state, m) else s.data.state
  {
    ApplyBody(s, m);
  }

  lemma TakenOneMore(i: Inbox, start: nat)
    requires start <= i.started < |i.arrived|
    ensures i.arrived[start..i.started + 1] == i.arrived[start..i.started] + [i.arrived[i.started]]
  {
  }

  lemma FoldedOneMore(base: SolarFlowState, payloads: seq<Payload>, p: Payload)
    ensures Folded(base, ReportsOf(payloads + [p]))
            == if p.Decoded? && p.message.kind == Report
               then WithReport(Folded(base, ReportsOf(payloads)), p.message)
               else Folded(base, ReportsOf(payloads))
  {
    assert (payloads + [p])[..|payloads|] == payloads;
    if p.Decoded? && p.message.kind == Report {
      var reports := ReportsOf(payloads);
      assert (reports + [p.message])[..|reports|] == reports;
    } else {
      assert ReportsOf(payloads + [p]) == ReportsOf(payloads);
    }
  }

  /** An accepted payload changes the state as its report does; a refused one fails the session. */
  lemma ProcessBody(s: State, p: Payload, f: nat)
    requires s.link.status != Disconnected
    ensures var r := WorkerProcess(s, p, f);
            Live(r) ==>
              && p.Decoded? && Live(s) && r.link.status != Disconnected
              && r.inbox.arrived == s.inbox.arrived && r.inbox.started == s.inbox.started
              && r.data.state == if p.message.kind == Report then WithReport(s.data.state, p.message) else s.data.state
  {
    match PayloadError(s, p)
    case Some(error) => HandleEffect(s.(worker := InHandler(f)), error, ByWorker);
    case None =>
      AbsorbFrame(s, p.message);
      AbsorbBody(s, p.message);
  }

  lemma OneMoreBody(state: SolarFlowState, base: SolarFlowState, payloads: seq<Payload>, p: Payload)
    requires Body(state) == Body(Folded(base, ReportsOf(payloads))) && p.Decoded?
    ensures Body(if p.message.kind == Report then WithReport(state, p.message) else state)
            == Body(Folded(base, ReportsOf(payloads + [p])))
  {
    FoldedOneMore(base, payloads, p);
    if p.message.kind == Report {
      ReportBody(state, Folded(base, ReportsOf(payloads)), p.message);
    }
  }

  /** One more payload taken, and its report, if it is one, folded into the state. */
  lemma TookOnePayload(s: State, r: State, base: SolarFlowState, start: nat)
    requires Live(s) && Live(r) && Holds(s, base, start) && s.inbox.started < |s.inbox.arrived|
    requires r.link.status != Disconnected
    requires r.inbox.arrived == s.inbox.arrived && r.inbox.started == s.inbox.started + 1
    requires Body(r.data.state)
             == Body(Folded(base, ReportsOf(TakenSince(s, start) + [s.inbox.arrived[s.inbox.started]])))
    ensures Holds(r, base, start)
  {
    TakenOneMore(s.inbox, start);
  }

  lemma TakeHolds(s: State, base: SolarFlowState, start: nat)
    requires Inv(s) && NoticeEnabled(s, WorkerGet) && Holds(s, base, start) && Live(WorkerTake(s))
    ensures Holds(WorkerTake(s), base, start)
  {
    TakeWasLive(s);
    if s.inbox.notices[0].Notice? {
      var s1 := s.(inbox := Popped(s.inbox));
      var p := s.inbox.notices[0].payload;
      ProcessBody(s1, p, s.inbox.notices[0].future);
      OneMoreBody(s.data.state, base, TakenSince(s, start), p);
      TookOnePayload(s, WorkerTake(s), base, start);
    }
  }

  lemma TakeWasLive(s: State)
    requires NoticeEnabled(s, WorkerGet) && Live(WorkerTake(s))
    ensures Live(s)
  {
    if s.inbox.notices[0].Notice? {
      var s1 := s.(inbox := Popped(s.inbox));
      var p, f := s.inbox.notices[0].payload, s.inbox.notices[0].future;
      match PayloadError(s1, p) {
        case Some(error) => FailureUntouched(s1.(worker := InHandler(f)), error, ByWorker);
        case None => AbsorbFrame(s1, p.message);
      }
    }
  }

  lemma NoticeHolds(s: State, e: NoticeEvent, base: SolarFlowState, start: nat)
    requires Inv(s) && NoticeEnabled(s, e) && Holds(s, base, start)
    ensures Holds(NoticeStep(s, e), base, start)
  {
    match e
    case Notify(p) =>
      if s.inbox.workerSet {
        QueuedHolds(s, p, base, start);
      } else {
        match PayloadError(s, p) {
          case Some(error) => FailureUntouched(s, error, Inline);
          case None => AbsorbFrame(s, p.message);
        }
      }
    case WorkerGet => if Live(WorkerTake(s)) { TakeHolds(s, base, start); }
    case UpdateCallbackReturns =>
  }

  lemma QueuedHolds(s: State, p: Payload, base: SolarFlowState, start: nat)
    requires Holds(s, base, start)
    ensures Holds(s.(inbox := Queued(s.inbox, p)), base, start)
  {
    var r := s.(inbox := Queued(s.inbox, p));
    if Live(r) {
      assert TakenSince(r, start) == TakenSince(s, start);
    }
  }

  lemma StepHolds(s: State, e: Event, base: SolarFlowState, start: nat)
    requires Inv(s) && Enabled(s, e) && !Opens(s, e) && s.life != Connecting && Holds(s, base, start)
    ensures Holds(Apply(s, e), base, start) && Apply(s, e).life != Connecting
  {
    StepWithin(s, e);
    match e
    case OfLife(l) =>
      LifeUntouched(s, l);
      ConnectsNoMore(s, l);
    case OfHandler(h) => HandlerUntouched(s, h);
    case OfNotices(n) => NoticeHolds(s, n, base, start);
    case OfKeepalive(k, b) => BeatUntouched(s, k, b);
    case OfControl(c, x) => CallUntouched(s, c, x);
  }

  lemma ConnectsNoMore(s: State, e: LifeEvent)
    requires LifeEnabled(s, e) && !Opens(s, OfLife(e)) && s.life != Connecting
    ensures LifeStep(s, e).life != Connecting
  {
    match e
    case Disconnect => BeginEffect(s.(link := s.link.(closing := true)), TLife(UserDisconnect));
    case TearStep => ContinueEffect(s, TLife(s.life.reason), s.life.at);
    case _ => BeginEffect(s, TLife(ConnectFailed));
  }

  lemma {:induction false} RunHolds(o: State, events: seq<Event>, base: SolarFlowState, start: nat)
    requires Inv(o) && o.life != Connecting && Holds(o, base, start)
    requires Run(o, events).Some? && NeverOpens(o, events)
    ensures Holds(Run(o, events).value, base, start) && Run(o, events).value.life != Connecting
  {
    if events != [] {
      var n := |events| - 1;
      NeverOpensBefore(o, events);
      RunHolds(o, events[..n], base, start);
      RunsKeepInv(o, events[..n]);
      StepHolds(Run(o, events[..n]).value, events[n], base, start);
    }
  }

  // ---- What the handshake's queue is offered ------------------------------

  /** The payloads' messages with a method the handshake's queue is offered, in order. */
  function OfferedOf(payloads: seq<Payload>): seq<Item> {
    if payloads == [] then []
    else
      var last := payloads[|payloads| - 1];
      OfferedOf(payloads[..|payloads| - 1])
      + if last.Decoded? && ForHandshake(last.message.kind) then [Msg(last.message)] else []
  }

  ghost predicate Offers(s: State, put: seq<Item>) {
    Live(s) && s.mail.waitActive ==>
      && s.link.status != Disconnected && s.inbox.started <= |s.inbox.arrived|
      && s.stream.put == put + OfferedOf(s.inbox.arrived[..s.inbox.started])
  }

  lemma OfferedOneMore(payloads: seq<Payload>, p: Payload)
    ensures OfferedOf(payloads + [p])
            == OfferedOf(payloads) + if p.Decoded? && ForHandshake(p.message.kind) then [Msg(p.message)] else []
  {
    assert (payloads + [p])[..|payloads|] == payloads;
  }

  lemma AbsorbPut(s: State, m: Message)
    requires s.mail.waitActive && s.mail.reports == s.stream.reports
    ensures Absorb(s, m).stream.put == s.stream.put + if ForHandshake(m.kind) then [Msg(m)] else []
  {
    AbsorbMail(s, m);
  }

  /** An accepted payload is offered as it is; a refused one fails the session. */
  lemma ProcessPut(s: State, p: Payload, f: nat)
    requires s.link.status != Disconnected && s.mail.reports == s.stream.reports
    ensures var r := WorkerProcess(s, p, f);
            Live(r) && r.mail.waitActive ==>
              && p.Decoded? && s.mail.waitActive && r.link.status != Disconnected
              && r.inbox.arrived == s.inbox.arrived && r.inbox.started == s.inbox.started
              && r.stream.put == s.stream.put + if ForHandshake(p.message.kind) then [Msg(p.message)] else []
  {
    match PayloadError(s, p)
    case Some(error) => HandleEffect(s.(worker := InHandler(f)), error, ByWorker);
    case None =>
      AbsorbFrame(s, p.message);
      if s.mail.waitActive {
        AbsorbPut(s, p.message);
      }
  }

  lemma TakeOffers(s: State, put: seq<Item>)
    requires Inv(s) && NoticeEnabled(s, WorkerGet) && Offers(s, put)
    requires Live(WorkerTake(s)) && WorkerTake(s).mail.waitActive
    ensures Offers(WorkerTake(s), put)
  {
    TakeWasLive(s);
    NoticeWithin(s, WorkerGet);
    if s.inbox.notices[0].Notice? {
      var p := s.inbox.notices[0].payload;
      ProcessPut(s.(inbox := Popped(s.inbox)), p, s.inbox.notices[0].future);
      TakenOneMore(s.inbox, 0);
      OfferedOneMore(s.inbox.arrived[..s.inbox.started], p);
      assert s.inbox.arrived[..s.inbox.started] + [p] == s.inbox.arrived[..s.inbox.started + 1];
    }
  }

  lemma NoticeOffers(s: State, e: NoticeEvent, put: seq<Item>)
    requires Inv(s) && NoticeEnabled(s, e) && Offers(s, put)
    ensures Offers(NoticeStep(s, e), put)
  {
    match e
    case Notify(p) =>
      if s.inbox.workerSet {
        assert Queued(s.inbox, p).arrived[..s.inbox.started] == s.inbox.arrived[..s.inbox.started];
      } else {
        match PayloadError(s, p) {
          case Some(error) => FailureUntouched(s, error, Inline);
          case None => AbsorbFrame(s, p.message);
        }
      }
    case WorkerGet => if Live(WorkerTake(s)) && WorkerTake(s).mail.waitActive { TakeOffers(s, put); }
    case UpdateCallbackReturns =>
  }

  lemma StepOffers(s: State, e: Event, put: seq<Item>)
    requires Inv(s) && Enabled(s, e) && !Opens(s, e) && s.life != Connecting && Offers(s, put)
    ensures Offers(Apply(s, e), put)
  {
    match e
    case OfLife(l) => LifeUntouched(s, l);
    case OfHandler(h) => HandlerUntouched(s, h);
    case OfNotices(n) => NoticeOffers(s, n, put);
    case OfKeepalive(k, b) => BeatUntouched(s, k, b);
    case OfControl(c, x) => CallUntouched(s, c, x);
  }

  lemma {:induction false} RunOffers(o: State, events: seq<Event>, put: seq<Item>)
    requires Inv(o) && o.life != Connecting && Offers(o, put)
    requires Run(o, events).Some? && NeverOpens(o, events)
    ensures Offers(Run(o, events).value, put) && Run(o, events).value.life != Connecting
  {
    if events != [] {
      var n := |events| - 1;
      NeverOpensBefore(o, events);
      RunOffers(o, events[..n], put);
      RunsKeepInv(o, events[..n]);
      var x := Run(o, events[..n]).value;
      StepOffers(x, events[n], put);
      StaysPastConnecting(x, events[n]);
    }
  }

  lemma StaysPastConnecting(s: State, e: Event)
    requires Inv(s) && Enabled(s, e) && !Opens(s, e) && s.life != Connecting
    ensures Apply(s, e).life != Connecting
  {
    if e.OfLife? {
      ConnectsNoMore(s, e.life);
    } else {
      StepWithin(s, e);
    }
  }

  // ---- Until the transport is connected no payload is queued -------------

  predicate NothingQueued(s: State) {
    s.life == Connecting ==> s.inbox.arrived == []
  }

  lemma ConnectingQueuesNothing(s: State, e: Event)
    requires Inv(s) && Enabled(s, e) && s.life == Connecting && !e.OfLife?
    ensures Apply(s, e).inbox.arrived == s.inbox.arrived
  {
    match e
    case OfNotices(n) => if n.Notify? { InlineQueuesNothing(s, n.payload); }
    case OfKeepalive(k, b) => BeatQueuesNothing(s, k, b);
    case OfControl(c, x) => CallQueuesNothing(s, c, x);
    case OfHandler(h) =>
  }

  lemma BeatQueuesNothing(s: State, k: nat, e: BeatEvent)
    requires BeatEnabled(s, k, e) && s.link.status == Disconnected
    ensures BeatStep(s, k, e).inbox == s.inbox
  {
  }

  lemma CallQueuesNothing(s: State, c: nat, e: CallEvent)
    requires CallEnabled(s, c, e) && s.link.status == Disconnected
    ensures CallStep(s, c, e).inbox == s.inbox
  {
  }

  lemma InlineQueuesNothing(s: State, p: Payload)
    requires !s.inbox.workerSet && s.link.status == Disconnected
    ensures Deliver(s, p).inbox.arrived == s.inbox.arrived
  {
    if PayloadError(s, p).None? {
      AbsorbFrame(s, p.message);
    }
  }

  lemma StepQueuesNothing(s: State, e: Event)
    requires Inv(s) && Enabled(s, e) && NothingQueued(s)
    ensures NothingQueued(Apply(s, e))
  {
    if s.life == Connecting && !e.OfLife? {
      ConnectingQueuesNothing(s, e);
    } else if !Opens(s, e) {
      if e.OfLife? {
        LeavesConnecting(s, e.life);
      } else {
        StepWithin(s, e);
      }
    }
  }

  lemma LeavesConnecting(s: State, e: LifeEvent)
    requires LifeEnabled(s, e) && !Opens(s, OfLife(e))
    ensures LifeStep(s, e).life != Connecting
  {
    if s.life == Connecting {
      BeginEffect(s, TLife(ConnectFailed));
    } else {
      ConnectsNoMore(s, e);
    }
  }

  lemma {:induction false} RunQueuesNothing(s: State, events: seq<Event>)
    requires Inv(s) && NothingQueued(s) && Run(s, events).Some?
    ensures NothingQueued(Run(s, events).value)
  {
    if events != [] {
      var n := |events| - 1;
      RunQueuesNothing(s, events[..n]);
      RunsKeepInv(s, events[..n]);
      StepQueuesNothing(Run(s, events[..n]).value, events[n]);
    }
  }

  // ---- The theorems -----------------------------------------------------

  /**
    From the moment the transport is connected, as long as no failure is recorded
    and the worker has its reference, the client's state, its device id aside, is the
    state it connected with after exactly the reports among the payloads the worker
    took, in order of their arrival.
   */
  lemma StateIsFoldOfReports(x: State, events: seq<Event>)
    requires Reachable(x) && x.life == Connecting
    requires Run(StartWorker(x), events).Some? && NeverOpens(StartWorker(x), events)
    ensures var r := Run(StartWorker(x), events).value;
            Live(r) ==>
              && r.inbox.started <= |r.inbox.arrived|
              && Body(r.data.state) == Body(Folded(x.data.state, ReportsOf(r.inbox.arrived[..r.inbox.started])))
  {
    ReachableInv(x);
    var run: seq<Event> :| Run(Initial(x.cfg), run) == Some(x);
    InitialInv(x.cfg);
    RunQueuesNothing(Initial(x.cfg), run);
    InvStep(x, OfLife(Proceed));
    var o := StartWorker(x);
    assert TakenSince(o, 0) == [];
    RunHolds(o, events, x.data.state, 0);
    var r := Run(o, events).value;
    if Live(r) {
      assert TakenSince(r, 0) == r.inbox.arrived[..r.inbox.started];
    }
  }

  /**
    As long as the handshake waits and the session has not failed, its queue was given
    exactly the messages the worker took that have a method it is offered, in order of
    their arrival, after what came before the transport was connected.
   */
  lemma QueueIsWhatArrived(x: State, events: seq<Event>)
    requires Reachable(x) && x.life == Connecting
    requires Run(StartWorker(x), events).Some? && NeverOpens(StartWorker(x), events)
    ensures var r := Run(StartWorker(x), events).value;
            Live(r) && r.mail.waitActive ==>
              && r.inbox.started <= |r.inbox.arrived|
              && r.stream.put == x.stream.put + OfferedOf(r.inbox.arrived[..r.inbox.started])
  {
    ReachableInv(x);
    var run: seq<Event> :| Run(Initial(x.cfg), run) == Some(x);
    InitialInv(x.cfg);
    RunQueuesNothing(Initial(x.cfg), run);
    InvStep(x, OfLife(Proceed));
    RunOffers(StartWorker(x), events, x.stream.put);
  }

  /**
    When no report came before the transport was connected, each typed field of a
    live session is the last integer its worker's reports carry for it, `raw` holds the
    last value of every known key, and the packs are one merge of all their entries.
   */
  lemma LiveStateIsLastReported(x: State, events: seq<Event>, f: Field, key: string)
    requires Reachable(x) && x.life == Connecting && x.data.state == EMPTY_STATE
    requires Run(StartWorker(x), events).Some? && NeverOpens(StartWorker(x), events)
    requires Live(Run(StartWorker(x), events).value)
    ensures var r := Run(StartWorker(x), events).value;
            && r.inbox.started <= |r.inbox.arrived|
            && var reports := ReportsOf(r.inbox.arrived[..r.inbox.started]);
               && Typed(r.data.state, f) == LastInt(reports, f)
               && Raw(r.data.state, key) == (if key in REPORT_KEYS then LastValue(reports, key) else None)
               && r.data.state.packs == MergedPacks([], PackEntries(reports))
  {
    StateIsFoldOfReports(x, events);
    var r := Run(StartWorker(x), events).value;
    var reports := ReportsOf(r.inbox.arrived[..r.inbox.started]);
    FieldsAreLastInts(reports, f);
    RawIsLastValues(reports, key);
    PacksAreMergedOnce(reports);
    BodyTells(r.data.state, Folded(EMPTY_STATE, reports), f, key);
  }

  lemma BodyTells(a: SolarFlowState, b: SolarFlowState, f: Field, key: string)
    requires Body(a) == Body(b)
    ensures Typed(a, f) == Typed(b, f) && Raw(a, key) == Raw(b, key) && a.packs == b.packs
  {
  }
}
