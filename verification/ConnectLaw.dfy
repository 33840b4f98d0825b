/** How `connect` goes from one point to the next, and how each of its calls and waits can end it. */
module ConnectLaw {
  import opened Wrappers
  import opened Session
  import opened Reports
  import opened TaskInvariant
  import opened TeardownEffect
  import opened LinkInvariant
  import opened StreamInvariant
  import opened Invariant
  import opened SessionTheorems

  /** The BLESPP message names a device, and the requested one if one was requested. */
  predicate NamesDevice(target: Option<string>, m: Message) {
    && m.deviceId.Str? && |m.deviceId.s| > 0
    && (target.Some? ==> target.value == m.deviceId.s)
  }

  /** Where a wait that starts now gets to: nowhere if a failure is recorded. */
  function WaitPoint(s: State, want: Method): Option<Lifecycle> {
    if s.link.failure.Some? then None else Some(Awaiting(want, s.mail.reports))
  }

  function RequestPoint(s: State, next: Lifecycle): Option<Lifecycle> {
    if s.data.deviceId.None? then None else Some(next)
  }

  /** Where `connect` gets to with the element it takes; None where it raises. */
  function TakePoint(s: State, item: Item): Option<Lifecycle>
    requires s.life.Awaiting?
  {
    match item
    case Closed(_) => None
    case Msg(m) =>
      if m.kind != s.life.want then (if s.link.failure.Some? then None else Some(s.life))
      else if m.kind == Blespp then (if NamesDevice(s.cfg.target, m) then Some(WritingOk) else None)
      else if m.kind == GetInfoRsp then Some(ReadDelay)
      else Some(Idle)
  }

  /** Where `connect` gets to with a step of its own; None where it raises. */
  function NextPoint(s: State, e: LifeEvent): Option<Lifecycle>
    requires LifeEnabled(s, e)
  {
    match e
    case Proceed =>
      (match s.life
       case Connecting => Some(Subscribing)
       case Subscribing => WaitPoint(s, Blespp)
       case WritingOk => Some(SppDelay)
       case SppDelay => RequestPoint(s, WritingInfo)
       case WritingInfo => WaitPoint(s, GetInfoRsp)
       case ReadDelay => RequestPoint(s, WritingRead)
       case _ => WaitPoint(s, Report))
    case Get => TakePoint(s, s.mail.heap[s.life.queue][0])
    case _ => None
  }

  /** `connect` is on its way out with an exception: its teardown is suspended, or over. */
  predicate Raises(s: State, r: State) {
    && ((r.life.LifeTearing? && r.life.reason == ConnectFailed) || (r.life == Idle && Blank(r)))
    && r.outbox == s.outbox && r.stream.accepted <= s.stream.accepted + [s.stream.taken]
    && (r.link.status == s.link.status || r.link.status == Disconnected)
    && r.beats.task == None
  }

  lemma AbortRaises(s: State)
    ensures Raises(s, AbortConnect(s)) && AbortConnect(s).stream == s.stream
  {
    BeginEffect(s, TLife(ConnectFailed));
    AbortDropsReference(s);
  }

  lemma AbortDropsReference(s: State)
    ensures AbortConnect(s).beats.task == None
  {
  }

  lemma ProceedGoes(s: State)
    requires ConnectSuspended(s.life)
    ensures var r := ConnectGoesOn(s);
            if NextPoint(s, Proceed).None? then Raises(s, r)
            else r.life == NextPoint(s, Proceed).value && r.stream == s.stream
  {
    AbortRaises(s);
  }

  /** What an accepted message changes besides the point. */
  predicate AcceptanceDoes(s: State, m: Message, r: State) {
    if m.kind == Blespp then
      && m.deviceId.Str?
      && r.data.deviceId == Some(m.deviceId.s) && r.data.state == s.data.state.(deviceId := Some(m.deviceId.s))
      && r.link == s.link && r.beats == s.beats
    else if m.kind == GetInfoRsp then
      r.data == s.data && r.link == s.link.(status := ProtocolReady) && r.beats == s.beats
    else Joined(r) && r.data == s.data && r.link.failure == s.link.failure
  }

  lemma TakeGoes(s: State, item: Item, position: nat)
    requires Linked(s) && s.life.Awaiting? && (s.link.failure.None? ==> s.data.identified || s.life.want == Blespp)
    ensures var r := HandshakeJudge(s, item, s.life.want, position);
            match TakePoint(s, item)
            case None => (r.life.LifeTearing? && r.life.reason == ConnectFailed) || (r.life == Idle && Blank(r))
            case Some(point) =>
              r.life == point
              && (Matches(item, s.life.want) ==> AcceptanceDoes(s, item.message, r))
              && (!Matches(item, s.life.want) ==> r == s)
  {
    AbortRaises(s);
    if Matches(item, s.life.want) {
      AbortRaises(s.(stream := s.stream.(accepted := s.stream.accepted + [position])));
    }
  }

  lemma TakeRaises(s: State, item: Item, position: nat)
    requires s.life.Awaiting? && TakePoint(s, item).None?
    ensures var r := HandshakeJudge(s, item, s.life.want, position);
            && r.outbox == s.outbox && r.beats.task == None
            && (r.link.status == s.link.status || r.link.status == Disconnected)
            && (r.stream.accepted == s.stream.accepted || r.stream.accepted == s.stream.accepted + [position])
  {
    AbortRaises(s);
    if Matches(item, s.life.want) {
      AbortRaises(s.(stream := s.stream.(accepted := s.stream.accepted + [position])));
    }
  }

  lemma GetGoes(s: State)
    requires Inv(s) && LifeEnabled(s, Get)
    ensures var r := LifeStep(s, Get);
            match TakePoint(s, s.mail.heap[s.life.queue][0])
            case None => Raises(s, r)
            case Some(point) => r.life == point
  {
    var s1 := s.(mail := TakeFrom(s.mail, s.life.queue), stream := Taken(s.stream, s.link.failure.Some?));
    var item := s.mail.heap[s.life.queue][0];
    TookOneIsLinked(s);
    TakeGoes(s1, item, s.stream.taken);
    if TakePoint(s1, item).None? {
      TakeRaises(s1, item, s.stream.taken);
    }
  }

  lemma TookOneIsLinked(s: State)
    requires Inv(s) && LifeEnabled(s, Get)
    ensures var s1 := s.(mail := TakeFrom(s.mail, s.life.queue), stream := Taken(s.stream, s.link.failure.Some?));
            Linked(s1) && (s.link.failure.None? ==> s.data.identified || s.life.want == Blespp)
  {
  }

  /**
    Every step of `connect`: a transport call that fails, a wait that times out, a
    sentinel, a recorded failure, a refused or a missing identity make it raise,
    with nothing sent; otherwise it gets to the next point of the handshake.
   */
  lemma ConnectGoesTo(s: State, e: LifeEvent)
    requires Reachable(s) && LifeEnabled(s, e) && Handshaking(s.life)
    ensures match NextPoint(s, e)
            case None => Raises(s, LifeStep(s, e))
            case Some(point) => LifeStep(s, e).life == point
  {
    ReachableInv(s);
    match e
    case Proceed => ProceedGoes(s);
    case Get => GetGoes(s);
    case _ => AbortRaises(s);
  }

  /**
    The message a wait accepts: BLESPP gives the client and its state the device's
    id, getInfo-rsp makes it protocol-ready, the report ends the handshake with a
    keepalive, READY unless the session failed. Another message is only consumed.
   */
  lemma AcceptanceChanges(s: State)
    requires Reachable(s) && LifeEnabled(s, Get)
    ensures var q := s.life.queue;
            var item := s.mail.heap[q][0];
            var r := LifeStep(s, Get);
            TakePoint(s, item).Some? ==>
              if Matches(item, s.life.want) then AcceptanceDoes(s, item.message, r)
              else r == s.(mail := s.mail.(heap := s.mail.heap[q := s.mail.heap[q][1..]]),
                           stream := s.stream.(taken := s.stream.taken + 1))
  {
    ReachableInv(s);
    TookOneIsLinked(s);
    TakeGoes(s.(mail := TakeFrom(s.mail, s.life.queue), stream := Taken(s.stream, s.link.failure.Some?)),
             s.mail.heap[s.life.queue][0], s.stream.taken);
  }

  /** The connected transport: a new worker on a new, empty queue, and status CONNECTED. */
  lemma WorkerStarts(s: State)
    requires s.life == Connecting
    ensures var r := LifeStep(s, Proceed);
            && r.link == s.link.(status := Connected) && r.worker == Getting
            && r.inbox == s.inbox.(notices := [], workerSet := true)
            && r.data == s.data && r.mail == s.mail && r.outbox == s.outbox && r.beats == s.beats
  {
  }

  /**
    A session opens with two new empty queues, its waits active, an empty state, the
    target identity, no failure, no last error and its cleanup still to come; what
    belongs to older tasks stays. A connected client is left alone.
   */
  lemma ConnectOpens(s: State)
    requires Reachable(s) && LifeEnabled(s, Connect)
    ensures var r := LifeStep(s, Connect);
            if s.link.status != Disconnected then r == s
            else
              && r.life == Connecting && r.link == Link(Disconnected, None, false, false)
              && |r.mail.heap| == |s.mail.heap| + 2 && s.mail.heap <= r.mail.heap
              && r.mail.reports == |s.mail.heap| && r.mail.writeResults == |s.mail.heap| + 1
              && r.mail.heap[r.mail.reports] == [] && r.mail.heap[r.mail.writeResults] == [] && r.mail.waitActive
              && r.data.state == EMPTY_STATE && r.data.deviceId == s.cfg.target && r.data.lastError == None
              && r.beats == s.beats && r.controls == s.controls && r.lock == s.lock
              && r.outbox.messageId == s.outbox.messageId && r.outbox.issued == s.outbox.issued
              && r.inbox.notices == s.inbox.notices && r.worker == s.worker && r.handler == s.handler
  {
    ReachableInv(s);
  }
}
