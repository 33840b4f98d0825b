/**
  One SolarFlow client and every task that shares its fields, as a state
  machine (src/solarflow_ble/client.py). A step is the code one task runs
  between two suspension points. The functions here say what each step does to
  the fields, to the queues and to the program counters of the tasks.
 */
module Session {
  import opened Wrappers
  import opened Json
  import opened Reports

  const BLESPP_OK_MESSAGE_ID: nat := 1009

  datatype Status = Disconnected | Connected | ProtocolReady | Ready

  datatype Error = InvalidPayload | IdentityMismatch | NoIdentity | TransportError(code: int)

  /** What a notification carries: bytes that do not decode, or a message. */
  datatype Payload = Undecodable | Decoded(message: Message)

  /** An element of the reports or write-results queue; Closed is the sentinel. */
  datatype Item = Msg(message: Message) | Closed(error: Error)

  /** An element of the notification queue; Stop is the worker's stop marker. */
  datatype Entry = Notice(payload: Payload, future: nat) | Stop

  /** The constructor arguments that steer the protocol. */
  datatype Config = Config(
    target: Option<string>,
    allowControl: bool,
    updateCallback: bool,
    lostCallback: bool)

  datatype Kind = BlesppOk | GetInfo | InitialRead | KeepaliveRead | Write

  /** The `properties` of a request: none, the list `getAll`, or one property to set. */
  datatype Content = NoContent | GetAll | Setting(property: string, value: int)

  /**
    A message handed to the transport: `origin` is the session its task belongs
    to, `late` whether a failure was recorded when it was sent.
   */
  datatype Sent = Sent(kind: Kind, id: nat, content: Content, device: Option<string>, origin: nat, late: bool)

  // ---- Program counters -------------------------------------------------

  /** Where a running `_teardown` is suspended. */
  datatype TearPoint = JoinKeepalive(k: nat) | Unsubscribing | Disconnecting | JoinWorker

  datatype Reason = ConnectFailed | UserDisconnect

  /** The task that holds the lifecycle lock, if any. */
  datatype Lifecycle =
    | Idle
    | Connecting
    | Subscribing
    | Awaiting(want: Method, queue: nat)
    | WritingOk
    | SppDelay
    | WritingInfo
    | ReadDelay
    | WritingRead
    | LifeTearing(at: TearPoint, reason: Reason)

  datatype Owner = ByWorker | ByKeepalive(k: nat) | ByControl(c: nat) | Inline

  /** The session-failure handler that is past its run-once check, if any. */
  datatype Handler =
    | NoHandler
    | HandlerTearing(owner: Owner, error: Error, at: TearPoint)
    | NotifyingLoss(owner: Owner)

  datatype Worker = Stopped | Getting | InCallback(future: nat) | InHandler(future: nat)

  datatype KeepalivePc = Sleeping | WantsLock | Writing | Failing | Ended
  datatype Keepalive = Keepalive(pc: KeepalivePc, cancelled: bool)

  datatype Outcome = Succeeded | CommandRejected | TimedOut | ConnectionFailed | NotReady | Unidentified

  datatype ControlPc =
    | WaitingLock
    | Sending(id: nat)
    | AwaitingAck(id: nat, queue: nat, since: nat)
    | FailingWrite(id: nat)
    | Done(id: nat, outcome: Outcome)

  /** One control call; `began` is the session in which it passed the ready check. */
  datatype Control = Control(began: nat, property: string, value: int, pc: ControlPc, seen: seq<Item>)

  datatype Lock = Free | HeldByKeepalive(k: nat) | HeldByControl(c: nat)

  // ---- The shared state -------------------------------------------------
  // The client's fields, in groups. A field marked `history` is not in the
  // source: it records what happened, so that properties can be stated.

  /** `status`, `_session_failure`, `_closing` and `_cleanup_done`. */
  datatype Link = Link(status: Status, failure: Option<Error>, closing: bool, cleanupDone: bool)

  /** History of the current session's failure and of its transport cleanup. */
  datatype Loss = Loss(
    recorded: nat,            // failures recorded
    whileClosing: bool,       // the failure was first seen during disconnect()
    lost: seq<Error>,         // connection-lost callback calls
    stops: nat,               // transport stop_notify calls
    disconnects: nat)         // transport disconnect calls

  /** `state`, `device_id`, `last_error`, and the identity established (history). */
  datatype Data = Data(
    state: SolarFlowState,
    deviceId: Option<string>,
    lastError: Option<Message>,
    identity: Option<string>, // history: the identity this session established
    identified: bool)         // history: established and not reset since

  /** The queue heap, `_reports`, `_write_results` and `_reports_wait_active`. */
  datatype Mail = Mail(heap: seq<seq<Item>>, reports: nat, writeResults: nat, waitActive: bool)

  /** History of the handshake's queue, the one the session's own reset made. */
  datatype Stream = Stream(
    reports: nat,             // the session's reports queue
    results: nat,             // the session's write-results queue
    put: seq<Item>,           // everything put on the reports queue
    taken: nat,               // how much of it the handshake has taken
    accepted: seq<nat>,       // the positions in `put` the handshake accepted
    lateTakes: nat)           // takes by the handshake after the failure

  /** `_notification_queue`, whether `_notification_worker` is set, and history. */
  datatype Inbox = Inbox(
    notices: seq<Entry>,
    workerSet: bool,
    arrived: seq<Payload>,    // history: payloads queued for this session's worker
    started: nat,             // history: how many of them the worker has taken
    completed: seq<nat>)      // history: futures in the order they were completed

  /** `_message_id`, the session's transport writes and every id ever drawn. */
  datatype Outbox = Outbox(messageId: nat, wire: seq<Sent>, issued: seq<nat>)

  /** `_keepalive_task` and every keepalive task, keyed by its session. */
  datatype Beats = Beats(task: Option<nat>, all: map<nat, Keepalive>)

  /** History: the sessions opened, those that failed, and whether a teardown reset this one. */
  datatype Era = Era(session: nat, failed: set<nat>, over: bool)

  datatype State = State(
    cfg: Config,
    era: Era,
    link: Link,
    loss: Loss,
    data: Data,
    mail: Mail,
    stream: Stream,
    inbox: Inbox,
    outbox: Outbox,
    beats: Beats,
    controls: map<nat, Control>,
    lock: Lock,
    life: Lifecycle,
    handler: Handler,
    worker: Worker)

  const NO_LOSS: Loss := Loss(0, false, [], 0, 0)

  function Initial(cfg: Config): State {
    State(cfg, Era(0, {}, true), Link(Disconnected, None, false, false), NO_LOSS,
          Data(EMPTY_STATE, cfg.target, None, None, false), Mail([[], []], 0, 1, false),
          Stream(0, 1, [], 0, [], 0), Inbox([], false, [], 0, []), Outbox(1, [], []),
          Beats(None, map[]), map[], Free, Idle, NoHandler, Stopped)
  }

  // ---- Functions of the client that never suspend -----------------------

  function Append(heap: seq<seq<Item>>, q: nat, item: Item): seq<seq<Item>> {
    if q < |heap| then heap[q := heap[q] + [item]] else heap
  }

  function Queue(m: Mail, q: nat): seq<Item> {
    if q < |m.heap| then m.heap[q] else []
  }

  function FreshMail(m: Mail): Mail {
    Mail(m.heap + [[], []], |m.heap|, |m.heap| + 1, false)
  }

  /** `_reset_session`: fresh queues, empty state, the target identity. */
  function Reset(s: State): State {
    s.(mail := FreshMail(s.mail),
       data := s.data.(state := EMPTY_STATE, deviceId := s.cfg.target, identified := false))
  }

  function PutOn(st: Stream, q: nat, item: Item): Stream {
    if q == st.reports then st.(put := st.put + [item]) else st
  }

  function PutReport(s: State, item: Item): State {
    s.(mail := s.mail.(heap := Append(s.mail.heap, s.mail.reports, item)),
       stream := PutOn(s.stream, s.mail.reports, item))
  }

  /** `_enqueue_report`. */
  function EnqueueReport(s: State, m: Message): State {
    if s.mail.waitActive then PutReport(s, Msg(m)) else s
  }

  function PutWriteResult(s: State, item: Item): State {
    s.(mail := s.mail.(heap := Append(s.mail.heap, s.mail.writeResults, item)))
  }

  predicate CarriesWriteResult(m: Message) {
    m.properties.Obj? && "writeRsp" in m.properties.fields
  }

  /** `_apply_message`. */
  function ApplyMessage(s: State, m: Message): State {
    match m.kind
    case GetInfoRsp => EnqueueReport(s, m)
    case ReadReply => EnqueueReport(s, m)
    case Report =>
      var s1 := if CarriesWriteResult(m) then PutWriteResult(s, Msg(m)) else s;
      EnqueueReport(s1.(data := s1.data.(state := WithReport(s1.data.state, m))), m)
    case ErrorReport =>
      var s1 := if s.link.status != Disconnected then s.(data := s.data.(lastError := Some(m))) else s;
      EnqueueReport(s1, m)
    case _ => s
  }

  /** `_refresh_status`. */
  function RefreshStatus(s: State): State {
    if s.link.status == ProtocolReady then s.(link := s.link.(status := Ready)) else s
  }

  /** `_validate_message_identity`: whether the message's identity is refused. */
  predicate ForeignIdentity(s: State, m: Message) {
    m.deviceId != Null && s.data.deviceId.Some? && m.deviceId != Str(s.data.deviceId.value)
  }

  /** The protocol error a payload raises, if any. */
  function PayloadError(s: State, p: Payload): Option<Error> {
    match p
    case Undecodable => Some(InvalidPayload)
    case Decoded(m) =>
      if m.kind != Blespp && ForeignIdentity(s, m) then Some(IdentityMismatch) else None
  }

  /** What `_process_notification` does to the fields for an accepted message. */
  function Absorb(s: State, m: Message): State {
    match m.kind
    case Blespp => EnqueueReport(s, m)
    case UnhashableMethod => s
    case _ => RefreshStatus(ApplyMessage(s, m))
  }

  predicate ReachesCallback(s: State, m: Message) {
    s.cfg.updateCallback && m.kind != Blespp && m.kind != UnhashableMethod
  }

  /** `_next_message_id`: the value drawn from a counter. */
  function NextId(counter: nat): nat {
    if counter == BLESPP_OK_MESSAGE_ID then counter + 1 else counter
  }

  /** `_build_request` and the call into the transport that follows it at once. */
  function Send(s: State, kind: Kind, content: Content, origin: nat): State {
    var id := NextId(s.outbox.messageId);
    s.(outbox := Outbox(id + 1,
                        s.outbox.wire + [Sent(kind, id, content, s.data.deviceId, origin, s.link.failure.Some?)],
                        s.outbox.issued + [id]))
  }

  function SendOk(s: State): State {
    s.(outbox := s.outbox.(wire := s.outbox.wire +
         [Sent(BlesppOk, BLESPP_OK_MESSAGE_ID, NoContent, None, s.era.session, s.link.failure.Some?)]))
  }

  // ---- Tasks that go on -------------------------------------------------

  function SetKeepalive(s: State, k: nat, pc: KeepalivePc): State {
    if k in s.beats.all then s.(beats := s.beats.(all := s.beats.all[k := s.beats.all[k].(pc := pc)])) else s
  }

  /** The worker completes the future of one payload and asks for the next. */
  function Complete(s: State, future: nat): State {
    s.(worker := Getting, inbox := s.inbox.(completed := s.inbox.completed + [future]))
  }

  function SetControl(s: State, c: nat, pc: ControlPc): State {
    if c in s.controls then s.(controls := s.controls[c := s.controls[c].(pc := pc)]) else s
  }

  function IdOf(pc: ControlPc): nat {
    match pc
    case WaitingLock => 0
    case Sending(id) => id
    case AwaitingAck(id, _, _) => id
    case FailingWrite(id) => id
    case Done(id, _) => id
  }

  function EndControl(s: State, c: nat, outcome: Outcome): State {
    if c in s.controls then
      SetControl(s, c, Done(IdOf(s.controls[c].pc), outcome)).(
        lock := if s.lock == HeldByControl(c) then Free else s.lock)
    else s
  }

  /** The owner of a failure handler goes on after the handler returned. */
  function Resume(s: State, owner: Owner): State {
    match owner
    case ByWorker => if s.worker.InHandler? then Complete(s, s.worker.future) else s
    case ByKeepalive(k) => SetKeepalive(s, k, Ended)
    case ByControl(c) => EndControl(s, c, ConnectionFailed)
    case Inline => s
  }

  // ---- Teardown ---------------------------------------------------------

  datatype Tearer = TLife(reason: Reason) | THandler(owner: Owner, error: Error)

  function SuspendTear(s: State, t: Tearer, at: TearPoint): State {
    match t
    case TLife(reason) => s.(life := LifeTearing(at, reason))
    case THandler(owner, error) => s.(handler := HandlerTearing(owner, error, at))
  }

  function Cancelled(b: Beats, k: nat): Beats {
    Beats(None, if k in b.all then b.all[k := b.all[k].(cancelled := true)] else b.all)
  }

  /** `_teardown` up to its first suspension. */
  function BeginTeardown(s: State, t: Tearer): State {
    match s.beats.task
    case Some(k) =>
      if t.THandler? && t.owner == ByKeepalive(k) then CleanupTransport(s.(beats := s.beats.(task := None)), t)
      else SuspendTear(s.(beats := Cancelled(s.beats, k)), t, JoinKeepalive(k))
    case None => CleanupTransport(s, t)
  }

  /** `_cleanup_transport` up to its first suspension, or past it. */
  function CleanupTransport(s: State, t: Tearer): State {
    if s.link.cleanupDone then StopWorker(s, t)
    else
      SuspendTear(s.(link := s.link.(cleanupDone := true), loss := s.loss.(stops := s.loss.stops + 1)),
                  t, Unsubscribing)
  }

  function Stopping(i: Inbox): Inbox {
    i.(workerSet := false, notices := i.notices + [Stop])
  }

  /** `_stop_notification_worker` up to its suspension, or past it. */
  function StopWorker(s: State, t: Tearer): State {
    if !s.inbox.workerSet then FinishTeardown(s, t)
    else if t.THandler? && t.owner == ByWorker then FinishTeardown(s.(inbox := Stopping(s.inbox)), t)
    else SuspendTear(s.(inbox := Stopping(s.inbox)), t, JoinWorker)
  }

  /** The last two lines of `_teardown`. */
  function CloseSession(s: State): State {
    Reset(s.(link := s.link.(status := Disconnected), era := s.era.(over := true)))
  }

  /** The end of `_teardown`, and what its caller does next. */
  function FinishTeardown(s: State, t: Tearer): State {
    match t
    case TLife(reason) => LeaveLifecycle(CloseSession(s), reason)
    case THandler(owner, error) => ReportLoss(CloseSession(s), owner, error)
  }

  function LeaveLifecycle(s: State, reason: Reason): State {
    s.(life := Idle, link := if reason == UserDisconnect then s.link.(closing := false) else s.link)
  }

  function ReportLoss(s: State, owner: Owner, error: Error): State {
    if s.cfg.lostCallback
    then s.(handler := NotifyingLoss(owner), loss := s.loss.(lost := s.loss.lost + [error]))
    else Resume(s.(handler := NoHandler), owner)
  }

  /** A suspended teardown goes on from where it was suspended. */
  function ContinueTeardown(s: State, t: Tearer, at: TearPoint): State {
    match at
    case JoinKeepalive(_) => CleanupTransport(s, t)
    case Unsubscribing =>
      SuspendTear(s.(loss := s.loss.(disconnects := s.loss.disconnects + 1)), t, Disconnecting)
    case Disconnecting => StopWorker(s, t)
    case JoinWorker => FinishTeardown(s, t)
  }

  /** Whether the task a suspended teardown waits for has ended. */
  predicate JoinReady(s: State, at: TearPoint) {
    match at
    case JoinKeepalive(k) => k in s.beats.all ==> s.beats.all[k].pc == Ended
    case JoinWorker => s.worker == Stopped
    case _ => true
  }

  // ---- Session failure --------------------------------------------------

  /** Lines 284-287: the failure is recorded and both queues get a sentinel. */
  function RecordFailure(s: State, error: Error): State {
    PutWriteResult(PutReport(
      s.(link := s.link.(failure := Some(error), status := Disconnected),
         loss := s.loss.(recorded := s.loss.recorded + 1, whileClosing := s.link.closing),
         era := s.era.(failed := s.era.failed + {s.era.session})),
      Closed(error)), Closed(error))
  }

  /** `_handle_session_failure` up to its first suspension, called by `owner`. */
  function HandleFailure(s: State, error: Error, owner: Owner): State {
    if s.link.failure.Some? || s.link.status == Disconnected then Resume(s, owner)
    else if s.link.closing then Resume(RecordFailure(s, error), owner)
    else BeginTeardown(RecordFailure(s, error), THandler(owner, error))
  }

  // ---- The notification worker ------------------------------------------

  function Popped(i: Inbox): Inbox
    requires i.notices != []
  {
    i.(notices := i.notices[1..], started := i.started + if i.notices[0].Notice? then 1 else 0)
  }

  /** The worker takes the head of the notification queue. */
  function WorkerTake(s: State): State
    requires s.inbox.notices != []
  {
    var s1 := s.(inbox := Popped(s.inbox));
    match s.inbox.notices[0]
    case Stop => s1.(worker := Stopped)
    case Notice(p, f) => WorkerProcess(s1, p, f)
  }

  function WorkerProcess(s: State, p: Payload, f: nat): State {
    match PayloadError(s, p)
    case Some(error) => HandleFailure(s.(worker := InHandler(f)), error, ByWorker)
    case None =>
      if ReachesCallback(s, p.message) then Absorb(s, p.message).(worker := InCallback(f))
      else Complete(Absorb(s, p.message), f)
  }

  function Queued(i: Inbox, p: Payload): Inbox {
    i.(notices := i.notices + [Notice(p, |i.arrived|)], arrived := i.arrived + [p])
  }

  /** `_notification`: queued for the worker, or processed inline without one. */
  function Deliver(s: State, p: Payload): State {
    if s.inbox.workerSet then s.(inbox := Queued(s.inbox, p))
    else
      match PayloadError(s, p)
      case Some(error) => HandleFailure(s, error, Inline)
      case None => Absorb(s, p.message)
  }

  // ---- connect() and disconnect() ---------------------------------------

  /** Lines 174-178 of `connect`; the histories of a session start afresh. */
  function OpenSession(s: State): State {
    var m := FreshMail(s.mail);
    s.(era := s.era.(session := s.era.session + 1, over := false),
       link := s.link.(failure := None, cleanupDone := false),
       loss := NO_LOSS,
       data := Data(EMPTY_STATE, s.cfg.target, None, None, false),
       mail := m.(waitActive := true),
       stream := Stream(m.reports, m.writeResults, [], 0, [], 0),
       inbox := s.inbox.(arrived := [], started := 0, completed := []),
       outbox := s.outbox.(wire := []),
       life := Connecting)
  }

  /** Lines 181-185: the transport connected and the worker is created. */
  function StartWorker(s: State): State {
    s.(link := s.link.(status := Connected), inbox := s.inbox.(notices := [], workerSet := true),
       worker := Getting, life := Subscribing)
  }

  function AbortConnect(s: State): State { BeginTeardown(s, TLife(ConnectFailed)) }

  /** The entry of `_wait_for_method`. */
  function BeginWait(s: State, want: Method): State {
    if s.link.failure.Some? then AbortConnect(s) else s.(life := Awaiting(want, s.mail.reports))
  }

  /** What a request of the handshake asks for. */
  function Extra(kind: Kind): Content {
    if kind == InitialRead then GetAll else NoContent
  }

  /** `_build_request` raises without an identity; otherwise the request goes out. */
  function SendOrAbort(s: State, kind: Kind, next: Lifecycle): State {
    if s.data.deviceId.None? then AbortConnect(s) else Send(s, kind, Extra(kind), s.era.session).(life := next)
  }

  /** `_establish_identity` refuses this BLESPP message. */
  predicate BadIdentity(s: State, m: Message) {
    || !m.deviceId.Str?
    || m.deviceId.s == ""
    || (s.cfg.target.Some? && s.cfg.target.value != m.deviceId.s)
  }

  function EstablishIdentity(s: State, id: string): State {
    s.(data := Data(s.data.state.(deviceId := Some(id)), Some(id), s.data.lastError, Some(id), true))
  }

  /** What `connect` runs after the wait for `m.kind` returned `m`. */
  function AcceptHandshake(s: State, m: Message): State {
    match m.kind
    case Blespp =>
      if BadIdentity(s, m) then AbortConnect(s)
      else SendOk(EstablishIdentity(s, m.deviceId.s)).(life := WritingOk)
    case GetInfoRsp => s.(link := s.link.(status := ProtocolReady), life := ReadDelay)
    case _ => FinishConnect(s)
  }

  /** Lines 207-209 of `connect`. */
  function FinishConnect(s: State): State {
    RefreshStatus(s.(mail := s.mail.(waitActive := false))).(
      beats := Beats(Some(s.era.session), s.beats.all[s.era.session := Keepalive(Sleeping, false)]),
      life := Idle)
  }

  function TakeFrom(m: Mail, q: nat): Mail
    requires q < |m.heap| && m.heap[q] != []
  {
    m.(heap := m.heap[q := m.heap[q][1..]])
  }

  function Taken(st: Stream, late: bool): Stream {
    st.(taken := st.taken + 1, lateTakes := st.lateTakes + if late then 1 else 0)
  }

  /** The handshake's wait takes one item from its queue. */
  function HandshakeTake(s: State, want: Method, q: nat): State
    requires Queue(s.mail, q) != []
  {
    HandshakeJudge(s.(mail := TakeFrom(s.mail, q), stream := Taken(s.stream, s.link.failure.Some?)),
                   s.mail.heap[q][0], want, s.stream.taken)
  }

  function HandshakeJudge(s: State, item: Item, want: Method, position: nat): State {
    match item
    case Closed(_) => AbortConnect(s)
    case Msg(m) =>
      if m.kind == want then
        AcceptHandshake(s.(stream := s.stream.(accepted := s.stream.accepted + [position])), m)
      else if s.link.failure.Some? then AbortConnect(s)
      else s
  }

  /** The awaited call into the transport or the timer of `connect` returned. */
  function ConnectGoesOn(s: State): State {
    match s.life
    case Connecting => StartWorker(s)
    case Subscribing => BeginWait(s, Blespp)
    case WritingOk => s.(life := SppDelay)
    case SppDelay => SendOrAbort(s, GetInfo, WritingInfo)
    case WritingInfo => BeginWait(s, GetInfoRsp)
    case ReadDelay => SendOrAbort(s, InitialRead, WritingRead)
    case WritingRead => BeginWait(s, Report)
    case _ => s
  }

  predicate ConnectSuspended(life: Lifecycle) {
    life.Connecting? || life.Subscribing? || life.WritingOk? || life.SppDelay?
    || life.WritingInfo? || life.ReadDelay? || life.WritingRead?
  }

  // ---- Keepalive --------------------------------------------------------

  function KeepaliveAcquire(s: State, k: nat): State {
    if s.data.deviceId.None? then HandleFailure(SetKeepalive(s, k, Failing), NoIdentity, ByKeepalive(k))
    else SetKeepalive(Send(s, KeepaliveRead, GetAll, k), k, Writing).(lock := HeldByKeepalive(k))
  }

  function KeepaliveWriteFails(s: State, k: nat, error: Error): State {
    HandleFailure(SetKeepalive(s.(lock := Free), k, Failing), error, ByKeepalive(k))
  }

  function KeepaliveCancel(s: State, k: nat): State {
    SetKeepalive(s, k, Ended).(lock := if s.lock == HeldByKeepalive(k) then Free else s.lock)
  }

  // ---- Control calls ----------------------------------------------------

  function ControlBegin(s: State, c: nat, property: string, value: int): State {
    var pc := if s.cfg.allowControl && s.link.status == Ready then WaitingLock else Done(0, NotReady);
    s.(controls := s.controls[c := Control(s.era.session, property, value, pc, [])])
  }

  function ControlAcquire(s: State, c: nat): State
    requires c in s.controls
  {
    if s.link.failure.Some? then EndControl(s, c, ConnectionFailed)
    else if s.data.deviceId.None? then EndControl(s, c, Unidentified)
    else
      var ctl := s.controls[c];
      var s1 := Send(s, Write, Setting(ctl.property, ctl.value), ctl.began);
      SetControl(s1, c, Sending(NextId(s.outbox.messageId))).(lock := HeldByControl(c))
  }

  function ControlWriteFails(s: State, c: nat, error: Error): State
    requires c in s.controls
  {
    HandleFailure(SetControl(s, c, FailingWrite(IdOf(s.controls[c].pc))), error, ByControl(c))
  }

  function ControlAwaitAck(s: State, c: nat): State
    requires c in s.controls
  {
    if s.link.failure.Some? then EndControl(s, c, ConnectionFailed)
    else SetControl(s, c, AwaitingAck(IdOf(s.controls[c].pc), s.mail.writeResults, s.era.session))
  }

  /** The acknowledgement names this write, by property or by echoed id. */
  predicate Correlated(m: Message, property: string, id: nat) {
    && CarriesWriteResult(m)
    && (property in m.properties.fields || (m.messageId != Null && PrintsAs(m.messageId, id)))
  }

  predicate Acknowledges(m: Message) {
    CarriesWriteResult(m) && EqualsZero(m.properties.fields["writeRsp"])
  }

  /** A control call's wait takes one item from its queue. */
  function ControlTake(s: State, c: nat): State
    requires c in s.controls && s.controls[c].pc.AwaitingAck? && Queue(s.mail, s.controls[c].pc.queue) != []
  {
    var ctl := s.controls[c];
    var item := s.mail.heap[ctl.pc.queue][0];
    var s1 := s.(mail := TakeFrom(s.mail, ctl.pc.queue),
                 controls := s.controls[c := ctl.(seen := ctl.seen + [item])]);
    match item
    case Closed(_) => EndControl(s1, c, ConnectionFailed)
    case Msg(m) =>
      if Correlated(m, ctl.property, ctl.pc.id) then
        EndControl(s1, c, if Acknowledges(m) then Succeeded else CommandRejected)
      else if s1.link.failure.Some? then EndControl(s1, c, ConnectionFailed)
      else s1
  }

  // ---- Steps and runs ---------------------------------------------------

  /** Steps of the task that holds, or takes, the lifecycle lock. */
  datatype LifeEvent = Connect | Proceed | CallFails | Get | Timeout | Disconnect | TearStep

  /** Steps of the failure handler. */
  datatype HandlerEvent = HandlerTearStep | LossCallbackReturns

  /** Notifications and the worker that drains them. */
  datatype NoticeEvent = Notify(payload: Payload) | WorkerGet | UpdateCallbackReturns

  datatype BeatEvent = Wakes | Locks | Wrote | Lost(error: Error) | CancelledEnds

  datatype CallEvent =
    | Called(property: string, value: int) | CallLocks | CallWrote | CallLost(error: Error) | AckGet | AckTimeout

  datatype Event =
    | OfLife(life: LifeEvent)
    | OfHandler(handler: HandlerEvent)
    | OfNotices(notice: NoticeEvent)
    | OfKeepalive(k: nat, beat: BeatEvent)
    | OfControl(c: nat, call: CallEvent)

  predicate KeepaliveAt(s: State, k: nat, pc: KeepalivePc) {
    k in s.beats.all && s.beats.all[k].pc == pc
  }

  predicate KeepaliveRuns(s: State, k: nat, pc: KeepalivePc) {
    KeepaliveAt(s, k, pc) && !s.beats.all[k].cancelled
  }

  predicate CallAwaits(s: State, c: nat) {
    c in s.controls && s.controls[c].pc.AwaitingAck?
  }

  predicate CallSends(s: State, c: nat) {
    c in s.controls && s.controls[c].pc.Sending?
  }

  /**
    A session is opened only when no earlier failure handler and no draining
    worker is still running: the assumption the model makes of `connect()`.
   */
  predicate MayOpen(s: State) {
    s.link.status == Disconnected ==> s.handler == NoHandler && s.worker == Stopped
  }

  predicate LifeEnabled(s: State, e: LifeEvent) {
    match e
    case Connect => s.life == Idle && MayOpen(s)
    case Proceed => ConnectSuspended(s.life)
    case CallFails => ConnectSuspended(s.life) && s.life != SppDelay && s.life != ReadDelay
    case Get => s.life.Awaiting? && Queue(s.mail, s.life.queue) != []
    case Timeout => s.life.Awaiting?
    case Disconnect => s.life == Idle
    case TearStep => s.life.LifeTearing? && JoinReady(s, s.life.at)
  }

  function LifeStep(s: State, e: LifeEvent): State
    requires LifeEnabled(s, e)
  {
    match e
    case Connect => if s.link.status != Disconnected then s else OpenSession(s)
    case Proceed => ConnectGoesOn(s)
    case CallFails => AbortConnect(s)
    case Get => HandshakeTake(s, s.life.want, s.life.queue)
    case Timeout => AbortConnect(s)
    case Disconnect => BeginTeardown(s.(link := s.link.(closing := true)), TLife(UserDisconnect))
    case TearStep => ContinueTeardown(s, TLife(s.life.reason), s.life.at)
  }

  predicate HandlerEnabled(s: State, e: HandlerEvent) {
    match e
    case HandlerTearStep => s.handler.HandlerTearing? && JoinReady(s, s.handler.at)
    case LossCallbackReturns => s.handler.NotifyingLoss?
  }

  function HandlerStep(s: State, e: HandlerEvent): State
    requires HandlerEnabled(s, e)
  {
    match e
    case HandlerTearStep => ContinueTeardown(s, THandler(s.handler.owner, s.handler.error), s.handler.at)
    case LossCallbackReturns => Resume(s.(handler := NoHandler), s.handler.owner)
  }

  predicate NoticeEnabled(s: State, e: NoticeEvent) {
    match e
    case Notify(_) => true
    case WorkerGet => s.worker == Getting && s.inbox.notices != []
    case UpdateCallbackReturns => s.worker.InCallback?
  }

  function NoticeStep(s: State, e: NoticeEvent): State
    requires NoticeEnabled(s, e)
  {
    match e
    case Notify(p) => Deliver(s, p)
    case WorkerGet => WorkerTake(s)
    case UpdateCallbackReturns => Complete(s, s.worker.future)
  }

  predicate BeatEnabled(s: State, k: nat, e: BeatEvent) {
    match e
    case Wakes => KeepaliveRuns(s, k, Sleeping)
    case Locks => KeepaliveRuns(s, k, WantsLock) && s.lock == Free
    case Wrote => KeepaliveRuns(s, k, Writing)
    case Lost(_) => KeepaliveRuns(s, k, Writing)
    case CancelledEnds =>
      k in s.beats.all && s.beats.all[k].cancelled && s.beats.all[k].pc in {Sleeping, WantsLock, Writing}
  }

  function BeatStep(s: State, k: nat, e: BeatEvent): State
    requires BeatEnabled(s, k, e)
  {
    match e
    case Wakes => SetKeepalive(s, k, WantsLock)
    case Locks => KeepaliveAcquire(s, k)
    case Wrote => SetKeepalive(s, k, Sleeping).(lock := Free)
    case Lost(error) => KeepaliveWriteFails(s, k, error)
    case CancelledEnds => KeepaliveCancel(s, k)
  }

  predicate CallEnabled(s: State, c: nat, e: CallEvent) {
    match e
    case Called(_, _) => c !in s.controls
    case CallLocks => c in s.controls && s.controls[c].pc == WaitingLock && s.lock == Free
    case CallWrote => CallSends(s, c)
    case CallLost(_) => CallSends(s, c)
    case AckGet => CallAwaits(s, c) && Queue(s.mail, s.controls[c].pc.queue) != []
    case AckTimeout => CallAwaits(s, c)
  }

  function CallStep(s: State, c: nat, e: CallEvent): State
    requires CallEnabled(s, c, e)
  {
    match e
    case Called(property, value) => ControlBegin(s, c, property, value)
    case CallLocks => ControlAcquire(s, c)
    case CallWrote => ControlAwaitAck(s, c)
    case CallLost(error) => ControlWriteFails(s, c, error)
    case AckGet => ControlTake(s, c)
    case AckTimeout => EndControl(s, c, TimedOut)
  }

  /** Which steps the event loop may take. */
  predicate Enabled(s: State, e: Event) {
    match e
    case OfLife(l) => LifeEnabled(s, l)
    case OfHandler(h) => HandlerEnabled(s, h)
    case OfNotices(n) => NoticeEnabled(s, n)
    case OfKeepalive(k, b) => BeatEnabled(s, k, b)
    case OfControl(c, x) => CallEnabled(s, c, x)
  }

  function Apply(s: State, e: Event): State
    requires Enabled(s, e)
  {
    match e
    case OfLife(l) => LifeStep(s, l)
    case OfHandler(h) => HandlerStep(s, h)
    case OfNotices(n) => NoticeStep(s, n)
    case OfKeepalive(k, b) => BeatStep(s, k, b)
    case OfControl(c, x) => CallStep(s, c, x)
  }

  /** The state after a schedule, if every step of it was enabled. */
  function Run(s: State, events: seq<Event>): Option<State> {
    if events == [] then Some(s)
    else
      var last := |events| - 1;
      match Run(s, events[..last])
      case None => None
      case Some(r) => if Enabled(r, events[last]) then Some(Apply(r, events[last])) else None
  }

  /** A state some interleaving of the tasks leads to. */
  ghost predicate Reachable(s: State) {
    exists events: seq<Event> :: Run(Initial(s.cfg), events) == Some(s)
  }
}
