/**
  The client as an object: its fields, the program counters of its tasks, and
  one method for each piece of code a task runs between two suspension points.
  Each method takes the object's view exactly where the state machine goes.
 */
module Client {
  import opened Wrappers
  import opened Json
  import opened Session
  import opened Reports
  import opened StreamInvariant
  import opened AckInvariant
  import opened Invariant
  import opened Drain

  class SolarFlowClient {
    const cfg: Config

    // The source's fields, in the groups of the state machine.
    var link: Link
    var data: Data
    var mail: Mail
    var inbox: Inbox
    var outbox: Outbox
    var beats: Beats

    // Where each task is suspended, and who holds `_lock`.
    var life: Lifecycle
    var handler: Handler
    var worker: Worker
    var controls: map<nat, Control>
    var lock: Lock

    // The session number names the tasks a session creates; the rest is history.
    var era: Era
    ghost var loss: Loss
    ghost var stream: Stream

    ghost function View(): State
      reads this
    {
      State(cfg, era, link, loss, data, mail, stream, inbox, outbox, beats, controls, lock, life, handler, worker)
    }

    constructor (cfg: Config)
      ensures View() == Initial(cfg) && Inv(View())
    {
      this.cfg := cfg;
      link := Link(Disconnected, None, false, false);
      data := Data(EMPTY_STATE, cfg.target, None, None, false);
      mail, inbox, outbox := Mail([[], []], 0, 1, false), Inbox([], false, [], 0, []), Outbox(1, [], []);
      beats, controls, lock := Beats(None, map[]), map[], Free;
      life, handler, worker := Idle, NoHandler, Stopped;
      era, loss, stream := Era(0, {}, true), NO_LOSS, Stream(0, 1, [], 0, [], 0);
      new;
      InitialInv(cfg);
    }

    // ---- Code that never suspends ---------------------------------------

    /** `_reset_session` */
    method ResetSession()
      modifies this
      ensures View() == Reset(old(View()))
    {
      mail := Mail(mail.heap + [[], []], |mail.heap|, |mail.heap| + 1, false);
      data := data.(state := EMPTY_STATE, deviceId := cfg.target, identified := false);
    }

    method PutOnReports(item: Item)
      modifies this`mail, this`stream
      ensures View() == PutReport(old(View()), item)
    {
      var q := mail.reports;
      if q < |mail.heap| {
        mail := mail.(heap := mail.heap[q := mail.heap[q] + [item]]);
      }
      stream := PutOn(stream, q, item);
    }

    method PutOnWriteResults(item: Item)
      modifies this`mail
      ensures View() == PutWriteResult(old(View()), item)
    {
      var q := mail.writeResults;
      if q < |mail.heap| {
        mail := mail.(heap := mail.heap[q := mail.heap[q] + [item]]);
      }
    }

    /** `_enqueue_report` */
    method Enqueue(m: Message)
      modifies this
      ensures View() == EnqueueReport(old(View()), m)
    {
      if mail.waitActive {
        PutOnReports(Msg(m));
      }
    }

    /** `_apply_message` */
    method ApplyOne(m: Message)
      modifies this
      ensures View() == ApplyMessage(old(View()), m)
    {
      if m.kind == GetInfoRsp || m.kind == ReadReply {
        Enqueue(m);
      } else if m.kind == Report {
        if CarriesWriteResult(m) {
          PutOnWriteResults(Msg(m));
        }
        data := data.(state := WithReport(data.state, m));
        Enqueue(m);
      } else if m.kind == ErrorReport {
        if link.status != Disconnected {
          data := data.(lastError := Some(m));
        }
        Enqueue(m);
      }
    }

    /** `_refresh_status` */
    method Refresh()
      modifies this
      ensures View() == RefreshStatus(old(View()))
    {
      if link.status == ProtocolReady {
        link := link.(status := Ready);
      }
    }

    /** `_next_message_id`: the least id from the counter on that is not the reserved one. */
    method NextMessageId() returns (id: nat)
      modifies this`outbox
      ensures id == NextId(old(outbox.messageId))
      ensures outbox == old(outbox).(messageId := id + 1)
    {
      while outbox.messageId == BLESPP_OK_MESSAGE_ID
        invariant outbox == old(outbox).(messageId := outbox.messageId)
        invariant outbox.messageId == old(outbox.messageId)
                  || (old(outbox.messageId) == BLESPP_OK_MESSAGE_ID && outbox.messageId == BLESPP_OK_MESSAGE_ID + 1)
        decreases BLESPP_OK_MESSAGE_ID + 1 - outbox.messageId
      {
        outbox := outbox.(messageId := outbox.messageId + 1);
      }
      id := outbox.messageId;
      outbox := outbox.(messageId := outbox.messageId + 1);
    }

    /** `_build_request` with an identity, and the write that follows it. */
    method Request(kind: Kind, content: Content, origin: nat) returns (id: nat)
      modifies this
      ensures View() == Send(old(View()), kind, content, origin) && id == NextId(old(outbox.messageId))
    {
      id := NextMessageId();
      outbox := outbox.(
        wire := outbox.wire + [Sent(kind, id, content, data.deviceId, origin, link.failure.Some?)],
        issued := outbox.issued + [id]);
    }

    // ---- Tasks that go on -----------------------------------------------

    method MoveKeepalive(k: nat, pc: KeepalivePc)
      modifies this`beats
      ensures View() == SetKeepalive(old(View()), k, pc)
    {
      if k in beats.all {
        beats := beats.(all := beats.all[k := beats.all[k].(pc := pc)]);
      }
    }

    method MoveControl(c: nat, pc: ControlPc)
      modifies this`controls
      ensures View() == SetControl(old(View()), c, pc)
    {
      if c in controls {
        controls := controls[c := controls[c].(pc := pc)];
      }
    }

    method FinishControl(c: nat, outcome: Outcome)
      modifies this`controls, this`lock
      ensures View() == EndControl(old(View()), c, outcome)
    {
      if c in controls {
        MoveControl(c, Done(IdOf(controls[c].pc), outcome));
        if lock == HeldByControl(c) {
          lock := Free;
        }
      }
    }

    /** The worker sets the result of a future and asks for the next payload. */
    method CompleteNotice(future: nat)
      modifies this`worker, this`inbox
      ensures View() == Complete(old(View()), future)
    {
      worker := Getting;
      inbox := inbox.(completed := inbox.completed + [future]);
    }

    method ResumeOwner(owner: Owner)
      modifies this`worker, this`inbox, this`beats, this`controls, this`lock
      ensures beats.task == old(beats.task)
      ensures View() == Resume(old(View()), owner)
    {
      match owner
      case ByWorker => if worker.InHandler? { CompleteNotice(worker.future); }
      case ByKeepalive(k) => MoveKeepalive(k, Ended);
      case ByControl(c) => FinishControl(c, ConnectionFailed);
      case Inline =>
    }

    // ---- `_teardown` ----------------------------------------------------

    /** Where this teardown is suspended, if it is. */
    ghost function PointOf(t: Tearer): Option<TearPoint>
      reads this
    {
      match t
      case TLife(reason) => if life.LifeTearing? && life.reason == reason then Some(life.at) else None
      case THandler(owner, error) =>
        if handler.HandlerTearing? && handler.owner == owner && handler.error == error then Some(handler.at) else None
    }

    method Suspend(t: Tearer, at: TearPoint)
      modifies this`life, this`handler
      ensures View() == SuspendTear(old(View()), t, at)
    {
      match t
      case TLife(reason) => life := LifeTearing(at, reason);
      case THandler(owner, error) => handler := HandlerTearing(owner, error, at);
    }

    method CancelAndJoin(t: Tearer, k: nat)
      modifies this`beats, this`life, this`handler
      ensures View() == SuspendTear(old(View()).(beats := Cancelled(old(beats), k)), t, JoinKeepalive(k))
      ensures PointOf(t) == Some(JoinKeepalive(k)) && beats.task == None && (t.THandler? ==> life == old(life))
      ensures beats.all.Keys == old(beats).all.Keys
      ensures forall n | n in beats.all ::
                beats.all[n] == old(beats.all)[n].(cancelled := n == k || old(beats.all)[n].cancelled)
    {
      beats := Cancelled(beats, k);
      Suspend(t, JoinKeepalive(k));
    }

    /**
      The reference is cleared before anything is awaited. A keepalive other than
      the caller is cancelled and joined first; the caller itself is not cancelled.
     */
    method BeginTearing(t: Tearer)
      modifies this
      ensures View() == BeginTeardown(old(View()), t)
      ensures beats.task == None && outbox == old(outbox) && link.failure == old(link.failure)
      ensures loss.recorded == old(loss.recorded) && (link.status == old(link.status) || link.status == Disconnected)
      ensures t.THandler? ==> life == old(life) && (PointOf(t).Some? || data.state == EMPTY_STATE)
      ensures old(beats.task).Some? && !(t.THandler? && t.owner == ByKeepalive(old(beats.task).value)) ==>
                var k := old(beats.task).value;
                && PointOf(t) == Some(JoinKeepalive(k)) && inbox == old(inbox) && loss == old(loss)
                && beats.all.Keys == old(beats.all).Keys
                && forall n | n in beats.all ::
                     beats.all[n] == old(beats.all)[n].(cancelled := n == k || old(beats.all)[n].cancelled)
      ensures old(beats.task).None? || (t.THandler? && t.owner == ByKeepalive(old(beats.task).value)) ==>
                forall n | n in beats.all && beats.all[n].cancelled ::
                  n in old(beats.all) && old(beats.all)[n].cancelled
    {
      var task := beats.task;
      if task.Some? && !(t.THandler? && t.owner == ByKeepalive(task.value)) {
        CancelAndJoin(t, task.value);
      } else {
        beats := beats.(task := None);
        Cleanup(t);
      }
    }

    /** `_cleanup_transport`: the first teardown of a session stops the transport, a later one skips it. */
    method Cleanup(t: Tearer)
      modifies this
      ensures View() == CleanupTransport(old(View()), t)
      ensures link.cleanupDone && loss.disconnects == old(loss.disconnects)
      ensures loss.stops == old(loss.stops) + if old(link.cleanupDone) then 0 else 1
      ensures !old(link.cleanupDone) ==>
                && PointOf(t) == Some(Unsubscribing)
                && inbox == old(inbox) && mail == old(mail) && data == old(data) && worker == old(worker)
      ensures old(link.cleanupDone) ==> !inbox.workerSet
      ensures outbox == old(outbox) && link.failure == old(link.failure) && beats.task == old(beats.task)
      ensures loss.recorded == old(loss.recorded) && (link.status == old(link.status) || link.status == Disconnected)
      ensures t.THandler? ==> life == old(life) && (PointOf(t).Some? || data.state == EMPTY_STATE)
      ensures forall n | n in beats.all && beats.all[n].cancelled :: n in old(beats.all) && old(beats.all)[n].cancelled
    {
      if link.cleanupDone {
        StopNotificationWorker(t);
      } else {
        link := link.(cleanupDone := true);
        loss := loss.(stops := loss.stops + 1);
        Suspend(t, Unsubscribing);
      }
    }

    /**
      `_stop_notification_worker`: the reference is cleared and one stop marker is
      queued behind everything else. The worker is joined unless it is the caller.
     */
    method StopNotificationWorker(t: Tearer)
      modifies this
      ensures View() == StopWorker(old(View()), t)
      ensures !inbox.workerSet && inbox.arrived == old(inbox.arrived) && inbox.started == old(inbox.started)
      ensures inbox.notices == old(inbox.notices) + if old(inbox.workerSet) then [Stop] else []
      ensures old(inbox.workerSet) && !(t.THandler? && t.owner == ByWorker) ==>
                PointOf(t) == Some(JoinWorker) && data == old(data) && mail == old(mail) && worker == old(worker)
      ensures !old(inbox.workerSet) || (t.THandler? && t.owner == ByWorker) ==>
                PointOf(t) == None && link.status == Disconnected && data.state == EMPTY_STATE
    {
      if !inbox.workerSet {
        EndTearing(t);
      } else {
        inbox := inbox.(workerSet := false, notices := inbox.notices + [Stop]);
        if t.THandler? && t.owner == ByWorker {
          EndTearing(t);
        } else {
          Suspend(t, JoinWorker);
        }
      }
    }

    method EndTearing(t: Tearer)
      modifies this
      ensures View() == FinishTeardown(old(View()), t)
    {
      link := link.(status := Disconnected);
      era := era.(over := true);
      ResetSession();
      match t
      case TLife(reason) =>
        life := Idle;
        if reason == UserDisconnect {
          link := link.(closing := false);
        }
      case THandler(owner, error) =>
        if cfg.lostCallback {
          handler := NotifyingLoss(owner);
          loss := loss.(lost := loss.lost + [error]);
        } else {
          handler := NoHandler;
          ResumeOwner(owner);
        }
    }

    method ContinueTearing(t: Tearer, at: TearPoint)
      modifies this
      ensures View() == ContinueTeardown(old(View()), t, at)
    {
      match at
      case JoinKeepalive(_) => Cleanup(t);
      case Unsubscribing =>
        loss := loss.(disconnects := loss.disconnects + 1);
        Suspend(t, Disconnecting);
      case Disconnecting => StopNotificationWorker(t);
      case JoinWorker => EndTearing(t);
    }

    /** Lines 284-287 of `_handle_session_failure`: one sentinel for each of the two current queues. */
    method Record(error: Error)
      modifies this`link, this`loss, this`era, this`mail, this`stream
      ensures View() == RecordFailure(old(View()), error)
      ensures link == old(link).(failure := Some(error), status := Disconnected)
      ensures mail == old(mail).(heap := mail.heap) && |mail.heap| == |old(mail.heap)|
      ensures forall q | 0 <= q < |mail.heap| ::
                mail.heap[q] == old(mail.heap)[q]
                                + (if q == mail.reports then [Closed(error)] else [])
                                + (if q == mail.writeResults then [Closed(error)] else [])
    {
      link := link.(failure := Some(error), status := Disconnected);
      loss := loss.(recorded := loss.recorded + 1, whileClosing := link.closing);
      era := era.(failed := era.failed + {era.session});
      PutOnReports(Closed(error));
      PutOnWriteResults(Closed(error));
    }

    /** The first failure of a connected session. */
    method FailSession(error: Error, owner: Owner)
      requires link.failure.None? && link.status != Disconnected
      modifies this
      ensures View() == HandleFailure(old(View()), error, owner)
      ensures life == old(life) && outbox == old(outbox)
      ensures link.failure == Some(error) && link.status == Disconnected
      ensures loss.recorded == old(loss.recorded) + 1
      ensures old(link.closing) ==> data == old(data) && handler == old(handler) && beats.task == old(beats.task)
      ensures !old(link.closing) ==>
                beats.task == None && (PointOf(THandler(owner, error)).Some? || data.state == EMPTY_STATE)
    {
      ghost var start := View();
      Record(error);
      assert View() == RecordFailure(start, error);
      if link.closing {
        ResumeOwner(owner);
      } else {
        BeginTearing(THandler(owner, error));
      }
    }

    /**
      `_handle_session_failure`: only the first failure of a connected session is
      recorded, and it is torn down unless `disconnect` is closing already.
     */
    method HandleSessionFailure(error: Error, owner: Owner)
      modifies this
      ensures View() == HandleFailure(old(View()), error, owner)
      ensures life == old(life) && outbox == old(outbox)
      ensures old(link.failure).Some? || old(link.status) == Disconnected ==>
                && link == old(link) && loss == old(loss) && mail == old(mail) && data == old(data)
                && handler == old(handler)
      ensures old(link.failure).None? && old(link.status) != Disconnected ==>
                && link.failure == Some(error) && link.status == Disconnected
                && loss.recorded == old(loss.recorded) + 1
                && (if old(link.closing)
                    then data == old(data) && handler == old(handler) && beats.task == old(beats.task)
                    else beats.task == None && (PointOf(THandler(owner, error)).Some? || data.state == EMPTY_STATE))
    {
      if link.failure.Some? || link.status == Disconnected {
        ResumeOwner(owner);
      } else {
        FailSession(error, owner);
      }
    }

    // ---- Notifications --------------------------------------------------

    /** Lines 377-381 of `_process_notification`. */
    method AbsorbMessage(m: Message)
      modifies this
      ensures View() == Absorb(old(View()), m)
    {
      if m.kind == Blespp {
        Enqueue(m);
      } else if m.kind != UnhashableMethod {
        ApplyOne(m);
        Refresh();
      }
    }

    method CheckPayload(p: Payload) returns (error: Option<Error>)
      ensures error == PayloadError(View(), p)
    {
      match p
      case Undecodable => error := Some(InvalidPayload);
      case Decoded(m) =>
        if m.kind != Blespp && m.deviceId != Null && data.deviceId.Some? && m.deviceId != Str(data.deviceId.value) {
          error := Some(IdentityMismatch);
        } else {
          error := None;
        }
    }

    /** `_notification` */
    method Notification(p: Payload)
      modifies this
      ensures View() == Deliver(old(View()), p)
    {
      if inbox.workerSet {
        inbox := inbox.(notices := inbox.notices + [Notice(p, |inbox.arrived|)], arrived := inbox.arrived + [p]);
      } else {
        var error := CheckPayload(p);
        match error
        case Some(e) => HandleSessionFailure(e, Inline);
        case None => AbsorbMessage(p.message);
      }
    }

    /** One payload of the worker loop, up to its suspension or its completion. */
    method ProcessNotification(p: Payload, future: nat)
      modifies this
      ensures View() == WorkerProcess(old(View()), p, future)
    {
      var error := CheckPayload(p);
      match error
      case Some(e) =>
        worker := InHandler(future);
        HandleSessionFailure(e, ByWorker);
      case None =>
        AbsorbMessage(p.message);
        if cfg.updateCallback && p.message.kind != Blespp && p.message.kind != UnhashableMethod {
          worker := InCallback(future);
        } else {
          CompleteNotice(future);
        }
    }

    method TakeNotice()
      requires inbox.notices != []
      modifies this
      ensures View() == WorkerTake(old(View()))
    {
      var entry := inbox.notices[0];
      inbox := Popped(inbox);
      match entry
      case Stop => worker := Stopped;
      case Notice(p, future) => ProcessNotification(p, future);
    }

    /**
      The `while` loop of `_consume_notifications`, run until the worker stops,
      suspends, or waits for a notification.
     */
    method ConsumeNotifications()
      requires worker == Getting
      modifies this
      ensures View() == Drained(old(View()))
      ensures worker == Getting ==> inbox.notices == []
    {
      while worker == Getting && inbox.notices != []
        invariant Drained(View()) == Drained(old(View()))
        decreases Load(inbox)
      {
        TakeLoad(View());
        OnePass(View());
        TakeNotice();
      }
    }

    // ---- `connect` and `disconnect` -------------------------------------

    /** Lines 174-178 of `connect`. */
    method Open()
      modifies this
      ensures View() == OpenSession(old(View()))
    {
      ResetSession();
      link := link.(failure := None, cleanupDone := false);
      data := data.(lastError := None, identity := None);
      mail := mail.(waitActive := true);
      life := Connecting;
      era := era.(session := era.session + 1, over := false);
      loss, stream := NO_LOSS, Stream(mail.reports, mail.writeResults, [], 0, [], 0);
      inbox := inbox.(arrived := [], started := 0, completed := []);
      outbox := outbox.(wire := []);
    }

    /** Lines 172-180 of `connect`. */
    method BeginConnect()
      requires LifeEnabled(View(), LifeEvent.Connect)
      modifies this
      ensures View() == LifeStep(old(View()), LifeEvent.Connect)
    {
      if link.status == Disconnected {
        Open();
      }
    }

    method Abort()
      modifies this
      ensures View() == AbortConnect(old(View()))
      ensures life.LifeTearing? || life == Idle
      ensures stream == old(stream) && |old(mail.heap)| <= |mail.heap|
              && forall p | 0 <= p < |old(mail.heap)| :: mail.heap[p] == old(mail.heap)[p]
    {
      BeginTearing(TLife(ConnectFailed));
    }

    /** The entry of `_wait_for_method`. */
    method WaitFor(want: Method)
      modifies this
      ensures View() == BeginWait(old(View()), want)
    {
      if link.failure.Some? {
        Abort();
      } else {
        life := Awaiting(want, mail.reports);
      }
    }

    method RequestOrAbort(kind: Kind, next: Lifecycle)
      modifies this
      ensures View() == SendOrAbort(old(View()), kind, next)
    {
      if data.deviceId.None? {
        Abort();
      } else {
        var _ := Request(kind, Extra(kind), era.session);
        life := next;
      }
    }

    /** `connect` goes on after a transport call or a timer. */
    method GoOn()
      modifies this
      ensures View() == ConnectGoesOn(old(View()))
    {
      match life
      case Connecting =>
        link := link.(status := Connected);
        inbox := inbox.(notices := [], workerSet := true);
        worker, life := Getting, Subscribing;
      case Subscribing => WaitFor(Blespp);
      case WritingOk => life := SppDelay;
      case SppDelay => RequestOrAbort(GetInfo, WritingInfo);
      case WritingInfo => WaitFor(GetInfoRsp);
      case ReadDelay => RequestOrAbort(InitialRead, WritingRead);
      case WritingRead => WaitFor(Report);
      case _ =>
    }

    /** The end of `_establish_identity`. */
    method Identify(id: string)
      modifies this
      ensures View() == EstablishIdentity(old(View()), id)
    {
      data := data.(deviceId := Some(id), state := data.state.(deviceId := Some(id)),
                    identity := Some(id), identified := true);
    }

    method SendAcknowledgement()
      modifies this
      ensures View() == SendOk(old(View()))
    {
      var ok := Sent(BlesppOk, BLESPP_OK_MESSAGE_ID, NoContent, None, era.session, link.failure.Some?);
      outbox := outbox.(wire := outbox.wire + [ok]);
    }

    /** Lines 207-209 of `connect`. */
    method EndConnect()
      modifies this
      ensures View() == FinishConnect(old(View()))
    {
      mail := mail.(waitActive := false);
      Refresh();
      beats := Beats(Some(era.session), beats.all[era.session := Keepalive(Sleeping, false)]);
      life := Idle;
    }

    /** What follows an accepted wait: lines 190-191, 197 and 207-209. */
    method Accept(m: Message)
      modifies this
      ensures View() == AcceptHandshake(old(View()), m)
      ensures stream == old(stream) && |old(mail.heap)| <= |mail.heap|
              && forall p | 0 <= p < |old(mail.heap)| :: mail.heap[p] == old(mail.heap)[p]
    {
      match m.kind
      case Blespp =>
        if !m.deviceId.Str? || m.deviceId.s == "" || (cfg.target.Some? && cfg.target.value != m.deviceId.s) {
          Abort();
        } else {
          Identify(m.deviceId.s);
          SendAcknowledgement();
          life := WritingOk;
        }
      case GetInfoRsp =>
        link := link.(status := ProtocolReady);
        life := ReadDelay;
      case _ => EndConnect();
    }

    /** What the wait of the handshake does with the element it took. */
    method JudgeReport(item: Item, want: Method, ghost position: nat)
      modifies this
      ensures View() == HandshakeJudge(old(View()), item, want, position)
      ensures |old(mail.heap)| <= |mail.heap|
              && forall p | 0 <= p < |old(mail.heap)| :: mail.heap[p] == old(mail.heap)[p]
      ensures stream == old(stream).(accepted := stream.accepted)
      ensures stream.accepted == old(stream.accepted) + if Matches(item, want) then [position] else []
      ensures item.Closed? ==> life.LifeTearing? || life == Idle
    {
      match item
      case Closed(_) => Abort();
      case Msg(m) =>
        if m.kind == want {
          stream := stream.(accepted := stream.accepted + [position]);
          Accept(m);
        } else if link.failure.Some? {
          Abort();
        }
    }

    /**
      One pass of the wait loop of the handshake: the head of the queue is taken. A
      sentinel ends the handshake, the wanted message is accepted, and any other
      message is discarded unless a failure is recorded.
     */
    method TakeReport(want: Method, q: nat)
      requires q < |mail.heap| && mail.heap[q] != []
      modifies this
      ensures View() == HandshakeTake(old(View()), want, q)
      ensures |old(mail.heap)| <= |mail.heap| && mail.heap[q] == old(mail.heap)[q][1..]
      ensures forall p | 0 <= p < |old(mail.heap)| && p != q :: mail.heap[p] == old(mail.heap)[p]
      ensures stream.taken == old(stream.taken) + 1
      ensures stream.accepted == old(stream.accepted)
                                 + if Matches(old(mail.heap)[q][0], want) then [old(stream.taken)] else []
      ensures old(mail.heap)[q][0].Msg? && !Matches(old(mail.heap)[q][0], want) && old(link.failure).None? ==>
                && life == old(life) && link == old(link) && data == old(data) && inbox == old(inbox)
                && beats == old(beats) && outbox == old(outbox) && |mail.heap| == |old(mail.heap)|
      ensures old(mail.heap)[q][0].Closed? ==> life.LifeTearing? || life == Idle
    {
      var item := mail.heap[q][0];
      mail := mail.(heap := mail.heap[q := mail.heap[q][1..]]);
      ghost var position := stream.taken;
      stream := Taken(stream, link.failure.Some?);
      JudgeReport(item, want, position);
    }

    /** `disconnect` up to its first suspension. */
    method BeginDisconnect()
      requires life == Idle
      modifies this
      ensures View() == LifeStep(old(View()), LifeEvent.Disconnect)
    {
      link := link.(closing := true);
      BeginTearing(TLife(UserDisconnect));
    }

    // ---- `_keepalive` ---------------------------------------------------

    method KeepaliveTakesLock(k: nat)
      modifies this
      ensures View() == KeepaliveAcquire(old(View()), k)
    {
      if data.deviceId.None? {
        MoveKeepalive(k, KeepalivePc.Failing);
        HandleSessionFailure(NoIdentity, ByKeepalive(k));
      } else {
        var _ := Request(KeepaliveRead, GetAll, k);
        MoveKeepalive(k, Writing);
        lock := HeldByKeepalive(k);
      }
    }

    method KeepaliveLosesLink(k: nat, error: Error)
      modifies this
      ensures View() == KeepaliveWriteFails(old(View()), k, error)
    {
      lock := Free;
      MoveKeepalive(k, KeepalivePc.Failing);
      HandleSessionFailure(error, ByKeepalive(k));
    }

    method KeepaliveStops(k: nat)
      modifies this
      ensures View() == KeepaliveCancel(old(View()), k)
    {
      MoveKeepalive(k, Ended);
      if lock == HeldByKeepalive(k) {
        lock := Free;
      }
    }

    // ---- `_request_write` -----------------------------------------------

    method RequestWrite(c: nat, property: string, value: int)
      modifies this
      ensures View() == ControlBegin(old(View()), c, property, value)
    {
      var pc := if cfg.allowControl && link.status == Ready then WaitingLock else Done(0, NotReady);
      controls := controls[c := Control(era.session, property, value, pc, [])];
    }

    /**
      With the lock the failure and the identity are checked again: either the call
      ends and nothing is sent, or exactly its write goes out.
     */
    method ControlTakesLock(c: nat)
      requires c in controls
      modifies this
      ensures View() == ControlAcquire(old(View()), c)
      ensures link == old(link) && data == old(data) && mail == old(mail) && inbox == old(inbox) && beats == old(beats)
      ensures controls.Keys == old(controls).Keys
              && forall x | x in controls && x != c :: controls[x] == old(controls)[x]
      ensures old(link.failure).Some? || old(data.deviceId).None? ==>
                && outbox == old(outbox) && controls[c].pc.Done?
                && controls[c].pc.outcome == (if old(link.failure).Some? then ConnectionFailed else Unidentified)
      ensures old(link.failure).None? && old(data.deviceId).Some? ==>
                && controls[c].pc.Sending? && lock == HeldByControl(c)
                && controls[c].pc.id >= old(outbox.messageId) && controls[c].pc.id < outbox.messageId
                && outbox.wire == old(outbox.wire)
                                  + [Sent(Write, controls[c].pc.id,
                                          Setting(old(controls)[c].property, old(controls)[c].value),
                                          data.deviceId, old(controls)[c].began, false)]
    {
      if link.failure.Some? {
        FinishControl(c, ConnectionFailed);
      } else if data.deviceId.None? {
        FinishControl(c, Unidentified);
      } else {
        var id := Request(Write, Setting(controls[c].property, controls[c].value), controls[c].began);
        MoveControl(c, Sending(id));
        lock := HeldByControl(c);
      }
    }

    method ControlLosesLink(c: nat, error: Error)
      requires c in controls
      modifies this
      ensures View() == ControlWriteFails(old(View()), c, error)
    {
      MoveControl(c, FailingWrite(IdOf(controls[c].pc)));
      HandleSessionFailure(error, ByControl(c));
    }

    method ControlWaits(c: nat)
      requires c in controls
      modifies this
      ensures View() == ControlAwaitAck(old(View()), c)
    {
      if link.failure.Some? {
        FinishControl(c, ConnectionFailed);
      } else {
        MoveControl(c, AwaitingAck(IdOf(controls[c].pc), mail.writeResults, era.session));
      }
    }

    /**
      One pass of the wait loop of a control call, with its `accept`: the head of
      the queue is taken, and the first correlated acknowledgement ends the call.
     */
    method TakeAcknowledgement(c: nat)
      requires c in controls && controls[c].pc.AwaitingAck?
      requires controls[c].pc.queue < |mail.heap| && mail.heap[controls[c].pc.queue] != []
      modifies this
      ensures View() == ControlTake(old(View()), c)
      ensures link == old(link) && data == old(data) && outbox == old(outbox) && beats == old(beats)
      ensures controls.Keys == old(controls).Keys
              && forall x | x in controls && x != c :: controls[x] == old(controls)[x]
      ensures var q := old(controls)[c].pc.queue;
              var item := old(mail.heap)[q][0];
              var ctl := old(controls)[c];
              var decides := item.Msg? && ForWrite(item.message, ctl.property, ctl.pc.id);
              && mail == old(mail).(heap := old(mail.heap)[q := old(mail.heap)[q][1..]])
              && controls[c].seen == ctl.seen + [item]
              && (controls[c].pc == Done(ctl.pc.id, Succeeded) <==>
                    decides && IsZero(WriteRsp(item.message).value))
              && (controls[c].pc == Done(ctl.pc.id, CommandRejected) <==>
                    decides && !IsZero(WriteRsp(item.message).value))
              && (controls[c].pc == ctl.pc <==> item.Msg? && !decides && old(link.failure).None?)
    {
      var ctl := controls[c];
      var q := ctl.pc.queue;
      var item := mail.heap[q][0];
      mail := mail.(heap := mail.heap[q := mail.heap[q][1..]]);
      controls := controls[c := ctl.(seen := ctl.seen + [item])];
      match item
      case Closed(_) => FinishControl(c, ConnectionFailed);
      case Msg(m) =>
        AcknowledgementMeans(m, ctl.property, ctl.pc.id);
        if Correlated(m, ctl.property, ctl.pc.id) {
          FinishControl(c, if Acknowledges(m) then Succeeded else CommandRejected);
        } else if link.failure.Some? {
          FinishControl(c, ConnectionFailed);
        }
    }

    // ---- The event loop -------------------------------------------------

    method LifeMoves(e: LifeEvent)
      requires LifeEnabled(View(), e)
      modifies this
      ensures View() == LifeStep(old(View()), e)
    {
      match e
      case Connect => BeginConnect();
      case Proceed => GoOn();
      case CallFails => Abort();
      case Get => TakeReport(life.want, life.queue);
      case Timeout => Abort();
      case Disconnect => BeginDisconnect();
      case TearStep => ContinueTearing(TLife(life.reason), life.at);
    }

    method HandlerMoves(e: HandlerEvent)
      requires HandlerEnabled(View(), e)
      modifies this
      ensures View() == HandlerStep(old(View()), e)
    {
      match e
      case HandlerTearStep => ContinueTearing(THandler(handler.owner, handler.error), handler.at);
      case LossCallbackReturns =>
        var owner := handler.owner;
        handler := NoHandler;
        ResumeOwner(owner);
    }

    method NoticeMoves(e: NoticeEvent)
      requires NoticeEnabled(View(), e)
      modifies this
      ensures View() == NoticeStep(old(View()), e)
    {
      match e
      case Notify(p) => Notification(p);
      case WorkerGet => TakeNotice();
      case UpdateCallbackReturns => CompleteNotice(worker.future);
    }

    method BeatMoves(k: nat, e: BeatEvent)
      requires BeatEnabled(View(), k, e)
      modifies this
      ensures View() == BeatStep(old(View()), k, e)
    {
      match e
      case Wakes => MoveKeepalive(k, WantsLock);
      case Locks => KeepaliveTakesLock(k);
      case Wrote =>
        MoveKeepalive(k, Sleeping);
        lock := Free;
      case Lost(error) => KeepaliveLosesLink(k, error);
      case CancelledEnds => KeepaliveStops(k);
    }

    method CallMoves(c: nat, e: CallEvent)
      requires CallEnabled(View(), c, e)
      modifies this
      ensures View() == CallStep(old(View()), c, e)
    {
      match e
      case Called(property, value) => RequestWrite(c, property, value);
      case CallLocks => ControlTakesLock(c);
      case CallWrote => ControlWaits(c);
      case CallLost(error) => ControlLosesLink(c, error);
      case AckGet => TakeAcknowledgement(c);
      case AckTimeout => FinishControl(c, TimedOut);
    }

    /** The object moves as the state machine does and keeps its invariant. */
    method Move(e: Event)
      requires Inv(View()) && Enabled(View(), e)
      modifies this
      ensures View() == Apply(old(View()), e) && Inv(View())
    {
      InvStep(View(), e);
      match e
      case OfLife(l) => LifeMoves(l);
      case OfHandler(h) => HandlerMoves(h);
      case OfNotices(n) => NoticeMoves(n);
      case OfKeepalive(k, b) => BeatMoves(k, b);
      case OfControl(c, x) => CallMoves(c, x);
    }
  }
}
