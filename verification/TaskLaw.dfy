/**
  Where a control call and a keepalive get to with each of their steps, and what a
  teardown leaves running.
 */
module TaskLaw {
  import opened Wrappers
  import opened Session
  import opened TaskInvariant
  import opened TeardownEffect
  import opened AckInvariant
  import opened Invariant
  import opened WriteLaw

  // ---- Control calls ----------------------------------------------------

  /** What the element a call takes does to it; None where it waits on. */
  function Ends(s: State, ctl: Control, item: Item): Option<Outcome>
    requires ctl.pc.AwaitingAck?
  {
    match item
    case Closed(_) => Some(ConnectionFailed)
    case Msg(m) =>
      if ForWrite(m, ctl.property, ctl.pc.id)
      then Some(if IsZero(WriteRsp(m).value) then Succeeded else CommandRejected)
      else if s.link.failure.Some? then Some(ConnectionFailed) else None
  }

  /** Where a call gets to with a step of its own. */
  function CallPoint(s: State, c: nat, e: CallEvent): ControlPc
    requires CallEnabled(s, c, e) && !e.CallLost?
  {
    match e
    case Called(_, _) =>
      if s.cfg.allowControl && s.link.status == Ready then WaitingLock else Done(0, NotReady)
    case CallLocks =>
      if s.link.failure.Some? then Done(0, ConnectionFailed)
      else if s.data.deviceId.None? then Done(0, Unidentified)
      else Sending(FreshId(s))
    case CallWrote =>
      var id := s.controls[c].pc.id;
      if s.link.failure.Some? then Done(id, ConnectionFailed)
      else AwaitingAck(id, s.mail.writeResults, s.era.session)
    case AckGet =>
      var ctl := s.controls[c];
      (match Ends(s, ctl, s.mail.heap[ctl.pc.queue][0])
       case Some(outcome) => Done(ctl.pc.id, outcome)
       case None => ctl.pc)
    case AckTimeout => Done(s.controls[c].pc.id, TimedOut)
  }

  /** The lock after a step of a call: held exactly while the call sends or waits. */
  predicate LockFollows(c: nat, pc: ControlPc, r: State) {
    (pc.Sending? || pc.AwaitingAck? ==> r.lock == HeldByControl(c)) && (pc.Done? ==> r.lock != HeldByControl(c))
  }

  lemma AckGoes(s: State, c: nat)
    requires Inv(s) && CallEnabled(s, c, AckGet)
    ensures var r := CallStep(s, c, AckGet);
            c in r.controls && r.controls[c].pc == CallPoint(s, c, AckGet) && LockFollows(c, r.controls[c].pc, r)
  {
    var ctl := s.controls[c];
    var item := s.mail.heap[ctl.pc.queue][0];
    if item.Msg? {
      AcknowledgementMeans(item.message, ctl.property, ctl.pc.id);
    }
  }

  lemma CallLostGoes(s: State, c: nat, error: Error)
    requires CallSends(s, c)
    ensures var pc, r := s.controls[c].pc, CallStep(s, c, CallLost(error));
            && c in r.controls
            && (r.controls[c].pc == FailingWrite(pc.id) || r.controls[c].pc == Done(pc.id, ConnectionFailed))
  {
    var s1 := SetControl(s, c, FailingWrite(IdOf(s.controls[c].pc)));
    HandleEffect(s1, error, ByControl(c));
  }

  lemma OtherCallSteps(s: State, c: nat, e: CallEvent)
    requires OneLockHolder(s.lock, s.beats.all, s.controls)
    requires CallEnabled(s, c, e) && !e.CallLost? && !e.AckGet?
    ensures var r := CallStep(s, c, e);
            c in r.controls && r.controls[c].pc == CallPoint(s, c, e) && LockFollows(c, r.controls[c].pc, r)
  {
  }

  /**
    Every step of a control call: it is taken up only if allowed and READY, sends only
    without a failure, waits on the write results of its session, and ends with what
    the first acknowledgement of its write says, the sentinel, a failure or a timeout.
   */
  lemma CallGoesTo(s: State, c: nat, e: CallEvent)
    requires Reachable(s) && CallEnabled(s, c, e)
    ensures c in CallStep(s, c, e).controls
    ensures var r := CallStep(s, c, e);
            if e.CallLost? then
              var id := s.controls[c].pc.id;
              r.controls[c].pc == FailingWrite(id) || r.controls[c].pc == Done(id, ConnectionFailed)
            else r.controls[c].pc == CallPoint(s, c, e) && LockFollows(c, r.controls[c].pc, r)
  {
    ReachableInv(s);
    match e
    case AckGet => AckGoes(s, c);
    case CallLost(error) => CallLostGoes(s, c, error);
    case _ => OtherCallSteps(s, c, e);
  }

  // ---- Keepalives -------------------------------------------------------

  /** Where a keepalive gets to with a step of its own. */
  predicate BeatGoes(s: State, k: nat, e: BeatEvent, r: State) {
    && k in r.beats.all
    && var pc := r.beats.all[k].pc;
       match e
       case Wakes => pc == WantsLock && r.lock == s.lock
       case Locks =>
         if s.data.deviceId.Some? then pc == Writing && r.lock == HeldByKeepalive(k)
         else pc == KeepalivePc.Failing || pc == Ended
       case Wrote => pc == Sleeping && r.lock == Free
       case Lost(_) => (pc == KeepalivePc.Failing || pc == Ended) && r.lock == Free
       case CancelledEnds => pc == Ended && r.lock != HeldByKeepalive(k)
  }

  lemma FailingBeat(s: State, k: nat, error: Error)
    requires k in s.beats.all
    ensures var s1 := SetKeepalive(s, k, KeepalivePc.Failing);
            var r := HandleFailure(s1, error, ByKeepalive(k));
            && k in r.beats.all && (r.beats.all[k].pc == KeepalivePc.Failing || r.beats.all[k].pc == Ended)
            && r.lock == s.lock
  {
    HandleEffect(SetKeepalive(s, k, KeepalivePc.Failing), error, ByKeepalive(k));
    BeatFailureKeepsLock(SetKeepalive(s, k, KeepalivePc.Failing), error, k);
  }

  lemma BeatFailureKeepsLock(s: State, error: Error, k: nat)
    ensures HandleFailure(s, error, ByKeepalive(k)).lock == s.lock
  {
  }

  /**
    Every step of a keepalive: it beats for ever, releasing the lock after each
    write, until it is cancelled, or its write or its identity fails.
   */
  lemma BeatGoesTo(s: State, k: nat, e: BeatEvent)
    requires Reachable(s) && BeatEnabled(s, k, e)
    ensures BeatGoes(s, k, e, BeatStep(s, k, e))
  {
    ReachableInv(s);
    match e
    case Locks => if s.data.deviceId.None? { FailingBeat(s, k, NoIdentity); }
    case Lost(error) => FailingBeat(s.(lock := Free), k, error);
    case _ =>
  }

  // ---- What may happen ----------------------------------------------------

  /**
    Whatever the other tasks do: a payload may arrive at any time; a pending call into
    the transport may return or fail; a wait may time out, and goes on when its queue
    holds an element; a lock that is free may be taken; a cancelled keepalive may end.
   */
  lemma WhatMayHappen(s: State, c: nat, k: nat, error: Error, p: Payload)
    ensures Enabled(s, OfNotices(Notify(p)))
    ensures ConnectSuspended(s.life) ==> Enabled(s, OfLife(Proceed))
    ensures s.life.Connecting? || s.life.Subscribing? || s.life.WritingOk? || s.life.WritingInfo? || s.life.WritingRead?
            ==> Enabled(s, OfLife(CallFails))
    ensures s.life.Awaiting? ==>
              Enabled(s, OfLife(Timeout)) && (Queue(s.mail, s.life.queue) != [] ==> Enabled(s, OfLife(Get)))
    ensures s.life == Idle ==> Enabled(s, OfLife(Disconnect))
    ensures c in s.controls ==>
              match s.controls[c].pc
              case WaitingLock => s.lock == Free ==> Enabled(s, OfControl(c, CallLocks))
              case Sending(_) => Enabled(s, OfControl(c, CallWrote)) && Enabled(s, OfControl(c, CallLost(error)))
              case AwaitingAck(_, q, _) =>
                && Enabled(s, OfControl(c, AckTimeout))
                && (Queue(s.mail, q) != [] ==> Enabled(s, OfControl(c, AckGet)))
              case _ => true
    ensures k in s.beats.all ==>
              var b := s.beats.all[k];
              if b.cancelled then b.pc in {Sleeping, WantsLock, Writing} ==> Enabled(s, OfKeepalive(k, CancelledEnds))
              else match b.pc
                   case Sleeping => Enabled(s, OfKeepalive(k, Wakes))
                   case WantsLock => s.lock == Free ==> Enabled(s, OfKeepalive(k, Locks))
                   case Writing => Enabled(s, OfKeepalive(k, Wrote)) && Enabled(s, OfKeepalive(k, Lost(error)))
                   case _ => true
  {
  }

  // ---- What a teardown leaves running -------------------------------------

  lemma LifeTearJoins(s: State)
    requires Inv(s) && s.life.LifeTearing?
    requires ContinueTeardown(s, TLife(s.life.reason), s.life.at).life == Idle
    ensures s.life.at == JoinWorker || !s.inbox.workerSet
  {
  }

  lemma HandlerTearJoins(s: State)
    requires Inv(s) && s.handler.HandlerTearing?
    requires !ContinueTeardown(s, THandler(s.handler.owner, s.handler.error), s.handler.at).handler.HandlerTearing?
    ensures s.handler.at == JoinWorker || !s.inbox.workerSet || s.handler.owner == ByWorker
  {
  }

  /**
    A teardown ends only when the worker it told to stop has stopped, unless another
    teardown told it or the worker runs the teardown itself; and it goes past a
    keepalive it cancelled only when that has ended.
   */
  lemma TeardownJoins(s: State, e: Event)
    requires Reachable(s) && Enabled(s, e)
    ensures e == OfLife(TearStep) && Apply(s, e).life == Idle ==>
              s.worker == Stopped || (s.life.at != JoinWorker && !s.inbox.workerSet)
    ensures e == OfHandler(HandlerTearStep) && !Apply(s, e).handler.HandlerTearing? ==>
              || s.worker == Stopped || s.handler.owner == ByWorker
              || (s.handler.at != JoinWorker && !s.inbox.workerSet)
    ensures e == OfLife(TearStep) && s.life.at.JoinKeepalive? && s.life.at.k in s.beats.all ==>
              s.beats.all[s.life.at.k].pc == Ended
    ensures e == OfHandler(HandlerTearStep) && s.handler.at.JoinKeepalive? && s.handler.at.k in s.beats.all ==>
              s.beats.all[s.handler.at.k].pc == Ended
  {
    ReachableInv(s);
    if e == OfLife(TearStep) && Apply(s, e).life == Idle {
      LifeTearJoins(s);
    }
    if e == OfHandler(HandlerTearStep) && !Apply(s, e).handler.HandlerTearing? {
      HandlerTearJoins(s);
    }
  }
}
