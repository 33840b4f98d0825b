/**
  What a teardown, suspended or run to its end, does to the shared fields. The
  invariants on those fields use this summary instead of the teardown's code.
 */
module TeardownEffect {
  import opened Wrappers
  import opened Session
  import opened Reports
  import opened TaskInvariant

  /** A task goes on without touching the shared fields; ended calls only lose the lock. */
  predicate OnlyTasks(s: State, r: State) {
    && r.cfg == s.cfg && r.era == s.era && r.link == s.link && r.loss == s.loss && r.data == s.data
    && r.mail == s.mail && r.stream == s.stream && r.outbox == s.outbox && r.life == s.life && r.handler == s.handler
    && r.beats.all.Keys == s.beats.all.Keys
    && CallsEnd(s.controls, r.controls)
  }

  /** Every call is as it was, or was ended with a connection error out of the failure handler. */
  predicate CallsEnd(cs: map<nat, Control>, ds: map<nat, Control>) {
    && ds.Keys == cs.Keys
    && forall c | c in cs ::
         || ds[c] == cs[c]
         || (cs[c].pc.FailingWrite? && ds[c] == cs[c].(pc := Done(cs[c].pc.id, ConnectionFailed)))
  }

  /** Keepalives only end or get cancelled. */
  predicate BeatsSettle(ks: map<nat, Keepalive>, ls: map<nat, Keepalive>) {
    && ls.Keys == ks.Keys
    && forall k | k in ks :: (ls[k].pc == ks[k].pc || ls[k].pc == Ended) && (ks[k].cancelled ==> ls[k].cancelled)
  }

  predicate Resumes(s: State, r: State) {
    OnlyTasks(s, r) && BeatsSettle(s.beats.all, r.beats.all)
  }

  predicate TearSuspends(s: State, t: Tearer, r: State) {
    && r.era == s.era && r.mail == s.mail && r.data == s.data
    && r.link == s.link.(cleanupDone := r.link.cleanupDone)
    && r.loss == s.loss.(stops := r.loss.stops, disconnects := r.loss.disconnects)
    && r.controls == s.controls
    && match t
       case TLife(reason) => r.handler == s.handler && r.life.LifeTearing? && r.life.reason == reason
       case THandler(owner, error) =>
         r.life == s.life && r.handler.HandlerTearing? && r.handler == HandlerTearing(owner, error, r.handler.at)
  }

  predicate TearEnds(s: State, t: Tearer, r: State) {
    && r.era == s.era.(over := true) && r.mail == FreshMail(s.mail)
    && r.data == s.data.(state := EMPTY_STATE, deviceId := s.cfg.target, identified := false)
    && r.link.status == Disconnected && r.link.failure == s.link.failure && r.link.cleanupDone == s.link.cleanupDone
    && CallsEnd(s.controls, r.controls)
    && match t
       case TLife(reason) =>
         && r.handler == s.handler && r.life == Idle && r.loss == s.loss
         && r.link.closing == (s.link.closing && reason != UserDisconnect)
       case THandler(owner, error) =>
         && r.life == s.life && r.link.closing == s.link.closing
         && r.handler == (if s.cfg.lostCallback then NotifyingLoss(owner) else NoHandler)
         && r.loss == (if s.cfg.lostCallback then s.loss.(lost := s.loss.lost + [error]) else s.loss)
  }

  predicate TearEffect(s: State, t: Tearer, r: State) {
    && r.cfg == s.cfg && r.stream == s.stream && r.outbox == s.outbox
    && BeatsSettle(s.beats.all, r.beats.all)
    && (TearSuspends(s, t, r) || TearEnds(s, t, r))
  }

  predicate OwnerFails(s: State, owner: Owner) {
    owner.ByControl? ==> owner.c in s.controls && s.controls[owner.c].pc.FailingWrite?
  }

  lemma ResumeEffect(s: State, owner: Owner)
    requires OwnerFails(s, owner)
    ensures Resumes(s, Resume(s, owner))
  {
  }

  lemma FinishEffect(s: State, t: Tearer)
    requires t.THandler? ==> OwnerFails(s, t.owner)
    ensures TearEffect(s, t, FinishTeardown(s, t))
  {
    if t.THandler? {
      ResumeEffect(CloseSession(s).(handler := NoHandler), t.owner);
    }
  }

  lemma StopWorkerEffect(s: State, t: Tearer)
    requires t.THandler? ==> OwnerFails(s, t.owner)
    ensures TearEffect(s, t, StopWorker(s, t))
  {
    FinishEffect(s, t);
    FinishEffect(s.(inbox := Stopping(s.inbox)), t);
  }

  lemma CleanupEffect(s: State, t: Tearer)
    requires t.THandler? ==> OwnerFails(s, t.owner)
    ensures TearEffect(s, t, CleanupTransport(s, t))
  {
    if s.link.cleanupDone {
      StopWorkerEffect(s, t);
    }
  }

  lemma BeginEffect(s: State, t: Tearer)
    requires t.THandler? ==> OwnerFails(s, t.owner)
    ensures TearEffect(s, t, BeginTeardown(s, t))
  {
    match s.beats.task
    case None => CleanupEffect(s, t);
    case Some(k) =>
      if t.THandler? && t.owner == ByKeepalive(k) {
        CleanupEffect(s.(beats := s.beats.(task := None)), t);
      }
  }

  lemma ContinueEffect(s: State, t: Tearer, at: TearPoint)
    requires t.THandler? ==> OwnerFails(s, t.owner)
    ensures TearEffect(s, t, ContinueTeardown(s, t, at))
  {
    match at
    case JoinKeepalive(_) => CleanupEffect(s, t);
    case Unsubscribing =>
    case Disconnecting => StopWorkerEffect(s, t);
    case JoinWorker => FinishEffect(s, t);
  }

  /** A failure is refused, recorded only, or recorded and followed by a teardown. */
  predicate FailureEffect(s: State, error: Error, owner: Owner, r: State) {
    if s.link.failure.Some? || s.link.status == Disconnected then Resumes(s, r)
    else if s.link.closing then Resumes(RecordFailure(s, error), r)
    else TearEffect(RecordFailure(s, error), THandler(owner, error), r)
  }

  lemma HandleEffect(s: State, error: Error, owner: Owner)
    requires OwnerFails(s, owner)
    ensures FailureEffect(s, error, owner, HandleFailure(s, error, owner))
  {
    if s.link.failure.Some? || s.link.status == Disconnected {
      ResumeEffect(s, owner);
    } else if s.link.closing {
      ResumeEffect(RecordFailure(s, error), owner);
    } else {
      BeginEffect(RecordFailure(s, error), THandler(owner, error));
    }
  }

  // ---- The transport is stopped and disconnected once --------------------

  /** How far the session's only cleanup has come. */
  predicate CleanedOnce(s: State) {
    && s.loss.stops == (if s.link.cleanupDone then 1 else 0)
    && s.loss.disconnects <= s.loss.stops
    && !(LifeAt(s.life) == Some(Unsubscribing) && HandlerAt(s.handler) == Some(Unsubscribing))
    && (LifeAt(s.life) == Some(Unsubscribing) || HandlerAt(s.handler) == Some(Unsubscribing)
        <==> s.link.cleanupDone && s.loss.disconnects == 0)
  }

  /** The same while `t` runs: its own suspension point no longer counts. */
  predicate CleanedBut(s: State, t: Tearer) {
    && s.loss.stops == (if s.link.cleanupDone then 1 else 0)
    && s.loss.disconnects <= s.loss.stops
    && ((if t.TLife? then HandlerAt(s.handler) else LifeAt(s.life)) == Some(Unsubscribing)
        <==> s.link.cleanupDone && s.loss.disconnects == 0)
  }

  lemma FinishCleaned(s: State, t: Tearer)
    requires CleanedBut(s, t) && (t.THandler? ==> OwnerFails(s, t.owner))
    ensures CleanedOnce(FinishTeardown(s, t))
  {
    FinishEffect(s, t);
  }

  lemma StopWorkerCleaned(s: State, t: Tearer)
    requires CleanedBut(s, t) && (t.THandler? ==> OwnerFails(s, t.owner))
    ensures CleanedOnce(StopWorker(s, t))
  {
    FinishCleaned(s, t);
    FinishCleaned(s.(inbox := Stopping(s.inbox)), t);
  }

  lemma CleanupCleaned(s: State, t: Tearer)
    requires CleanedBut(s, t) && (t.THandler? ==> OwnerFails(s, t.owner))
    ensures CleanedOnce(CleanupTransport(s, t))
  {
    if s.link.cleanupDone {
      StopWorkerCleaned(s, t);
    }
  }

  lemma BeginCleaned(s: State, t: Tearer)
    requires CleanedBut(s, t) && (t.THandler? ==> OwnerFails(s, t.owner))
    ensures CleanedOnce(BeginTeardown(s, t))
  {
    match s.beats.task
    case None => CleanupCleaned(s, t);
    case Some(k) =>
      if t.THandler? && t.owner == ByKeepalive(k) {
        CleanupCleaned(s.(beats := s.beats.(task := None)), t);
      }
  }

  lemma ContinueCleaned(s: State, t: Tearer, at: TearPoint)
    requires CleanedOnce(s) && (t.THandler? ==> OwnerFails(s, t.owner))
    requires Some(at) == if t.TLife? then LifeAt(s.life) else HandlerAt(s.handler)
    ensures CleanedOnce(ContinueTeardown(s, t, at))
  {
    match at
    case JoinKeepalive(_) => CleanupCleaned(s, t);
    case Unsubscribing =>
    case Disconnecting => StopWorkerCleaned(s, t);
    case JoinWorker => FinishCleaned(s, t);
  }

  lemma HandleCleaned(s: State, error: Error, owner: Owner)
    requires OwnerFails(s, owner) && CleanedOnce(s)
    requires s.link.failure.None? ==> s.handler == NoHandler
    ensures CleanedOnce(HandleFailure(s, error, owner))
  {
    if s.link.failure.Some? || s.link.status == Disconnected {
      ResumeEffect(s, owner);
    } else if s.link.closing {
      ResumeEffect(RecordFailure(s, error), owner);
    } else {
      BeginCleaned(RecordFailure(s, error), THandler(owner, error));
    }
  }
}
