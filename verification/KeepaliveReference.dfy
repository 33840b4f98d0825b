/**
  What a caller has to see to so that no keepalive of an earlier session disturbs a
  new one: no session is opened while the client still refers to a live keepalive.
 */
module KeepaliveReference {
  import opened Wrappers
  import opened Session
  import opened TaskInvariant
  import opened TeardownEffect
  import opened Invariant
  import opened StepEffect
  import opened SessionTheorems
  import opened Reconnect

  /** `_keepalive_task` is None or a task that is done. */
  predicate ReferenceDone(s: State) {
    s.beats.task.Some? ==> s.beats.task.value in s.beats.all && s.beats.all[s.beats.task.value].pc == Ended
  }

  /** Every session of the run was opened with the reference done. */
  ghost predicate OpensTidily(s: State, events: seq<Event>) {
    forall n | 0 <= n < |events| && Run(s, events[..n]).Some? ::
      Opens(Run(s, events[..n]).value, events[n]) ==> ReferenceDone(Run(s, events[..n]).value)
  }

  /** A keepalive in its loop is the one the client refers to; a handshake runs without any. */
  predicate OnlyReferenced(s: State) {
    && (forall k | k in s.beats.all && Looping(s.beats.all[k]) :: s.beats.task == Some(k))
    && (Handshaking(s.life) ==> forall k | k in s.beats.all :: !Looping(s.beats.all[k]))
  }

  lemma LoopsEndReferenced(s: State, r: State)
    requires OnlyReferenced(s) && LoopsEnd(s.beats, r.beats)
    requires Handshaking(r.life) ==> Handshaking(s.life)
    ensures OnlyReferenced(r)
  {
  }

  lemma GetReferenced(s: State)
    requires Inv(s) && LifeEnabled(s, Get) && OnlyReferenced(s)
    ensures OnlyReferenced(LifeStep(s, Get))
  {
    GetTakes(s);
  }

  lemma LifeReferenced(s: State, e: LifeEvent)
    requires Inv(s) && LifeEnabled(s, e) && OnlyReferenced(s)
    requires Opens(s, OfLife(e)) ==> ReferenceDone(s)
    ensures OnlyReferenced(LifeStep(s, e))
  {
    if e == Get {
      GetReferenced(s);
    } else {
      LifeBackground(s, e);
      if !Opens(s, OfLife(e)) {
        HandshakeGoesOn(s, e);
        LoopsEndReferenced(s, LifeStep(s, e));
      }
    }
  }

  lemma HandshakeGoesOn(s: State, e: LifeEvent)
    requires LifeEnabled(s, e) && !Opens(s, OfLife(e))
    ensures Handshaking(LifeStep(s, e).life) ==> Handshaking(s.life)
  {
    match e
    case Disconnect => BeginEffect(s.(link := s.link.(closing := true)), TLife(UserDisconnect));
    case TearStep => ContinueEffect(s, TLife(s.life.reason), s.life.at);
    case _ =>
  }

  lemma StepReferenced(s: State, e: Event)
    requires Inv(s) && Enabled(s, e) && OnlyReferenced(s) && (Opens(s, e) ==> ReferenceDone(s))
    ensures OnlyReferenced(Apply(s, e))
  {
    if e.OfLife? {
      LifeReferenced(s, e.life);
    } else {
      StepWithin(s, e);
      match e {
        case OfHandler(h) => HandlerBackground(s, h);
        case OfNotices(n) => NoticeBackground(s, n);
        case OfKeepalive(k, b) => BeatBackground(s, k, b);
        case OfControl(c, x) => CallEffect(s, c, x);
      }
      LoopsEndReferenced(s, Apply(s, e));
    }
  }

  lemma OpensTidilyBefore(s: State, events: seq<Event>)
    requires OpensTidily(s, events) && events != []
    ensures OpensTidily(s, events[..|events| - 1])
  {
    var init := events[..|events| - 1];
    forall n | 0 <= n < |init| && Run(s, init[..n]).Some?
      ensures Opens(Run(s, init[..n]).value, init[n]) ==> ReferenceDone(Run(s, init[..n]).value)
    {
      assert init[..n] == events[..n];
    }
  }

  lemma {:induction false} RunReferenced(s: State, events: seq<Event>)
    requires Inv(s) && OnlyReferenced(s) && Run(s, events).Some? && OpensTidily(s, events)
    ensures OnlyReferenced(Run(s, events).value)
  {
    if events != [] {
      var n := |events| - 1;
      OpensTidilyBefore(s, events);
      RunReferenced(s, events[..n]);
      RunsKeepInv(s, events[..n]);
      StepReferenced(Run(s, events[..n]).value, events[n]);
    }
  }

  /**
    When every earlier session was opened with the reference done, a new one is
    undisturbed exactly when the reference is done again and no control call is
    waiting for the lock: all a caller has to look at.
   */
  lemma QuietIffReferenceDone(cfg: Config, events: seq<Event>)
    requires Run(Initial(cfg), events).Some? && OpensTidily(Initial(cfg), events)
    requires Opens(Run(Initial(cfg), events).value, OfLife(Connect))
             && Enabled(Run(Initial(cfg), events).value, OfLife(Connect))
    ensures var s := Run(Initial(cfg), events).value;
            Quiet(s) <==> ReferenceDone(s) && forall c | c in s.controls :: s.controls[c].pc != WaitingLock
  {
    InitialInv(cfg);
    RunsKeepInv(Initial(cfg), events);
    RunReferenced(Initial(cfg), events);
  }

  // ---- disconnect() before connect() ------------------------------------

  lemma TearingHasNoReference(s: State, e: LifeEvent)
    requires LifeEnabled(s, e) && (e == Disconnect || (e == TearStep && s.beats.task == None))
    ensures LifeStep(s, e).beats.task == None
  {
    if e == Disconnect {
      BeginBackground(s.(link := s.link.(closing := true)), TLife(UserDisconnect));
    } else {
      ContinueKeepsReference(s, TLife(s.life.reason), s.life.at);
    }
  }

  /** Only the end of a handshake makes the client refer to a keepalive. */
  lemma ReferenceStaysNone(s: State, e: Event)
    requires Inv(s) && Enabled(s, e) && s.beats.task == None && e != OfLife(Get)
    ensures Apply(s, e).beats.task == None
  {
    match e
    case OfLife(l) => LifeBackground(s, l);
    case OfHandler(h) => HandlerBackground(s, h);
    case OfNotices(n) => NoticeBackground(s, n);
    case OfKeepalive(k, b) => BeatBackground(s, k, b);
    case OfControl(c, x) => CallEffect(s, c, x);
  }

  predicate NoTake(events: seq<Event>) {
    forall i | 0 <= i < |events| :: events[i] != OfLife(Get)
  }

  lemma {:induction false} ReferenceStaysNoneInRun(s: State, events: seq<Event>)
    requires Inv(s) && s.beats.task == None && NoTake(events) && Run(s, events).Some?
    ensures Run(s, events).value.beats.task == None
  {
    if events != [] {
      var n := |events| - 1;
      ReferenceStaysNoneInRun(s, events[..n]);
      RunsKeepInv(s, events[..n]);
      ReferenceStaysNone(Run(s, events[..n]).value, events[n]);
    }
  }

  /**
    `disconnect()` before `connect()` is enough: from its first step on, until the
    next handshake, the client refers to no keepalive.
   */
  lemma DisconnectIsTidy(s: State, events: seq<Event>)
    requires Reachable(s) && s.life == Idle && NoTake(events)
    requires Run(Apply(s, OfLife(Disconnect)), events).Some?
    ensures Run(Apply(s, OfLife(Disconnect)), events).value.beats.task == None
  {
    ReachableInv(s);
    InvStep(s, OfLife(Disconnect));
    TearingHasNoReference(s, Disconnect);
    ReferenceStaysNoneInRun(Apply(s, OfLife(Disconnect)), events);
  }
}
