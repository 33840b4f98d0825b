/** The status machine, the session failure and its one notice. */
module LinkInvariant {
  import opened Wrappers
  import opened Session
  import opened Reports
  import opened TaskInvariant
  import opened TeardownEffect

  /** The statuses a handshake at this point can have while no failure is recorded. */
  predicate StageStatus(life: Lifecycle, status: Status) {
    if life.ReadDelay? || life.WritingRead? || (life.Awaiting? && life.want == Report)
    then status == ProtocolReady || status == Ready
    else status == Connected
  }

  /** A finished handshake without a failure or a teardown is READY. */
  predicate Settled(s: State) {
    s.link.failure.None? && !s.era.over ==> s.link.status == Ready
  }

  /** What the fields are at each point of the lifecycle holder. */
  predicate Stage(s: State) {
    match s.life
    case Idle => !s.link.closing && !s.mail.waitActive && Settled(s)
    case Connecting =>
      && !s.link.closing && s.mail.waitActive && !s.era.over
      && s.link.failure.None? && s.link.status == Disconnected && !s.link.cleanupDone
    case LifeTearing(_, ConnectFailed) => !s.link.closing
    case LifeTearing(_, UserDisconnect) => s.link.closing && !s.mail.waitActive && Settled(s)
    case _ =>
      && !s.link.closing
      && (s.link.failure.None? ==>
            !s.era.over && s.mail.waitActive && !s.link.cleanupDone && StageStatus(s.life, s.link.status))
      && (s.life.Awaiting? ==>
            && s.life.queue == s.stream.reports
            && (s.link.failure.Some? ==> s.link.status == Disconnected)
            && (s.life.want == Blespp || s.life.want == GetInfoRsp || s.life.want == Report))
  }

  /** The failure of a session is recorded once and reported at most once, as recorded. */
  ghost predicate FailureOnce(s: State) {
    && s.loss.recorded == (if s.link.failure.Some? then 1 else 0)
    && (s.link.failure.Some? <==> s.era.session in s.era.failed)
    && (forall n | n in s.era.failed :: n <= s.era.session)
    && (s.handler != NoHandler ==> s.link.failure.Some? && !s.loss.whileClosing)
    && (s.handler.HandlerTearing? ==> s.link.failure == Some(s.handler.error) && s.loss.lost == [])
    && (s.loss.lost == []
        || (s.link.failure.Some? && s.loss.lost == [s.link.failure.value] && !s.loss.whileClosing))
  }

  /** The fields relate to this session's own queues until a teardown resets them. */
  predicate OwnQueues(s: State) {
    && (!s.era.over ==> s.mail.reports == s.stream.reports && s.mail.writeResults == s.stream.results)
    && (s.mail.waitActive ==> !s.era.over)
    && (s.era.over && s.link.failure.None? ==> s.link.status == Disconnected)
  }

  ghost predicate LinkCore(s: State) {
    FailureOnce(s) && OwnQueues(s)
  }

  ghost predicate Linked(s: State) {
    LinkCore(s) && Stage(s)
  }

  predicate MayTear(s: State, t: Tearer) {
    match t
    case TLife(ConnectFailed) => !s.link.closing
    case TLife(UserDisconnect) => s.link.closing && !s.mail.waitActive && Settled(s)
    case THandler(_, error) =>
      && Stage(s) && s.life != Connecting
      && s.link.failure == Some(error) && s.loss.lost == [] && !s.loss.whileClosing
  }

  lemma TearLink(s: State, t: Tearer, r: State)
    requires LinkCore(s) && MayTear(s, t) && TearEffect(s, t, r)
    ensures Linked(r)
  {
  }

  lemma RecordLink(s: State, error: Error)
    requires Linked(s) && s.link.failure.None? && s.link.status != Disconnected
    ensures Linked(RecordFailure(s, error))
    ensures RecordFailure(s, error).loss.lost == [] && RecordFailure(s, error).life == s.life
    ensures RecordFailure(s, error).loss.whileClosing == s.link.closing
  {
  }

  lemma FailureLink(s: State, error: Error, owner: Owner, r: State)
    requires Linked(s) && FailureEffect(s, error, owner, r)
    ensures Linked(r)
  {
    if s.link.failure.None? && s.link.status != Disconnected {
      RecordLink(s, error);
      if !s.link.closing {
        TearLink(RecordFailure(s, error), THandler(owner, error), r);
      }
    }
  }

  lemma AbsorbLink(s: State, m: Message)
    requires Linked(s)
    ensures Linked(Absorb(s, m))
  {
    AbsorbFrame(s, m);
  }
}
