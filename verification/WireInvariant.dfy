/** What a session writes to the transport, and the ids it draws. */
module WireInvariant {
  import opened Wrappers
  import opened Session
  import opened Reports
  import opened TaskInvariant
  import opened TeardownEffect
  import opened IdentityInvariant

  /** How far the writes of a session's own tasks have come. */
  datatype Phase = Opening | Acknowledged | Informed | Reading | Broken

  function Advance(p: Phase, kind: Kind): Phase {
    match kind
    case BlesppOk => if p == Opening then Acknowledged else Broken
    case GetInfo => if p == Acknowledged then Informed else Broken
    case InitialRead => if p == Informed then Reading else Broken
    case KeepaliveRead => if p == Reading then Reading else Broken
    case Write => if p == Informed || p == Reading then p else Broken
  }

  /** The phase after the writes of the tasks that belong to `session`. */
  function Scan(wire: seq<Sent>, session: nat): Phase {
    if wire == [] then Opening
    else
      var last := wire[|wire| - 1];
      var p := Scan(wire[..|wire| - 1], session);
      if last.origin == session then Advance(p, last.kind) else p
  }

  /** BLESPP_OK has the reserved id; every other message a drawn id and an identity. */
  predicate SentWell(x: Sent, target: Option<string>, identity: Option<string>) {
    if x.kind == BlesppOk then x.id == BLESPP_OK_MESSAGE_ID
    else
      && x.id != BLESPP_OK_MESSAGE_ID && x.device.Some? && (x.device == target || x.device == identity)
      && (x.kind == Write ==> !x.late)
  }

  predicate AllSentWell(wire: seq<Sent>, target: Option<string>, identity: Option<string>) {
    forall i | 0 <= i < |wire| :: SentWell(wire[i], target, identity)
  }

  predicate Talking(p: Phase) {
    p == Informed || p == Reading
  }

  predicate PhaseOfLife(life: Lifecycle, p: Phase) {
    match life
    case Connecting => p == Opening
    case Subscribing => p == Opening
    case WritingOk => p == Acknowledged
    case SppDelay => p == Acknowledged
    case WritingInfo => p == Informed
    case ReadDelay => p == Informed
    case WritingRead => p == Reading
    case Awaiting(want, _) =>
      if want == Blespp then p == Opening else if want == GetInfoRsp then p == Informed else p == Reading
    case _ => p != Broken
  }

  /** The tasks that may write are allowed to in this phase. */
  ghost predicate WritersInPhase(
    status: Status, session: nat, ks: map<nat, Keepalive>, cs: map<nat, Control>, p: Phase)
  {
    && (status == ProtocolReady || status == Ready ==> Talking(p))
    && (session in ks ==> p == Reading)
    && (forall c | c in cs :: cs[c].began <= session && (cs[c].began == session && !cs[c].pc.Done? ==> Talking(p)))
  }

  ghost predicate Wired(s: State) {
    var p := Scan(s.outbox.wire, s.era.session);
    && AllSentWell(s.outbox.wire, s.cfg.target, s.data.identity)
    && PhaseOfLife(s.life, p)
    && WritersInPhase(s.link.status, s.era.session, s.beats.all, s.controls, p)
    && p != Broken
  }

  /** As `Wired`, while the lifecycle holder is about to leave its point. */
  ghost predicate WiredCore(s: State) {
    var p := Scan(s.outbox.wire, s.era.session);
    && AllSentWell(s.outbox.wire, s.cfg.target, s.data.identity)
    && WritersInPhase(s.link.status, s.era.session, s.beats.all, s.controls, p)
    && p != Broken
  }

  lemma ScanAppend(wire: seq<Sent>, x: Sent, session: nat)
    ensures Scan(wire + [x], session)
            == if x.origin == session then Advance(Scan(wire, session), x.kind) else Scan(wire, session)
  {
    assert (wire + [x])[..|wire|] == wire;
  }

  lemma TearWire(s: State, t: Tearer, r: State)
    requires WiredCore(s) && (t.THandler? ==> Wired(s)) && TearEffect(s, t, r)
    ensures Wired(r)
  {
  }

  lemma FailureWire(s: State, error: Error, owner: Owner, r: State)
    requires Wired(s) && FailureEffect(s, error, owner, r)
    ensures Wired(r)
  {
    if s.link.failure.None? && s.link.status != Disconnected && !s.link.closing {
      TearWire(RecordFailure(s, error), THandler(owner, error), r);
    }
  }

  lemma AbsorbWire(s: State, m: Message)
    requires Wired(s)
    ensures Wired(Absorb(s, m))
  {
    AbsorbFrame(s, m);
  }

  /** A request goes out with the client's identity, in a phase that allows it. */
  lemma SendWire(s: State, kind: Kind, content: Content, origin: nat)
    requires AllSentWell(s.outbox.wire, s.cfg.target, s.data.identity)
    requires OneIdentity(s.cfg.target, s.data) && s.data.deviceId.Some?
    requires kind != BlesppOk && (kind == Write ==> s.link.failure.None?)
    ensures AllSentWell(Send(s, kind, content, origin).outbox.wire, s.cfg.target, s.data.identity)
    ensures Scan(Send(s, kind, content, origin).outbox.wire, s.era.session)
            == if origin == s.era.session then Advance(Scan(s.outbox.wire, s.era.session), kind)
               else Scan(s.outbox.wire, s.era.session)
  {
    var x := Sent(kind, NextId(s.outbox.messageId), content, s.data.deviceId, origin, s.link.failure.Some?);
    ScanAppend(s.outbox.wire, x, s.era.session);
    assert Send(s, kind, content, origin).outbox.wire == s.outbox.wire + [x];
  }

  // ---- Message ids ------------------------------------------------------

  /** The n-th id the client draws, counting from one. */
  function NthId(n: nat): nat {
    if n < BLESPP_OK_MESSAGE_ID then n else n + 1
  }

  /** The counter after n draws. */
  function CounterAfter(n: nat): nat {
    if n < BLESPP_OK_MESSAGE_ID then n + 1 else n + 2
  }

  predicate Numbered(o: Outbox) {
    && o.messageId == CounterAfter(|o.issued|)
    && forall i | 0 <= i < |o.issued| :: o.issued[i] == NthId(i + 1)
  }

  lemma SendNumbered(s: State, kind: Kind, content: Content, origin: nat)
    requires Numbered(s.outbox)
    ensures Numbered(Send(s, kind, content, origin).outbox)
  {
  }
}
