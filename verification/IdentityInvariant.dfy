/** Whose identity the client, its state and its messages carry. */
module IdentityInvariant {
  import opened Wrappers
  import opened Session
  import opened Reports
  import opened TaskInvariant
  import opened TeardownEffect

  /** The client's identity is the requested one, or the one this session established. */
  predicate OneIdentity(target: Option<string>, d: Data) {
    && (target.Some? ==> d.deviceId == target)
    && (d.deviceId.Some? ==> d.deviceId == target || d.deviceId == d.identity)
    && (target.Some? && d.identity.Some? ==> d.identity == target)
    && (d.deviceId.Some? && d.state.deviceId.Some? ==> d.state.deviceId == d.deviceId)
    && (d.identified ==> d.identity.Some? && d.deviceId == d.identity && d.state.deviceId == d.identity)
  }

  /** Before the BLESPP message is accepted no identity is established. */
  predicate NotYetIdentified(life: Lifecycle, d: Data) {
    life.Connecting? || life.Subscribing? || (life.Awaiting? && life.want == Blespp) ==>
      d.identity.None? && !d.identified
  }

  predicate Unacknowledged(life: Lifecycle) {
    || life.Connecting? || life.Subscribing? || (life.Awaiting? && life.want == Blespp)
    || (life.LifeTearing? && life.reason == ConnectFailed)
  }

  /** Once BLESPP was accepted the identity stays until a teardown resets it. */
  predicate IdentityLasts(life: Lifecycle, over: bool, d: Data) {
    !over && !Unacknowledged(life) ==> d.identified
  }

  predicate Identified(s: State) {
    && OneIdentity(s.cfg.target, s.data)
    && NotYetIdentified(s.life, s.data)
    && IdentityLasts(s.life, s.era.over, s.data)
  }

  lemma TearIdentity(s: State, t: Tearer, r: State)
    requires OneIdentity(s.cfg.target, s.data) && TearEffect(s, t, r)
    requires t != TLife(ConnectFailed) ==> Identified(s)
    requires t == TLife(UserDisconnect) ==> !Unacknowledged(s.life)
    ensures Identified(r)
  {
  }

  lemma ResumeIdentity(s: State, r: State)
    requires Identified(s) && Resumes(s, r)
    ensures Identified(r)
  {
  }

  lemma RecordIdentity(s: State, error: Error)
    requires Identified(s)
    ensures Identified(RecordFailure(s, error))
  {
  }

  lemma FailureIdentity(s: State, error: Error, owner: Owner, r: State)
    requires Identified(s) && FailureEffect(s, error, owner, r)
    ensures Identified(r)
  {
    if s.link.failure.Some? || s.link.status == Disconnected {
      ResumeIdentity(s, r);
    } else {
      var s1 := RecordFailure(s, error);
      RecordIdentity(s, error);
      if s.link.closing {
        ResumeIdentity(s1, r);
      } else {
        TearIdentity(s1, THandler(owner, error), r);
      }
    }
  }

  lemma ApplyState(s: State, m: Message)
    ensures ApplyMessage(s, m).data.state.deviceId
            == if m.kind == Report then WithReport(s.data.state, m).deviceId else s.data.state.deviceId
  {
  }

  /** A change of the state that leaves its identity alone keeps the invariant. */
  lemma SameIdentity(s: State, r: State)
    requires Identified(s) && Absorbs(s, r) && r.data.state.deviceId == s.data.state.deviceId
    ensures Identified(r)
  {
  }

  lemma ReportIdentity(s: State, m: Message, r: State)
    requires Identified(s) && Absorbs(s, r) && !ForeignIdentity(s, m)
    requires r.data.state.deviceId == WithReport(s.data.state, m).deviceId
    ensures Identified(r)
  {
  }

  lemma AbsorbsState(s: State, m: Message)
    ensures Absorb(s, m).data.state.deviceId
            == if m.kind == Report then WithReport(s.data.state, m).deviceId else s.data.state.deviceId
  {
    ApplyState(s, m);
  }

  lemma AbsorbIdentity(s: State, m: Message)
    requires Identified(s) && (m.kind == Blespp || !ForeignIdentity(s, m))
    ensures Identified(Absorb(s, m))
  {
    var r := Absorb(s, m);
    AbsorbFrame(s, m);
    AbsorbsState(s, m);
    if m.kind == Report {
      ReportIdentity(s, m, r);
    } else {
      SameIdentity(s, r);
    }
  }

  lemma EstablishKeeps(s: State, m: Message)
    requires OneIdentity(s.cfg.target, s.data) && !BadIdentity(s, m)
    ensures OneIdentity(s.cfg.target, EstablishIdentity(s, m.deviceId.s).data)
  {
  }
}
