/** Which messages of its queue the handshake accepts. */
module StreamInvariant {
  import opened Wrappers
  import opened Session
  import opened Reports
  import opened TaskInvariant
  import opened TeardownEffect
  import opened QueueInvariant

  /** The three methods a handshake waits for, in order. */
  function Wanted(n: nat): Method {
    if n == 0 then Blespp else if n == 1 then GetInfoRsp else Report
  }

  predicate Matches(item: Item, want: Method) {
    item.Msg? && item.message.kind == want
  }

  /** Nothing in the range is a sentinel or has the wanted method. */
  predicate Passed(put: seq<Item>, lo: nat, hi: nat, want: Method) {
    hi <= |put| && forall i | lo <= i < hi :: put[i].Msg? && put[i].message.kind != want
  }

  /** The first position the wait after these acceptances looks at. */
  function From(accepted: seq<nat>): nat {
    if accepted == [] then 0 else accepted[|accepted| - 1] + 1
  }

  /** Each accepted position is the earliest match after the one before it. */
  predicate Greedy(put: seq<Item>, accepted: seq<nat>)
    decreases |accepted|
  {
    accepted == []
    || (var n := |accepted| - 1;
        && Greedy(put, accepted[..n])
        && From(accepted[..n]) <= accepted[n] < |put|
        && Matches(put[accepted[n]], Wanted(n))
        && Passed(put, From(accepted[..n]), accepted[n], Wanted(n)))
  }

  /** How many messages a handshake at this point has accepted. */
  function Accepted(life: Lifecycle): nat {
    match life
    case Connecting => 0
    case Subscribing => 0
    case Awaiting(want, _) => if want == Blespp then 0 else if want == GetInfoRsp then 1 else 2
    case WritingOk => 1
    case SppDelay => 1
    case WritingInfo => 1
    case ReadDelay => 2
    case WritingRead => 2
    case _ => 3
  }

  /** Without its pending wait: what was accepted so far is greedy. */
  predicate StreamCore(st: Stream, ks: map<nat, Keepalive>, session: nat) {
    && |st.accepted| <= 3
    && From(st.accepted) <= st.taken <= |st.put|
    && Greedy(st.put, st.accepted)
    && (session in ks ==> |st.accepted| == 3)
  }

  predicate AllMessages(put: seq<Item>) {
    forall i | 0 <= i < |put| :: put[i].Msg?
  }

  predicate Streamed(s: State) {
    && StreamCore(s.stream, s.beats.all, s.era.session)
    && (s.link.failure.None? ==> AllMessages(s.stream.put))
    && (Handshaking(s.life) ==>
          && |s.stream.accepted| == Accepted(s.life)
          && Passed(s.stream.put, From(s.stream.accepted), s.stream.taken, Wanted(|s.stream.accepted|)))
  }

  lemma GreedyPut(put: seq<Item>, item: Item, accepted: seq<nat>)
    requires Greedy(put, accepted)
    ensures Greedy(put + [item], accepted)
    decreases |accepted|
  {
    if accepted != [] {
      GreedyPut(put, item, accepted[..|accepted| - 1]);
    }
  }

  lemma PutStream(s: State, q: nat, item: Item)
    requires Streamed(s) && (item.Msg? || s.link.failure.Some?)
    ensures Streamed(s.(stream := PutOn(s.stream, q, item)))
  {
    GreedyPut(s.stream.put, item, s.stream.accepted);
  }

  lemma TearStream(s: State, t: Tearer, r: State)
    requires StreamCore(s.stream, s.beats.all, s.era.session) && TearEffect(s, t, r)
    requires s.link.failure.None? ==> AllMessages(s.stream.put)
    requires t.THandler? ==> Streamed(s)
    ensures Streamed(r)
  {
  }

  lemma RecordStream(s: State, error: Error)
    requires Streamed(s)
    ensures Streamed(RecordFailure(s, error))
  {
    PutStream(s.(link := s.link.(failure := Some(error))), s.mail.reports, Closed(error));
  }

  lemma FailureStream(s: State, error: Error, owner: Owner, r: State)
    requires Streamed(s) && FailureEffect(s, error, owner, r)
    ensures Streamed(r)
  {
    RecordStream(s, error);
    if s.link.failure.None? && s.link.status != Disconnected && !s.link.closing {
      TearStream(RecordFailure(s, error), THandler(owner, error), r);
    }
  }

  lemma AbsorbStream(s: State, m: Message)
    requires Streamed(s)
    ensures Streamed(Absorb(s, m))
  {
    PutStream(s, s.mail.reports, Msg(m));
    AbsorbMail(s, m);
    AbsorbFrame(s, m);
  }

  /** The accepted positions are a function of what was put on the queue. */
  lemma {:induction false} GreedyUnique(put: seq<Item>, a: seq<nat>, b: seq<nat>)
    requires Greedy(put, a) && Greedy(put, b) && |a| == |b|
    ensures a == b
    decreases |a|
  {
    if a != [] {
      var n := |a| - 1;
      GreedyUnique(put, a[..n], b[..n]);
      assert a[n] == b[n];
      assert a == a[..n] + [a[n]] && b == b[..n] + [b[n]];
    }
  }

  lemma AcceptGreedy(st: Stream, want: Method)
    requires Greedy(st.put, st.accepted) && st.taken < |st.put| && want == Wanted(|st.accepted|)
    requires From(st.accepted) <= st.taken && Passed(st.put, From(st.accepted), st.taken, want)
    ensures Matches(st.put[st.taken], want) ==> Greedy(st.put, st.accepted + [st.taken])
  {
    assert (st.accepted + [st.taken])[..|st.accepted|] == st.accepted;
  }

  lemma TakePasses(s: State, late: bool)
    requires Streamed(s) && s.life.Awaiting? && s.stream.taken < |s.stream.put|
    requires s.life.want == Blespp || s.life.want == GetInfoRsp || s.life.want == Report
    ensures var item := s.stream.put[s.stream.taken];
            item.Msg? && item.message.kind != s.life.want ==> Streamed(s.(stream := Taken(s.stream, late)))
  {
  }

  lemma FromLast(accepted: seq<nat>, n: nat)
    ensures From(accepted + [n]) == n + 1
  {
  }

  lemma AcceptCore(st: Stream, r: Stream)
    requires Greedy(st.put, st.accepted) && From(st.accepted) <= st.taken < |st.put| && |st.accepted| <= 2
    requires Passed(st.put, From(st.accepted), st.taken, Wanted(|st.accepted|))
    requires Matches(st.put[st.taken], Wanted(|st.accepted|))
    requires r.put == st.put && r.taken == st.taken + 1 && r.accepted == st.accepted + [st.taken]
    ensures |r.accepted| == |st.accepted| + 1 && From(r.accepted) == r.taken <= |r.put| && Greedy(r.put, r.accepted)
  {
    AcceptGreedy(st, Wanted(|st.accepted|));
    FromLast(st.accepted, st.taken);
  }

  lemma TakeMatches(s: State, late: bool)
    requires Streamed(s) && s.life.Awaiting? && s.stream.taken < |s.stream.put|
    requires s.life.want == Blespp || s.life.want == GetInfoRsp || s.life.want == Report
    requires Matches(s.stream.put[s.stream.taken], s.life.want)
    ensures var st := Taken(s.stream, late).(accepted := s.stream.accepted + [s.stream.taken]);
            && |st.accepted| == Accepted(s.life) + 1
            && From(st.accepted) == st.taken
            && StreamCore(st, s.beats.all, s.era.session)
  {
    AcceptCore(s.stream, Taken(s.stream, late).(accepted := s.stream.accepted + [s.stream.taken]));
  }

  /** The wait takes the next item: it is accepted, passed over, or ends the handshake. */
  lemma TakeStream(s: State, item: Item, late: bool)
    requires Streamed(s) && s.life.Awaiting? && s.stream.taken < |s.stream.put|
    requires item == s.stream.put[s.stream.taken]
    requires s.life.want == Blespp || s.life.want == GetInfoRsp || s.life.want == Report
    ensures var st := Taken(s.stream, late);
            && StreamCore(st, s.beats.all, s.era.session)
            && (item.Msg? && item.message.kind != s.life.want ==> Streamed(s.(stream := st)))
            && (Matches(item, s.life.want) ==>
                  var st' := st.(accepted := st.accepted + [s.stream.taken]);
                  && |st'.accepted| == Accepted(s.life) + 1
                  && From(st'.accepted) == st'.taken
                  && StreamCore(st', s.beats.all, s.era.session))
  {
    TakePasses(s, late);
    if Matches(item, s.life.want) {
      TakeMatches(s, late);
    }
  }
}
