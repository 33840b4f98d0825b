/**
  The wait loop shared by the handshake and the control calls
  (`_wait_for_response`), run against a queue whose elements arrive over time.
 */
module WaitLoop {
  import opened Wrappers
  import opened Session
  import opened Reports
  import opened StreamInvariant
  import opened AckInvariant

  /** An element that is in the queue from time `at` on. */
  datatype Arrival = Arrival(at: real, item: Item)

  /** What `accept` says of a message; Refuse is an exception it raises. */
  datatype Verdict = Reject | Accept | Refuse

  datatype Result =
    | Accepted(message: Message) | Refused(message: Message) | SessionClosed | DeadlinePassed | SessionFailed

  predicate InOrderOfTime(pending: seq<Arrival>) {
    forall i, j | 0 <= i < j < |pending| :: pending[i].at <= pending[j].at
  }

  predicate Rejected(a: Arrival, accept: Message -> Verdict) {
    a.item.Msg? && accept(a.item.message) == Reject
  }

  predicate AllRejected(pending: seq<Arrival>, accept: Message -> Verdict) {
    forall i | 0 <= i < |pending| :: Rejected(pending[i], accept)
  }

  /** How the wait ends on its first element that is not rejected. */
  function Ending(item: Item, accept: Message -> Verdict): Result {
    match item
    case Closed(_) => SessionClosed
    case Msg(m) => if accept(m) == Refuse then Refused(m) else Accepted(m)
  }

  /** The first arrival that is due before the deadline and not rejected is at position n. */
  predicate Decisive(pending: seq<Arrival>, n: nat, deadline: real, accept: Message -> Verdict) {
    n < |pending| && pending[n].at < deadline && !Rejected(pending[n], accept) && AllRejected(pending[..n], accept)
  }

  /** Every arrival that is due before the deadline is rejected. */
  predicate NothingDecides(pending: seq<Arrival>, deadline: real, accept: Message -> Verdict) {
    forall i | 0 <= i < |pending| && pending[i].at < deadline :: Rejected(pending[i], accept)
  }

  function Later(a: real, b: real): real {
    if a < b then b else a
  }

  class TimedQueue {
    var now: real
    var pending: seq<Arrival>

    /** `asyncio.wait_for(queue.get(), remaining)`, where the remaining time ends at `deadline`. */
    method Get(deadline: real) returns (got: Option<Item>)
      requires now < deadline
      modifies this
      ensures old(pending) != [] && old(pending)[0].at < deadline ==>
                && got == Some(old(pending)[0].item) && pending == old(pending)[1..]
                && now == Later(old(now), old(pending)[0].at)
      ensures !(old(pending) != [] && old(pending)[0].at < deadline) ==>
                got == None && pending == old(pending) && now == deadline
    {
      if pending != [] && pending[0].at < deadline {
        got := Some(pending[0].item);
        now := Later(now, pending[0].at);
        pending := pending[1..];
      } else {
        got := None;
        now := deadline;
      }
    }

    /**
      The wait ends no later than the one deadline fixed at its start, however many
      messages it rejects. It consumes a prefix of the arrivals, all but the last
      of them rejected; without a session failure it ends on the first arrival
      that is due and not rejected, if there is one, and at the deadline if not. A
      failure recorded before ends it at once, a later one before the next but one.
     */
    method WaitForResponse(timeout: real, failedAt: Option<real>, accept: Message -> Verdict)
      returns (r: Result, used: nat)
      requires InOrderOfTime(pending)
      modifies this
      ensures used <= |old(pending)| && pending == old(pending)[used..]
      ensures old(now) <= now <= Later(old(now), old(now) + timeout)
      ensures r == DeadlinePassed || r == SessionFailed ==> AllRejected(old(pending)[..used], accept)
      ensures r != DeadlinePassed && r != SessionFailed ==>
                && used > 0 && Decisive(old(pending), used - 1, old(now) + timeout, accept)
                && r == Ending(old(pending)[used - 1].item, accept)
      ensures r == SessionFailed ==> failedAt.Some? && failedAt.value <= now
      ensures failedAt.Some? && failedAt.value <= old(now) ==> r == SessionFailed && used == 0
      ensures failedAt.Some? && used > 1 ==> old(pending)[used - 2].at < failedAt.value
      ensures r == DeadlinePassed ==>
                && now == Later(old(now), old(now) + timeout)
                && (timeout > 0.0 ==> NothingDecides(old(pending), old(now) + timeout, accept))
    {
      ghost var all, start := pending, now;
      var deadline := now + timeout;
      used := 0;
      while true
        invariant used <= |all| && pending == all[used..]
        invariant start <= now <= Later(start, deadline)
        invariant AllRejected(all[..used], accept)
        invariant if used == 0 then now == start else now == Later(start, all[used - 1].at) && now < deadline
        invariant failedAt.Some? && used > 0 ==>
                    start < failedAt.value && (used > 1 ==> all[used - 2].at < failedAt.value)
        decreases |pending|
      {
        if failedAt.Some? && failedAt.value <= now {
          return SessionFailed, used;
        }
        if deadline - now <= 0.0 {
          return DeadlinePassed, used;
        }
        assert pending != [] ==> pending[0] == all[used] && (used > 0 ==> all[used - 1].at <= all[used].at);
        var got := Get(deadline);
        if got.None? {
          NoneDecisive(all, used, deadline, accept);
          return DeadlinePassed, used;
        }
        assert got.value == all[used].item;
        if Rejected(all[used], accept) {
          RejectedMore(all, used, accept);
        } else {
          DecidedAt(all, used, deadline, accept);
        }
        used := used + 1;
        match got.value {
          case Closed(_) => return SessionClosed, used;
          case Msg(m) =>
            if accept(m) == Refuse {
              return Refused(m), used;
            }
            if accept(m) == Accept {
              return Accepted(m), used;
            }
        }
      }
    }
  }

  lemma RejectedMore(all: seq<Arrival>, used: nat, accept: Message -> Verdict)
    requires used < |all| && AllRejected(all[..used], accept) && Rejected(all[used], accept)
    ensures AllRejected(all[..used + 1], accept)
  {
    assert all[..used + 1] == all[..used] + [all[used]];
  }

  lemma DecidedAt(all: seq<Arrival>, used: nat, deadline: real, accept: Message -> Verdict)
    requires used < |all| && AllRejected(all[..used], accept)
    requires all[used].at < deadline && !Rejected(all[used], accept)
    ensures Decisive(all, used, deadline, accept)
  {
  }

  /** Nothing decides when everything taken was rejected and the rest is not due. */
  lemma NoneDecisive(all: seq<Arrival>, used: nat, deadline: real, accept: Message -> Verdict)
    requires used <= |all| && InOrderOfTime(all) && AllRejected(all[..used], accept)
    requires used == |all| || all[used].at >= deadline
    ensures NothingDecides(all, deadline, accept)
  {
    forall i | 0 <= i < |all| && all[i].at < deadline ensures Rejected(all[i], accept) {
      assert i < used ==> Rejected(all[..used][i], accept);
    }
  }

  /** A wait is decided by one arrival, or by none. */
  lemma DecisiveIsUnique(all: seq<Arrival>, n: nat, deadline: real, accept: Message -> Verdict)
    requires Decisive(all, n, deadline, accept)
    ensures !NothingDecides(all, deadline, accept)
    ensures forall m: nat | Decisive(all, m, deadline, accept) :: m == n
  {
  }

  // ---- The two users of the loop ----------------------------------------

  function OfMethod(want: Method): Message -> Verdict {
    (m: Message) => if m.kind == want then Accept else Reject
  }

  function OfWrite(property: string, id: nat): Message -> Verdict {
    (m: Message) =>
      if !Correlated(m, property, id) then Reject else if Acknowledges(m) then Accept else Refuse
  }

  /** The elements of the arrivals. */
  function Items(arrivals: seq<Arrival>): seq<Item> {
    seq(|arrivals|, i requires 0 <= i < |arrivals| => arrivals[i].item)
  }

  lemma RejectedAreUncorrelated(arrivals: seq<Arrival>, property: string, id: nat)
    requires AllRejected(arrivals, OfWrite(property, id))
    ensures AllUncorrelated(Items(arrivals), property, id)
  {
    forall i | 0 <= i < |arrivals| ensures Uncorrelated(Items(arrivals)[i], property, id) {
      assert Rejected(arrivals[i], OfWrite(property, id));
    }
  }

  /** The wait of a control call: its outcome is the first correlated acknowledgement's. */
  method AwaitAcknowledgement(q: TimedQueue, timeout: real, failedAt: Option<real>, property: string, id: nat)
    returns (outcome: Outcome)
    requires InOrderOfTime(q.pending)
    modifies q
    ensures exists used :: 0 <= used <= |old(q.pending)| && q.pending == old(q.pending)[used..]
              && IsVerdict(Items(old(q.pending)[..used]), property, id, outcome)
    ensures outcome == Succeeded || outcome == CommandRejected || outcome == TimedOut || outcome == ConnectionFailed
    ensures failedAt.Some? && failedAt.value <= old(q.now) ==> outcome == ConnectionFailed
    ensures old(q.now) <= q.now <= Later(old(q.now), old(q.now) + timeout)
  {
    ghost var all := q.pending;
    var r, used := q.WaitForResponse(timeout, failedAt, OfWrite(property, id));
    ghost var seen := Items(all[..used]);
    if used > 0 {
      assert Items(all[..used - 1]) == seen[..used - 1];
      if r != DeadlinePassed && r != SessionFailed {
        RejectedAreUncorrelated(all[..used - 1], property, id);
      }
    }
    if r == DeadlinePassed || r == SessionFailed {
      RejectedAreUncorrelated(all[..used], property, id);
    }
    match r {
      case Accepted(_) => outcome := Succeeded;
      case Refused(_) => outcome := CommandRejected;
      case DeadlinePassed => outcome := TimedOut;
      case _ => outcome := ConnectionFailed;
    }
    JudgedIsVerdict(Control(0, property, 0, Done(id, outcome), seen));
    assert IsVerdict(seen, property, id, outcome);
  }

  lemma RejectedArePassed(arrivals: seq<Arrival>, lo: nat, hi: nat, want: Method)
    requires lo <= hi <= |arrivals| && AllRejected(arrivals[lo..hi], OfMethod(want))
    ensures Passed(Items(arrivals), lo, hi, want)
  {
    forall i | lo <= i < hi ensures Items(arrivals)[i].Msg? && Items(arrivals)[i].message.kind != want {
      assert Rejected(arrivals[lo..hi][i - lo], OfMethod(want));
    }
  }

  /**
    A wait of the handshake that starts at position `from` of all the arrivals: it
    passes over messages of other methods and ends on the first of the wanted
    method, on a sentinel, on a session failure or at its deadline.
   */
  method AwaitMethod(q: TimedQueue, timeout: real, failedAt: Option<real>, want: Method,
                     ghost all: seq<Arrival>, ghost from: nat)
    returns (r: Result, ghost to: nat)
    requires InOrderOfTime(all) && from <= |all| && q.pending == all[from..]
    modifies q
    ensures from <= to <= |all| && q.pending == all[to..]
    ensures old(q.now) <= q.now <= Later(old(q.now), old(q.now) + timeout)
    ensures match r
            case Accepted(m) =>
              from < to && Passed(Items(all), from, to - 1, want)
              && Items(all)[to - 1] == Msg(m) && Matches(Items(all)[to - 1], want)
            case SessionClosed =>
              from < to && Passed(Items(all), from, to - 1, want) && Items(all)[to - 1].Closed?
            case Refused(_) => false
            case _ => Passed(Items(all), from, to, want)
  {
    var used;
    r, used := q.WaitForResponse(timeout, failedAt, OfMethod(want));
    to := from + used;
    assert all[from..][used..] == all[to..];
    if r == DeadlinePassed || r == SessionFailed {
      assert all[from..][..used] == all[from..to];
      RejectedArePassed(all, from, to, want);
    } else {
      assert all[from..][..used - 1] == all[from..to - 1];
      RejectedArePassed(all, from, to - 1, want);
      assert all[from..][used - 1] == all[to - 1];
    }
  }

  /** One more acceptance: the earliest match after the ones before. */
  lemma GreedyExtends(put: seq<Item>, accepted: seq<nat>, n: nat)
    requires Greedy(put, accepted) && From(accepted) <= n < |put|
    requires Passed(put, From(accepted), n, Wanted(|accepted|)) && Matches(put[n], Wanted(|accepted|))
    ensures Greedy(put, accepted + [n]) && From(accepted + [n]) == n + 1
  {
    assert (accepted + [n])[..|accepted|] == accepted;
  }

  /**
    The waits and delays of a handshake, with the transport writes between them
    taking any time: its own waiting is at most three timeouts and two delays, and
    when it is done it has accepted the greedy BLESPP, getInfo-rsp and report of
    the arrivals.
   */
  method HandshakeWaits(q: TimedQueue, timeout: real, sppDelay: real, readDelay: real, writes: seq<real>,
                        failedAt: Option<real>)
    returns (done: bool, waited: real, ghost accepted: seq<nat>)
    requires InOrderOfTime(q.pending) && timeout >= 0.0 && sppDelay >= 0.0 && readDelay >= 0.0
    requires |writes| == 3 && writes[0] >= 0.0 && writes[1] >= 0.0 && writes[2] >= 0.0
    modifies q
    ensures 0.0 <= waited <= 3.0 * timeout + sppDelay + readDelay
    ensures done ==> q.now == old(q.now) + waited + writes[0] + writes[1] + writes[2]
    ensures q.now <= old(q.now) + waited + writes[0] + writes[1] + writes[2]
    ensures Greedy(Items(old(q.pending)), accepted) && (done <==> |accepted| == 3)
  {
    ghost var all := q.pending;
    accepted, done := [], false;
    var start := q.now;
    var r;
    ghost var to;
    r, to := AwaitMethod(q, timeout, failedAt, Blespp, all, 0);
    waited := q.now - start;
    if !r.Accepted? {
      return;
    }
    GreedyExtends(Items(all), accepted, to - 1);
    accepted := [to - 1];
    q.now := q.now + writes[0] + sppDelay + writes[1];
    start := q.now;
    waited := waited + sppDelay;
    r, to := AwaitMethod(q, timeout, failedAt, GetInfoRsp, all, to);
    waited := waited + (q.now - start);
    if !r.Accepted? {
      return;
    }
    GreedyExtends(Items(all), accepted, to - 1);
    accepted := accepted + [to - 1];
    q.now := q.now + readDelay + writes[2];
    start := q.now;
    waited := waited + readDelay;
    r, to := AwaitMethod(q, timeout, failedAt, Report, all, to);
    waited := waited + (q.now - start);
    if r.Accepted? {
      GreedyExtends(Items(all), accepted, to - 1);
      accepted := accepted + [to - 1];
      done := true;
    }
  }
}
