/** A control call left over from a failed session takes what is ahead of its sentinel, and no more. */
module StaleCalls {
  import opened Session
  import opened QueueInvariant
  import opened Invariant
  import opened StepEffect

  /** How many elements are ahead of the first sentinel. */
  function Ahead(items: seq<Item>): nat {
    if items == [] || items[0].Closed? then 0 else 1 + Ahead(items[1..])
  }

  lemma {:induction false} AheadStays(a: seq<Item>, b: seq<Item>)
    requires a <= b && HasClosed(a)
    ensures Ahead(b) == Ahead(a)
  {
    var i :| 0 <= i < |a| && a[i].Closed?;
    if a[0].Msg? {
      assert a[1..][i - 1].Closed?;
      AheadStays(a[1..], b[1..]);
    }
  }

  /** The call waits in a session that failed, whatever session is open now. */
  predicate Stale(s: State, c: nat) {
    CallAwaits(s, c) && s.controls[c].pc.since in s.era.failed
  }

  function Due(s: State, c: nat): nat
    requires CallAwaits(s, c)
  {
    Ahead(Queue(s.mail, s.controls[c].pc.queue))
  }

  /** The queue the call reads has at least what it had, the sentinel included. */
  predicate QueueKept(s: State, c: nat, r: State)
    requires CallAwaits(s, c)
  {
    && c in r.controls && s.era.failed <= r.era.failed
    && r.controls[c] == s.controls[c]
    && s.controls[c].pc.queue < |s.mail.heap| <= |r.mail.heap|
    && s.mail.heap[s.controls[c].pc.queue] <= r.mail.heap[s.controls[c].pc.queue]
  }

  lemma KeptIsDue(s: State, c: nat, r: State)
    requires Stale(s, c) && QueueKept(s, c, r) && HasClosed(s.mail.heap[s.controls[c].pc.queue])
    ensures Stale(r, c) && Due(r, c) == Due(s, c)
  {
    AheadStays(s.mail.heap[s.controls[c].pc.queue], r.mail.heap[s.controls[c].pc.queue]);
  }

  lemma OthersKeepQueue(s: State, e: Event, c: nat)
    requires Inv(s) && Enabled(s, e) && Stale(s, c) && !(e.OfControl? && e.c == c)
    ensures QueueKept(s, c, Apply(s, e))
  {
    match e
    case OfLife(l) => if l == Get { GetTakes(s); } else { LifeBackground(s, l); }
    case OfHandler(h) => HandlerBackground(s, h);
    case OfNotices(n) => NoticeBackground(s, n);
    case OfKeepalive(k, b) => BeatBackground(s, k, b);
    case OfControl(x, b) =>
      CallEffect(s, x, b);
  }

  lemma OwnTake(s: State, c: nat)
    requires Inv(s) && Stale(s, c) && Queue(s.mail, s.controls[c].pc.queue) != []
    ensures var r := ControlTake(s, c);
            && c in r.controls
            && (CallAwaits(r, c) ==> Stale(r, c) && Due(r, c) < Due(s, c))
            && (!CallAwaits(r, c) ==> r.controls[c].pc.Done?)
  {
  }

  /** No step puts the sentinel farther off, each take of the call itself brings it nearer. */
  lemma SentinelNears(s: State, e: Event, c: nat)
    requires Inv(s) && Enabled(s, e) && Stale(s, c)
    ensures var r := Apply(s, e);
            && c in r.controls
            && (CallAwaits(r, c) ==> Stale(r, c) && Due(r, c) <= Due(s, c))
            && (CallAwaits(r, c) && e == OfControl(c, AckGet) ==> Due(r, c) < Due(s, c))
            && (!CallAwaits(r, c) ==> r.controls[c].pc.Done? && e.OfControl? && e.c == c)
  {
    if e == OfControl(c, AckGet) {
      OwnTake(s, c);
    } else if !(e.OfControl? && e.c == c) {
      OthersKeepQueue(s, e, c);
      KeptIsDue(s, c, Apply(s, e));
    }
  }

  lemma DoneStays(s: State, e: Event, c: nat)
    requires Inv(s) && Enabled(s, e) && c in s.controls && s.controls[c].pc.Done?
    ensures c in Apply(s, e).controls && Apply(s, e).controls[c] == s.controls[c]
    ensures !(e.OfControl? && e.c == c)
  {
    match e
    case OfLife(l) => if l == Get { GetTakes(s); } else { LifeBackground(s, l); }
    case OfHandler(h) => HandlerBackground(s, h);
    case OfNotices(n) => NoticeBackground(s, n);
    case OfKeepalive(k, b) => BeatBackground(s, k, b);
    case OfControl(x, b) => CallEffect(s, x, b);
  }

  function Takes(events: seq<Event>, c: nat): nat {
    if events == [] then 0
    else Takes(events[..|events| - 1], c) + if events[|events| - 1] == OfControl(c, AckGet) then 1 else 0
  }

  /**
    In every run, further sessions included, a call left over from a failed session
    takes at most the elements ahead of its sentinel and the sentinel itself.
   */
  lemma {:induction false} StaleCallIsBounded(s: State, events: seq<Event>, c: nat)
    requires Inv(s) && Stale(s, c) && Run(s, events).Some?
    ensures var r := Run(s, events).value;
            && c in r.controls
            && (if CallAwaits(r, c) then Stale(r, c) && Takes(events, c) + Due(r, c) <= Due(s, c)
                else r.controls[c].pc.Done? && Takes(events, c) <= Due(s, c) + 1)
  {
    if events != [] {
      var n := |events| - 1;
      StaleCallIsBounded(s, events[..n], c);
      RunsKeepInv(s, events[..n]);
      var x := Run(s, events[..n]).value;
      if CallAwaits(x, c) {
        SentinelNears(x, events[n], c);
      } else {
        DoneStays(x, events[n], c);
      }
    }
  }
}
