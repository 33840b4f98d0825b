/** What the queues hold, and what the handshake and the control calls took from them. */
module QueueInvariant {
  import opened Session
  import opened Reports
  import opened TaskInvariant
  import opened TeardownEffect
  import opened LinkInvariant

  predicate HasClosed(items: seq<Item>) {
    exists i :: 0 <= i < |items| && items[i].Closed?
  }

  /** Queues are made in pairs: a reports queue is even, its write-results queue follows. */
  predicate Paired(heap: seq<seq<Item>>, reports: nat, results: nat) {
    reports % 2 == 0 && results == reports + 1 && results < |heap|
  }

  /** The session's reports queue holds what was put on it and not yet taken. */
  predicate StreamHeld(m: Mail, st: Stream) {
    && |m.heap| % 2 == 0
    && Paired(m.heap, m.reports, m.writeResults)
    && Paired(m.heap, st.reports, st.results)
    && st.taken <= |st.put|
    && m.heap[st.reports] == st.put[st.taken..]
  }

  /** A wait for an acknowledgement reads a write-results queue of its session. */
  ghost predicate AckWaits(s: State) {
    forall c | c in s.controls && s.controls[c].pc.AwaitingAck? ::
      var pc := s.controls[c].pc;
      && pc.queue < |s.mail.heap| && pc.queue % 2 == 1 && pc.since <= s.era.session
      && (pc.since in s.era.failed ==> HasClosed(s.mail.heap[pc.queue]))
      && (pc.since == s.era.session ==>
            pc.queue == s.stream.results || (s.era.over && s.link.failure.None?))
  }

  /** After the failure the handshake's wait has its sentinel and takes once at most. */
  predicate HandshakeWait(s: State) {
    && (s.link.failure.None? ==> s.stream.lateTakes == 0)
    && s.stream.lateTakes <= 1
    && (s.link.failure.Some? && s.life.Awaiting? ==>
          s.stream.lateTakes == 0 && HasClosed(Queue(s.mail, s.stream.reports)))
  }

  ghost predicate QueuesCore(s: State) {
    StreamHeld(s.mail, s.stream) && AckWaits(s)
  }

  ghost predicate Queues(s: State) {
    QueuesCore(s) && HandshakeWait(s)
  }

  lemma ClosedPersists(items: seq<Item>, item: Item)
    ensures HasClosed(items) ==> HasClosed(items + [item])
    ensures item.Closed? ==> HasClosed(items + [item])
  {
    if HasClosed(items) {
      var i :| 0 <= i < |items| && items[i].Closed?;
      assert (items + [item])[i].Closed?;
    }
    assert (items + [item])[|items|] == item;
  }

  /** Appending to a current queue keeps every wait and every sentinel. */
  lemma PutReportQueues(s: State, item: Item)
    requires Queues(s)
    ensures Queues(PutReport(s, item))
    ensures item.Closed? ==> HasClosed(PutReport(s, item).mail.heap[s.mail.reports])
  {
    var h, h' := s.mail.heap, PutReport(s, item).mail.heap;
    forall q | 0 <= q < |h| ensures HasClosed(h[q]) ==> HasClosed(h'[q]) {
      ClosedPersists(h[q], item);
    }
    ClosedPersists(h[s.mail.reports], item);
  }

  lemma PutResultQueues(s: State, item: Item)
    requires Queues(s)
    ensures Queues(PutWriteResult(s, item))
    ensures item.Closed? ==> HasClosed(PutWriteResult(s, item).mail.heap[s.mail.writeResults])
    ensures forall q | 0 <= q < |s.mail.heap| && q != s.mail.writeResults ::
              PutWriteResult(s, item).mail.heap[q] == s.mail.heap[q]
  {
    var h, h' := s.mail.heap, PutWriteResult(s, item).mail.heap;
    forall q | 0 <= q < |h| ensures HasClosed(h[q]) ==> HasClosed(h'[q]) {
      ClosedPersists(h[q], item);
    }
    ClosedPersists(h[s.mail.writeResults], item);
  }

  lemma RecordQueues(s: State, error: Error)
    requires Queues(s) && Linked(s) && s.link.failure.None? && s.link.status != Disconnected
    ensures Queues(RecordFailure(s, error))
  {
    PutReportQueues(s, Closed(error));
    var s1 := PutReport(s, Closed(error));
    PutResultQueues(s1, Closed(error));
    var s2 := PutWriteResult(s1, Closed(error));
    assert RecordFailure(s, error).mail == s2.mail && RecordFailure(s, error).stream == s2.stream;
  }

  lemma TearQueues(s: State, t: Tearer, r: State)
    requires QueuesCore(s) && TearEffect(s, t, r)
    requires s.stream.lateTakes <= 1 && (s.link.failure.None? ==> s.stream.lateTakes == 0)
    requires t.THandler? ==> HandshakeWait(s) && s.link.failure.Some?
    ensures Queues(r)
  {
  }

  lemma FailureQueues(s: State, error: Error, owner: Owner, r: State)
    requires Queues(s) && Linked(s) && FailureEffect(s, error, owner, r)
    ensures Queues(r)
  {
    if s.link.failure.None? && s.link.status != Disconnected {
      RecordQueues(s, error);
      if !s.link.closing {
        TearQueues(RecordFailure(s, error), THandler(owner, error), r);
      }
    }
  }

  lemma EnqueueQueues(s: State, m: Message)
    requires Queues(s)
    ensures Queues(EnqueueReport(s, m))
  {
    PutReportQueues(s, Msg(m));
  }

  /** Whether a message is offered to the handshake's queue at all. */
  predicate Offered(m: Message) {
    m.kind != OtherMethod && m.kind != UnhashableMethod
  }

  function Stored(s: State, m: Message): State {
    if m.kind == Report && CarriesWriteResult(m) then PutWriteResult(s, Msg(m)) else s
  }

  function Mailed(s: State, m: Message): State {
    if Offered(m) then EnqueueReport(Stored(s, m), m) else s
  }

  lemma AbsorbMail(s: State, m: Message)
    ensures Absorb(s, m).mail == Mailed(s, m).mail && Absorb(s, m).stream == Mailed(s, m).stream
  {
  }

  lemma AbsorbQueues(s: State, m: Message)
    requires Queues(s)
    ensures Queues(Absorb(s, m))
  {
    if m.kind == Report {
      PutResultQueues(s, Msg(m));
    }
    if Offered(m) {
      EnqueueQueues(Stored(s, m), m);
    }
    AbsorbMail(s, m);
    AbsorbFrame(s, m);
  }

  lemma ClosedRemains(items: seq<Item>)
    requires items != [] && items[0].Msg?
    ensures HasClosed(items) ==> HasClosed(items[1..])
  {
    if HasClosed(items) {
      var i :| 0 <= i < |items| && items[i].Closed?;
      assert items[1..][i - 1].Closed?;
    }
  }

  /** The only waiting call takes from its queue; if it waits on, the sentinel is still there. */
  lemma TakeQueues(s: State, c: nat)
    requires Queues(s) && Tasks(s)
    requires CallAwaits(s, c) && Queue(s.mail, s.controls[c].pc.queue) != []
    ensures Queues(ControlTake(s, c))
  {
    var q := s.controls[c].pc.queue;
    if s.mail.heap[q][0].Msg? {
      ClosedRemains(s.mail.heap[q]);
    }
    forall x | x in s.controls && s.controls[x].pc.AwaitingAck? ensures x == c {
      assert HoldsLock(s.controls[x].pc) && HoldsLock(s.controls[c].pc);
    }
  }
}
