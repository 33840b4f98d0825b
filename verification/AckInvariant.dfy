/** What decides the outcome of a control call. */
module AckInvariant {
  import opened Wrappers
  import opened Json
  import opened Session
  import opened Reports
  import opened TeardownEffect

  predicate Uncorrelated(item: Item, property: string, id: nat) {
    item.Msg? ==> !Correlated(item.message, property, id)
  }

  predicate AllUncorrelated(seen: seq<Item>, property: string, id: nat) {
    forall i | 0 <= i < |seen| :: Uncorrelated(seen[i], property, id)
  }

  /** The last item the wait took is the first correlated acknowledgement. */
  predicate Decides(seen: seq<Item>, property: string, id: nat) {
    && seen != []
    && seen[|seen| - 1].Msg? && Correlated(seen[|seen| - 1].message, property, id)
    && AllUncorrelated(seen[..|seen| - 1], property, id)
  }

  /** The outcome follows from what the wait took, and from nothing else. */
  predicate Judged(ctl: Control) {
    match ctl.pc
    case Done(id, Succeeded) =>
      Decides(ctl.seen, ctl.property, id) && Acknowledges(ctl.seen[|ctl.seen| - 1].message)
    case Done(id, CommandRejected) =>
      Decides(ctl.seen, ctl.property, id) && !Acknowledges(ctl.seen[|ctl.seen| - 1].message)
    case Done(id, _) => AllUncorrelated(ctl.seen, ctl.property, id)
    case AwaitingAck(id, _, _) => AllUncorrelated(ctl.seen, ctl.property, id)
    case _ => ctl.seen == []
  }

  ghost predicate Acked(cs: map<nat, Control>) {
    forall c | c in cs :: Judged(cs[c])
  }

  lemma CallsEndAcked(cs: map<nat, Control>, ds: map<nat, Control>)
    requires Acked(cs) && CallsEnd(cs, ds)
    ensures Acked(ds)
  {
  }

  lemma EndAcked(s: State, c: nat, outcome: Outcome)
    requires Acked(s.controls) && c in s.controls && !s.controls[c].pc.Done?
    requires outcome != Succeeded && outcome != CommandRejected
    ensures Acked(EndControl(s, c, outcome).controls)
  {
  }

  lemma TakeAcked(s: State, c: nat)
    requires Acked(s.controls)
    requires c in s.controls && s.controls[c].pc.AwaitingAck? && Queue(s.mail, s.controls[c].pc.queue) != []
    ensures Acked(ControlTake(s, c).controls)
  {
    var ctl := s.controls[c];
    var item := s.mail.heap[ctl.pc.queue][0];
    assert (ctl.seen + [item])[..|ctl.seen|] == ctl.seen;
  }

  // ---- What an acknowledgement says, read from its JSON ------------------

  /** The value of `writeRsp`, if the message carries one. */
  function WriteRsp(m: Message): Option<Json> {
    if m.properties.Obj? && "writeRsp" in m.properties.fields then Some(m.properties.fields["writeRsp"]) else None
  }

  /** Python's `value == 0`. */
  predicate IsZero(j: Json) {
    (j.Int? && j.i == 0) || (j.Bool? && !j.b) || (j.Float? && j.r == 0.0)
  }

  /** The message acknowledges this write: it names the property, or echoes the id as number or text. */
  predicate ForWrite(m: Message, property: string, id: nat) {
    && WriteRsp(m).Some?
    && (property in m.properties.fields
        || (m.messageId.Int? && m.messageId.i == id)
        || (m.messageId.Str? && m.messageId.s == Decimal(id)))
  }

  /** The last item is the first acknowledgement of the write among these. */
  predicate LastIsFirst(seen: seq<Item>, property: string, id: nat) {
    && seen != []
    && seen[|seen| - 1].Msg? && ForWrite(seen[|seen| - 1].message, property, id)
    && NoneFor(seen[..|seen| - 1], property, id)
  }

  predicate NoneFor(seen: seq<Item>, property: string, id: nat) {
    forall i | 0 <= i < |seen| && seen[i].Msg? :: !ForWrite(seen[i].message, property, id)
  }

  /** The outcome that what a wait took gives the call. */
  predicate IsVerdict(seen: seq<Item>, property: string, id: nat, outcome: Outcome) {
    match outcome
    case Succeeded => LastIsFirst(seen, property, id) && IsZero(WriteRsp(seen[|seen| - 1].message).value)
    case CommandRejected => LastIsFirst(seen, property, id) && !IsZero(WriteRsp(seen[|seen| - 1].message).value)
    case _ => NoneFor(seen, property, id)
  }

  lemma AcknowledgementMeans(m: Message, property: string, id: nat)
    ensures Correlated(m, property, id) <==> ForWrite(m, property, id)
    ensures WriteRsp(m).Some? ==> (Acknowledges(m) <==> IsZero(WriteRsp(m).value))
  {
  }

  lemma NoneIsUncorrelated(seen: seq<Item>, property: string, id: nat)
    ensures AllUncorrelated(seen, property, id) <==> NoneFor(seen, property, id)
  {
    forall i | 0 <= i < |seen| && seen[i].Msg?
      ensures Correlated(seen[i].message, property, id) <==> ForWrite(seen[i].message, property, id)
    {
      AcknowledgementMeans(seen[i].message, property, id);
    }
  }

  lemma JudgedIsVerdict(ctl: Control)
    requires ctl.pc.Done?
    ensures Judged(ctl) <==> IsVerdict(ctl.seen, ctl.property, ctl.pc.id, ctl.pc.outcome)
  {
    NoneIsUncorrelated(ctl.seen, ctl.property, ctl.pc.id);
    if ctl.seen != [] {
      var last := ctl.seen[|ctl.seen| - 1];
      NoneIsUncorrelated(ctl.seen[..|ctl.seen| - 1], ctl.property, ctl.pc.id);
      if last.Msg? {
        AcknowledgementMeans(last.message, ctl.property, ctl.pc.id);
      }
    }
  }
}
