/** The order of a session's transport writes, and whose identity they carry. */
module WireLanguage {
  import opened Session
  import opened WireInvariant
  import opened Invariant

  /** The kinds of the messages sent by the tasks of one session. */
  function Own(wire: seq<Sent>, session: nat): seq<Kind> {
    if wire == [] then []
    else
      var last := wire[|wire| - 1];
      Own(wire[..|wire| - 1], session) + if last.origin == session then [last.kind] else []
  }

  function Kinds(wire: seq<Sent>): seq<Kind> {
    seq(|wire|, i requires 0 <= i < |wire| => wire[i].kind)
  }

  /** A prefix of BLESPP_OK, getInfo, write*, read, (keepalive read | write)*. */
  predicate InOrder(t: seq<Kind>) {
    && (|t| > 0 ==> t[0] == BlesppOk)
    && (|t| > 1 ==> t[1] == GetInfo)
    && (forall i | 2 <= i < |t| :: t[i] != BlesppOk && t[i] != GetInfo)
    && (forall i, j | 2 <= i < j < |t| :: !(t[i] == InitialRead && t[j] == InitialRead))
    && (forall i | 2 <= i < |t| && t[i] == KeepaliveRead :: InitialRead in t[2..i])
  }

  function PhaseOf(t: seq<Kind>): Phase {
    if |t| == 0 then Opening
    else if |t| == 1 then Acknowledged
    else if InitialRead in t[2..] then Reading
    else Informed
  }

  lemma InOrderAppend(t: seq<Kind>, k: Kind)
    requires InOrder(t)
    ensures InOrder(t + [k]) <==> Advance(PhaseOf(t), k) != Broken
    ensures InOrder(t + [k]) ==> PhaseOf(t + [k]) == Advance(PhaseOf(t), k)
  {
    var u := t + [k];
    if |t| >= 2 {
      assert u[2..] == t[2..] + [k];
      assert u[2..|t|] == t[2..];
      forall i | 2 <= i < |t| ensures u[2..i] == t[2..i] {
      }
      if InitialRead in t[2..] {
        var i :| 0 <= i < |t[2..]| && t[2..][i] == InitialRead;
        assert u[i + 2] == InitialRead && u[|t|] == k;
      }
    }
  }

  lemma PrefixInOrder(t: seq<Kind>, k: Kind)
    requires InOrder(t + [k])
    ensures InOrder(t)
  {
    var u := t + [k];
    forall i | 0 <= i < |t| ensures u[i] == t[i] {
    }
    forall i | 2 <= i < |t| && t[i] == KeepaliveRead ensures InitialRead in t[2..i] {
      assert u[2..i] == t[2..i];
    }
  }

  /** The automaton of the invariant accepts exactly the language. */
  lemma {:induction false} ScanIsInOrder(wire: seq<Sent>, session: nat)
    ensures Scan(wire, session) != Broken <==> InOrder(Own(wire, session))
    ensures Scan(wire, session) != Broken ==> Scan(wire, session) == PhaseOf(Own(wire, session))
  {
    if wire != [] {
      var n := |wire| - 1;
      ScanIsInOrder(wire[..n], session);
      var t := Own(wire[..n], session);
      if wire[n].origin == session {
        assert Own(wire, session) == t + [wire[n].kind];
        if InOrder(t) {
          InOrderAppend(t, wire[n].kind);
        } else if InOrder(t + [wire[n].kind]) {
          PrefixInOrder(t, wire[n].kind);
        }
      } else {
        assert Own(wire, session) == t;
      }
    }
  }

  /** In every interleaving the tasks of a session write in order. */
  lemma SessionWritesInOrder(s: State)
    requires Reachable(s)
    ensures InOrder(Own(s.outbox.wire, s.era.session))
  {
    ReachableInv(s);
    ScanIsInOrder(s.outbox.wire, s.era.session);
  }

  /**
    All messages of a session after BLESPP_OK carry one identity: the requested
    one if there is one, else the one this session established.
   */
  lemma OneIdentityOnTheWire(s: State, i: nat)
    requires Reachable(s) && i < |s.outbox.wire| && s.outbox.wire[i].kind != BlesppOk
    ensures s.outbox.wire[i].device.Some?
    ensures s.outbox.wire[i].device == if s.cfg.target.Some? then s.cfg.target else s.data.identity
    ensures s.outbox.wire[i].id != BLESPP_OK_MESSAGE_ID
  {
    ReachableInv(s);
    assert SentWell(s.outbox.wire[i], s.cfg.target, s.data.identity);
  }
}
