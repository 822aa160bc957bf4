/** What a parser makes of the ids, whatever it reads: where they stand after a transfer,
    and the id each of its headers leaves with. */
module PtpIds {
  import opened Bytes
  import opened Wire
  import opened PtpParser
  import opened PtpContainers
  import opened PtpReading

  /** A header's fields, byte by byte. */
  lemma HeaderFields(b: seq<Byte>)
    requires |b| >= 12
    ensures var p := PduAt(b);
      && p.length as int == b[0] as int + 256 * b[1] as int + 65536 * b[2] as int + 16777216 * b[3] as int
      && p.kind as int == b[4] as int + 256 * b[5] as int && p.code as int == b[6] as int + 256 * b[7] as int
      && p.transId as int == b[8] as int + 256 * b[9] as int + 65536 * b[10] as int + 16777216 * b[11] as int
  {
    var x, y := b[0..4], b[8..12];
    assert x[0] == b[0] && x[1] == b[1] && x[2] == b[2] && x[3] == b[3];
    assert y[0] == b[8] && y[1] == b[9] && y[2] == b[10] && y[3] == b[11];
  }

  // ------------------------------------------------------------ where the ids stand

  /** A command to open a session, and one to open or close one. */
  predicate Opens(h: Pdu) { h.kind == 1 && h.code == 0x1002 }

  predicate Changes(h: Pdu) { h.kind == 1 && (h.code == 0x1002 || h.code == 0x1003) }

  /** What a transfer does to the ids. From the client: its latest id is noted, a session
      it opens restarts the running one, and a change of session is noted. Otherwise the
      running id moves on by the responses that end, unless the filter is serving. */
  function IdsAfter(role: Role, serving: bool, ids: Ids, a: Account): Ids {
    if role == Rx then
      ids.(transId := if exists h :: h in a.heads && Opens(h) then 0 else ids.transId,
           rxTransId := if a.heads == [] then ids.rxTransId else a.heads[|a.heads| - 1].transId,
           sessionChanged := ids.sessionChanged || exists h :: h in a.heads && Changes(h))
    else if serving then ids
    else ids.(transId := (ids.transId + a.ended) % 0x1_0000_0000)
  }

  lemma PastHeader(role: Role, serving: bool, ids: Ids, pdu: Pdu, a: Account)
    ensures IdsAfter(role, serving, Noted(role, ids, pdu), a) ==
      IdsAfter(role, serving, ids, a.(heads := [pdu] + a.heads))
  {
    var heads := [pdu] + a.heads;
    assert pdu in heads;
    assert forall h :: h in a.heads ==> h in heads;
    assert heads[|heads| - 1] == if a.heads == [] then pdu else a.heads[|a.heads| - 1];
  }

  lemma PastEnd(role: Role, serving: bool, ids: Ids, phase: Phase, a: Account)
    ensures IdsAfter(role, serving, Finished(role, serving, ids, phase), a) ==
      IdsAfter(role, serving, ids, a.(ended := a.ended + if phase == Response then 1 else 0))
  {
    WrappedSum(ids.transId, 1, a.ended);
  }

  lemma NothingAfter(role: Role, serving: bool, ids: Ids, r: Reader)
    ensures IdsAfter(role, serving, ids, Account([], 0, r, true)) == ids
  {
  }

  /** So every parser leaves the ids after a transfer that reads well. */
  lemma {:induction false} IdsNoted(role: Role, serving: bool, ids: Ids, m: Machine, data: seq<Byte>)
    requires m.Valid() && Countable(m, |data|) && Hear(ReaderOf(m), data).ok
    ensures Scan(role, serving, ids, m, data).ids == IdsAfter(role, serving, ids, Hear(ReaderOf(m), data))
    decreases |data|, if m.Between() then 1 else 3
  {
    hide PduAt, Rewritten, Pending, ScanBody, Finished, IdsAfter;
    if data == [] {
      NothingAfter(role, serving, ids, ReaderOf(m));
    } else if !m.Between() {
      BodyNoted(role, serving, ids, m, data);
    } else {
      hide Hear, Scan, PhaseOf, Noted;
      assert |data| >= CONTAINER_HEADER by { WholeHeader(data); }
      var pdu := PduAt(data);
      HearsHeader(data);
      KnownKind(pdu);
      HeaderScanned(role, serving, ids, m, data);
      StartedInside(pdu);
      BodyNoted(role, serving, Noted(role, ids, pdu), Started(pdu), data[12..]);
      PastHeader(role, serving, ids, pdu, Hear(Inside(pdu.length - 12, pdu.kind == CONTAINER_RESPONSE), data[12..]));
    }
  }

  lemma WholeHeader(data: seq<Byte>)
    requires data != [] && Hear(Outside, data).ok
    ensures |data| >= CONTAINER_HEADER
  {
    hide PduAt;
  }

  lemma {:induction false} BodyNoted(role: Role, serving: bool, ids: Ids, m: Machine, data: seq<Byte>)
    requires !m.Between() && m.size <= m.pdu.length && m.size + |data| < WRAP
    requires Hear(Inside(m.pdu.length - m.size, m.phase == Response), data).ok
    ensures ScanBody(role, serving, ids, m, data).ids ==
      IdsAfter(role, serving, ids, Hear(Inside(m.pdu.length - m.size, m.phase == Response), data))
    decreases |data|, 2
  {
    hide Scan, ScanBody, Closed, Hear, Finished, Pending, IdsAfter;
    var left, response := m.pdu.length - m.size, m.phase == Response;
    PendingIff(m, |data|);
    HearsInside(left, response, data);
    if Pending(m, |data|) {
      BodyEndsHere(role, serving, ids, m, data);
      NothingAfter(role, serving, ids, Inside(left - |data|, response));
    } else {
      ClosedBetween(m);
      BodyGoesOn(role, serving, ids, m, data);
      IdsNoted(role, serving, Finished(role, serving, ids, m.phase), Closed(m), data[left..]);
      PastEnd(role, serving, ids, m.phase, Hear(Outside, data[left..]));
    }
  }

  // ------------------------------------------------------------ the id of each header

  /** A header begins n bytes into the transfer. */
  predicate HeaderAt(r: Reader, data: seq<Byte>, n: nat) {
    && n + CONTAINER_HEADER <= |data|
    && Hear(r, data[..n]).ok && Hear(r, data[..n]).reader == Outside
  }

  /** From the client a header leaves with the running id, from zero on where this or an
      earlier header opens a session; to the client with the client's latest id; to the
      camera with the running id, that counts the responses that ended before; and the
      filter's own data are not touched. */
  function LeavesUnder(role: Role, serving: bool, ids: Ids, before: Account, h: Pdu): U32 {
    match role
    case Rx => if Opens(h) || (exists x :: x in before.heads && Opens(x)) then 0 else ids.transId
    case Tx => ids.rxTransId
    case Send => if serving then ids.transId else (ids.transId + before.ended) % 0x1_0000_0000
    case Self => h.transId
  }

  /** Every header of any transfer, whatever comes after it, leaves with this id. */
  lemma HeaderLeaves(role: Role, serving: bool, ids: Ids, m: Machine, data: seq<Byte>, n: nat)
    requires m.Valid() && Countable(m, |data|) && HeaderAt(ReaderOf(m), data, n)
    ensures var before, h := Hear(ReaderOf(m), data[..n]), PduAt(data[n..]);
      PduAt(Scan(role, serving, ids, m, data).data[n..]) == h.(transId := LeavesUnder(role, serving, ids, before, h))
  {
    hide Scan, PduAt, Hear, Noted;
    var a, b := data[..n], data[n..];
    assert data == a + b;
    var ra := Scan(role, serving, ids, m, a);
    ScanHears(role, serving, ids, m, a);
    IdsNoted(role, serving, ids, m, a);
    ScanSplits(role, serving, ids, m, a, b);
    var rb := Scan(role, serving, ra.ids, ra.m, b);
    assert Scan(role, serving, ids, m, data).data == ra.data + rb.data;
    assert (ra.data + rb.data)[n..] == rb.data;
    FirstLeaves(role, serving, ra.ids, ra.m, b);
    NewIdIs(role, serving, ids, Hear(ReaderOf(m), a), PduAt(b));
  }

  lemma NewIdIs(role: Role, serving: bool, ids: Ids, before: Account, h: Pdu)
    ensures role != Self ==>
      NewId(role, IdsAfter(role, serving, ids, before), h) == LeavesUnder(role, serving, ids, before, h)
  {
  }

  lemma FirstLeaves(role: Role, serving: bool, ids: Ids, m: Machine, b: seq<Byte>)
    requires m.Valid() && m.Between() && |b| >= CONTAINER_HEADER
    ensures var h := PduAt(b);
      PduAt(Scan(role, serving, ids, m, b).data) == if role == Self then h else h.(transId := NewId(role, ids, h))
  {
    hide PduAt, Rewritten, ScanBody, Noted, NewId;
    var head := Rewritten(role, ids, b[..12]);
    var out := Scan(role, serving, ids, m, b).data;
    var rest := out[12..];
    HeadFirst(role, serving, ids, m, b);
    assert out == head + rest;
    HeaderOfJoin(b[..12], b[12..]);
    assert b == b[..12] + b[12..];
    if role == Self {
      HeaderOfJoin(head, rest);
    } else {
      RewrittenReads(role, ids, b[..12], rest);
    }
  }

  lemma HeadFirst(role: Role, serving: bool, ids: Ids, m: Machine, b: seq<Byte>)
    requires m.Valid() && m.Between() && |b| >= CONTAINER_HEADER
    ensures var s := Scan(role, serving, ids, m, b); s.data == Rewritten(role, ids, b[..12]) + s.data[12..]
    ensures role == Self ==> Rewritten(role, ids, b[..12]) == b[..12]
  {
    hide PduAt, Noted, ScanBody, Stamp, NewId;
  }

  // ------------------------------------------------------------ where a scan stops

  /** A header that stops the scan is noted like any other, and one that is cut off is
      not: so the ids stand where the filter gives up. */
  lemma IdsWhereStopped(role: Role, serving: bool, ids: Ids, m: Machine, data: seq<Byte>, n: nat)
    requires m.Valid() && Countable(m, |data|) && n < |data|
    requires Hear(ReaderOf(m), data[..n]).ok && Hear(ReaderOf(m), data[..n]).reader == Outside
    ensures var s, before := Scan(role, serving, ids, m, data), Hear(ReaderOf(m), data[..n]);
      && (n + 12 > |data| ==> s.ending == ShortHeader && s.ids == IdsAfter(role, serving, ids, before))
      && (n + 12 <= |data| && !Sensible(PduAt(data[n..])) ==>
            && s.ending == (if 1 <= PduAt(data[n..]).kind <= 3 then Astray else UnknownKind)
            && s.ids == IdsAfter(role, serving, ids, before.(heads := before.heads + [PduAt(data[n..])]))
            && s.m.pdu == PduAt(data[n..]) && s.m.size == 12 && !s.m.Between())
  {
    hide Scan, PduAt, Hear, Noted, Sensible, IdsAfter;
    var a, b := data[..n], data[n..];
    assert data == a + b;
    var ra, before := Scan(role, serving, ids, m, a), Hear(ReaderOf(m), a);
    ScanHears(role, serving, ids, m, a);
    IdsNoted(role, serving, ids, m, a);
    ScanSplits(role, serving, ids, m, a, b);
    if |b| < CONTAINER_HEADER {
      ShortStops(role, serving, ra.ids, ra.m, b);
    } else if !Sensible(PduAt(b)) {
      HeaderStops(role, serving, ra.ids, ra.m, b);
      NotedLast(role, serving, ids, before, PduAt(b));
    }
  }

  lemma ShortStops(role: Role, serving: bool, ids: Ids, m: Machine, b: seq<Byte>)
    requires m.Valid() && m.Between() && 0 < |b| < CONTAINER_HEADER
    ensures var s := Scan(role, serving, ids, m, b); s.ending == ShortHeader && s.ids == ids
  {
  }

  lemma UnknownScanned(role: Role, serving: bool, ids: Ids, m: Machine, b: seq<Byte>)
    requires m.Valid() && m.Between() && |b| >= CONTAINER_HEADER && PhaseOf(PduAt(b).kind) == UnknownPhase
    ensures var s, h := Scan(role, serving, ids, m, b), PduAt(b);
      s.ids == Noted(role, ids, h) && s.m == Started(h) && s.ending == UnknownKind
  {
    hide PduAt, Noted, Rewritten, ScanBody, Started, PhaseOf;
  }

  lemma Kinds(h: Pdu)
    ensures PhaseOf(h.kind) == UnknownPhase <==> !(1 <= h.kind <= 3)
    ensures Started(h).pdu == h && Started(h).size == 12 && !Started(h).Between()
  {
  }

  lemma HeaderStops(role: Role, serving: bool, ids: Ids, m: Machine, b: seq<Byte>)
    requires m.Valid() && m.Between() && CONTAINER_HEADER <= |b| < WRAP && !Sensible(PduAt(b))
    ensures var s, h := Scan(role, serving, ids, m, b), PduAt(b);
      && s.ending == (if 1 <= h.kind <= 3 then Astray else UnknownKind)
      && s.ids == Noted(role, ids, h) && s.m.pdu == h && s.m.size == 12 && !s.m.Between()
  {
    hide PduAt, Noted, Rewritten, ScanBody, Scan, Started, PhaseOf;
    var h := PduAt(b);
    Kinds(h);
    if 1 <= h.kind <= 3 {
      HeaderScanned(role, serving, ids, m, b);
      StrayKeeps(role, serving, Noted(role, ids, h), Started(h), b[12..]);
    } else {
      UnknownScanned(role, serving, ids, m, b);
    }
  }

  lemma StrayKeeps(role: Role, serving: bool, ids: Ids, m: Machine, data: seq<Byte>)
    requires !m.Between() && m.size + |data| < WRAP && m.size > m.pdu.length
    ensures var s := ScanBody(role, serving, ids, m, data); s.ids == ids && s.m == m && s.ending == Astray
  {
    hide Scan, Prefixed, Finished, Closed;
    PendingIff(m, |data|);
  }

  lemma NotedLast(role: Role, serving: bool, ids: Ids, a: Account, h: Pdu)
    ensures Noted(role, IdsAfter(role, serving, ids, a), h) == IdsAfter(role, serving, ids, a.(heads := a.heads + [h]))
  {
    hide Opens, Changes;
    var heads := a.heads + [h];
    assert heads[|heads| - 1] == h;
    assert (exists x :: x in heads && Opens(x)) <==> Opens(h) || exists x :: x in a.heads && Opens(x) by {
      OneMoreHead(a.heads, h);
    }
    assert (exists x :: x in heads && Changes(x)) <==> Changes(h) || exists x :: x in a.heads && Changes(x) by {
      OneMoreHead(a.heads, h);
    }
    SessionNoted(role, IdsAfter(role, serving, ids, a), h);
  }

  lemma OneMoreHead(heads: seq<Pdu>, h: Pdu)
    ensures forall x :: x in heads + [h] <==> x in heads || x == h
  {
  }

  lemma SessionNoted(role: Role, ids: Ids, h: Pdu)
    ensures Noted(role, ids, h) ==
      if role != Rx then ids
      else Ids(if Opens(h) then 0 else ids.transId, h.transId, ids.sessionChanged || Changes(h))
  {
  }
}
