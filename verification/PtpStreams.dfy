/** What the filter's parsers make of single transfers, and what they keep: ids that
    count the camera's responses, and parsers that stand where their readers do. */
module PtpStreams {
  import opened Bags
  import opened Bytes
  import opened PtpReading
  import opened PtpFilter
  import P = PtpParser
  import C = PtpContainers

  // ------------------------------------------------------------ a command

  lemma CommandRead(b: seq<Byte>)
    requires IsCommand(b)
    ensures |b| >= 12 && PtpReading.Sensible(P.PduAt(b)) && |b| == P.PduAt(b).length
    ensures P.PduAt(b).kind == P.CONTAINER_COMMAND
    ensures Hear(Outside, b) == Account([P.PduAt(b)], 0, Outside, true)
  {
    hide P.PduAt;
    var pdu := P.PduAt(b);
    HearsInside(pdu.length - 12, false, b[12..]);
    var rest := b[12..];
    if |rest| >= pdu.length - 12 {
      var a := Hear(Outside, rest[pdu.length - 12..]);
      assert Hear(Outside, b).heads == [pdu] + a.heads;
      assert a.heads == [];
    }
  }

  lemma CommandMade(b: seq<Byte>)
    requires 12 <= |b| < P.WRAP && PtpReading.Sensible(P.PduAt(b)) && |b| == P.PduAt(b).length
    requires P.PduAt(b).kind == P.CONTAINER_COMMAND
    ensures IsCommand(b)
  {
    hide P.PduAt;
    var pdu := P.PduAt(b);
    HearsInside(pdu.length - 12, false, b[12..]);
  }

  lemma WholeBody(role: P.Role, serving: bool, ids: P.Ids, m: P.Machine, rest: seq<Byte>)
    requires m.phase == P.Command && m.size + |rest| == m.pdu.length
    ensures P.ScanBody(role, serving, ids, m, rest) == P.Scanned(ids, P.Closed(m), rest, 0, P.Fine)
  {
    hide P.Scan;
    P.PendingIff(m, |rest|);
    assert P.BodyEnd(m) == |rest|;
    assert rest[|rest|..] == [] && rest[..|rest|] == rest && rest + [] == rest;
    P.OnlyNothing(role, serving, ids, P.Closed(m));
  }

  /** A command passes any of the rewriting parsers as a command, with only the id new. */
  lemma CommandScanned(role: P.Role, serving: bool, ids: P.Ids, m: P.Machine, b: seq<Byte>)
    requires m.Between() && IsCommand(b) && role != P.Self
    ensures var s, pdu := P.Scan(role, serving, ids, m, b), P.PduAt(b);
      && s.ending == P.Fine && s.responses == 0
      && s.m.phase == P.WaitResponse && s.m.pdu == pdu && s.ids == P.Noted(role, ids, pdu)
      && IsCommand(s.data) && P.PduAt(s.data) == pdu.(transId := P.PduAt(s.data).transId)
      && (role == P.Rx ==> P.PduAt(s.data).transId == P.NewId(role, ids, pdu))
  {
    hide P.PduAt, P.Rewritten, P.Noted, P.NewId, IsCommand, Hear, P.Scan, P.ScanBody;
    CommandRead(b);
    var pdu, rest := P.PduAt(b), b[12..];
    HeaderScanned(role, serving, ids, m, b);
    WholeBody(role, serving, P.Noted(role, ids, pdu), P.Started(pdu), rest);
    P.HeaderOfJoin(b[..12], rest);
    assert b == b[..12] + rest;
    RewrittenReads(role, ids, b[..12], rest);
    CommandMade(P.Rewritten(role, ids, b[..12]) + rest);
  }

  // ------------------------------------------------------------ the client's data

  /** Data leaves the ids alone, except that the client's latest is noted. */
  lemma {:induction false} DataScanned(ids: P.Ids, m: P.Machine, data: seq<Byte>)
    requires m.Valid() && P.Countable(m, |data|) && data != [] && (!m.Between() ==> m.phase == P.Data)
    requires !m.Between() ==> m.pdu.kind == P.CONTAINER_DATA
    requires var a := Hear(ReaderOf(m), data);
      a.ok && forall h :: h in a.heads ==> h.kind == P.CONTAINER_DATA && h.transId == ids.rxTransId
    ensures var s := P.Scan(P.Rx, false, ids, m, data);
      && s.ending == P.Fine && s.ids == ids && s.m.pdu.kind == P.CONTAINER_DATA
      && (!s.m.Between() ==> s.m.phase == P.Data)
    decreases |data|, if m.Between() then 0 else 2
  {
    hide P.PduAt, P.Rewritten, P.Pending, P.ScanBody;
    if m.Between() {
      var pdu := P.PduAt(data);
      P.StartedInside(pdu);
      assert pdu in Hear(Outside, data).heads;
      DataScannedInside(ids, P.Started(pdu), data[12..]);
    } else {
      DataScannedInside(ids, m, data);
    }
  }

  lemma {:induction false} DataScannedInside(ids: P.Ids, m: P.Machine, data: seq<Byte>)
    requires m.phase == P.Data && m.pdu.kind == P.CONTAINER_DATA && m.size <= m.pdu.length && m.size + |data| < P.WRAP
    requires var a := Hear(Inside(m.pdu.length - m.size, false), data);
      a.ok && forall h :: h in a.heads ==> h.kind == P.CONTAINER_DATA && h.transId == ids.rxTransId
    ensures var s := P.ScanBody(P.Rx, false, ids, m, data);
      && s.ending == P.Fine && s.ids == ids && s.m.pdu.kind == P.CONTAINER_DATA
      && (!s.m.Between() ==> s.m.phase == P.Data)
    decreases |data|, 1
  {
    hide P.Scan, Hear;
    P.PendingIff(m, |data|);
    HearsInside(m.pdu.length - m.size, false, data);
    if !P.Pending(m, |data|) && data[P.BodyEnd(m)..] != [] {
      DataScanned(ids, P.Closed(m), data[P.BodyEnd(m)..]);
    } else if !P.Pending(m, |data|) {
      P.OnlyNothing(P.Rx, false, ids, P.Closed(m));
    }
  }

  lemma {:induction false} DataEndsNothing(r: Reader, data: seq<Byte>)
    requires var a := Hear(r, data); a.ok && forall h :: h in a.heads ==> h.kind == P.CONTAINER_DATA
    requires r.Inside? ==> !r.response
    ensures Hear(r, data).ended == 0
    ensures Hear(r, data).reader.Inside? ==> !Hear(r, data).reader.response
    decreases |data|, if r.Inside? then 1 else 0
  {
    hide P.PduAt;
    if r.Inside? {
      if |data| >= r.left {
        DataEndsNothing(Outside, data[r.left..]);
      }
    } else if data != [] {
      var pdu := P.PduAt(data);
      assert pdu in Hear(r, data).heads;
      DataEndsNothing(Inside(pdu.length - 12, false), data[12..]);
    }
  }

  // ------------------------------------------------------------ trackers

  /** A tracker tells the same of the container under way as a reader. */
  predicate Agree(t: Tracker, r: Reader) {
    match r
    case Outside => t.left == 0
    case Inside(left, response) => left > 0 && t.left == left && t.ends == response
  }

  /** The counters at the frame buffer's ends follow the parser: they agree on where
      the container ends, and on whether it was a response. */
  lemma TrackerFollows(t: Tracker, r: Reader, data: seq<Byte>)
    requires Agree(t, r) && Piece(r, data)
    ensures !Malformed(t, data) && Agree(Track(t, data), Hear(r, data).reader)
    ensures Hear(r, data).ended == if Complete(Track(t, data)) then 1 else 0
    ensures Complete(Track(t, data)) ==> Hear(r, data).reader == Outside
  {
    hide P.PduAt;
    match r
    case Inside(left, response) => HearsInside(left, response, data);
    case Outside =>
      var pdu := P.PduAt(data);
      HearsInside(pdu.length - 12, pdu.kind == P.CONTAINER_RESPONSE, data[12..]);
  }
}
