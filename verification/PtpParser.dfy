/** The incremental parser of PTP containers: it follows containers across bulk
    transfers, rewrites their transaction ids in place, and counts the transactions
    that a response ends. */
module PtpParser {
  import opened Bytes
  import opened Wire

  const CONTAINER_COMMAND: U16 := 1
  const CONTAINER_DATA: U16 := 2
  const CONTAINER_RESPONSE: U16 := 3
  const OPEN_SESSION: U16 := 0x1002
  const CLOSE_SESSION: U16 := 0x1003
  const CONTAINER_HEADER: nat := 12
  const WRAP: int := 0x1_0000_0000

  datatype Phase = None | Data | Response | Command | UnknownPhase | WaitResponse

  /** A container's header. */
  datatype Pdu = Pdu(length: U32, kind: U16, code: U16, transId: U32)

  /** One direction's parser. size counts the bytes of the current container so far. */
  datatype Machine = Machine(phase: Phase, size: U32, pdu: Pdu)
  {
    predicate Between() {
      phase == None || phase == WaitResponse
    }

    /** Inside a container some of it is still to come. */
    predicate Valid() {
      !Between() ==> size < pdu.length
    }
  }

  /** The four parsers of a filter: what the client sends, what it is sent, the
      filter's own preview data, and what is submitted to the camera. */
  datatype Role = Rx | Tx | Self | Send

  /** The filter's own running id, the client's latest id, and whether the client has
      opened or closed a session. */
  datatype Ids = Ids(transId: U32, rxTransId: U32, sessionChanged: bool)

  /** How a scan ends: at the end of the data, or with the filter bypassed for a header
      cut by the transfer or of unknown type, or with the cursor outside the transfer. */
  datatype Ending = Fine | ShortHeader | UnknownKind | Astray

  datatype Scanned = Scanned(ids: Ids, m: Machine, data: seq<Byte>, responses: nat, ending: Ending)

  // ------------------------------------------------------------ headers

  function Half(b: seq<Byte>, i: nat): U16
    requires i + 2 <= |b|
  {
    var lo: int, hi: int := b[i], b[i + 1];
    lo + hi * 0x100
  }

  function PduAt(b: seq<Byte>): Pdu
    requires |b| >= CONTAINER_HEADER
  {
    Pdu(Load(LittleEndian, b[0..4]), Half(b, 4), Half(b, 6), Load(LittleEndian, b[8..12]))
  }

  /** ptp_check_new_session, for what the client sends. */
  function NewSession(role: Role, ids: Ids, pdu: Pdu): Ids {
    if role == Rx && pdu.kind == CONTAINER_COMMAND && (pdu.code == OPEN_SESSION || pdu.code == CLOSE_SESSION) then
      ids.(transId := if pdu.code == OPEN_SESSION then 0 else ids.transId, sessionChanged := true)
    else ids
  }

  function Noted(role: Role, ids: Ids, pdu: Pdu): Ids {
    var s := NewSession(role, ids, pdu);
    if role == Rx then s.(rxTransId := pdu.transId) else s
  }

  /** The id a header leaves with. */
  function NewId(role: Role, ids: Ids, pdu: Pdu): U32 {
    match role
    case Rx => NewSession(role, ids, pdu).transId
    case Tx => ids.rxTransId
    case Send => ids.transId
    case Self => pdu.transId
  }

  function Stamp(b: seq<Byte>, id: U32): (r: seq<Byte>)
    requires |b| >= CONTAINER_HEADER
    ensures |r| == |b|
  {
    b[..8] + Store(LittleEndian, id) + b[12..]
  }

  /** The header after the rewriting; the filter's own data is not rewritten. */
  function Rewritten(role: Role, ids: Ids, b: seq<Byte>): (r: seq<Byte>)
    requires |b| == CONTAINER_HEADER
    ensures |r| == |b|
  {
    if role == Self then b else Stamp(b, NewId(role, ids, PduAt(b)))
  }

  function PhaseOf(kind: U16): Phase {
    if kind == CONTAINER_COMMAND then Command
    else if kind == CONTAINER_RESPONSE then Response
    else if kind == CONTAINER_DATA then Data
    else UnknownPhase
  }

  /** A finished response ends a transaction, except on the receiving side and for a
      transfer the filter itself is serving. */
  function Finished(role: Role, serving: bool, ids: Ids, phase: Phase): Ids {
    if phase == Response && role != Rx && !serving then ids.(transId := (ids.transId + 1) % WRAP) else ids
  }

  // ------------------------------------------------------------ the scan

  /** The bytes of a container's body that a transfer still holds, in the source's
      unsigned arithmetic. */
  function BodyEnd(m: Machine): int {
    (m.pdu.length - m.size) % WRAP
  }

  predicate Pending(m: Machine, n: nat) {
    (n + m.size) % WRAP < m.pdu.length
  }

  /** What was rewritten or passed, and counted, before the rest. */
  function Prefixed(head: seq<Byte>, responses: nat, s: Scanned): Scanned {
    s.(data := head + s.data, responses := responses + s.responses)
  }

  function Started(pdu: Pdu): Machine {
    Machine(PhaseOf(pdu.kind), 12, pdu)
  }

  function Closed(m: Machine): (c: Machine)
    ensures c.Between()
  {
    m.(phase := if m.phase == Response then None else WaitResponse)
  }

  function Ends(m: Machine): nat {
    if m.phase == Response then 1 else 0
  }

  /** ptp_parse on the rest of a transfer. */
  function Scan(role: Role, serving: bool, ids: Ids, m: Machine, data: seq<Byte>): (s: Scanned)
    requires m.Valid()
    ensures |s.data| == |data| && (s.ending == Fine ==> s.m.Valid())
    ensures s.ending == Fine && !s.m.Between() ==> s.m.size <= |data| + if m.Between() then 0 else m.size
    decreases |data|, if m.Between() then 0 else 2
  {
    if data == [] then Scanned(ids, m, [], 0, Fine)
    else if !m.Between() then ScanBody(role, serving, ids, m, data)
    else if |data| < CONTAINER_HEADER then Scanned(ids, m, data, 0, ShortHeader)
    else
      var pdu := PduAt(data);
      var head := Rewritten(role, ids, data[..12]);
      if PhaseOf(pdu.kind) == UnknownPhase then
        Scanned(Noted(role, ids, pdu), Started(pdu), head + data[12..], 0, UnknownKind)
      else Prefixed(head, 0, ScanBody(role, serving, Noted(role, ids, pdu), Started(pdu), data[12..]))
  }

  /** The part of the loop after a header, and all of it in the middle of a container. */
  function ScanBody(role: Role, serving: bool, ids: Ids, m: Machine, data: seq<Byte>): (s: Scanned)
    requires !m.Between()
    ensures |s.data| == |data| && (s.ending == Fine ==> s.m.Valid())
    ensures s.ending == Fine && !s.m.Between() ==> s.m.size <= |data| + m.size
    decreases |data|, 1
  {
    if Pending(m, |data|) then Scanned(ids, m.(size := (m.size + |data|) % WRAP), data, 0, Fine)
    else if BodyEnd(m) > |data| then Scanned(ids, m, data, 0, Astray)
    else
      var n := BodyEnd(m);
      Prefixed(data[..n], Ends(m),
               Scan(role, serving, Finished(role, serving, ids, m.phase), Closed(m), data[n..]))
  }

  // ------------------------------------------------------------ cutting a stream

  /** Between containers the size is left over from the last one and never read. */
  predicate Same(m: Machine, n: Machine) {
    m == n || (m.Between() && m == n.(size := m.size))
  }

  /** Two scans one after the other, taken as one. */
  function Joined(a: Scanned, b: Scanned): Scanned {
    Scanned(b.ids, b.m, a.data + b.data, a.responses + b.responses, b.ending)
  }

  predicate Alike(a: Scanned, b: Scanned) {
    a == b.(m := a.m) && Same(a.m, b.m)
  }

  lemma SameStart(role: Role, serving: bool, ids: Ids, m: Machine, n: Machine, data: seq<Byte>)
    requires m.Valid() && n.Valid() && Same(m, n)
    ensures Alike(Scan(role, serving, ids, m, data), Scan(role, serving, ids, n, data))
  {
  }

  lemma HeaderOfJoin(a: seq<Byte>, b: seq<Byte>)
    requires |a| >= CONTAINER_HEADER
    ensures PduAt(a + b) == PduAt(a) && (a + b)[..12] == a[..12] && (a + b)[12..] == a[12..] + b
  {
    assert (a + b)[0..4] == a[0..4] && (a + b)[8..12] == a[8..12];
  }

  /** The transfer is short enough for the source's unsigned counter. */
  predicate Countable(m: Machine, n: nat) {
    n < WRAP && (!m.Between() ==> m.size + n < WRAP)
  }

  lemma PrefixedAlike(head: seq<Byte>, k: nat, whole: Scanned, a: Scanned, b: Scanned)
    requires Alike(whole, Joined(a, b))
    ensures Alike(Prefixed(head, k, whole), Joined(Prefixed(head, k, a), b))
  {
    assert head + (a.data + b.data) == (head + a.data) + b.data;
  }

  lemma {:induction false} ScanSplits(role: Role, serving: bool, ids: Ids, m: Machine, a: seq<Byte>, b: seq<Byte>)
    requires m.Valid() && Countable(m, |a| + |b|)
    requires Scan(role, serving, ids, m, a).ending == Fine
    ensures var ra := Scan(role, serving, ids, m, a);
      Alike(Scan(role, serving, ids, m, a + b), Joined(ra, Scan(role, serving, ra.ids, ra.m, b)))
    decreases |a|, if m.Between() then 0 else 2
  {
    hide PduAt, Noted, Rewritten, Pending, ScanBody, Prefixed, Started, PhaseOf, Alike, Joined;
    if a == [] {
      assert a + b == b;
      NothingFirst(ids, m, Scan(role, serving, ids, m, b));
    } else if m.Between() {
      HeaderOfJoin(a, b);
      var pdu, noted := PduAt(a), Noted(role, ids, PduAt(a));
      StartedInside(pdu);
      var ra := ScanBody(role, serving, noted, Started(pdu), a[12..]);
      PrefixedFields(Rewritten(role, ids, a[..12]), 0, ra);
      BodySplits(role, serving, noted, Started(pdu), a[12..], b);
      PrefixedAlike(Rewritten(role, ids, a[..12]), 0, ScanBody(role, serving, noted, Started(pdu), a[12..] + b),
                    ra, Scan(role, serving, ra.ids, ra.m, b));
    } else {
      BodySplits(role, serving, ids, m, a, b);
    }
  }

  lemma NothingFirst(ids: Ids, m: Machine, s: Scanned)
    ensures Alike(s, Joined(Scanned(ids, m, [], 0, Fine), s))
  {
    assert [] + s.data == s.data;
  }

  lemma StartedInside(pdu: Pdu)
    ensures !Started(pdu).Between() && Started(pdu).size == 12
  {
  }

  lemma {:induction false} BodySplits(role: Role, serving: bool, ids: Ids, m: Machine, a: seq<Byte>, b: seq<Byte>)
    requires !m.Between() && m.size + |a| + |b| < WRAP
    requires ScanBody(role, serving, ids, m, a).ending == Fine
    ensures var ra := ScanBody(role, serving, ids, m, a);
      Alike(ScanBody(role, serving, ids, m, a + b), Joined(ra, Scan(role, serving, ra.ids, ra.m, b)))
    decreases |a|, 1
  {
    hide Scan, Prefixed, Alike, Joined, Finished, Closed;
    var ra := ScanBody(role, serving, ids, m, a);
    if Pending(m, |a|) {
      PendingIff(m, |a|);
      StillInside(role, serving, ids, m, a);
      PendingThenMore(role, serving, ids, m, ra.m, a, b);
    } else {
      var n := BodyEnd(m);
      var ids', c := Finished(role, serving, ids, m.phase), Closed(m);
      assert !Pending(m, |a + b|);
      assert (a + b)[..n] == a[..n] && (a + b)[n..] == a[n..] + b;
      var r := Scan(role, serving, ids', c, a[n..]);
      PrefixedFields(a[..n], Ends(m), r);
      ScanSplits(role, serving, ids', c, a[n..], b);
      PrefixedAlike(a[..n], Ends(m), Scan(role, serving, ids', c, a[n..] + b), r, Scan(role, serving, r.ids, r.m, b));
    }
  }

  lemma PrefixedFields(head: seq<Byte>, k: nat, s: Scanned)
    ensures var p := Prefixed(head, k, s); p.ids == s.ids && p.m == s.m && p.ending == s.ending
  {
  }

  lemma PendingIff(m: Machine, n: nat)
    requires m.size + n < WRAP
    ensures Pending(m, n) <==> m.size + n < m.pdu.length
  {
  }

  lemma StillInside(role: Role, serving: bool, ids: Ids, m: Machine, a: seq<Byte>)
    requires !m.Between() && m.size + |a| < WRAP && Pending(m, |a|)
    ensures ScanBody(role, serving, ids, m, a) == Scanned(ids, m.(size := m.size + |a|), a, 0, Fine)
  {
  }

  lemma MoreInside(role: Role, serving: bool, ids: Ids, m: Machine, b: seq<Byte>)
    requires !m.Between() && m.Valid() && b != []
    ensures Scan(role, serving, ids, m, b) == ScanBody(role, serving, ids, m, b)
  {
  }

  lemma JoinedInside(ids: Ids, m: Machine, later: Machine, a: seq<Byte>, b: seq<Byte>)
    requires later == m.(size := later.size) && later.size == m.size + |a| && later.size + |b| < WRAP
    ensures Alike(Scanned(ids, m.(size := m.size + |a + b|), a + b, 0, Fine),
                  Joined(Scanned(ids, later, a, 0, Fine), Scanned(ids, later.(size := later.size + |b|), b, 0, Fine)))
  {
  }

  lemma NothingLast(role: Role, serving: bool, ids: Ids, m: Machine, a: seq<Byte>)
    requires m.Valid()
    ensures var s := Scanned(ids, m, a, 0, Fine); Alike(s, Joined(s, Scan(role, serving, ids, m, [])))
  {
    assert a + [] == a;
  }

  lemma PendingThenMore(role: Role, serving: bool, ids: Ids, m: Machine, later: Machine, a: seq<Byte>, b: seq<Byte>)
    requires !m.Between() && later == m.(size := later.size) && later.size == m.size + |a| < m.pdu.length
    requires later.size + |b| < WRAP
    ensures Alike(ScanBody(role, serving, ids, m, a + b),
                  Joined(Scanned(ids, later, a, 0, Fine), Scan(role, serving, ids, later, b)))
  {
    hide Scan, ScanBody, Alike, Joined, Pending;
    if b == [] {
      assert a + b == a;
      PendingIff(m, |a|);
      StillInside(role, serving, ids, m, a);
      NothingLast(role, serving, ids, later, a);
    } else {
      MoreInside(role, serving, ids, later, b);
      PendingIff(m, |a + b|);
      PendingIff(later, |b|);
      if Pending(m, |a + b|) {
        StillInside(role, serving, ids, m, a + b);
        StillInside(role, serving, ids, later, b);
        JoinedInside(ids, m, later, a, b);
      } else {
        PendingThenClosed(role, serving, ids, m, later, a, b);
      }
    }
  }

  lemma PendingThenClosed(role: Role, serving: bool, ids: Ids, m: Machine, later: Machine, a: seq<Byte>, b: seq<Byte>)
    requires !m.Between() && later == m.(size := later.size) && later.size == m.size + |a| < m.pdu.length
    requires !Pending(m, |a + b|) && !Pending(later, |b|) && later.size + |b| < WRAP
    ensures Alike(ScanBody(role, serving, ids, m, a + b),
                  Joined(Scanned(ids, later, a, 0, Fine), ScanBody(role, serving, ids, later, b)))
  {
    hide Scan, Finished;
    var n, k := BodyEnd(m), BodyEnd(later);
    assert n == |a| + k && k <= |b|;
    assert (a + b)[..n] == a + b[..k] && (a + b)[n..] == b[k..];
    var ids' := Finished(role, serving, ids, m.phase);
    SameStart(role, serving, ids', Closed(m), Closed(later), b[k..]);
    var x, y := Scan(role, serving, ids', Closed(m), b[k..]), Scan(role, serving, ids', Closed(later), b[k..]);
    assert (a + b[..k]) + x.data == a + (b[..k] + y.data);
  }

  /** A prefix that fails for anything but a cut header fails the whole. */
  lemma {:induction false} PrefixFails(role: Role, serving: bool, ids: Ids, m: Machine, a: seq<Byte>, b: seq<Byte>)
    requires m.Valid() && Countable(m, |a| + |b|)
    requires Scan(role, serving, ids, m, a).ending in {UnknownKind, Astray}
    ensures Scan(role, serving, ids, m, a + b).ending == Scan(role, serving, ids, m, a).ending
    decreases |a|, if m.Between() then 0 else 2
  {
    hide PduAt, Noted, Rewritten, Pending, ScanBody, Started, PhaseOf;
    if m.Between() {
      HeaderOfJoin(a, b);
      var pdu := PduAt(a);
      StartedInside(pdu);
      if PhaseOf(pdu.kind) != UnknownPhase {
        BodyPrefixFails(role, serving, Noted(role, ids, pdu), Started(pdu), a[12..], b);
      }
    } else {
      BodyPrefixFails(role, serving, ids, m, a, b);
    }
  }

  lemma {:induction false} BodyPrefixFails(role: Role, serving: bool, ids: Ids, m: Machine, a: seq<Byte>, b: seq<Byte>)
    requires !m.Between() && m.size + |a| + |b| < WRAP
    requires m.Valid() || m.size == 12
    requires ScanBody(role, serving, ids, m, a).ending in {UnknownKind, Astray}
    ensures ScanBody(role, serving, ids, m, a + b).ending == ScanBody(role, serving, ids, m, a).ending
    decreases |a|, 1
  {
    hide Scan, Finished, Closed, Pending;
    PendingIff(m, |a|);
    PendingIff(m, |a + b|);
    var n := BodyEnd(m);
    if n <= |a| {
      assert (a + b)[n..] == a[n..] + b;
      PrefixFails(role, serving, Finished(role, serving, ids, m.phase), Closed(m), a[n..], b);
    }
  }

  // ------------------------------------------------------------ any number of transfers

  function Concat(chunks: seq<seq<Byte>>): seq<Byte> {
    if chunks == [] then [] else chunks[0] + Concat(chunks[1..])
  }

  /** The transfers of one stream, parsed one by one until one fails. */
  function ScanChunks(role: Role, serving: bool, ids: Ids, m: Machine, chunks: seq<seq<Byte>>): Scanned
    requires m.Valid()
    decreases |chunks|
  {
    if chunks == [] then Scanned(ids, m, [], 0, Fine)
    else
      var r := Scan(role, serving, ids, m, chunks[0]);
      if r.ending != Fine then r else Joined(r, ScanChunks(role, serving, r.ids, r.m, chunks[1..]))
  }

  /** Chunk independence: however a stream is divided into transfers, parsing them one
      by one succeeds if and only if no transfer cuts a header and the undivided
      stream parses; both then leave the same bytes, ids, parser state and count of
      finished responses. */
  lemma {:induction false} ChunksAreOne(role: Role, serving: bool, ids: Ids, m: Machine, chunks: seq<seq<Byte>>)
    requires m.Valid() && Countable(m, |Concat(chunks)|)
    ensures var one := Scan(role, serving, ids, m, Concat(chunks));
      var many := ScanChunks(role, serving, ids, m, chunks);
      && (many.ending == Fine <==> one.ending == Fine && many.ending != ShortHeader)
      && (many.ending == Fine ==> Alike(one, many))
    decreases |chunks|
  {
    hide Scan, Alike, Joined;
    if chunks == [] {
      OnlyNothing(role, serving, ids, m);
    } else {
      var a, b := chunks[0], Concat(chunks[1..]);
      var r := Scan(role, serving, ids, m, a);
      if r.ending == Fine {
        ScanSplits(role, serving, ids, m, a, b);
        ChunksAreOne(role, serving, r.ids, r.m, chunks[1..]);
        var rb, later := Scan(role, serving, r.ids, r.m, b), ScanChunks(role, serving, r.ids, r.m, chunks[1..]);
        JoinedEnding(r, rb);
        JoinedEnding(r, later);
        AlikeEnding(Scan(role, serving, ids, m, a + b), Joined(r, rb));
        if later.ending == Fine {
          AlikeJoined(Scan(role, serving, ids, m, a + b), r, rb, later);
        }
      } else if r.ending != ShortHeader {
        PrefixFails(role, serving, ids, m, a, b);
      }
    }
  }

  lemma OnlyNothing(role: Role, serving: bool, ids: Ids, m: Machine)
    requires m.Valid()
    ensures Scan(role, serving, ids, m, []) == Scanned(ids, m, [], 0, Fine)
    ensures Alike(Scanned(ids, m, [], 0, Fine), Scanned(ids, m, [], 0, Fine))
  {
  }

  lemma JoinedEnding(a: Scanned, b: Scanned)
    ensures Joined(a, b).ending == b.ending
  {
  }

  lemma AlikeEnding(a: Scanned, b: Scanned)
    requires Alike(a, b)
    ensures a.ending == b.ending
  {
  }

  lemma AlikeJoined(whole: Scanned, a: Scanned, b: Scanned, c: Scanned)
    requires Alike(whole, Joined(a, b)) && Alike(b, c)
    ensures Alike(whole, Joined(a, c))
  {
  }

  // ------------------------------------------------------------ what the parser may change

  /** The bytes of transaction-id fields that the parser meets. */
  function IdBytes(m: Machine, data: seq<Byte>): (mask: seq<bool>)
    requires m.Valid()
    ensures |mask| == |data|
    decreases |data|, if m.Between() then 0 else 2
  {
    if data == [] then []
    else if !m.Between() then IdBytesInside(m, data)
    else if |data| < CONTAINER_HEADER then seq(|data|, _ => false)
    else
      var pdu := PduAt(data);
      seq(12, i => i >= 8) +
      (if PhaseOf(pdu.kind) == UnknownPhase then seq(|data| - 12, _ => false) else IdBytesInside(Started(pdu), data[12..]))
  }

  function IdBytesInside(m: Machine, data: seq<Byte>): (mask: seq<bool>)
    requires !m.Between()
    ensures |mask| == |data|
    decreases |data|, 1
  {
    if Pending(m, |data|) || BodyEnd(m) > |data| then seq(|data|, _ => false)
    else
      var n := BodyEnd(m);
      seq(n, _ => false) + IdBytes(Closed(m), data[n..])
  }

  /** No byte outside a transaction-id field changes, however malformed the data. */
  lemma {:induction false} OnlyIdsChange(role: Role, serving: bool, ids: Ids, m: Machine, data: seq<Byte>)
    requires m.Valid()
    ensures forall i :: 0 <= i < |data| && !IdBytes(m, data)[i] ==> Scan(role, serving, ids, m, data).data[i] == data[i]
    decreases |data|, if m.Between() then 0 else 2
  {
    hide PduAt, Noted, Pending, Started, PhaseOf, IdBytesInside, ScanBody;
    if data == [] {
    } else if !m.Between() {
      OnlyIdsChangeInside(role, serving, ids, m, data);
    } else if |data| >= CONTAINER_HEADER {
      var pdu := PduAt(data);
      StartedInside(pdu);
      OnlyIdsChangeInside(role, serving, Noted(role, ids, pdu), Started(pdu), data[12..]);
      var s := ScanBody(role, serving, Noted(role, ids, pdu), Started(pdu), data[12..]);
      assert forall i :: 12 <= i < |data| ==> data[i] == data[12..][i - 12];
    }
  }

  lemma {:induction false} OnlyIdsChangeInside(role: Role, serving: bool, ids: Ids, m: Machine, data: seq<Byte>)
    requires !m.Between()
    ensures forall i :: 0 <= i < |data| && !IdBytesInside(m, data)[i] ==>
      ScanBody(role, serving, ids, m, data).data[i] == data[i]
    decreases |data|, 1
  {
    hide Scan, Finished, Closed, Pending, IdBytes;
    if !Pending(m, |data|) && BodyEnd(m) <= |data| {
      var n := BodyEnd(m);
      OnlyIdsChange(role, serving, Finished(role, serving, ids, m.phase), Closed(m), data[n..]);
      assert forall i :: n <= i < |data| ==> data[i] == data[n..][i - n];
    }
  }
}
