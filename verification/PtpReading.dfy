/** What somebody who reads a stream of PTP containers makes of it: its headers and the
    responses that end in it. The incremental parser, with its phases and its unsigned
    counters, finds exactly this, and stamps every header with one id. */
module PtpReading {
  import opened Bytes
  import opened Wire
  import opened PtpParser
  import opened PtpContainers

  /** Where a reader stands: between containers, or with so much of one to come. */
  datatype Reader = Outside | Inside(left: nat, response: bool)

  /** What was read: the headers, the responses that ended, and whether every header
      was whole and made sense. */
  datatype Account = Account(heads: seq<Pdu>, ended: nat, reader: Reader, ok: bool)

  predicate Sensible(pdu: Pdu) {
    1 <= pdu.kind <= 3 && pdu.length >= CONTAINER_HEADER
  }

  function Hear(r: Reader, data: seq<Byte>): (a: Account)
    decreases |data|, if r.Inside? then 1 else 0
  {
    match r
    case Inside(left, response) =>
      if |data| < left then Account([], 0, Inside(left - |data|, response), true)
      else
        var a := Hear(Outside, data[left..]);
        a.(ended := a.ended + if response then 1 else 0)
    case Outside =>
      if data == [] then Account([], 0, Outside, true)
      else if |data| < CONTAINER_HEADER || !Sensible(PduAt(data)) then Account([], 0, Outside, false)
      else
        var pdu := PduAt(data);
        var a := Hear(Inside(pdu.length - 12, pdu.kind == CONTAINER_RESPONSE), data[12..]);
        a.(heads := [pdu] + a.heads)
  }

  function ReaderOf(m: Machine): Reader
    requires m.Valid()
  {
    if m.Between() then Outside else Inside(m.pdu.length - m.size, m.phase == Response)
  }

  // ------------------------------------------------------------ the parser finds the same

  /** For any data the parser comes to a good end exactly when the reader does, has
      counted the same responses and stands at the same place. */
  lemma {:induction false} ScanHears(role: Role, serving: bool, ids: Ids, m: Machine, data: seq<Byte>)
    requires m.Valid() && Countable(m, |data|)
    ensures var s, a := Scan(role, serving, ids, m, data), Hear(ReaderOf(m), data);
      && (s.ending == Fine <==> a.ok)
      && (a.ok ==> s.responses == a.ended && ReaderOf(s.m) == a.reader)
    decreases |data|, if m.Between() then 0 else 2
  {
    hide PduAt, Noted, Rewritten, ScanBody, PhaseOf;
    if data == [] || (m.Between() && |data| < CONTAINER_HEADER) {
    } else if !m.Between() {
      hide Hear;
      BodyHears(role, serving, ids, m, data);
    } else {
      hide Hear;
      var pdu := PduAt(data);
      HearsHeader(data);
      StartedInside(pdu);
      if Sensible(pdu) {
        hide Scan;
        KnownKind(pdu);
        HeaderScanned(role, serving, ids, m, data);
        BodyHears(role, serving, Noted(role, ids, pdu), Started(pdu), data[12..]);
      } else {
        Senseless(role, serving, ids, m, data);
      }
    }
  }

  /** A header that makes no sense ends a scan. */
  lemma Senseless(role: Role, serving: bool, ids: Ids, m: Machine, data: seq<Byte>)
    requires m.Between() && CONTAINER_HEADER <= |data| < WRAP && !Sensible(PduAt(data))
    ensures var s := Scan(role, serving, ids, m, data);
      s.ending == if PhaseOf(PduAt(data).kind) == UnknownPhase then UnknownKind else Astray
  {
    hide PduAt, Noted, Rewritten, ScanBody;
    var pdu := PduAt(data);
    if PhaseOf(pdu.kind) != UnknownPhase {
      StartedInside(pdu);
      BodyAstray(role, serving, Noted(role, ids, pdu), Started(pdu), data[12..]);
    }
  }

  lemma BodyAstray(role: Role, serving: bool, ids: Ids, m: Machine, data: seq<Byte>)
    requires !m.Between() && m.size + |data| < WRAP && m.size > m.pdu.length
    ensures ScanBody(role, serving, ids, m, data).ending == Astray
  {
    hide Scan, Prefixed, Finished, Closed;
    PendingIff(m, |data|);
  }

  /** What a reader inside a container makes of a transfer. */
  lemma HearsInside(left: nat, response: bool, data: seq<Byte>)
    ensures |data| < left ==> Hear(Inside(left, response), data) == Account([], 0, Inside(left - |data|, response), true)
    ensures |data| >= left ==>
      var a := Hear(Outside, data[left..]);
      Hear(Inside(left, response), data) == a.(ended := a.ended + if response then 1 else 0)
  {
  }

  /** What a reader between containers makes of a whole header. */
  lemma HearsHeader(data: seq<Byte>)
    requires |data| >= CONTAINER_HEADER
    ensures var pdu := PduAt(data);
      Hear(Outside, data) ==
      if !Sensible(pdu) then Account([], 0, Outside, false)
      else
        var a := Hear(Inside(pdu.length - 12, pdu.kind == CONTAINER_RESPONSE), data[12..]);
        a.(heads := [pdu] + a.heads)
  {
  }

  /** What the parser makes of it. */
  lemma HeaderScanned(role: Role, serving: bool, ids: Ids, m: Machine, data: seq<Byte>)
    requires m.Between() && |data| >= CONTAINER_HEADER && PhaseOf(PduAt(data).kind) != UnknownPhase
    ensures Scan(role, serving, ids, m, data) ==
      Prefixed(Rewritten(role, ids, data[..12]), 0,
               ScanBody(role, serving, Noted(role, ids, PduAt(data)), Started(PduAt(data)), data[12..]))
  {
    hide PduAt, Rewritten, ScanBody, Prefixed, Noted;
  }

  lemma {:induction false} BodyHears(role: Role, serving: bool, ids: Ids, m: Machine, data: seq<Byte>)
    requires !m.Between() && m.size + |data| < WRAP && m.size <= m.pdu.length
    ensures var s, a := ScanBody(role, serving, ids, m, data), Hear(Inside(m.pdu.length - m.size, m.phase == Response), data);
      && (s.ending == Fine <==> a.ok)
      && (a.ok ==> s.responses == a.ended && ReaderOf(s.m) == a.reader)
    decreases |data|, 1
  {
    hide Scan, ScanBody, Finished, Closed, Hear, Pending;
    var left := m.pdu.length - m.size;
    PendingIff(m, |data|);
    HearsInside(left, m.phase == Response, data);
    if Pending(m, |data|) {
      BodyEndsHere(role, serving, ids, m, data);
    } else {
      ClosedBetween(m);
      BodyGoesOn(role, serving, ids, m, data);
      ScanHears(role, serving, Finished(role, serving, ids, m.phase), Closed(m), data[left..]);
    }
  }

  // ------------------------------------------------------------ how a scan ends

  /** What stops a reader, if anything does: a header cut off, of a kind that is none, or
      announcing less than its own twelve bytes. */
  function Stop(r: Reader, data: seq<Byte>): Ending
    decreases |data|, if r.Inside? then 1 else 0
  {
    match r
    case Inside(left, _) => if |data| < left then Fine else Stop(Outside, data[left..])
    case Outside =>
      if data == [] then Fine
      else if |data| < CONTAINER_HEADER then ShortHeader
      else
        var pdu := PduAt(data);
        if PhaseOf(pdu.kind) == UnknownPhase then UnknownKind
        else if pdu.length < CONTAINER_HEADER then Astray
        else Stop(Inside(pdu.length - 12, pdu.kind == CONTAINER_RESPONSE), data[12..])
  }

  /** Any transfer, from any state of the parser, ends as it does for the reader. */
  lemma {:induction false} ScanStops(role: Role, serving: bool, ids: Ids, m: Machine, data: seq<Byte>)
    requires m.Valid() && Countable(m, |data|)
    ensures Scan(role, serving, ids, m, data).ending == Stop(ReaderOf(m), data)
    decreases |data|, if m.Between() then 0 else 2
  {
    hide PduAt, Noted, Rewritten, ScanBody, PhaseOf;
    if data == [] || (m.Between() && |data| < CONTAINER_HEADER) {
    } else if !m.Between() {
      hide Stop;
      BodyStops(role, serving, ids, m, data);
    } else {
      hide Stop;
      var pdu := PduAt(data);
      StopsHeader(data);
      StartedInside(pdu);
      if Sensible(pdu) {
        hide Scan;
        KnownKind(pdu);
        HeaderScanned(role, serving, ids, m, data);
        BodyStops(role, serving, Noted(role, ids, pdu), Started(pdu), data[12..]);
      } else {
        Senseless(role, serving, ids, m, data);
      }
    }
  }

  lemma StopsHeader(data: seq<Byte>)
    requires |data| >= CONTAINER_HEADER
    ensures var pdu := PduAt(data);
      Stop(Outside, data) ==
      if Sensible(pdu) then Stop(Inside(pdu.length - 12, pdu.kind == CONTAINER_RESPONSE), data[12..])
      else if PhaseOf(pdu.kind) == UnknownPhase then UnknownKind
      else Astray
  {
  }

  lemma StopsInside(left: nat, response: bool, data: seq<Byte>)
    ensures Stop(Inside(left, response), data) == if |data| < left then Fine else Stop(Outside, data[left..])
  {
  }

  lemma {:induction false} BodyStops(role: Role, serving: bool, ids: Ids, m: Machine, data: seq<Byte>)
    requires !m.Between() && m.size + |data| < WRAP && m.size <= m.pdu.length
    ensures ScanBody(role, serving, ids, m, data).ending == Stop(Inside(m.pdu.length - m.size, m.phase == Response), data)
    decreases |data|, 1
  {
    hide Scan, ScanBody, Finished, Closed, Stop, Pending;
    var left := m.pdu.length - m.size;
    PendingIff(m, |data|);
    StopsInside(left, m.phase == Response, data);
    if Pending(m, |data|) {
      BodyEndsHere(role, serving, ids, m, data);
    } else {
      ClosedBetween(m);
      BodyGoesOn(role, serving, ids, m, data);
      ScanStops(role, serving, Finished(role, serving, ids, m.phase), Closed(m), data[left..]);
    }
  }

  /** After n bytes that read well a whole header follows, of a known kind, that
      announces less than its own twelve bytes. */
  predicate LeavesAt(r: Reader, data: seq<Byte>, n: nat) {
    && n + CONTAINER_HEADER <= |data|
    && Hear(r, data[..n]).ok && Hear(r, data[..n]).reader == Outside
    && 1 <= PduAt(data[n..]).kind <= 3 && PduAt(data[n..]).length < CONTAINER_HEADER
  }

  lemma {:induction false} StopLeaves(r: Reader, data: seq<Byte>) returns (n: nat)
    requires Stop(r, data) == Astray
    ensures LeavesAt(r, data, n)
    decreases |data|, if r.Inside? then 1 else 0
  {
    hide PduAt;
    match r
    case Inside(left, response) =>
      var k := StopLeaves(Outside, data[left..]);
      n := left + k;
      InsidePrefix(left, response, data, k);
    case Outside =>
      var pdu := PduAt(data);
      if pdu.length < CONTAINER_HEADER {
        n := 0;
        assert data[..0] == [] && data[0..] == data;
      } else {
        var k := StopLeaves(Inside(pdu.length - 12, pdu.kind == CONTAINER_RESPONSE), data[12..]);
        n := 12 + k;
        OutsidePrefix(data, k);
      }
  }

  lemma InsidePrefix(left: nat, response: bool, data: seq<Byte>, k: nat)
    requires left + k <= |data|
    ensures var a := Hear(Outside, data[left..][..k]);
      Hear(Inside(left, response), data[..left + k]) == a.(ended := a.ended + if response then 1 else 0)
    ensures data[left..][k..] == data[left + k..]
  {
    hide Hear;
    assert data[..left + k][left..] == data[left..][..k];
    HearsInside(left, response, data[..left + k]);
  }

  lemma OutsidePrefix(data: seq<Byte>, k: nat)
    requires 12 + k <= |data| && Sensible(PduAt(data))
    ensures var pdu := PduAt(data);
      var a := Hear(Inside(pdu.length - 12, pdu.kind == CONTAINER_RESPONSE), data[12..][..k]);
      Hear(Outside, data[..12 + k]) == a.(heads := [pdu] + a.heads)
    ensures data[12..][k..] == data[12 + k..]
  {
    hide PduAt;
    HeaderOfJoin(data[..12 + k], data[12 + k..]);
    assert data[..12 + k] + data[12 + k..] == data;
    assert data[..12 + k][12..] == data[12..][..k];
  }

  lemma {:induction false} LeavesStop(r: Reader, data: seq<Byte>, n: nat)
    requires LeavesAt(r, data, n)
    ensures Stop(r, data) == Astray
    decreases |data|, if r.Inside? then 1 else 0
  {
    hide PduAt;
    match r
    case Inside(left, response) =>
      if n < left {
        HearsInside(left, response, data[..n]);
        assert false;
      }
      InsidePrefix(left, response, data, n - left);
      LeavesStop(Outside, data[left..], n - left);
    case Outside =>
      if n == 0 {
        assert data[0..] == data;
      } else {
        var pdu := PduAt(data);
        HeaderOfJoin(data[..n], data[n..]);
        assert data[..n] + data[n..] == data;
        OutsidePrefix(data, n - 12);
        LeavesStop(Inside(pdu.length - 12, pdu.kind == CONTAINER_RESPONSE), data[12..], n - 12);
      }
  }

  /** Exactly when the parser's cursor leaves a transfer, whatever the transfer and
      wherever the parser stands: at a header that announces less than itself, after
      data that read well. The length still to come has then wrapped around. */
  lemma CursorLeavesIff(role: Role, serving: bool, ids: Ids, m: Machine, data: seq<Byte>)
    requires m.Valid() && Countable(m, |data|)
    ensures Scan(role, serving, ids, m, data).ending == Astray <==> exists n: nat :: LeavesAt(ReaderOf(m), data, n)
  {
    hide Scan, Stop, LeavesAt;
    ScanStops(role, serving, ids, m, data);
    if Stop(ReaderOf(m), data) == Astray {
      var n := StopLeaves(ReaderOf(m), data);
    }
    if n: nat :| LeavesAt(ReaderOf(m), data, n) {
      LeavesStop(ReaderOf(m), data, n);
    }
  }

  /** A data container that announces nothing, not even its header. */
  const EMPTY_CONTAINER: seq<Byte> := [0, 0, 0, 0, 2, 0, 0, 0, 0, 0, 0, 0]

  /** It leads any parser astray that stands between containers, in any direction. */
  lemma EmptyContainerLeaves(role: Role, serving: bool, ids: Ids, m: Machine)
    requires m.Between()
    ensures Scan(role, serving, ids, m, EMPTY_CONTAINER).ending == Astray
  {
    hide Scan;
    assert EMPTY_CONTAINER[0..4] == [0, 0, 0, 0] && EMPTY_CONTAINER[0..] == EMPTY_CONTAINER && EMPTY_CONTAINER[..0] == [];
    assert LeavesAt(ReaderOf(m), EMPTY_CONTAINER, 0);
    CursorLeavesIff(role, serving, ids, m, EMPTY_CONTAINER);
  }

  // ------------------------------------------------------------ the ids

  function StampAll(heads: seq<Pdu>, id: U32): (r: seq<Pdu>)
    ensures |r| == |heads| && forall h :: h in r ==> h.transId == id
  {
    if heads == [] then [] else [heads[0].(transId := id)] + StampAll(heads[1..], id)
  }

  /** The id that a parser writes throughout a transfer: the client's on the way to the
      client; the running one on the way to the camera, while no response ends; the
      running one again for the data a client sends. */
  predicate Writes(role: Role, serving: bool, ids: Ids, a: Account, id: U32) {
    match role
    case Tx => id == ids.rxTransId
    case Send => id == ids.transId && (serving || a.ended == 0)
    case Rx => id == ids.transId && forall h :: h in a.heads ==> h.kind == CONTAINER_DATA
    case Self => false
  }

  lemma RewrittenReads(role: Role, ids: Ids, head: seq<Byte>, rest: seq<Byte>)
    requires |head| == CONTAINER_HEADER && role != Self
    ensures PduAt(Rewritten(role, ids, head) + rest) == PduAt(head).(transId := NewId(role, ids, PduAt(head)))
  {
    hide Load, Store, NewId;
    var id := NewId(role, ids, PduAt(head));
    var b := Rewritten(role, ids, head) + rest;
    assert b[0..4] == head[0..4];
    assert b[8..12] == Store(LittleEndian, id);
    LoadStore(LittleEndian, id);
  }

  /** Every header that leaves carries the one id, and nothing else about the stream
      changes for its reader, whatever the data and however containers are cut. */
  lemma {:induction false} OneIdThroughout(role: Role, serving: bool, ids: Ids, m: Machine, data: seq<Byte>, id: U32)
    requires m.Valid() && Countable(m, |data|)
    requires Hear(ReaderOf(m), data).ok && Writes(role, serving, ids, Hear(ReaderOf(m), data), id)
    ensures var a := Hear(ReaderOf(m), data);
      Hear(ReaderOf(m), Scan(role, serving, ids, m, data).data) == a.(heads := StampAll(a.heads, id))
    decreases |data|, if m.Between() then 1 else 3
  {
    hide PduAt, Rewritten, Pending, ScanBody, Finished, Writes;
    if data == [] {
    } else if !m.Between() {
      OneIdInside(role, serving, ids, m, data, id);
    } else {
      HeaderOneId(role, serving, ids, m, data, id);
    }
  }

  /** Past a header the same id goes on being written. */
  lemma WritesOn(role: Role, serving: bool, ids: Ids, pdu: Pdu, a: Account, id: U32)
    requires Writes(role, serving, ids, a.(heads := [pdu] + a.heads), id)
    ensures role != Self && NewId(role, ids, pdu) == id && Writes(role, serving, Noted(role, ids, pdu), a, id)
  {
    assert pdu in [pdu] + a.heads;
  }

  /** And past a container's end. */
  lemma WritesPast(role: Role, serving: bool, ids: Ids, phase: Phase, a: Account, id: U32)
    requires Writes(role, serving, ids, a.(ended := a.ended + if phase == Response then 1 else 0), id)
    ensures Writes(role, serving, Finished(role, serving, ids, phase), a, id)
  {
  }

  lemma {:induction false} HeaderOneId(role: Role, serving: bool, ids: Ids, m: Machine, data: seq<Byte>, id: U32)
    requires m.Valid() && Countable(m, |data|) && m.Between() && |data| >= CONTAINER_HEADER
    requires Hear(Outside, data).ok && Writes(role, serving, ids, Hear(Outside, data), id)
    ensures var a := Hear(Outside, data);
      Hear(Outside, Scan(role, serving, ids, m, data).data) == a.(heads := StampAll(a.heads, id))
    decreases |data|, 0
  {
    hide PduAt, Rewritten, Scan, ScanBody, Hear, Writes, Noted, NewId, PhaseOf;
    var pdu, noted := PduAt(data), Noted(role, ids, PduAt(data));
    HearsHeader(data);
    KnownKind(pdu);
    HeaderScanned(role, serving, ids, m, data);
    StartedInside(pdu);
    var r := Inside(pdu.length - 12, pdu.kind == CONTAINER_RESPONSE);
    var a := Hear(r, data[12..]);
    WritesOn(role, serving, ids, pdu, a, id);
    OneIdInside(role, serving, noted, Started(pdu), data[12..], id);
    var head, rest := Rewritten(role, ids, data[..12]), ScanBody(role, serving, noted, Started(pdu), data[12..]).data;
    HeaderOfJoin(data[..12], data[12..]);
    assert data == data[..12] + data[12..];
    RewrittenReads(role, ids, data[..12], rest);
    assert (head + rest)[12..] == rest;
    HearsHeader(head + rest);
    assert ([pdu] + a.heads)[1..] == a.heads;
  }

  lemma KnownKind(pdu: Pdu)
    requires Sensible(pdu)
    ensures PhaseOf(pdu.kind) != UnknownPhase && Started(pdu).pdu == pdu
    ensures (Started(pdu).phase == Response) == (pdu.kind == CONTAINER_RESPONSE)
  {
  }

  lemma {:induction false} OneIdInside(role: Role, serving: bool, ids: Ids, m: Machine, data: seq<Byte>, id: U32)
    requires !m.Between() && m.size <= m.pdu.length && m.size + |data| < WRAP
    requires var a := Hear(Inside(m.pdu.length - m.size, m.phase == Response), data);
      a.ok && Writes(role, serving, ids, a, id)
    ensures var r := Inside(m.pdu.length - m.size, m.phase == Response);
      var a := Hear(r, data);
      Hear(r, ScanBody(role, serving, ids, m, data).data) == a.(heads := StampAll(a.heads, id))
    decreases |data|, 2
  {
    hide Scan, ScanBody, Closed, Hear, Finished, Pending, Writes;
    var left, response := m.pdu.length - m.size, m.phase == Response;
    PendingIff(m, |data|);
    HearsInside(left, response, data);
    if Pending(m, |data|) {
      BodyEndsHere(role, serving, ids, m, data);
    } else {
      ClosedBetween(m);
      BodyGoesOn(role, serving, ids, m, data);
      var ids' := Finished(role, serving, ids, m.phase);
      WritesPast(role, serving, ids, m.phase, Hear(Outside, data[left..]), id);
      OneIdThroughout(role, serving, ids', Closed(m), data[left..], id);
      var rest := Scan(role, serving, ids', Closed(m), data[left..]).data;
      assert (data[..left] + rest)[left..] == rest;
      HearsInside(left, response, data[..left] + rest);
    }
  }

  /** Towards the client every header of any transfer carries the client's latest id. */
  lemma ClientSeesItsOwnId(serving: bool, ids: Ids, m: Machine, data: seq<Byte>)
    requires m.Valid() && Countable(m, |data|) && Hear(ReaderOf(m), data).ok
    ensures var a := Hear(ReaderOf(m), Scan(Tx, serving, ids, m, data).data);
      && a == Hear(ReaderOf(m), data).(heads := a.heads)
      && forall h :: h in a.heads ==> h.transId == ids.rxTransId
  {
    hide Scan, Hear;
    OneIdThroughout(Tx, serving, ids, m, data, ids.rxTransId);
  }

  /** Towards the camera every header of a transfer without responses carries the
      running id, and the ids stay as they are. */
  lemma CameraSeesRunningId(ids: Ids, m: Machine, data: seq<Byte>)
    requires m.Valid() && Countable(m, |data|) && Hear(ReaderOf(m), data).ok && Hear(ReaderOf(m), data).ended == 0
    ensures var s := Scan(Send, false, ids, m, data);
      var a := Hear(ReaderOf(m), s.data);
      && a == Hear(ReaderOf(m), data).(heads := a.heads) && s.ids.transId == ids.transId
      && forall h :: h in a.heads ==> h.transId == ids.transId
  {
    hide Scan, Hear;
    OneIdThroughout(Send, false, ids, m, data, ids.transId);
    ScanHears(Send, false, ids, m, data);
    RunningIdCounts(Send, ids, m, data);
  }

  // ------------------------------------------------------------ everything but the ids

  /** A transfer with nothing in its id fields: what is left when ids do not matter. */
  function Blank(r: Reader, data: seq<Byte>): (b: seq<Byte>)
    ensures |b| == |data|
    decreases |data|, if r.Inside? then 1 else 0
  {
    match r
    case Inside(left, _) => if |data| < left then data else data[..left] + Blank(Outside, data[left..])
    case Outside =>
      if |data| < CONTAINER_HEADER || !Sensible(PduAt(data)) then data
      else
        var pdu := PduAt(data);
        data[..8] + [0, 0, 0, 0] + Blank(Inside(pdu.length - 12, pdu.kind == CONTAINER_RESPONSE), data[12..])
  }

  lemma BlankInside(left: nat, response: bool, data: seq<Byte>)
    ensures Blank(Inside(left, response), data) ==
      if |data| < left then data else data[..left] + Blank(Outside, data[left..])
  {
  }

  lemma BlankHeader(data: seq<Byte>)
    requires |data| >= CONTAINER_HEADER && Sensible(PduAt(data))
    ensures var pdu := PduAt(data);
      Blank(Outside, data) ==
      data[..8] + [0, 0, 0, 0] + Blank(Inside(pdu.length - 12, pdu.kind == CONTAINER_RESPONSE), data[12..])
  {
  }

  lemma RewrittenRest(role: Role, ids: Ids, head: seq<Byte>)
    requires |head| == CONTAINER_HEADER
    ensures Rewritten(role, ids, head)[..8] == head[..8]
    ensures PduAt(Rewritten(role, ids, head)) == PduAt(head).(transId := PduAt(Rewritten(role, ids, head)).transId)
  {
    hide Store, NewId;
    if role != Self {
      RewrittenReads(role, ids, head, []);
      assert Rewritten(role, ids, head) + [] == Rewritten(role, ids, head);
    }
  }

  /** Whatever a parser does to a transfer that reads well, nothing but ids changes. */
  lemma {:induction false} ScanBlank(role: Role, serving: bool, ids: Ids, m: Machine, data: seq<Byte>)
    requires m.Valid() && Countable(m, |data|) && Hear(ReaderOf(m), data).ok
    ensures Blank(ReaderOf(m), Scan(role, serving, ids, m, data).data) == Blank(ReaderOf(m), data)
    decreases |data|, if m.Between() then 1 else 3
  {
    hide PduAt, Rewritten, Pending, ScanBody, Finished, Blank;
    if data == [] {
    } else if !m.Between() {
      BodyBlank(role, serving, ids, m, data);
    } else {
      HeaderBlank(role, serving, ids, m, data);
    }
  }

  lemma {:induction false} HeaderBlank(role: Role, serving: bool, ids: Ids, m: Machine, data: seq<Byte>)
    requires m.Valid() && Countable(m, |data|) && m.Between() && |data| >= CONTAINER_HEADER && Hear(Outside, data).ok
    ensures Blank(Outside, Scan(role, serving, ids, m, data).data) == Blank(Outside, data)
    decreases |data|, 0
  {
    hide PduAt, Rewritten, Scan, ScanBody, Hear, Noted, PhaseOf, Blank;
    var pdu, noted := PduAt(data), Noted(role, ids, PduAt(data));
    HearsHeader(data);
    KnownKind(pdu);
    HeaderScanned(role, serving, ids, m, data);
    StartedInside(pdu);
    BodyBlank(role, serving, noted, Started(pdu), data[12..]);
    var head, rest := Rewritten(role, ids, data[..12]), ScanBody(role, serving, noted, Started(pdu), data[12..]).data;
    HeaderOfJoin(data[..12], data[12..]);
    assert data == data[..12] + data[12..];
    RewrittenRest(role, ids, data[..12]);
    HeaderOfJoin(head, rest);
    assert (head + rest)[..8] == head[..8] == data[..12][..8] == data[..8];
    BlankHeader(data);
    BlankHeader(head + rest);
  }

  lemma {:induction false} BodyBlank(role: Role, serving: bool, ids: Ids, m: Machine, data: seq<Byte>)
    requires !m.Between() && m.size <= m.pdu.length && m.size + |data| < WRAP
    requires Hear(Inside(m.pdu.length - m.size, m.phase == Response), data).ok
    ensures var r := Inside(m.pdu.length - m.size, m.phase == Response);
      Blank(r, ScanBody(role, serving, ids, m, data).data) == Blank(r, data)
    decreases |data|, 2
  {
    hide Scan, ScanBody, Closed, Hear, Finished, Pending, Blank;
    var left, response := m.pdu.length - m.size, m.phase == Response;
    PendingIff(m, |data|);
    HearsInside(left, response, data);
    BlankInside(left, response, data);
    if Pending(m, |data|) {
      BodyEndsHere(role, serving, ids, m, data);
    } else {
      ClosedBetween(m);
      BodyGoesOn(role, serving, ids, m, data);
      var ids' := Finished(role, serving, ids, m.phase);
      ScanBlank(role, serving, ids', Closed(m), data[left..]);
      var rest := Scan(role, serving, ids', Closed(m), data[left..]).data;
      assert (data[..left] + rest)[left..] == rest && (data[..left] + rest)[..left] == data[..left];
      BlankInside(left, response, data[..left] + rest);
    }
  }
}
