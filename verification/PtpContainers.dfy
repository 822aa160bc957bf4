/** The parser against a stream of whole containers, the running transaction id it
    keeps, and the parsing loop itself. */
module PtpContainers {
  import opened Bytes
  import opened Wire
  import opened PtpParser

  datatype Container = Container(kind: U16, code: U16, transId: U32, payload: seq<Byte>)
  {
    predicate Good() {
      1 <= kind <= 3 && |payload| + CONTAINER_HEADER < WRAP
    }
  }

  function PduOf(c: Container): Pdu
    requires c.Good()
  {
    Pdu(12 + |c.payload|, c.kind, c.code, c.transId)
  }

  function Header(c: Container): (b: seq<Byte>)
    requires c.Good()
    ensures |b| == CONTAINER_HEADER
  {
    Store(LittleEndian, 12 + |c.payload|) + (HalfBytes(c.kind) + HalfBytes(c.code)) + Store(LittleEndian, c.transId)
  }

  function Print(cs: seq<Container>): seq<Byte>
    requires forall c :: c in cs ==> c.Good()
  {
    if cs == [] then [] else Header(cs[0]) + (cs[0].payload + Print(cs[1..]))
  }

  function Responses(cs: seq<Container>): nat {
    if cs == [] then 0 else Responses(cs[1..]) + if cs[0].kind == CONTAINER_RESPONSE then 1 else 0
  }

  /** The same container under the id it leaves with. */
  function Relabelled(role: Role, ids: Ids, c: Container): (r: Container)
    requires c.Good()
    ensures r.Good() && r == c.(transId := r.transId)
  {
    c.(transId := NewId(role, ids, PduOf(c)))
  }

  function IdsAfter(role: Role, serving: bool, ids: Ids, c: Container): Ids
    requires c.Good()
  {
    Finished(role, serving, Noted(role, ids, PduOf(c)), PhaseOf(c.kind))
  }

  function RelabelAll(role: Role, serving: bool, ids: Ids, cs: seq<Container>): (rs: seq<Container>)
    requires forall c :: c in cs ==> c.Good()
    ensures |rs| == |cs| && forall r :: r in rs ==> r.Good()
    decreases |cs|
  {
    if cs == [] then []
    else [Relabelled(role, ids, cs[0])] + RelabelAll(role, serving, IdsAfter(role, serving, ids, cs[0]), cs[1..])
  }

  function IdsAfterAll(role: Role, serving: bool, ids: Ids, cs: seq<Container>): Ids
    requires forall c :: c in cs ==> c.Good()
    decreases |cs|
  {
    if cs == [] then ids else IdsAfterAll(role, serving, IdsAfter(role, serving, ids, cs[0]), cs[1..])
  }

  lemma HeaderReads(c: Container, rest: seq<Byte>)
    requires c.Good()
    ensures PduAt(Header(c) + rest) == PduOf(c)
    ensures (Header(c) + rest)[..12] == Header(c) && (Header(c) + rest)[12..] == rest
  {
    hide Load, Store;
    var b := Header(c) + rest;
    assert b[0..4] == Store(LittleEndian, 12 + |c.payload|);
    assert b[8..12] == Store(LittleEndian, c.transId);
    LoadStore(LittleEndian, 12 + |c.payload|);
    LoadStore(LittleEndian, c.transId);
    assert b[4] == HalfBytes(c.kind)[0] && b[5] == HalfBytes(c.kind)[1];
    assert b[6] == HalfBytes(c.code)[0] && b[7] == HalfBytes(c.code)[1];
  }

  lemma HeaderRewritten(role: Role, ids: Ids, c: Container)
    requires c.Good()
    ensures Rewritten(role, ids, Header(c)) == Header(Relabelled(role, ids, c))
  {
    hide Store, Load, PduAt;
    HeaderReads(c, []);
    assert Header(c) + [] == Header(c);
    var h := Header(c);
    assert h[..8] == Store(LittleEndian, 12 + |c.payload|) + (HalfBytes(c.kind) + HalfBytes(c.code)) && h[12..] == [];
  }

  lemma BodyPassed(role: Role, serving: bool, ids: Ids, c: Container, rest: seq<Byte>)
    requires c.Good() && 12 + |c.payload| + |rest| < WRAP
    ensures ScanBody(role, serving, ids, Started(PduOf(c)), c.payload + rest) ==
      Prefixed(c.payload, Ends(Started(PduOf(c))),
               Scan(role, serving, Finished(role, serving, ids, PhaseOf(c.kind)), Closed(Started(PduOf(c))), rest))
  {
    hide Scan, Finished, Closed, Prefixed;
    var m := Started(PduOf(c));
    PendingIff(m, |c.payload + rest|);
    assert BodyEnd(m) == |c.payload|;
    assert (c.payload + rest)[..|c.payload|] == c.payload && (c.payload + rest)[|c.payload|..] == rest;
  }

  /** A row of whole containers parses to the end: every header leaves relabelled, all
      other bytes as they were, and the finished responses are the response containers. */
  lemma {:induction false} ContainersParse(role: Role, serving: bool, ids: Ids, m: Machine, cs: seq<Container>)
    requires m.Between() && (forall c :: c in cs ==> c.Good()) && |Print(cs)| < WRAP
    ensures var s := Scan(role, serving, ids, m, Print(cs));
      && s.ending == Fine && s.m.Between()
      && s.data == Print(RelabelAll(role, serving, ids, cs))
      && s.ids == IdsAfterAll(role, serving, ids, cs)
      && s.responses == Responses(cs)
      && (cs != [] ==> s.m.phase == if cs[|cs| - 1].kind == CONTAINER_RESPONSE then None else WaitResponse)
    decreases |cs|
  {
    hide PduAt, Noted, Rewritten, Finished, ScanBody, Header, NewId;
    if cs != [] {
      var c, rest := cs[0], Print(cs[1..]);
      var ids' := IdsAfter(role, serving, ids, c);
      assert c.Good();
      HeaderReads(c, c.payload + rest);
      HeaderRewritten(role, ids, c);
      BodyPassed(role, serving, Noted(role, ids, PduOf(c)), c, rest);
      ContainersParse(role, serving, ids', Closed(Started(PduOf(c))), cs[1..]);
      var r, rs := Relabelled(role, ids, c), RelabelAll(role, serving, ids', cs[1..]);
      assert RelabelAll(role, serving, ids, cs)[1..] == rs;
    }
  }

  // ------------------------------------------------------------ the running id

  /** What comes from the camera moves the running id by exactly the number of
      responses finished, for any data at all. */
  lemma {:induction false} RunningIdCounts(role: Role, ids: Ids, m: Machine, data: seq<Byte>)
    requires m.Valid() && role != Rx
    ensures var s := Scan(role, false, ids, m, data);
      s.ids == ids.(transId := (ids.transId + s.responses) % WRAP)
    decreases |data|, if m.Between() then 0 else 2
  {
    hide PduAt, Rewritten, Pending, ScanBody, PhaseOf;
    if data == [] {
    } else if !m.Between() {
      RunningIdCountsInside(role, ids, m, data);
    } else if |data| >= CONTAINER_HEADER && PhaseOf(PduAt(data).kind) != UnknownPhase {
      StartedInside(PduAt(data));
      RunningIdCountsInside(role, ids, Started(PduAt(data)), data[12..]);
    }
  }

  lemma {:induction false} RunningIdCountsInside(role: Role, ids: Ids, m: Machine, data: seq<Byte>)
    requires !m.Between() && role != Rx
    ensures var s := ScanBody(role, false, ids, m, data);
      s.ids == ids.(transId := (ids.transId + s.responses) % WRAP)
    decreases |data|, 1
  {
    hide Scan;
    if !Pending(m, |data|) && BodyEnd(m) <= |data| {
      var n := BodyEnd(m);
      var ids' := Finished(role, false, ids, m.phase);
      RunningIdCounts(role, ids', Closed(m), data[n..]);
      var k := Scan(role, false, ids', Closed(m), data[n..]).responses;
      WrappedSum(ids.transId, Ends(m), k);
    }
  }

  lemma WrappedSum(a: int, b: int, c: int)
    ensures ((a + b) % WRAP + c) % WRAP == (a + (c + b)) % WRAP
  {
    var q := (a + b) / WRAP;
    assert (a + b) % WRAP + c == a + b + c - q * WRAP;
    assert (a + b + c - q * WRAP) % WRAP == (a + b + c) % WRAP;
  }

  /** The client's own bytes, and a reply the filter serves from its buffer, leave the
      running id alone unless a session is opened. */
  lemma {:induction false} ServingKeepsId(role: Role, ids: Ids, m: Machine, data: seq<Byte>)
    requires m.Valid() && role != Rx
    ensures Scan(role, true, ids, m, data).ids == ids
    decreases |data|, if m.Between() then 0 else 2
  {
    hide PduAt, Rewritten, Pending, ScanBody, PhaseOf;
    if data == [] {
    } else if !m.Between() {
      ServingKeepsIdInside(role, ids, m, data);
    } else if |data| >= CONTAINER_HEADER && PhaseOf(PduAt(data).kind) != UnknownPhase {
      StartedInside(PduAt(data));
      ServingKeepsIdInside(role, ids, Started(PduAt(data)), data[12..]);
    }
  }

  lemma {:induction false} ServingKeepsIdInside(role: Role, ids: Ids, m: Machine, data: seq<Byte>)
    requires !m.Between() && role != Rx
    ensures ScanBody(role, true, ids, m, data).ids == ids
    decreases |data|, 1
  {
    hide Scan;
    if !Pending(m, |data|) && BodyEnd(m) <= |data| {
      ServingKeepsId(role, Finished(role, true, ids, m.phase), Closed(m), data[BodyEnd(m)..]);
    }
  }

  // ------------------------------------------------------------ the loop

  /** One direction's parser as the source keeps it. */
  class StateMachine {
    var phase: Phase
    var size: U32
    var pdu: Pdu

    function Value(): Machine
      reads this
    {
      Machine(phase, size, pdu)
    }

    constructor ()
      ensures Value() == Machine(None, 0, Pdu(0, 0, 0, 0))
    {
      phase, size, pdu := None, 0, Pdu(0, 0, 0, 0);
    }
  }

  lemma HeaderLies(s: seq<Byte>, at: nat)
    requires at + CONTAINER_HEADER <= |s|
    ensures PduAt(s[at..]) == PduAt(s[at..at + 12])
    ensures PduAt(s[at..]) == Pdu(Load(LittleEndian, s[at..at + 4]), Half(s[at..at + 12], 4), Half(s[at..at + 12], 6),
                                  Load(LittleEndian, s[at + 8..at + 12]))
  {
    hide Load;
    var b := s[at..at + 12];
    assert s[at..][0..4] == s[at..at + 4];
    assert b[0..4] == s[at..at + 4];
    assert s[at..][8..12] == s[at + 8..at + 12];
    assert b[8..12] == s[at + 8..at + 12];
  }

  /** A header with the id that the ids, as they stand, give it. */
  function LeavesWith(role: Role, ids: Ids, head: seq<Byte>): (b: seq<Byte>)
    requires |head| == CONTAINER_HEADER
    ensures |b| == CONTAINER_HEADER
  {
    match role
    case Self => head
    case Tx => Stamp(head, ids.rxTransId)
    case _ => Stamp(head, ids.transId)
  }

  class Filter {
    var transId: U32
    var rxTransId: U32
    var sessionChanged: bool

    function Value(): Ids
      reads this
    {
      Ids(transId, rxTransId, sessionChanged)
    }

    constructor ()
      ensures Value() == Ids(0, 0, false)
    {
      transId, rxTransId, sessionChanged := 0, 0, false;
    }

    /** A header where it lies. */
    method ReadHeader(data: array<Byte>, at: nat) returns (pdu: Pdu)
      requires at + CONTAINER_HEADER <= data.Length
      ensures pdu == PduAt(data[at..]) == PduAt(data[at..at + 12])
    {
      hide Load, Half;
      var b := data[at..at + 12];
      HeaderLies(data[..], at);
      assert data[..][at..] == data[at..] && data[..][at..at + 12] == b;
      pdu := Pdu(Load(LittleEndian, data[at..at + 4]), Half(b, 4), Half(b, 6), Load(LittleEndian, data[at + 8..at + 12]));
    }

    /** ptp_check_new_session. */
    method CheckSession(role: Role, pdu: Pdu)
      modifies this
      ensures Value() == NewSession(role, old(Value()), pdu)
    {
      if role == Rx && pdu.kind == CONTAINER_COMMAND && (pdu.code == OPEN_SESSION || pdu.code == CLOSE_SESSION) {
        if pdu.code == OPEN_SESSION {
          transId := 0;
        }
        sessionChanged := true;
      }
    }

    /** The id that a header leaves with, in place; the client's own is remembered. */
    method RewriteId(role: Role, pdu: Pdu, data: array<Byte>, at: nat)
      requires at + CONTAINER_HEADER <= data.Length
      modifies this, data
      ensures Value() == if role == Rx then old(Value()).(rxTransId := pdu.transId) else old(Value())
      ensures data[..] == old(data[..at]) + LeavesWith(role, old(Value()), old(data[at..at + 12])) + old(data[at + 12..])
    {
      hide Stamp;
      assert data[..] == data[..at] + data[at..at + 12] + data[at + 12..];
      if role == Rx {
        rxTransId := pdu.transId;
        WriteId(data, at, transId);
      } else if role == Tx {
        WriteId(data, at, rxTransId);
      } else if role == Send {
        WriteId(data, at, transId);
      }
    }

    /** The header branch: note the header, check for a new session, rewrite the id. */
    method ParseHeader(role: Role, m: StateMachine, data: array<Byte>, at: nat)
      requires at + CONTAINER_HEADER <= data.Length && m.phase in {None, WaitResponse}
      modifies this, m, data
      ensures var pdu := PduAt(old(data[at..]));
        && m.Value() == Started(pdu)
        && Value() == Noted(role, old(Value()), pdu)
        && data[..] == old(data[..at]) + Rewritten(role, old(Value()), old(data[at..at + 12])) + old(data[at + 12..])
    {
      hide Stamp, PduAt;
      ghost var was := data[at..at + 12];
      var pdu := ReadHeader(data, at);
      m.pdu := pdu;
      CheckSession(role, pdu);
      RewriteId(role, pdu, data, at);
      m.size := 12;
      m.phase := PhaseOf(pdu.kind);
    }

    method WriteId(data: array<Byte>, at: nat, id: U32)
      requires at + CONTAINER_HEADER <= data.Length
      modifies data
      ensures data[..] == old(data[..at]) + Stamp(old(data[at..at + 12]), id) + old(data[at + 12..])
    {
      hide Store;
      ghost var was := data[..];
      ghost var head := was[at..at + 12];
      var b := Store(LittleEndian, id);
      data[at + 8], data[at + 9], data[at + 10], data[at + 11] := b[0], b[1], b[2], b[3];
      assert head[..8] == was[at..at + 8] && head[12..] == [];
      assert Stamp(head, id) == was[at..at + 8] + b;
      assert data[..at + 8] == was[..at + 8] && data[at + 8..at + 12] == b && data[at + 12..] == was[at + 12..];
      assert data[..] == data[..at + 8] + data[at + 8..at + 12] + data[at + 12..];
      assert was[..at + 8] == was[..at] + was[at..at + 8];
    }

    /** The rest of the loop's body: how much of the container lies in this transfer. */
    method PassBody(role: Role, m: StateMachine, left: nat, serving: bool) returns (step: Step)
      requires !m.Value().Between()
      modifies this, m
      ensures var was := old(m.Value());
        match step {
          case Pended =>
            Pending(was, left) && m.Value() == was.(size := (was.size + left) % WRAP) && Value() == old(Value())
          case Strayed =>
            !Pending(was, left) && BodyEnd(was) > left && m.Value() == was && Value() == old(Value())
          case ClosedAfter(n, done) =>
            && !Pending(was, left) && n == BodyEnd(was) <= left && done == Ends(was)
            && m.Value() == Closed(was) && Value() == Finished(role, serving, old(Value()), was.phase)
        }
    {
      if (left + m.size) % WRAP < m.pdu.length {
        m.size := (m.size + left) % WRAP;
        return Pended;
      }
      var offset := (m.pdu.length - m.size) % WRAP;
      if offset > left {
        return Strayed;
      }
      if m.phase == Response {
        m.phase := None;
        if role != Rx && !serving {
          transId := (transId + 1) % WRAP;
        }
        return ClosedAfter(offset, 1);
      }
      m.phase := WaitResponse;
      return ClosedAfter(offset, 0);
    }

    /** The first half of the loop's body: a header, unless a container is under way. */
    method Enter(role: Role, m: StateMachine, data: array<Byte>, at: nat, serving: bool, ghost responses: nat,
                 ghost whole: Scanned) returns (next: nat, ending: Ending)
      requires at < data.Length && m.Value().Valid()
      requires Progress(data[..], at, responses, Scan(role, serving, Value(), m.Value(), data[at..]), whole)
      modifies this, m, data
      ensures at <= next <= data.Length && data[next..] == old(data[next..])
      ensures ending != Fine ==> whole == Scanned(Value(), m.Value(), data[..], responses, ending)
      ensures ending == Fine ==>
        && !m.Value().Between() && (next > at || !old(m.Value()).Between())
        && Progress(data[..], next, responses, ScanBody(role, serving, Value(), m.Value(), data[next..]), whole)
    {
      hide Scan, ScanBody, PduAt, Noted, Rewritten, Finished, Pending, Progress, Closed, PhaseOf;
      ghost var rest, ids, m0, before := data[at..], Value(), m.Value(), data[..];
      if m.phase == None || m.phase == WaitResponse {
        if data.Length - at < CONTAINER_HEADER {
          ShortEnds(before, at, responses, role, serving, ids, m0, rest, whole);
          return at, ShortHeader;
        }
        ParseHeader(role, m, data, at);
        assert rest[..12] == before[at..at + 12] && before[at + 12..] == rest[12..];
        HeaderPassed(before, data[..], at, responses, role, serving, ids, m0, rest, whole);
        assert data[at + 12..] == rest[12..];
        next := at + CONTAINER_HEADER;
        if m.phase == UnknownPhase {
          return next, UnknownKind;
        }
        return next, Fine;
      }
      InsideContainer(role, serving, ids, m0, rest);
      return at, Fine;
    }

    /** ptp_parse: one transfer through one direction's parser. The source returns
        whether a response was finished; it bypasses the filter where the ending is
        not Fine. */
    method Parse(role: Role, m: StateMachine, data: array<Byte>, serving: bool)
      returns (responses: nat, ending: Ending)
      requires m.Value().Valid()
      modifies this, m, data
      ensures var s := Scan(role, serving, old(Value()), old(m.Value()), old(data[..]));
        && Value() == s.ids && m.Value() == s.m && data[..] == s.data
        && responses == s.responses && ending == s.ending
    {
      hide Scan, ScanBody, Finished, Pending, Progress, Closed;
      ghost var whole := Scan(role, serving, Value(), m.Value(), data[..]);
      var at := 0;
      responses := 0;
      assert data[0..] == data[..];
      NoProgress(data[..], whole);
      while at < data.Length
        invariant 0 <= at <= data.Length && m.Value().Valid()
        invariant Progress(data[..], at, responses, Scan(role, serving, Value(), m.Value(), data[at..]), whole)
        decreases data.Length - at, if m.Value().Between() then 0 else 1
      {
        at, ending := Enter(role, m, data, at, serving, responses, whole);
        if ending != Fine {
          return;
        }
        ghost var body, inside, noted := data[at..], m.Value(), Value();
        var step := PassBody(role, m, data.Length - at, serving);
        BodyStepped(data[..], at, responses, role, serving, noted, inside, body, whole);
        match step {
          case Pended => return responses, Fine;
          case Strayed => return responses, Astray;
          case ClosedAfter(n, done) =>
            assert body[n..] == data[at + n..];
            ClosedBetween(inside);
            responses, at := responses + done, at + n;
        }
      }
      NothingLeft(data[..], responses, role, serving, Value(), m.Value(), whole);
      return responses, Fine;
    }
  }

  lemma ClosedBetween(m: Machine)
    ensures Closed(m).Between() && Closed(m).Valid()
  {
  }

  /** What one transfer holds of a container's body: less than all of it, an impossible
      length, or all of it, ending a response or not. */
  datatype Step = Pended | Strayed | ClosedAfter(n: nat, done: nat)

  /** Where the loop stands: what it has rewritten and counted, in front of what the
      rest will give, is the whole result. */
  ghost predicate Progress(data: seq<Byte>, at: nat, responses: nat, rest: Scanned, whole: Scanned) {
    at <= |data| && Prefixed(data[..at], responses, rest) == whole
  }

  lemma ProgressOn(before: seq<Byte>, data: seq<Byte>, at: nat, responses: nat, head: seq<Byte>, more: nat,
                   rest: Scanned, whole: Scanned)
    requires Progress(before, at, responses, Prefixed(head, more, rest), whole)
    requires at + |head| <= |data| && data[..at + |head|] == before[..at] + head
    ensures Progress(data, at + |head|, responses + more, rest, whole)
  {
    assert before[..at] + (head + rest.data) == (before[..at] + head) + rest.data;
  }

  lemma ProgressEnds(data: seq<Byte>, at: nat, responses: nat, rest: Scanned, whole: Scanned)
    requires Progress(data, at, responses, rest, whole)
    requires at <= |data| && data[at..] == rest.data && rest.responses == 0
    ensures whole == Scanned(rest.ids, rest.m, data, responses, rest.ending)
  {
    assert data == data[..at] + data[at..];
  }

  lemma ProgressChanged(before: seq<Byte>, data: seq<Byte>, at: nat, responses: nat, tail: seq<Byte>,
                        rest: Scanned, whole: Scanned)
    requires Progress(before, at, responses, rest, whole)
    requires rest.data == tail && rest.responses == 0 && data == before[..at] + tail
    ensures whole == Scanned(rest.ids, rest.m, data, responses, rest.ending)
  {
  }

  lemma NoProgress(data: seq<Byte>, whole: Scanned)
    ensures Progress(data, 0, 0, whole, whole)
  {
    assert data[..0] + whole.data == whole.data;
  }

  lemma NothingLeft(data: seq<Byte>, responses: nat, role: Role, serving: bool, ids: Ids, m: Machine, whole: Scanned)
    requires m.Valid() && Progress(data, |data|, responses, Scan(role, serving, ids, m, []), whole)
    ensures whole == Scanned(ids, m, data, responses, Fine)
  {
    ProgressEnds(data, |data|, responses, Scan(role, serving, ids, m, []), whole);
  }

  lemma ShortEnds(data: seq<Byte>, at: nat, responses: nat, role: Role, serving: bool, ids: Ids, m: Machine,
                  rest: seq<Byte>, whole: Scanned)
    requires m.Between() && 0 < |rest| < CONTAINER_HEADER && at <= |data| && data[at..] == rest
    requires Progress(data, at, responses, Scan(role, serving, ids, m, rest), whole)
    ensures whole == Scanned(ids, m, data, responses, ShortHeader)
  {
    ProgressEnds(data, at, responses, Scan(role, serving, ids, m, rest), whole);
  }

  lemma HeaderPassed(before: seq<Byte>, data: seq<Byte>, at: nat, responses: nat, role: Role, serving: bool, ids: Ids,
                     m: Machine, rest: seq<Byte>, whole: Scanned)
    requires m.Between() && |rest| >= CONTAINER_HEADER && at <= |before|
    requires Progress(before, at, responses, Scan(role, serving, ids, m, rest), whole)
    requires data == before[..at] + Rewritten(role, ids, rest[..12]) + rest[12..]
    ensures var pdu := PduAt(rest);
      var m1, noted := Started(pdu), Noted(role, ids, pdu);
      if m1.phase == UnknownPhase then whole == Scanned(noted, m1, data, responses, UnknownKind)
      else !m1.Between() && Progress(data, at + 12, responses, ScanBody(role, serving, noted, m1, rest[12..]), whole)
  {
    hide PduAt, Noted, Rewritten, ScanBody, PhaseOf, Progress;
    var pdu, head := PduAt(rest), Rewritten(role, ids, rest[..12]);
    StartedInside(pdu);
    if PhaseOf(pdu.kind) == UnknownPhase {
      assert data == before[..at] + (head + rest[12..]);
      ProgressChanged(before, data, at, responses, head + rest[12..], Scan(role, serving, ids, m, rest), whole);
    } else {
      assert data[..at + 12] == before[..at] + head;
      ProgressOn(before, data, at, responses, head, 0,
                 ScanBody(role, serving, Noted(role, ids, pdu), Started(pdu), rest[12..]), whole);
    }
  }

  lemma InsideContainer(role: Role, serving: bool, ids: Ids, m: Machine, rest: seq<Byte>)
    requires !m.Between() && m.Valid() && rest != []
    ensures Scan(role, serving, ids, m, rest) == ScanBody(role, serving, ids, m, rest)
  {
  }

  lemma BodyStepped(data: seq<Byte>, at: nat, responses: nat, role: Role, serving: bool, ids: Ids, m: Machine,
                    body: seq<Byte>, whole: Scanned)
    requires !m.Between() && at <= |data| && data[at..] == body
    requires Progress(data, at, responses, ScanBody(role, serving, ids, m, body), whole)
    ensures Pending(m, |body|) ==>
      whole == Scanned(ids, m.(size := (m.size + |body|) % WRAP), data, responses, Fine)
    ensures !Pending(m, |body|) && BodyEnd(m) > |body| ==> whole == Scanned(ids, m, data, responses, Astray)
    ensures !Pending(m, |body|) && BodyEnd(m) <= |body| ==>
      Progress(data, at + BodyEnd(m), responses + Ends(m),
               Scan(role, serving, Finished(role, serving, ids, m.phase), Closed(m), body[BodyEnd(m)..]), whole)
  {
    hide Scan, ScanBody, Finished, Closed, Progress, Pending, Prefixed;
    if Pending(m, |body|) || BodyEnd(m) > |body| {
      BodyEndsHere(role, serving, ids, m, body);
      ProgressEnds(data, at, responses, ScanBody(role, serving, ids, m, body), whole);
    } else {
      var n := BodyEnd(m);
      BodyGoesOn(role, serving, ids, m, body);
      TakenPart(data, at, body, n);
      ProgressOn(data, data, at, responses, body[..n], Ends(m),
                 Scan(role, serving, Finished(role, serving, ids, m.phase), Closed(m), body[n..]), whole);
    }
  }

  lemma TakenPart(data: seq<Byte>, at: nat, body: seq<Byte>, n: nat)
    requires at <= |data| && data[at..] == body && n <= |body|
    ensures data[..at + n] == data[..at] + body[..n]
  {
  }

  lemma BodyEndsHere(role: Role, serving: bool, ids: Ids, m: Machine, body: seq<Byte>)
    requires !m.Between() && (Pending(m, |body|) || BodyEnd(m) > |body|)
    ensures ScanBody(role, serving, ids, m, body) ==
      if Pending(m, |body|) then Scanned(ids, m.(size := (m.size + |body|) % WRAP), body, 0, Fine)
      else Scanned(ids, m, body, 0, Astray)
  {
  }

  lemma BodyGoesOn(role: Role, serving: bool, ids: Ids, m: Machine, body: seq<Byte>)
    requires !m.Between() && !Pending(m, |body|) && BodyEnd(m) <= |body|
    ensures ScanBody(role, serving, ids, m, body) ==
      Prefixed(body[..BodyEnd(m)], Ends(m),
               Scan(role, serving, Finished(role, serving, ids, m.phase), Closed(m), body[BodyEnd(m)..]))
  {
    hide Scan, Prefixed, Finished, Closed, Pending;
  }
}
