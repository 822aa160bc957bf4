/** Headers carry no total length: how many bytes follow one depends on the
    direction, the transfer type and the packet count, and a reply names neither
    direction nor endpoint. Each receiver works the length out again, the server
    from its endpoint table and the client from its own pending URB. */
module Framing {
  import opened Bytes
  import opened Wire
  import opened Iso
  import opened Transport

  datatype Kind = Control | Bulk | Interrupt | Isochronous

  datatype Pipe = Pipe(isIn: bool, ep: U32, kind: Kind)

  datatype Urb = Urb(pipe: Pipe, flags: U32, length: S32, actual: S32, status: S32, startFrame: S32,
                     packets: S32, interval: S32, errors: S32, setup: seq<Byte>,
                     buffer: seq<Byte>, iso: seq<Packet>)

  type Endpoints = map<(bool, U32), Kind>

  datatype Side = Stub | Vhci

  const DIR_OUT: U32 := 0
  const DIR_IN: U32 := 1
  const EPIPE: int := 32
  const ENOMEM: int := 12
  // one descriptor is 16 bytes, and their total is computed in an int
  const MAX_PACKETS: int := 0x7ff_ffff

  // ------------------------------------------------------------ the two receivers' common parts

  /** URB_NO_TRANSFER_DMA_MAP, the flag with value 4, is cleared. */
  function Tweak(flags: U32): (r: U32)
    ensures r / 8 == flags / 8 && r % 4 == flags % 4 && r / 4 % 2 == 0
  {
    if flags / 4 % 2 == 1 then flags - 4 else flags
  }

  /** The sum of the packets' lengths as an int accumulates it. */
  function Total32(ps: seq<Packet>): (n: S32)
    ensures (Total(ps) - n) % 0x1_0000_0000 == 0
  {
    Signed(Total(ps) % 0x1_0000_0000)
  }

  /** A part of a request received: the code returned, what came, and whether the
      connection was reported broken. */
  datatype Part<T> = Part(ret: int, data: T, event: bool, rest: Stream)

  /** usbip_recv_xbuff. The server reports a short transfer but passes on the
      connection's own result. */
  function RecvXbuff(side: Side, pipe: Pipe, size: S32, st: Stream): Part<seq<Byte>> {
    if (if side == Stub then pipe.isIn else !pipe.isIn) then Part(0, [], false, st)
    else if size <= 0 then Part(0, [], false, st)
    else
      var r := Exactly(st, size);
      if r.ret == size then Part(size, r.data, false, r.rest)
      else Part(if side == Stub then r.ret else -EPIPE, r.data, true, r.rest)
  }

  /** usbip_recv_iso: the descriptors, and the check that the packets' lengths add
      up to the transfer's. */
  function RecvIso(cpu: Cpu, pipe: Pipe, np: S32, actual: S32, mine: seq<Packet>, st: Stream): Part<seq<Packet>> {
    if pipe.kind != Isochronous || np == 0 then Part(0, mine, false, st)
    else if np < 0 || np > MAX_PACKETS then Part(-ENOMEM, mine, false, st)
    else
      var r := Exactly(st, 16 * np);
      if r.ret != 16 * np then Part(-EPIPE, mine, true, r.rest)
      else
        var ps := PacketsOf(cpu, r.data);
        if Total32(ps) != actual then Part(-EPIPE, ps, true, r.rest) else Part(16 * np, ps, false, r.rest)
  }

  /** Received bytes written over the start of a buffer. */
  function Overlay(buffer: seq<Byte>, data: seq<Byte>): (b: seq<Byte>)
    ensures |data| <= |buffer| ==> |b| == |buffer|
  {
    if |data| <= |buffer| then data + buffer[|data|..] else data
  }

  function Zeros(n: int): (z: seq<Byte>)
    ensures |z| == if n > 0 then n else 0
    ensures forall i :: 0 <= i < |z| ==> z[i] == 0
  {
    seq(if n > 0 then n else 0, _ => 0)
  }

  // ------------------------------------------------------------ client to server

  datatype Request = Submit(seqnum: U32, urb: Urb) | Cancel(seqnum: U32, target: U32)

  /** What a driver hands the host controller. */
  predicate Submittable(urb: Urb) {
    && |urb.setup| == 8
    && (!urb.pipe.isIn ==> urb.length <= |urb.buffer|)
    && (urb.pipe.kind == Isochronous ==> 0 <= urb.packets <= MAX_PACKETS && |urb.iso| == urb.packets)
  }

  function Payload(urb: Urb): (b: seq<Byte>)
    requires Submittable(urb)
  {
    if !urb.pipe.isIn && urb.length > 0 then urb.buffer[..urb.length] else []
  }

  function Descriptors(cpu: Cpu, urb: Urb): (b: seq<Byte>) {
    if urb.pipe.kind == Isochronous then PacketBytes(cpu, urb.iso) else []
  }

  function SubmitMessage(devid: U32, seqnum: U32, urb: Urb): (m: Message)
    requires |urb.setup| == 8
    ensures m.Valid()
  {
    CmdSubmit(seqnum, devid, if urb.pipe.isIn then DIR_IN else DIR_OUT, urb.pipe.ep, Tweak(urb.flags), urb.length,
              urb.startFrame, urb.packets, urb.interval, urb.setup)
  }

  /** The bytes vhci_send_cmd_submit or vhci_send_cmd_unlink writes. */
  function RequestBytes(cpu: Cpu, devid: U32, r: Request): seq<Byte>
    requires r.Submit? ==> Submittable(r.urb)
  {
    match r
    case Submit(s, urb) => HeaderBytes(cpu, SubmitMessage(devid, s, urb)) + (Payload(urb) + Descriptors(cpu, urb))
    case Cancel(s, target) => HeaderBytes(cpu, CmdUnlink(s, devid, target))
  }

  datatype Outcome<T> = Accepted(item: T, event: bool, rest: Stream) | Refused

  /** The URB stub_build_urb allocates for a request: its buffer is zeroed, and
      its own actual length is zero. */
  function Rebuilt(pipe: Pipe, m: Message, data: seq<Byte>, ps: seq<Packet>): Urb
    requires m.CmdSubmit?
  {
    Urb(pipe, m.flags, m.length, 0, 0, m.startFrame, m.packets, m.interval, 0, m.setup,
        Overlay(Zeros(m.length), data), ps)
  }

  /** One turn of the server's receive loop. */
  function ServerRecv(cpu: Cpu, eps: Endpoints, devid: U32, st: Stream): (o: Outcome<Request>)
    ensures o.Accepted? ==> |o.rest.bytes| + HEADER_SIZE <= |st.bytes|
  {
    var h := Exactly(st, HEADER_SIZE);
    if h.ret != HEADER_SIZE then Refused
    else
      match Interpret(HeaderOf(cpu, h.data)) {
        case Known(CmdUnlink(s, dev, target)) =>
          if dev == devid then Accepted(Cancel(s, target), false, h.rest) else Refused
        case Known(CmdSubmit(s, dev, dir, ep, fl, len, sf, np, iv, setup)) =>
          if dev != devid then Refused
          else BuildUrb(cpu, eps, CmdSubmit(s, dev, dir, ep, fl, len, sf, np, iv, setup), h.rest)
        case _ => Refused
      }
  }

  /** get_pipe and stub_build_urb. */
  function BuildUrb(cpu: Cpu, eps: Endpoints, m: Message, st: Stream)
    : (o: Outcome<Request>)
    requires m.CmdSubmit?
    ensures o.Accepted? ==> |o.rest.bytes| <= |st.bytes|
  {
    var key := (m.direction == DIR_IN, m.ep % 0x80);
    if key !in eps then Refused
    else
      var pipe := Pipe(key.0, key.1, eps[key]);
      var x := RecvXbuff(Stub, pipe, m.length, st);
      if x.ret < 0 then Refused
      else
        var i := RecvIso(cpu, pipe, m.packets, 0, [], x.rest);
        if i.ret < 0 then Refused
        else Accepted(Submit(m.seqnum, Rebuilt(pipe, m, x.data, i.data)), x.event || i.event, i.rest)
  }

  /** Both ends see the same endpoint. */
  predicate Agreed(eps: Endpoints, pipe: Pipe) {
    pipe.ep < 0x80 && (pipe.isIn, pipe.ep) in eps && eps[(pipe.isIn, pipe.ep)] == pipe.kind
  }

  /** The USB core zeroes the packets' actual lengths when a URB is submitted. */
  predicate FreshPackets(urb: Urb) {
    urb.pipe.kind == Isochronous && urb.packets != 0 ==> Total32(urb.iso) == 0
  }

  /** The request as the server has it: the client's URB, its direction recovered
      from the endpoint, its OUT data in place, its IN buffer zeroed. */
  function AsReceived(r: Request): Request
    requires r.Submit? ==> Submittable(r.urb)
  {
    match r
    case Cancel(_, _) => r
    case Submit(s, u) =>
      Submit(s, Urb(u.pipe, Tweak(u.flags), u.length, 0, 0, u.startFrame, u.packets, u.interval, 0, u.setup,
                    if u.pipe.isIn then Zeros(u.length) else if u.length > 0 then u.buffer[..u.length] else [],
                    if u.pipe.kind == Isochronous then u.iso else []))
  }

  lemma ExactlyPrefix(data: seq<Byte>, rest: seq<Byte>, ending: Ending)
    requires |data| > 0
    ensures Exactly(Stream(data + rest, ending), |data|) == Receipt(|data|, data, Stream(rest, ending))
  {
    assert (data + rest)[..|data|] == data && (data + rest)[|data|..] == rest;
  }

  lemma DescriptorsArrive(cpu: Cpu, receiver: Cpu, pipe: Pipe, np: S32, actual: S32, mine: seq<Packet>, ps: seq<Packet>,
                          rest: seq<Byte>, ending: Ending)
    requires pipe.kind == Isochronous && 0 <= np <= MAX_PACKETS && |ps| == np
    ensures RecvIso(receiver, pipe, np, actual, mine, Stream(PacketBytes(cpu, ps) + rest, ending)) ==
      if np == 0 then Part(0, mine, false, Stream(rest, ending))
      else if Total32(ps) == actual then Part(16 * np, ps, false, Stream(rest, ending))
      else Part(-EPIPE, ps, true, Stream(rest, ending))
  {
    hide PacketsOf, Total32;
    if np == 0 {
      assert PacketBytes(cpu, ps) + rest == rest;
    } else {
      ExactlyPrefix(PacketBytes(cpu, ps), rest, ending);
      PacketsCross(cpu, receiver, ps);
    }
  }

  /** Header, then payload and descriptors: the header is taken first. */
  lemma HeaderTaken(sender: Cpu, cpu: Cpu, m: Message, body: seq<Byte>, ending: Ending)
    requires m.Valid()
    ensures var h := Exactly(Stream(HeaderBytes(sender, m) + body, ending), HEADER_SIZE);
      && h.ret == HEADER_SIZE && |h.data| == HEADER_SIZE
      && Interpret(HeaderOf(cpu, h.data)) == Known(m) && h.rest == Stream(body, ending)
  {
    hide HeaderBytes, HeaderOf, Interpret;
    ExactlyPrefix(HeaderBytes(sender, m), body, ending);
    HeaderCrosses(sender, cpu, m);
  }

  lemma PayloadArrives(urb: Urb, body: seq<Byte>, ending: Ending)
    requires Submittable(urb)
    ensures RecvXbuff(Stub, urb.pipe, urb.length, Stream(Payload(urb) + body, ending)) ==
      Part(if Payload(urb) == [] then 0 else urb.length, Payload(urb), false, Stream(body, ending))
  {
    if Payload(urb) == [] {
      assert Payload(urb) + body == body;
    } else {
      ExactlyPrefix(Payload(urb), body, ending);
    }
  }

  lemma BodyBuildsUrb(sender: Cpu, cpu: Cpu, eps: Endpoints, devid: U32, s: U32, urb: Urb, rest: seq<Byte>,
                      ending: Ending)
    requires Submittable(urb) && Agreed(eps, urb.pipe)
    ensures BuildUrb(cpu, eps, SubmitMessage(devid, s, urb),
                     Stream(Payload(urb) + Descriptors(sender, urb) + rest, ending)) ==
      if FreshPackets(urb) then Accepted(AsReceived(Submit(s, urb)), false, Stream(rest, ending)) else Refused
  {
    hide PacketBytes, Total32, PacketsOf;
    var body := Descriptors(sender, urb) + rest;
    assert Payload(urb) + Descriptors(sender, urb) + rest == Payload(urb) + body;
    PayloadArrives(urb, body, ending);
    var np := urb.packets;
    if urb.pipe.kind == Isochronous {
      DescriptorsArrive(sender, cpu, urb.pipe, np, 0, [], urb.iso, rest, ending);
    } else {
      assert body == rest;
    }
    var m := SubmitMessage(devid, s, urb);
    assert Overlay(Zeros(m.length), Payload(urb)) == AsReceived(Submit(s, urb)).urb.buffer;
  }

  /** One request crosses: the server cuts exactly its bytes out of the stream and
      has the client's URB, if and only if the isochronous lengths are fresh. */
  lemma RequestArrivesIff(sender: Cpu, cpu: Cpu, eps: Endpoints, devid: U32, r: Request, rest: seq<Byte>,
                          ending: Ending)
    requires r.Submit? ==> Submittable(r.urb) && Agreed(eps, r.urb.pipe)
    ensures ServerRecv(cpu, eps, devid, Stream(RequestBytes(sender, devid, r) + rest, ending)) ==
      if r.Submit? ==> FreshPackets(r.urb) then Accepted(AsReceived(r), false, Stream(rest, ending)) else Refused
  {
    hide HeaderBytes, HeaderOf, Interpret, BuildUrb, Payload, Descriptors, FreshPackets, AsReceived, Submittable, Agreed;
    match r {
      case Cancel(s, target) =>
        HeaderTaken(sender, cpu, CmdUnlink(s, devid, target), rest, ending);
        assert AsReceived(r) == r by { CancelUnchanged(r); }
      case Submit(s, urb) =>
        assert |urb.setup| == 8 by { SetupIsEight(urb); }
        var m := SubmitMessage(devid, s, urb);
        var body := Payload(urb) + Descriptors(sender, urb);
        assert RequestBytes(sender, devid, r) + rest == HeaderBytes(sender, m) + (body + rest);
        HeaderTaken(sender, cpu, m, body + rest, ending);
        BodyBuildsUrb(sender, cpu, eps, devid, s, urb, rest, ending);
    }
  }

  /** Of a request that crosses the server has every transfer flag but the one that asks
      for a DMA mapping, and that one is clear. */
  lemma FlagsArrive(sender: Cpu, cpu: Cpu, eps: Endpoints, devid: U32, s: U32, urb: Urb, rest: seq<Byte>, ending: Ending)
    requires Submittable(urb) && Agreed(eps, urb.pipe) && FreshPackets(urb)
    ensures var o := ServerRecv(cpu, eps, devid, Stream(RequestBytes(sender, devid, Submit(s, urb)) + rest, ending));
      && o.Accepted? && o.item.Submit?
      && var f := o.item.urb.flags;
      && f / 8 == urb.flags / 8 && f % 4 == urb.flags % 4 && f / 4 % 2 == 0
  {
    hide ServerRecv, RequestBytes, Tweak;
    RequestArrivesIff(sender, cpu, eps, devid, Submit(s, urb), rest, ending);
  }

  // ------------------------------------------------------------ what is refused

  /** Whatever the byte order, the server takes no reply, no request for another device,
      no URB for an endpoint it does not know, and no isochronous one with a number of
      packets that is negative or whose descriptors an int does not count. */
  lemma WrongRequestRefused(sender: Cpu, cpu: Cpu, eps: Endpoints, devid: U32, m: Message, body: seq<Byte>, ending: Ending)
    requires m.Valid()
    requires match m
             case CmdUnlink(_, dev, _) => dev != devid
             case CmdSubmit(_, dev, dir, ep, _, _, _, np, _, _) =>
               || dev != devid || (dir == 1, ep % 128) !in eps
               || (eps[(dir == 1, ep % 128)] == Isochronous && (np < 0 || 16 * np > 0x7fff_ffff))
             case _ => true
    ensures ServerRecv(cpu, eps, devid, Stream(HeaderBytes(sender, m) + body, ending)) == Refused
  {
    hide HeaderBytes, HeaderOf, Interpret;
    HeaderTaken(sender, cpu, m, body, ending);
  }

  lemma CancelUnchanged(r: Request)
    requires r.Cancel?
    ensures AsReceived(r) == r
  {
  }

  lemma SetupIsEight(urb: Urb)
    requires Submittable(urb)
    ensures |urb.setup| == 8
  {
  }

  // ------------------------------------------------------------ a whole connection

  function AllRequestBytes(cpu: Cpu, devid: U32, rs: seq<Request>): seq<Byte>
    requires forall r :: r in rs && r.Submit? ==> Submittable(r.urb)
  {
    if rs == [] then [] else RequestBytes(cpu, devid, rs[0]) + AllRequestBytes(cpu, devid, rs[1..])
  }

  datatype Session<T> = Session(items: seq<T>, rest: Stream)

  /** The server's receive loop: it ends with the stream, or with a report. */
  function Serve(cpu: Cpu, eps: Endpoints, devid: U32, st: Stream): Session<Request>
    decreases |st.bytes|
  {
    if st.bytes == [] then Session([], st)
    else
      match ServerRecv(cpu, eps, devid, st)
      case Refused => Session([], st)
      case Accepted(item, event, rest) =>
        if event then Session([item], rest)
        else
          var later := Serve(cpu, eps, devid, rest);
          Session([item] + later.items, later.rest)
  }

  /** The requests before the first one whose isochronous lengths are not fresh. */
  function FreshPrefix(rs: seq<Request>): (n: nat)
    ensures n <= |rs|
    ensures n == |rs| <==> forall r :: r in rs && r.Submit? ==> FreshPackets(r.urb)
  {
    if rs == [] then 0
    else if rs[0].Submit? && !FreshPackets(rs[0].urb) then 0
    else
      assert forall r :: r in rs <==> r == rs[0] || r in rs[1..];
      1 + FreshPrefix(rs[1..])
  }

  function AllReceived(rs: seq<Request>): (qs: seq<Request>)
    requires forall r :: r in rs && r.Submit? ==> Submittable(r.urb)
    ensures |qs| == |rs|
  {
    seq(|rs|, i requires 0 <= i < |rs| => AsReceived(rs[i]))
  }

  /** Framing, client to server: the bytes of any row of requests are cut back into
      the same requests, one by one, up to the first with stale isochronous lengths;
      nothing is left over exactly when there is none. */
  lemma {:induction false} RequestsFramed(sender: Cpu, cpu: Cpu, eps: Endpoints, devid: U32, rs: seq<Request>, ending: Ending)
    requires forall r :: r in rs && r.Submit? ==> Submittable(r.urb)
    requires forall r :: r in rs && r.Submit? ==> Agreed(eps, r.urb.pipe)
    ensures var got := Serve(cpu, eps, devid, Stream(AllRequestBytes(sender, devid, rs), ending));
      && got.items == AllReceived(rs[..FreshPrefix(rs)])
      && got.rest == Stream(AllRequestBytes(sender, devid, rs[FreshPrefix(rs)..]), ending)
  {
    hide ServerRecv, RequestBytes, FreshPackets, AsReceived, Submittable, Agreed;
    if rs != [] {
      var r, later := rs[0], AllRequestBytes(sender, devid, rs[1..]);
      RequestArrivesIff(sender, cpu, eps, devid, r, later, ending);
      assert AllRequestBytes(sender, devid, rs) != [] by { RequestNotEmpty(sender, devid, r); }
      var n := FreshPrefix(rs);
      if n == 0 {
        assert rs[..0] == [] && rs[0..] == rs;
        assert AllReceived(rs[..0]) == [];
      } else {
        RequestsFramed(sender, cpu, eps, devid, rs[1..], ending);
        assert rs[n..] == rs[1..][n - 1..];
        ReceivedFirst(rs, n);
      }
    }
  }

  lemma ReceivedFirst(rs: seq<Request>, n: nat)
    requires 0 < n <= |rs| && forall r :: r in rs && r.Submit? ==> Submittable(r.urb)
    ensures AllReceived(rs[..n]) == [AsReceived(rs[0])] + AllReceived(rs[1..][..n - 1])
  {
    hide AsReceived, Submittable;
    assert rs[..n][1..] == rs[1..][..n - 1];
  }

  lemma RequestNotEmpty(cpu: Cpu, devid: U32, r: Request)
    requires r.Submit? ==> Submittable(r.urb)
    ensures RequestBytes(cpu, devid, r) != []
  {
    hide HeaderBytes;
  }

  /** A connection that ends inside an OUT payload: the server still submits the URB,
      the missing bytes zero, if and only if the connection was closed in order and
      no descriptors were to follow. It has reported the error by then. */
  lemma ShortPayloadSubmittedIff(sender: Cpu, cpu: Cpu, eps: Endpoints, devid: U32, s: U32, urb: Urb, k: nat, ending: Ending)
    requires Submittable(urb) && Agreed(eps, urb.pipe)
    requires k < |Payload(urb)|
    ensures var o := ServerRecv(cpu, eps, devid,
                                Stream(HeaderBytes(sender, SubmitMessage(devid, s, urb)) + Payload(urb)[..k], ending));
      && (o.Accepted? <==> ending == 0 && (urb.pipe.kind != Isochronous || urb.packets == 0))
      && (o.Accepted? ==> o.event && o.item.Submit? && o.item.urb.buffer == Payload(urb)[..k] + Zeros(urb.length - k))
  {
    hide HeaderBytes, HeaderOf, Interpret;
    var m := SubmitMessage(devid, s, urb);
    var st := Stream(Payload(urb)[..k], ending);
    HeaderTaken(sender, cpu, m, st.bytes, ending);
    var x := RecvXbuff(Stub, urb.pipe, m.length, st);
    assert x == Part(ending, st.bytes, true, Stream([], ending));
    if ending == 0 && (urb.pipe.kind != Isochronous || urb.packets == 0) {
      assert Overlay(Zeros(m.length), st.bytes) == st.bytes + Zeros(urb.length - k);
    }
  }

  /** A header cut off by the end of the connection. */
  lemma HeaderCut(b: seq<Byte>, k: nat, ending: Ending)
    requires k < HEADER_SIZE <= |b|
    ensures Exactly(Stream(b[..k], ending), HEADER_SIZE).ret == ending
  {
  }

  /** Descriptors cut off are refused by either receiver. */
  lemma DescriptorsCut(cpu: Cpu, pipe: Pipe, np: S32, actual: S32, mine: seq<Packet>, b: seq<Byte>, k: nat, ending: Ending)
    requires pipe.kind == Isochronous && 0 < np <= MAX_PACKETS && k < 16 * np == |b|
    ensures RecvIso(cpu, pipe, np, actual, mine, Stream(b[..k], ending)).ret < 0
  {
    hide PacketsOf, Total32;
  }

  /** A request whose descriptors are cut off. */
  lemma LaterCut(sender: Cpu, cpu: Cpu, eps: Endpoints, devid: U32, s: U32, urb: Urb, n: nat, ending: Ending)
    requires Submittable(urb) && Agreed(eps, urb.pipe)
    requires n < |Descriptors(sender, urb)|
    ensures var m, cut := SubmitMessage(devid, s, urb), Descriptors(sender, urb)[..n];
      ServerRecv(cpu, eps, devid, Stream(HeaderBytes(sender, m) + (Payload(urb) + cut), ending)) == Refused
  {
    hide HeaderBytes, HeaderOf, Interpret, RecvIso, RecvXbuff, Payload;
    var m, descriptors := SubmitMessage(devid, s, urb), Descriptors(sender, urb);
    HeaderTaken(sender, cpu, m, Payload(urb) + descriptors[..n], ending);
    PayloadArrives(urb, descriptors[..n], ending);
    DescriptorsCut(cpu, urb.pipe, urb.packets, 0, [], descriptors, n, ending);
  }

  lemma NothingFromHeader(cpu: Cpu, eps: Endpoints, devid: U32, b: seq<Byte>, k: nat, ending: Ending)
    requires k < HEADER_SIZE <= |b|
    ensures ServerRecv(cpu, eps, devid, Stream(b[..k], ending)) == Refused
  {
    hide Exactly;
    HeaderCut(b, k, ending);
  }

  /** What is left of three parts cut behind the first. */
  lemma CutBehind(a: seq<Byte>, x: seq<Byte>, y: seq<Byte>, n: nat)
    requires n <= |x| + |y|
    ensures (a + (x + y))[..|a| + n] == a + if n < |x| then x[..n] else x + y[..n - |x|]
  {
  }

  /** A request cut off anywhere: the server takes it if and only if what is missing is
      part of an OUT payload with nothing to follow, and the connection was closed in
      order. */
  lemma TruncatedRequestIff(sender: Cpu, cpu: Cpu, eps: Endpoints, devid: U32, r: Request, k: nat, ending: Ending)
    requires r.Submit? ==> Submittable(r.urb) && Agreed(eps, r.urb.pipe)
    requires k < |RequestBytes(sender, devid, r)|
    ensures ServerRecv(cpu, eps, devid, Stream(RequestBytes(sender, devid, r)[..k], ending)).Accepted? <==>
      && r.Submit? && 48 <= k < 48 + |Payload(r.urb)|
      && (r.urb.pipe.kind != Isochronous || r.urb.packets == 0) && ending == 0
  {
    hide HeaderBytes, HeaderOf, Interpret, Payload, Descriptors, SubmitMessage, Agreed, ServerRecv;
    var b := RequestBytes(sender, devid, r);
    if k < HEADER_SIZE {
      NothingFromHeader(cpu, eps, devid, b, k, ending);
    } else {
      hide Submittable;
      var urb := r.urb;
      assert |urb.setup| == 8 by { SetupIsEight(urb); }
      var head, n := HeaderBytes(sender, SubmitMessage(devid, r.seqnum, urb)), k - HEADER_SIZE;
      CutBehind(head, Payload(urb), Descriptors(sender, urb), n);
      if n < |Payload(urb)| {
        ShortPayloadSubmittedIff(sender, cpu, eps, devid, r.seqnum, urb, n, ending);
      } else {
        LaterCut(sender, cpu, eps, devid, r.seqnum, urb, n - |Payload(urb)|, ending);
      }
    }
  }
}
