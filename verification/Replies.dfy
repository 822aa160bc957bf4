/** Server to client: a reply says neither what kind of transfer it answers nor in
    which direction. The client takes both from the pending URB it finds by number. */
module Replies {
  import opened Bytes
  import opened Wire
  import opened Iso
  import opened Transport
  import opened Framing
  import opened Bags

  datatype Reply = Finished(seqnum: U32, urb: Urb) | Cancelled(seqnum: U32, status: S32)

  type Pending = map<U32, Urb>

  /** A URB the device has finished with: it moved at most what its buffer holds. */
  predicate Completed(u: Urb) {
    && 0 <= u.actual
    && (u.pipe.isIn && u.pipe.kind != Isochronous ==> u.actual <= |u.buffer|)
    && (u.pipe.kind == Isochronous ==> |u.iso| == u.packets <= MAX_PACKETS && Inside(u.iso, |u.buffer|))
  }

  function ReplyMessage(s: U32, u: Urb): (m: Message)
    ensures m.Valid()
  {
    RetSubmit(s, u.status, u.actual, u.startFrame, u.packets, u.errors)
  }

  function ReplyPayload(u: Urb): (b: seq<Byte>)
    requires Completed(u)
  {
    if !u.pipe.isIn then []
    else if u.pipe.kind == Isochronous then Gather(u.buffer, u.iso)
    else u.buffer[..u.actual]
  }

  /** The sender's own check: an isochronous IN transfer whose packets do not add up
      is not sent. */
  predicate Sendable(u: Urb) {
    u.pipe.isIn && u.pipe.kind == Isochronous ==> Total(u.iso) == u.actual
  }

  /** The bytes stub_send_ret_submit or stub_send_ret_unlink writes, if it does. */
  function ReplyBytes(cpu: Cpu, r: Reply): Option<seq<Byte>>
    requires r.Finished? ==> Completed(r.urb)
  {
    match r
    case Cancelled(s, status) => Some(HeaderBytes(cpu, RetUnlink(s, status)))
    case Finished(s, u) =>
      if !Sendable(u) then None
      else Some(HeaderBytes(cpu, ReplyMessage(s, u)) + (ReplyPayload(u) + Descriptors(cpu, u)))
  }

  /** usbip_pad_iso on the client's URB, whichever its direction. Packets reaching
      outside the buffer are not modelled. */
  function Padded(u: Urb): (v: Urb)
    ensures |v.buffer| == |u.buffer| && v == u.(buffer := v.buffer)
  {
    if u.pipe.kind == Isochronous && |u.iso| == u.packets && Inside(u.iso, |u.buffer|)
       && u.actual == Total(u.iso) <= |u.buffer|
    then u.(buffer := Pad(u.buffer, u.iso, u.actual, u.length)) else u
  }

  /** usbip_pack_pdu for a reply. */
  function Unpack(u: Urb, m: Message): Urb
    requires m.RetSubmit?
  {
    u.(status := m.status, actual := m.actual, startFrame := m.startFrame, packets := m.packets, errors := m.errors)
  }

  /** One turn of the client's receive loop. */
  function ClientRecv(cpu: Cpu, pending: Pending, st: Stream): (o: Outcome<Reply>)
    ensures o.Accepted? ==> |o.rest.bytes| + HEADER_SIZE <= |st.bytes|
  {
    var h := Exactly(st, HEADER_SIZE);
    if h.ret != HEADER_SIZE then Refused
    else
      match Interpret(HeaderOf(cpu, h.data)) {
        case Known(RetUnlink(s, status)) => Accepted(Cancelled(s, status), false, h.rest)
        case Known(RetSubmit(s, status, actual, sf, np, errors)) =>
          if s !in pending then Refused
          else FillUrb(cpu, s, Unpack(pending[s], RetSubmit(s, status, actual, sf, np, errors)), h.rest)
        case _ => Refused
      }
  }

  /** The rest of vhci_recv_ret_submit, once its URB is found. */
  function FillUrb(cpu: Cpu, s: U32, u: Urb, st: Stream): (o: Outcome<Reply>)
    ensures o.Accepted? ==> |o.rest.bytes| <= |st.bytes|
  {
    var x := RecvXbuff(Vhci, u.pipe, u.actual, st);
    if x.ret < 0 then Refused
    else
      var i := RecvIso(cpu, u.pipe, u.packets, u.actual, u.iso, x.rest);
      if i.ret < 0 then Refused
      else Accepted(Finished(s, Padded(u.(buffer := Overlay(u.buffer, x.data), iso := i.data))), false, i.rest)
  }

  /** The pending URB as its driver gets it back. */
  function GivenBack(mine: Urb, u: Urb): Urb
    requires Completed(u)
  {
    Padded(Unpack(mine, ReplyMessage(0, u)).(
      buffer := Overlay(mine.buffer, ReplyPayload(u)),
      iso := if mine.pipe.kind == Isochronous && u.packets != 0 then u.iso else mine.iso))
  }

  /** What the receiver checks of an isochronous reply. */
  predicate SumsAgree(u: Urb) {
    u.pipe.kind == Isochronous && u.packets != 0 ==> Total32(u.iso) == u.actual
  }

  lemma SendableSumsAgree(u: Urb)
    requires Completed(u) && Sendable(u) && u.pipe.isIn
    ensures SumsAgree(u)
  {
  }

  lemma ReplyPayloadArrives(u: Urb, body: seq<Byte>, ending: Ending)
    requires Completed(u) && Sendable(u)
    ensures var x := RecvXbuff(Vhci, u.pipe, u.actual, Stream(ReplyPayload(u) + body, ending));
      x.ret >= 0 && x.data == ReplyPayload(u) && x.rest == Stream(body, ending)
  {
    if ReplyPayload(u) == [] {
      assert ReplyPayload(u) + body == body;
    } else {
      ExactlyPrefix(ReplyPayload(u), body, ending);
    }
  }

  lemma BodyFillsUrb(sender: Cpu, cpu: Cpu, s: U32, mine: Urb, u: Urb, rest: seq<Byte>, ending: Ending)
    requires Completed(u) && Sendable(u) && mine.pipe == u.pipe
    ensures FillUrb(cpu, s, Unpack(mine, ReplyMessage(s, u)), Stream(ReplyPayload(u) + Descriptors(sender, u) + rest, ending))
         == if SumsAgree(u) then Accepted(Finished(s, GivenBack(mine, u)), false, Stream(rest, ending)) else Refused
  {
    hide PacketBytes, Total32, PacketsOf, Padded, Gather, ReplyPayload, Sendable;
    var body := Descriptors(sender, u) + rest;
    assert ReplyPayload(u) + Descriptors(sender, u) + rest == ReplyPayload(u) + body;
    ReplyPayloadArrives(u, body, ending);
    if u.pipe.kind == Isochronous {
      DescriptorsArrive(sender, cpu, u.pipe, u.packets, u.actual, mine.iso, u.iso, rest, ending);
    } else {
      assert body == rest;
    }
  }

  /** One reply crosses: it is cut out of the stream exactly, with direction and type
      recovered from the pending URB, if and only if its isochronous lengths add up. */
  lemma ReplyArrivesIff(sender: Cpu, cpu: Cpu, pending: Pending, r: Reply, rest: seq<Byte>, ending: Ending)
    requires r.Finished? ==> Completed(r.urb) && r.seqnum in pending && pending[r.seqnum].pipe == r.urb.pipe
    requires ReplyBytes(sender, r).Some?
    ensures ClientRecv(cpu, pending, Stream(ReplyBytes(sender, r).value + rest, ending)) ==
      match r {
        case Cancelled(_, _) => Accepted(r, false, Stream(rest, ending))
        case Finished(s, u) =>
          if SumsAgree(u) then Accepted(Finished(s, GivenBack(pending[s], u)), false, Stream(rest, ending)) else Refused
      }
  {
    hide HeaderBytes, HeaderOf, Interpret, FillUrb, ReplyPayload, Descriptors, SumsAgree, GivenBack;
    match r {
      case Cancelled(s, status) =>
        HeaderTaken(sender, cpu, RetUnlink(s, status), rest, ending);
      case Finished(s, u) =>
        var m := ReplyMessage(s, u);
        var body := ReplyPayload(u) + Descriptors(sender, u);
        assert ReplyBytes(sender, r).value + rest == HeaderBytes(sender, m) + (body + rest);
        HeaderTaken(sender, cpu, m, body + rest, ending);
        BodyFillsUrb(sender, cpu, s, pending[s], u, rest, ending);
    }
  }

  /** A reply cut off anywhere by the end of the connection is refused. */
  lemma TruncatedReplyRefused(sender: Cpu, cpu: Cpu, pending: Pending, r: Reply, k: nat, ending: Ending)
    requires r.Finished? ==> Completed(r.urb) && r.seqnum in pending && pending[r.seqnum].pipe == r.urb.pipe
    requires ReplyBytes(sender, r).Some? && k < |ReplyBytes(sender, r).value|
    ensures ClientRecv(cpu, pending, Stream(ReplyBytes(sender, r).value[..k], ending)) == Refused
  {
    hide HeaderBytes, HeaderOf, Interpret, RecvIso, ReplyPayload, Padded;
    var b := ReplyBytes(sender, r).value;
    if k < HEADER_SIZE {
      HeaderCut(b, k, ending);
    } else {
      var u, m := r.urb, ReplyMessage(r.seqnum, r.urb);
      var payload, descriptors := ReplyPayload(u), Descriptors(sender, u);
      var n := k - HEADER_SIZE;
      if n < |payload| {
        assert b[..k] == HeaderBytes(sender, m) + payload[..n];
        HeaderTaken(sender, cpu, m, payload[..n], ending);
        PayloadCut(u, n, ending);
      } else {
        var cut := descriptors[..n - |payload|];
        assert b[..k] == HeaderBytes(sender, m) + (payload + cut);
        HeaderTaken(sender, cpu, m, payload + cut, ending);
        ReplyPayloadArrives(u, cut, ending);
        DescriptorsCut(cpu, u.pipe, u.packets, u.actual, pending[r.seqnum].iso, descriptors, n - |payload|, ending);
      }
    }
  }

  lemma PayloadCut(u: Urb, n: nat, ending: Ending)
    requires Completed(u) && Sendable(u) && n < |ReplyPayload(u)|
    ensures RecvXbuff(Vhci, u.pipe, u.actual, Stream(ReplyPayload(u)[..n], ending)).ret < 0
  {
  }

  /** Whatever the byte order, the client takes no request, no result of a URB it does not
      wait for, and none of an isochronous one with an impossible number of packets. */
  lemma WrongReplyRefused(sender: Cpu, cpu: Cpu, pending: Pending, m: Message, body: seq<Byte>, ending: Ending)
    requires m.Valid() && !m.RetUnlink?
    requires m.RetSubmit? ==>
      || m.seqnum !in pending
      || (pending[m.seqnum].pipe.kind == Isochronous && (m.packets < 0 || 16 * m.packets > 0x7fff_ffff))
    ensures ClientRecv(cpu, pending, Stream(HeaderBytes(sender, m) + body, ending)) == Refused
  {
    hide HeaderBytes, HeaderOf, Interpret, Padded;
    HeaderTaken(sender, cpu, m, body, ending);
  }

  /** What the driver gets back is its own URB, with the device's results in it. */
  lemma ResultsGivenBack(mine: Urb, u: Urb)
    requires Completed(u)
    ensures var g := GivenBack(mine, u);
      && g.status == u.status && g.actual == u.actual && g.startFrame == u.startFrame
      && g.packets == u.packets && g.errors == u.errors
      && g.pipe == mine.pipe && g.flags == mine.flags && g.length == mine.length && g.interval == mine.interval
      && g.setup == mine.setup
      && g.iso == if mine.pipe.kind == Isochronous && u.packets != 0 then u.iso else mine.iso
  {
    hide Pad, Gather, ReplyPayload;
  }

  // ------------------------------------------------------------ a whole connection

  /** What the client waits for: its pending URBs, and which of them each unlink request
      under way is aimed at. */
  datatype Awaited = Awaited(urbs: Pending, unlinks: map<U32, U32>)

  /** The number of a URB that a reply gives back, if it gives one back: that of its own
      result, or the target of the unlink request it answers. */
  function Settles(a: Awaited, r: Reply): Option<U32> {
    match r
    case Finished(s, _) => Some(s)
    case Cancelled(s, _) => if s in a.unlinks then Some(a.unlinks[s]) else None
  }

  /** A URB that was given back is no longer pending, nor an answered request. */
  function After(a: Awaited, r: Reply): Awaited {
    var urbs := match Settles(a, r) { case None => a.urbs case Some(s) => a.urbs - {s} };
    Awaited(urbs, if r.Cancelled? then a.unlinks - {r.seqnum} else a.unlinks)
  }

  /** Replies the server may send one after the other: every result answers a URB that
      is still pending, on the same endpoint, and its lengths add up. */
  predicate Answers(a: Awaited, rs: seq<Reply>)
    decreases |rs|
  {
    rs == [] ||
    (&& (rs[0].Finished? ==>
           && Completed(rs[0].urb) && Sendable(rs[0].urb) && SumsAgree(rs[0].urb)
           && rs[0].seqnum in a.urbs && a.urbs[rs[0].seqnum].pipe == rs[0].urb.pipe)
     && Answers(After(a, rs[0]), rs[1..]))
  }

  function AllReplyBytes(cpu: Cpu, a: Awaited, rs: seq<Reply>): seq<Byte>
    requires Answers(a, rs)
    decreases |rs|
  {
    if rs == [] then [] else ReplyBytes(cpu, rs[0]).value + AllReplyBytes(cpu, After(a, rs[0]), rs[1..])
  }

  function AllGivenBack(a: Awaited, rs: seq<Reply>): seq<Reply>
    requires Answers(a, rs)
    decreases |rs|
  {
    if rs == [] then []
    else
      var r := rs[0];
      var given := if r.Finished? then Finished(r.seqnum, GivenBack(a.urbs[r.seqnum], r.urb)) else r;
      [given] + AllGivenBack(After(a, r), rs[1..])
  }

  /** The client's receive loop. */
  function Collect(cpu: Cpu, a: Awaited, st: Stream): Session<Reply>
    decreases |st.bytes|
  {
    if st.bytes == [] then Session([], st)
    else
      match ClientRecv(cpu, a.urbs, st)
      case Refused => Session([], st)
      case Accepted(item, event, rest) =>
        if event then Session([item], rest)
        else
          var later := Collect(cpu, After(a, item), rest);
          Session([item] + later.items, later.rest)
  }

  /** Framing, server to client: the bytes of any row of replies are cut into the same
      replies with nothing left over. */
  lemma {:induction false} RepliesFramed(sender: Cpu, cpu: Cpu, a: Awaited, rs: seq<Reply>, ending: Ending)
    requires Answers(a, rs)
    ensures Collect(cpu, a, Stream(AllReplyBytes(sender, a, rs), ending)) ==
      Session(AllGivenBack(a, rs), Stream([], ending))
    decreases |rs|
  {
    hide ClientRecv, GivenBack, Completed, Sendable, SumsAgree;
    if rs != [] {
      var r := rs[0];
      var later := AllReplyBytes(sender, After(a, r), rs[1..]);
      assert ReplyBytes(sender, r).Some? && ReplyBytes(sender, r).value != [] by { ReplySent(sender, r); }
      ReplyArrivesIff(sender, cpu, a.urbs, r, later, ending);
      RepliesFramed(sender, cpu, After(a, r), rs[1..], ending);
    }
  }

  /** A reply takes exactly one URB off those awaited, or none: the one it is the result
      of, or the one that the unlink request it answers was aimed at. */
  lemma OneSettled(a: Awaited, r: Reply, n: U32)
    ensures n in After(a, r).urbs <==>
      && n in a.urbs
      && (r.Finished? ==> n != r.seqnum)
      && (r.Cancelled? && r.seqnum in a.unlinks ==> n != a.unlinks[r.seqnum])
    ensures n in After(a, r).urbs ==> After(a, r).urbs[n] == a.urbs[n]
    ensures n in After(a, r).unlinks <==> n in a.unlinks && (r.Cancelled? ==> n != r.seqnum)
    ensures n in After(a, r).unlinks ==> After(a, r).unlinks[n] == a.unlinks[n]
  {
  }

  /** A second result for the same URB is refused. */
  lemma SecondResultRefused(sender: Cpu, cpu: Cpu, a: Awaited, s: U32, u: Urb, v: Urb, rest: seq<Byte>, ending: Ending)
    requires Completed(u) && ReplyBytes(sender, Finished(s, u)).Some?
    ensures var result := ReplyBytes(sender, Finished(s, u)).value;
      Collect(cpu, After(a, Finished(s, v)), Stream(result + rest, ending)) == Session([], Stream(result + rest, ending))
  {
    hide HeaderBytes, ReplyPayload, Descriptors, ClientRecv;
    var m := ReplyMessage(s, u);
    var body := ReplyPayload(u) + Descriptors(sender, u);
    assert ReplyBytes(sender, Finished(s, u)).value + rest == HeaderBytes(sender, m) + (body + rest);
    WrongReplyRefused(sender, cpu, After(a, Finished(s, v)).urbs, m, body + rest, ending);
  }

  /** A result that comes after the answer which gave its URB back is refused: the row
      stops there. */
  lemma ResultAfterAnswerRefused(sender: Cpu, cpu: Cpu, a: Awaited, c: Reply, u: Urb, rest: seq<Byte>, ending: Ending)
    requires c.Cancelled? && c.seqnum in a.unlinks && Completed(u)
    requires ReplyBytes(sender, Finished(a.unlinks[c.seqnum], u)).Some?
    ensures var result := ReplyBytes(sender, Finished(a.unlinks[c.seqnum], u)).value;
      Collect(cpu, After(a, c), Stream(result + rest, ending)) == Session([], Stream(result + rest, ending))
  {
    hide HeaderBytes, HeaderOf, Interpret, ReplyPayload, Descriptors, FillUrb;
    var s := a.unlinks[c.seqnum];
    var m := ReplyMessage(s, u);
    var body := ReplyPayload(u) + Descriptors(sender, u);
    var result := ReplyBytes(sender, Finished(s, u)).value;
    assert result + rest == HeaderBytes(sender, m) + (body + rest);
    HeaderTaken(sender, cpu, m, body + rest, ending);
    assert ClientRecv(cpu, After(a, c).urbs, Stream(result + rest, ending)) == Refused;
  }

  lemma ReplySent(cpu: Cpu, r: Reply)
    requires r.Finished? ==> Completed(r.urb)
    ensures ReplyBytes(cpu, r).Some? <==> (r.Finished? ==> Sendable(r.urb))
    ensures ReplyBytes(cpu, r).Some? ==> |ReplyBytes(cpu, r).value| >= HEADER_SIZE
  {
    hide HeaderBytes;
  }

  // ------------------------------------------------------------ the data of a transfer

  /** IN data reaches the driver's buffer: all of it for an ordinary transfer, and for
      an isochronous one each packet at its own offset, padding restored. */
  lemma InDataComesBack(mine: Urb, u: Urb)
    requires Completed(u) && Sendable(u) && mine.pipe == u.pipe && u.pipe.isIn
    requires 0 <= u.actual <= mine.length <= |mine.buffer|
    requires u.pipe.kind == Isochronous ==>
      Placed(u.iso, mine.length) && (u.iso != [] ==> u.iso[0].offset == 0 || u.iso[0].actual == 0)
    ensures var g := GivenBack(mine, u);
      && |g.buffer| == |mine.buffer| && g.actual == u.actual && g.status == u.status
      && (u.pipe.kind != Isochronous ==> g.buffer == u.buffer[..u.actual] + mine.buffer[u.actual..])
      && (u.pipe.kind == Isochronous ==>
            forall j :: 0 <= j < |u.iso| ==>
              End(u.iso[j]) <= |g.buffer| && Slot(g.buffer, u.iso[j]) == Slot(u.buffer, u.iso[j]))
  {
    hide Pad, Gather, Slot, Total;
    if u.pipe.kind == Isochronous {
      var b := Overlay(mine.buffer, ReplyPayload(u));
      assert Inside(u.iso, |b|);
      assert b[..Total(u.iso)] == Gather(u.buffer, u.iso);
      PadRestoresEveryPacket(b, u.buffer, u.iso, mine.length);
      if u.packets != 0 {
        assert GivenBack(mine, u).buffer == Pad(b, u.iso, u.actual, mine.length);
      }
    }
  }

  /** What a reply to an OUT transfer does to its buffer: nothing for an ordinary one,
      and for an isochronous one the padding step, though no data came. */
  lemma OutReplyPads(mine: Urb, u: Urb, b: seq<Byte>)
    requires Completed(u) && SumsAgree(u) && mine.pipe == u.pipe && !u.pipe.isIn
    requires 0 <= mine.length <= |b|
    requires u.pipe.kind == Isochronous ==> Placed(u.iso, mine.length)
    ensures u.pipe.kind != Isochronous ==> GivenBack(mine.(buffer := b), u).buffer == b
    ensures u.pipe.kind == Isochronous ==> Inside(u.iso, |b|) && Total(u.iso) <= |b|
    ensures u.pipe.kind == Isochronous ==>
      GivenBack(mine.(buffer := b), u).buffer == Pad(b, u.iso, Total(u.iso), mine.length)
  {
    hide Pad;
    if u.pipe.kind == Isochronous {
      TotalInside(u.iso, mine.length);
      if u.packets == 0 {
        NoPacketsNoPad(mine.(buffer := b), u);
        assert u.iso == [];
      } else {
        assert Total32(u.iso) == Total(u.iso) == u.actual;
        assert Overlay(b, ReplyPayload(u)) == b;
      }
    }
  }

  lemma NoPacketsNoPad(mine: Urb, u: Urb)
    requires Completed(u) && u.packets == 0 && u.pipe.kind == Isochronous && mine.pipe == u.pipe && !u.pipe.isIn
    ensures GivenBack(mine, u).buffer == mine.buffer == Pad(mine.buffer, [], 0, mine.length)
  {
  }

  /** The reply to an isochronous OUT transfer leaves the driver's buffer alone whatever
      it holds, if and only if every packet beyond the first that moved anything lies
      right behind what the packets before it moved. */
  lemma OutBufferKeptIff(mine: Urb, u: Urb)
    requires Completed(u) && SumsAgree(u) && mine.pipe == u.pipe && !u.pipe.isIn
    requires 0 <= mine.length <= |mine.buffer|
    requires u.pipe.kind == Isochronous && Placed(u.iso, mine.length)
    ensures (forall b: seq<Byte> :: |b| == |mine.buffer| ==> GivenBack(mine.(buffer := b), u).buffer == b)
        <==> InPlace(u.iso)
  {
    hide Placed, InPlace, GivenBack, SumsAgree, Completed, Pad;
    var n := |mine.buffer|;
    OutReplyPads(mine, u, mine.buffer);
    PadKeepsIff(u.iso, mine.length, n);
    forall b: seq<Byte> | |b| == n
      ensures GivenBack(mine.(buffer := b), u).buffer == Pad(b, u.iso, Total(u.iso), mine.length)
    {
      OutReplyPads(mine, u, b);
    }
  }

  /** So it is left alone by every ordinary reply, and by an isochronous one that moved
      all of the buffer or none of it. */
  lemma OutBufferKept(mine: Urb, u: Urb)
    requires Completed(u) && SumsAgree(u) && mine.pipe == u.pipe && !u.pipe.isIn
    requires 0 <= mine.length <= |mine.buffer|
    requires u.pipe.kind == Isochronous ==>
      Placed(u.iso, mine.length) && (Total(u.iso) == 0 || Total(u.iso) == mine.length)
    ensures GivenBack(mine, u).buffer == mine.buffer
  {
    hide GivenBack, Pad;
    OutReplyPads(mine, u, mine.buffer);
    if u.pipe.kind == Isochronous {
      WholeOrNoneInPlace(u.iso, mine.length);
      PadKeepsIff(u.iso, mine.length, |mine.buffer|);
    } else {
      assert mine.(buffer := mine.buffer) == mine;
    }
  }
}
