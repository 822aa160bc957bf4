/** The 48-byte header of every request, its in-place byte-order conversion, and
    the isochronous packet descriptors. Each side stores words in its own byte
    order; the wire always carries them most significant byte first. */
module Wire {
  import opened Bytes

  type S32 = x: int | -0x8000_0000 <= x < 0x8000_0000

  const CMD_SUBMIT: U32 := 1
  const CMD_UNLINK: U32 := 2
  const RET_SUBMIT: U32 := 3
  const RET_UNLINK: U32 := 4
  const WORDS: nat := 10
  const HEADER_SIZE: nat := 48

  /** How a processor lays a word out in memory. */
  datatype Cpu = BigEndian | LittleEndian

  /** The four requests, as the sender means them. */
  datatype Message =
    | CmdSubmit(seqnum: U32, devid: U32, direction: U32, ep: U32, flags: U32, length: S32,
                startFrame: S32, packets: S32, interval: S32, setup: seq<Byte>)
    | RetSubmit(seqnum: U32, status: S32, actual: S32, startFrame: S32, packets: S32, errors: S32)
    | CmdUnlink(seqnum: U32, devid: U32, target: U32)
    | RetUnlink(seqnum: U32, status: S32)
  {
    predicate Valid() {
      CmdSubmit? ==> |setup| == 8
    }
  }

  /** A header in memory: ten words of the processor's own order, then eight bytes
      that only a submit request uses. */
  datatype Header = Header(words: seq<U32>, setup: seq<Byte>)
  {
    predicate Valid() {
      |words| == WORDS && |setup| == 8
    }
  }

  // ------------------------------------------------------------ words

  /** Two's complement. */
  function Unsigned(s: S32): U32 {
    if s < 0 then s + 0x1_0000_0000 else s
  }

  function Signed(u: U32): S32 {
    if u < 0x8000_0000 then u else u - 0x1_0000_0000
  }

  /** The four bytes a processor stores for a word. */
  function Store(cpu: Cpu, w: U32): (b: seq<Byte>)
    ensures |b| == 4
  {
    var q1: int := w / 0x100;
    var q2: int := q1 / 0x100;
    var b0, b1, b2, b3 := q2 / 0x100, q2 % 0x100, q1 % 0x100, w % 0x100;
    if cpu == BigEndian then [b0, b1, b2, b3] else [b3, b2, b1, b0]
  }

  function Positional(b0: int, b1: int, b2: int, b3: int): int {
    ((b0 * 0x100 + b1) * 0x100 + b2) * 0x100 + b3
  }

  function Load(cpu: Cpu, b: seq<Byte>): U32
    requires |b| == 4
  {
    if cpu == BigEndian then Positional(b[0], b[1], b[2], b[3]) else Positional(b[3], b[2], b[1], b[0])
  }

  /** cpu_to_be32, and be32_to_cpu, which is the same exchange: on a little-endian
      processor the four bytes are taken in the opposite order. */
  function BigEndianWord(cpu: Cpu, w: U32): U32 {
    if cpu == BigEndian then w else Load(LittleEndian, Store(BigEndian, w))
  }

  lemma LoadStore(cpu: Cpu, w: U32)
    ensures Load(cpu, Store(cpu, w)) == w
  {
    var q1: int := w / 0x100;
    var q2: int := q1 / 0x100;
    assert w == q1 * 0x100 + w % 0x100;
    assert q1 == q2 * 0x100 + q1 % 0x100;
    assert q2 == q2 / 0x100 * 0x100 + q2 % 0x100;
  }

  lemma StoreLoad(cpu: Cpu, b: seq<Byte>)
    requires |b| == 4
    ensures Store(cpu, Load(cpu, b)) == b
  {
    var c := if cpu == BigEndian then b else [b[3], b[2], b[1], b[0]];
    var q3: int := c[0];
    var q2: int := q3 * 0x100 + c[1];
    var q1: int := q2 * 0x100 + c[2];
    var w: int := q1 * 0x100 + c[3];
    assert Load(cpu, b) == w;
    assert w / 0x100 == q1 && w % 0x100 == c[3];
    assert q1 / 0x100 == q2 && q1 % 0x100 == c[2];
    assert q2 / 0x100 == q3 && q2 % 0x100 == c[1];
  }

  /** A converted word lies in memory most significant byte first on any processor. */
  lemma ConvertedWordIsBigEndian(cpu: Cpu, w: U32)
    ensures Store(cpu, BigEndianWord(cpu, w)) == Store(BigEndian, w)
  {
    StoreLoad(LittleEndian, Store(BigEndian, w));
  }

  /** A word read off the wire and converted has its big-endian value. */
  lemma ReadWordIsBigEndian(cpu: Cpu, b: seq<Byte>)
    requires |b| == 4
    ensures BigEndianWord(cpu, Load(cpu, b)) == Load(BigEndian, b)
  {
    if cpu == LittleEndian {
      var w := Load(LittleEndian, b);
      StoreLoad(LittleEndian, b);
      assert Store(LittleEndian, w) == b;
      assert Store(BigEndian, w) == [b[3], b[2], b[1], b[0]];
    }
  }

  /** A row of words in memory. */
  function Image(cpu: Cpu, ws: seq<U32>): (b: seq<Byte>)
    ensures |b| == 4 * |ws|
  {
    if ws == [] then [] else Store(cpu, ws[0]) + Image(cpu, ws[1..])
  }

  function Words(cpu: Cpu, b: seq<Byte>): (ws: seq<U32>)
    requires |b| % 4 == 0
    ensures |ws| == |b| / 4
  {
    if b == [] then [] else [Load(cpu, b[..4])] + Words(cpu, b[4..])
  }

  lemma {:induction false} WordsImage(cpu: Cpu, ws: seq<U32>)
    ensures Words(cpu, Image(cpu, ws)) == ws
  {
    hide Load, Store;
    if ws != [] {
      var b := Image(cpu, ws);
      assert b[..4] == Store(cpu, ws[0]) && b[4..] == Image(cpu, ws[1..]);
      LoadStore(cpu, ws[0]);
      WordsImage(cpu, ws[1..]);
    }
  }

  function Convert(cpu: Cpu, ws: seq<U32>): (c: seq<U32>)
    ensures |c| == |ws|
  {
    seq(|ws|, i requires 0 <= i < |ws| => BigEndianWord(cpu, ws[i]))
  }

  lemma {:induction false} ConvertedImageIsBigEndian(cpu: Cpu, ws: seq<U32>)
    ensures Image(cpu, Convert(cpu, ws)) == Image(BigEndian, ws)
  {
    hide Load, Store, BigEndianWord;
    if ws != [] {
      assert Convert(cpu, ws)[1..] == Convert(cpu, ws[1..]);
      ConvertedWordIsBigEndian(cpu, ws[0]);
      ConvertedImageIsBigEndian(cpu, ws[1..]);
    }
  }

  lemma {:induction false} ConvertedWordsAreBigEndian(cpu: Cpu, b: seq<Byte>)
    requires |b| % 4 == 0
    ensures Convert(cpu, Words(cpu, b)) == Words(BigEndian, b)
  {
    hide Load, Store, BigEndianWord;
    if b != [] {
      assert Convert(cpu, Words(cpu, b))[1..] == Convert(cpu, Words(cpu, b[4..]));
      ReadWordIsBigEndian(cpu, b[..4]);
      ConvertedWordsAreBigEndian(cpu, b[4..]);
    }
  }

  // ------------------------------------------------------------ the header

  /** How many words a command's header converts: the basic five, then the fields
      of its own part. */
  function Converted(cmd: U32): (n: nat)
    ensures n <= WORDS
  {
    if cmd == CMD_SUBMIT || cmd == RET_SUBMIT then 10
    else if cmd == CMD_UNLINK || cmd == RET_UNLINK then 6
    else 5
  }

  /** usbip_header_correct_endian, as a function of the words. */
  function Corrected(cpu: Cpu, ws: seq<U32>, send: bool): (c: seq<U32>)
    requires |ws| == WORDS
    ensures |c| == WORDS
  {
    var n := Converted(if send then ws[0] else BigEndianWord(cpu, ws[0]));
    Convert(cpu, ws[..n]) + ws[n..]
  }

  /** The conversion in place. The command word is read before it is converted
      when sending, and after when receiving. */
  method CorrectEndian(cpu: Cpu, pdu: array<U32>, send: bool)
    requires pdu.Length == WORDS
    modifies pdu
    ensures pdu[..] == Corrected(cpu, old(pdu[..]), send)
  {
    hide BigEndianWord;
    ghost var was := pdu[..];
    var cmd: U32 := 0;
    if send {
      cmd := pdu[0];
    }
    CorrectFields(cpu, pdu, 0, 5);
    if !send {
      cmd := pdu[0];
    }
    if cmd == CMD_SUBMIT {
      CorrectFields(cpu, pdu, 5, 10);
    } else if cmd == RET_SUBMIT {
      CorrectFields(cpu, pdu, 5, 10);
    } else if cmd == CMD_UNLINK {
      pdu[5] := BigEndianWord(cpu, pdu[5]);
    } else if cmd == RET_UNLINK {
      pdu[5] := BigEndianWord(cpu, pdu[5]);
    }
    CorrectedIs(cpu, was, pdu[..], send, Converted(cmd));
  }

  lemma CorrectedIs(cpu: Cpu, was: seq<U32>, now: seq<U32>, send: bool, n: nat)
    requires |was| == |now| == WORDS
    requires n == Converted(if send then was[0] else BigEndianWord(cpu, was[0]))
    requires forall k :: 0 <= k < WORDS ==> now[k] == if k < n then BigEndianWord(cpu, was[k]) else was[k]
    ensures now == Corrected(cpu, was, send)
  {
    hide BigEndianWord;
  }

  /** Five consecutive fields converted where they lie. */
  method CorrectFields(cpu: Cpu, pdu: array<U32>, from: nat, to: nat)
    requires from <= to <= pdu.Length
    modifies pdu
    ensures forall k :: 0 <= k < pdu.Length ==>
      pdu[k] == if from <= k < to then BigEndianWord(cpu, old(pdu[k])) else old(pdu[k])
  {
    for i := from to to
      invariant forall k :: 0 <= k < pdu.Length ==>
        pdu[k] == if from <= k < i then BigEndianWord(cpu, old(pdu[k])) else old(pdu[k])
    {
      pdu[i] := BigEndianWord(cpu, pdu[i]);
    }
  }

  const NO_SETUP: seq<Byte> := [0, 0, 0, 0, 0, 0, 0, 0]

  /** The zeroed header after the sender has set the fields of one message. */
  function Fill(m: Message): (h: Header)
    requires m.Valid()
    ensures h.Valid()
  {
    match m
    case CmdSubmit(s, dev, dir, ep, fl, len, sf, np, iv, setup) =>
      Header([CMD_SUBMIT, s, dev, dir, ep, fl, Unsigned(len), Unsigned(sf), Unsigned(np), Unsigned(iv)], setup)
    case RetSubmit(s, st, al, sf, np, ec) =>
      Header([RET_SUBMIT, s, 0, 0, 0, Unsigned(st), Unsigned(al), Unsigned(sf), Unsigned(np), Unsigned(ec)], NO_SETUP)
    case CmdUnlink(s, dev, target) =>
      Header([CMD_UNLINK, s, dev, 0, 0, target, 0, 0, 0, 0], NO_SETUP)
    case RetUnlink(s, st) =>
      Header([RET_UNLINK, s, 0, 0, 0, Unsigned(st), 0, 0, 0, 0], NO_SETUP)
  }

  datatype Read = Known(message: Message) | Unknown

  /** What a receiver reads out of a corrected header. */
  function Interpret(h: Header): (r: Read)
    requires h.Valid()
    ensures r.Known? ==> r.message.Valid()
  {
    var w := h.words;
    if w[0] == CMD_SUBMIT then
      Known(CmdSubmit(w[1], w[2], w[3], w[4], w[5], Signed(w[6]), Signed(w[7]), Signed(w[8]), Signed(w[9]), h.setup))
    else if w[0] == RET_SUBMIT then
      Known(RetSubmit(w[1], Signed(w[5]), Signed(w[6]), Signed(w[7]), Signed(w[8]), Signed(w[9])))
    else if w[0] == CMD_UNLINK then Known(CmdUnlink(w[1], w[2], w[5]))
    else if w[0] == RET_UNLINK then Known(RetUnlink(w[1], Signed(w[5])))
    else Unknown
  }

  /** The header bytes a sender puts on the wire. */
  function HeaderBytes(cpu: Cpu, m: Message): (b: seq<Byte>)
    requires m.Valid()
    ensures |b| == HEADER_SIZE
  {
    Image(cpu, Corrected(cpu, Fill(m).words, true)) + Fill(m).setup
  }

  /** The header a receiver has after its own conversion. */
  function HeaderOf(cpu: Cpu, b: seq<Byte>): (h: Header)
    requires |b| == HEADER_SIZE
    ensures h.Valid()
  {
    Header(Corrected(cpu, Words(cpu, b[..40]), false), b[40..])
  }

  lemma ConvertedZero(cpu: Cpu)
    ensures BigEndianWord(cpu, 0) == 0
  {
    assert Store(BigEndian, 0) == [0, 0, 0, 0];
  }

  /** The bytes sent do not depend on the sender's processor: they are the fields
      in network order. */
  lemma HeaderIsBigEndian(cpu: Cpu, m: Message)
    requires m.Valid()
    ensures HeaderBytes(cpu, m) == Image(BigEndian, Fill(m).words) + Fill(m).setup
  {
    hide Load, Store, Image;
    var w := Fill(m).words;
    var n := Converted(w[0]);
    assert Corrected(cpu, w, true) == Convert(cpu, w) by {
      assert BigEndianWord(cpu, 0) == 0 by { ConvertedZero(cpu); }
      assert forall i :: n <= i < WORDS ==> w[i] == 0;
    }
    ConvertedImageIsBigEndian(cpu, w);
  }

  // ------------------------------------------------------------ the layout

  function Weighed(b0: int, b1: int, b2: int, b3: int): int {
    b0 * 0x100_0000 + b1 * 0x1_0000 + b2 * 0x100 + b3
  }

  /** The word in four bytes, most significant byte first. */
  function NetWord(b: seq<Byte>, at: nat): int
    requires at + 4 <= |b|
  {
    Weighed(b[at], b[at + 1], b[at + 2], b[at + 3])
  }

  lemma StoredWord(w: U32)
    ensures NetWord(Store(BigEndian, w), 0) == w
  {
    LoadStore(BigEndian, w);
    var b := Store(BigEndian, w);
    assert Positional(b[0], b[1], b[2], b[3]) == Weighed(b[0], b[1], b[2], b[3]);
  }

  /** A word that holds a signed number. */
  predicate Holds(w: int, s: S32) {
    w == if s < 0 then s + 0x1_0000_0000 else s
  }

  lemma NetWordIn(a: seq<Byte>, b: seq<Byte>, c: seq<Byte>, at: nat)
    requires at + 4 <= |b|
    ensures NetWord(a + (b + c), |a| + at) == NetWord(b, at)
  {
    var s := a + (b + c);
    assert s[|a| + at] == b[at] && s[|a| + at + 1] == b[at + 1] && s[|a| + at + 2] == b[at + 2] && s[|a| + at + 3] == b[at + 3];
  }

  lemma {:induction false} ImageWords(ws: seq<U32>, more: seq<Byte>, k: nat)
    requires k < |ws|
    ensures NetWord(Image(BigEndian, ws) + more, 4 * k) == ws[k]
  {
    hide Store, NetWord;
    var first, rest := Store(BigEndian, ws[0]), Image(BigEndian, ws[1..]);
    var b := Image(BigEndian, ws) + more;
    if k == 0 {
      assert b == [] + (first + (rest + more));
      NetWordIn([], first, rest + more, 0);
      StoredWord(ws[0]);
    } else {
      assert b == first + ((rest + more) + []);
      NetWordIn(first, rest + more, [], 4 * (k - 1));
      ImageWords(ws[1..], more, k - 1);
    }
  }

  /** Every header on the wire, word by word: the command, the sequence number, the
      device, the direction and the endpoint, then what is the command's own, and at
      the end the setup packet. */
  lemma HeaderLayout(cpu: Cpu, m: Message)
    requires m.Valid()
    ensures var b := HeaderBytes(cpu, m);
      && |b| == 48 && NetWord(b, 4) == m.seqnum
      && match m
         case CmdSubmit(_, dev, dir, ep, fl, len, sf, np, iv, setup) =>
           && NetWord(b, 0) == 1 && NetWord(b, 8) == dev && NetWord(b, 12) == dir && NetWord(b, 16) == ep
           && NetWord(b, 20) == fl && Holds(NetWord(b, 24), len) && Holds(NetWord(b, 28), sf)
           && Holds(NetWord(b, 32), np) && Holds(NetWord(b, 36), iv) && b[40..] == setup
         case CmdUnlink(_, dev, target) => NetWord(b, 0) == 2 && NetWord(b, 8) == dev && NetWord(b, 20) == target
         case RetSubmit(_, st, al, sf, np, ec) =>
           && NetWord(b, 0) == 3 && Holds(NetWord(b, 20), st) && Holds(NetWord(b, 24), al)
           && Holds(NetWord(b, 28), sf) && Holds(NetWord(b, 32), np) && Holds(NetWord(b, 36), ec)
         case RetUnlink(_, st) => NetWord(b, 0) == 4 && Holds(NetWord(b, 20), st)
  {
    hide Image, NetWord, HeaderBytes;
    HeaderIsBigEndian(cpu, m);
    var f := Fill(m);
    ImageWords(f.words, f.setup, 0);
    ImageWords(f.words, f.setup, 1);
    ImageWords(f.words, f.setup, 2);
    ImageWords(f.words, f.setup, 3);
    ImageWords(f.words, f.setup, 4);
    ImageWords(f.words, f.setup, 5);
    ImageWords(f.words, f.setup, 6);
    ImageWords(f.words, f.setup, 7);
    ImageWords(f.words, f.setup, 8);
    ImageWords(f.words, f.setup, 9);
    assert (Image(BigEndian, f.words) + f.setup)[40..] == f.setup;
  }

  /** What a receiver converts has the values the sender filled in. */
  lemma ConvertedFieldsCross(sender: Cpu, receiver: Cpu, m: Message)
    requires m.Valid()
    ensures var n := Converted(Fill(m).words[0]);
      HeaderOf(receiver, HeaderBytes(sender, m)).words[..n] == Fill(m).words[..n]
    ensures HeaderOf(receiver, HeaderBytes(sender, m)).setup == Fill(m).setup
  {
    hide Load, Store, Image, Words, BigEndianWord, Fill;
    HeaderIsBigEndian(sender, m);
    var h, b := Fill(m), HeaderBytes(sender, m);
    assert b[..40] == Image(BigEndian, h.words) && b[40..] == h.setup;
    WordsImage(BigEndian, h.words);
    var raw := Words(receiver, b[..40]);
    ConvertedWordsAreBigEndian(receiver, b[..40]);
    assert Convert(receiver, raw) == h.words;
    assert BigEndianWord(receiver, raw[0]) == h.words[0];
    var n := Converted(h.words[0]);
    assert Corrected(receiver, raw, false)[..n] == Convert(receiver, raw)[..n];
  }

  lemma InterpretsWhatWasFilled(m: Message, h: Header)
    requires m.Valid() && h.Valid()
    requires var n := Converted(Fill(m).words[0]); h.words[..n] == Fill(m).words[..n]
    requires h.setup == Fill(m).setup
    ensures Interpret(h) == Known(m)
  {
    var f := Fill(m).words;
    var n := Converted(f[0]);
    assert forall i :: 0 <= i < n ==> h.words[..n][i] == h.words[i] && f[..n][i] == f[i];
  }

  /** Endian round trip for all four commands and every pair of processors. */
  lemma HeaderCrosses(sender: Cpu, receiver: Cpu, m: Message)
    requires m.Valid()
    ensures Interpret(HeaderOf(receiver, HeaderBytes(sender, m))) == Known(m)
  {
    hide Fill, Interpret, HeaderOf, HeaderBytes;
    ConvertedFieldsCross(sender, receiver, m);
    InterpretsWhatWasFilled(m, HeaderOf(receiver, HeaderBytes(sender, m)));
  }

  // ------------------------------------------------------------ isochronous packets

  /** One packet of an isochronous transfer. */
  datatype Packet = Packet(offset: U32, length: U32, actual: U32, status: S32)

  function PacketWords(p: Packet): (w: seq<U32>)
    ensures |w| == 4
  {
    [p.offset, p.length, p.actual, Unsigned(p.status)]
  }

  function PacketOf(w: seq<U32>): Packet
    requires |w| == 4
  {
    Packet(w[0], w[1], w[2], Signed(w[3]))
  }

  /** usbip_alloc_iso_desc_pdu: every descriptor packed and converted in turn. */
  function PacketBytes(cpu: Cpu, ps: seq<Packet>): (b: seq<Byte>)
    ensures |b| == 16 * |ps|
  {
    if ps == [] then [] else Image(cpu, Convert(cpu, PacketWords(ps[0]))) + PacketBytes(cpu, ps[1..])
  }

  function PacketsOf(cpu: Cpu, b: seq<Byte>): (ps: seq<Packet>)
    requires |b| % 16 == 0
    ensures |ps| == |b| / 16
  {
    if b == [] then [] else [PacketOf(Convert(cpu, Words(cpu, b[..16])))] + PacketsOf(cpu, b[16..])
  }

  /** Every descriptor on the wire: where its slot is, how long that is, how much of it
      was moved, and how that ended. */
  lemma {:induction false} PacketLayout(cpu: Cpu, ps: seq<Packet>, i: nat)
    requires i < |ps|
    ensures var b, at := PacketBytes(cpu, ps), 16 * i;
      && NetWord(b, at) == ps[i].offset && NetWord(b, at + 4) == ps[i].length
      && NetWord(b, at + 8) == ps[i].actual && Holds(NetWord(b, at + 12), ps[i].status)
  {
    hide Image, NetWord, Convert, Holds;
    var w, rest := PacketWords(ps[0]), PacketBytes(cpu, ps[1..]);
    ConvertedImageIsBigEndian(cpu, w);
    var first := Image(BigEndian, w);
    assert PacketBytes(cpu, ps) == first + (rest + []);
    if i == 0 {
      assert first + (rest + []) == first + rest;
      ImageWords(w, rest, 0);
      ImageWords(w, rest, 1);
      ImageWords(w, rest, 2);
      ImageWords(w, rest, 3);
      assert Holds(w[3], ps[0].status) by { UnsignedHolds(ps[0].status); }
    } else {
      var at := 16 * (i - 1);
      PacketLayout(cpu, ps[1..], i - 1);
      NetWordIn(first, rest, [], at);
      NetWordIn(first, rest, [], at + 4);
      NetWordIn(first, rest, [], at + 8);
      NetWordIn(first, rest, [], at + 12);
    }
  }

  lemma UnsignedHolds(s: S32)
    ensures Holds(Unsigned(s), s)
  {
  }

  lemma {:induction false} PacketsCross(sender: Cpu, receiver: Cpu, ps: seq<Packet>)
    ensures PacketsOf(receiver, PacketBytes(sender, ps)) == ps
  {
    hide Load, Store, Image, Words, BigEndianWord;
    if ps != [] {
      var b := PacketBytes(sender, ps);
      var w := PacketWords(ps[0]);
      assert b[..16] == Image(sender, Convert(sender, w)) && b[16..] == PacketBytes(sender, ps[1..]);
      ConvertedImageIsBigEndian(sender, w);
      ConvertedWordsAreBigEndian(receiver, b[..16]);
      WordsImage(BigEndian, w);
      PacketsCross(sender, receiver, ps[1..]);
    }
  }

  /** One descriptor packed, then converted where it lies. */
  method PackPacket(cpu: Cpu, iso: array<U32>, i: nat, p: Packet)
    requires 4 * i + 4 <= iso.Length
    modifies iso
    ensures iso[..4 * i] == old(iso[..4 * i])
    ensures iso[4 * i..4 * i + 4] == Convert(cpu, PacketWords(p))
    ensures iso[4 * i + 4..] == old(iso[4 * i + 4..])
  {
    hide BigEndianWord;
    iso[4 * i], iso[4 * i + 1] := p.offset, p.length;
    iso[4 * i + 3], iso[4 * i + 2] := Unsigned(p.status), p.actual;
    CorrectFields(cpu, iso, 4 * i, 4 * i + 4);
  }

  /** The loop of usbip_alloc_iso_desc_pdu. */
  method AllocPacketPdu(cpu: Cpu, ps: seq<Packet>) returns (iso: array<U32>)
    ensures fresh(iso) && iso.Length == 4 * |ps|
    ensures Image(cpu, iso[..]) == PacketBytes(cpu, ps)
  {
    hide Image, PacketBytes, Convert, PacketWords;
    iso := new U32[4 * |ps|];
    assert iso[..0] == [] && ps[..0] == [];
    NothingLaidOut(cpu);
    for i := 0 to |ps|
      invariant Image(cpu, iso[..4 * i]) == PacketBytes(cpu, ps[..i])
    {
      ghost var done := iso[..4 * i];
      PackPacket(cpu, iso, i, ps[i]);
      ghost var next := Convert(cpu, PacketWords(ps[i]));
      assert iso[..4 * (i + 1)] == done + next;
      ImageAppend(cpu, done, next);
      PacketBytesAppend(cpu, ps[..i], ps[i]);
      assert ps[..i + 1] == ps[..i] + [ps[i]];
    }
    assert iso[..4 * |ps|] == iso[..] && ps[..|ps|] == ps;
  }

  lemma NothingLaidOut(cpu: Cpu)
    ensures Image(cpu, []) == PacketBytes(cpu, [])
  {
  }

  lemma {:induction false} ImageAppend(cpu: Cpu, a: seq<U32>, b: seq<U32>)
    ensures Image(cpu, a + b) == Image(cpu, a) + Image(cpu, b)
  {
    if a == [] {
      assert a + b == b;
    } else {
      assert (a + b)[1..] == a[1..] + b;
      ImageAppend(cpu, a[1..], b);
    }
  }

  lemma {:induction false} PacketBytesAppend(cpu: Cpu, ps: seq<Packet>, p: Packet)
    ensures PacketBytes(cpu, ps + [p]) == PacketBytes(cpu, ps) + Image(cpu, Convert(cpu, PacketWords(p)))
  {
    if ps == [] {
      assert PacketBytes(cpu, [p]) == Image(cpu, Convert(cpu, PacketWords(p))) + PacketBytes(cpu, []);
    } else {
      assert (ps + [p])[1..] == ps[1..] + [p];
      PacketBytesAppend(cpu, ps[1..], p);
    }
  }
}
