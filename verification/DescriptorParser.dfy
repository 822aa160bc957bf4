/** The parsing functions as the source writes them: a cursor, a size that shrinks,
    and nested loops, each proved against its recursive description. */
module DescriptorParser {
  import opened Bytes
  import opened Bags
  import opened Descriptors

  // ------------------------------------------------------------ usb_parse_descriptor

  /** The width of a field named by its format character; others name none. */
  function Width(c: char): (n: nat) {
    if c == 'b' then 1 else if c == 'w' || c == 'W' then 2 else if c == 'd' || c == 'D' then 4 else 0
  }

  function Number(b: seq<Byte>): (n: nat) {
    if b == [] then 0
    else
      var first: nat := b[0];
      first + 0x100 * Number(b[1..])
  }

  function BigNumber(b: seq<Byte>): (n: nat) {
    if b == [] then 0
    else
      var last: nat := b[|b| - 1];
      0x100 * BigNumber(b[..|b| - 1]) + last
  }

  /** One field: little endian, except that an upper-case letter keeps the order of
      the processor. */
  function Field(mem: Memory, p: nat, c: char, bigEndian: bool): nat {
    var b := Block(mem, p, Width(c));
    if (c == 'W' || c == 'D') && bigEndian then BigNumber(b) else Number(b)
  }

  function Fields(mem: Memory, p: nat, format: string, bigEndian: bool): (f: seq<nat>)
    decreases |format|
  {
    if format == [] then []
    else
      var later := Fields(mem, p + Width(format[0]), format[1..], bigEndian);
      if Width(format[0]) == 0 then later else [Field(mem, p, format[0], bigEndian)] + later
  }

  function TotalWidth(format: string): nat {
    if format == [] then 0 else Width(format[0]) + TotalWidth(format[1..])
  }

  method ParseDescriptor(mem: Memory, source: nat, format: string, bigEndian: bool)
    returns (values: seq<nat>, used: nat)
    ensures values == Fields(mem, source, format, bigEndian)
    ensures used == TotalWidth(format)
  {
    values := [];
    var sp, cp := source, 0;
    while cp < |format|
      invariant cp <= |format| && sp >= source
      invariant values + Fields(mem, sp, format[cp..], bigEndian) == Fields(mem, source, format, bigEndian)
      invariant sp - source + TotalWidth(format[cp..]) == TotalWidth(format)
    {
      var c := format[cp];
      assert format[cp..][1..] == format[cp + 1..];
      if Width(c) > 0 {
        values := values + [Field(mem, sp, c, bigEndian)];
        sp := sp + Width(c);
      }
      cp := cp + 1;
    }
    used := sp - source;
  }

  /** The bytes of one little-endian field. */
  function PrintNumber(n: nat, width: nat): (b: seq<Byte>)
    ensures |b| == width
    decreases width
  {
    if width == 0 then []
    else
      var low := n % 0x100;
      [low] + PrintNumber(n / 0x100, width - 1)
  }

  function Power(width: nat): (p: nat)
    ensures p > 0
  {
    if width == 0 then 1 else 0x100 * Power(width - 1)
  }

  lemma {:induction false} NumberPrinted(n: nat, width: nat)
    requires n < Power(width)
    ensures Number(PrintNumber(n, width)) == n
    decreases width
  {
    if width > 0 {
      var b := PrintNumber(n, width);
      assert b[1..] == PrintNumber(n / 0x100, width - 1);
      NumberPrinted(n / 0x100, width - 1);
    }
  }

  function PrintFields(values: seq<nat>, format: string): (b: seq<Byte>)
    requires |values| == |format|
  {
    if format == [] then [] else PrintNumber(values[0], Width(format[0])) + PrintFields(values[1..], format[1..])
  }

  /** Reading a descriptor's fields inverts writing them, for every format of
      byte, word and dword fields and every value in range. */
  lemma {:induction false} FieldsPrinted(mem: Memory, p: nat, values: seq<nat>, format: string, bigEndian: bool)
    requires |values| == |format|
    requires forall i :: 0 <= i < |format| ==> format[i] in {'b', 'w', 'd'} && values[i] < Power(Width(format[i]))
    requires Block(mem, p, |PrintFields(values, format)|) == PrintFields(values, format)
    ensures Fields(mem, p, format, bigEndian) == values
    ensures |PrintFields(values, format)| == TotalWidth(format)
    decreases |format|
  {
    if format != [] {
      var c := format[0];
      var head, later := PrintNumber(values[0], Width(c)), PrintFields(values[1..], format[1..]);
      BlockSplit(mem, p, head, later);
      NumberPrinted(values[0], Width(c));
      FieldsPrinted(mem, p + Width(c), values[1..], format[1..], bigEndian);
    }
  }

  lemma BlockSplit(mem: Memory, p: nat, a: seq<Byte>, b: seq<Byte>)
    requires Block(mem, p, |a + b|) == a + b
    ensures Block(mem, p, |a|) == a && Block(mem, p + |a|, |b|) == b
  {
    forall i | 0 <= i < |a| ensures mem(p + i) == a[i] {
      assert Block(mem, p, |a + b|)[i] == (a + b)[i];
    }
    forall i | 0 <= i < |b| ensures mem(p + |a| + i) == b[i] {
      assert Block(mem, p, |a + b|)[|a| + i] == (a + b)[|a| + i];
    }
  }

  // ------------------------------------------------------------ the four formats

  /** Every kind of field: a small letter's bytes weigh more from left to right, a
      capital's, on a big-endian processor, less; any other letter names no field. */
  lemma FieldsWeigh(mem: Memory, p: nat, c: char, bigEndian: bool)
    ensures var a: nat, b: nat, d: nat, e: nat := mem(p), mem(p + 1), mem(p + 2), mem(p + 3);
      var f := Fields(mem, p, [c], bigEndian);
      match c
      case 'b' => f == [a] && TotalWidth([c]) == 1
      case 'w' => f == [a + 256 * b] && TotalWidth([c]) == 2
      case 'd' => f == [a + 256 * b + 65536 * d + 16777216 * e] && TotalWidth([c]) == 4
      case 'W' => f == [if bigEndian then 256 * a + b else a + 256 * b] && TotalWidth([c]) == 2
      case 'D' =>
        && f == [if bigEndian then 16777216 * a + 65536 * b + 256 * d + e
                 else a + 256 * b + 65536 * d + 16777216 * e]
        && TotalWidth([c]) == 4
      case _ => f == [] && TotalWidth([c]) == 0
  {
    var x := Block(mem, p, Width(c));
    assert [c][1..] == [] && TotalWidth([c]) == Width(c);
    assert Fields(mem, p + Width(c), [c][1..], bigEndian) == [];
    if Width(c) == 1 {
      assert x == [mem(p)];
      OneByte(x);
    } else if Width(c) == 2 {
      assert x == [mem(p), mem(p + 1)];
      TwoBytes(x);
    } else if Width(c) == 4 {
      assert x == [mem(p), mem(p + 1), mem(p + 2), mem(p + 3)];
      FourBytes(x);
    }
  }

  lemma OneByte(x: seq<Byte>)
    requires |x| == 1
    ensures Number(x) == x[0] as int && BigNumber(x) == x[0] as int
  {
    assert x[1..] == [] && x[..0] == [];
  }

  lemma TwoBytes(x: seq<Byte>)
    requires |x| == 2
    ensures Number(x) == x[0] as int + 256 * x[1] as int && BigNumber(x) == 256 * x[0] as int + x[1] as int
  {
    OneByte(x[1..]);
    OneByte(x[..1]);
  }

  lemma FourBytes(x: seq<Byte>)
    requires |x| == 4
    ensures Number(x) == x[0] as int + 256 * x[1] as int + 65536 * x[2] as int + 16777216 * x[3] as int
    ensures BigNumber(x) == 16777216 * x[0] as int + 65536 * x[1] as int + 256 * x[2] as int + x[3] as int
  {
    assert x[1..][1..] == x[2..] && x[..3][..2] == x[..2];
    TwoBytes(x[2..]);
    TwoBytes(x[..2]);
  }

  lemma FieldKinds(mem: Memory, p: nat, bigEndian: bool)
    ensures Field(mem, p, 'b', bigEndian) == mem(p) && Field(mem, p, 'w', bigEndian) == Word(mem, p)
  {
    var b, w := Block(mem, p, 1), Block(mem, p, 2);
    assert b[1..] == [] && Number([]) == 0;
    assert Number(b) == mem(p);
    assert w[1..] == Block(mem, p + 1, 1) && w[1..][1..] == [];
    assert Number(w[1..]) == mem(p + 1);
  }

  lemma FieldsAppend(mem: Memory, p: nat, f: string, g: string, bigEndian: bool)
    ensures Fields(mem, p, f + g, bigEndian) == Fields(mem, p, f, bigEndian) + Fields(mem, p + TotalWidth(f), g, bigEndian)
    decreases |f|
  {
    hide Field;
    if f == [] {
      assert f + g == g;
    } else {
      assert (f + g)[1..] == f[1..] + g;
      FieldsAppend(mem, p + Width(f[0]), f[1..], g, bigEndian);
    }
  }

  function Bytewise(n: nat): (f: string)
    ensures |f| == n && forall c :: c in f ==> c == 'b'
  {
    seq(n, _ => 'b')
  }

  /** A run of byte fields is the memory itself. */
  lemma {:induction false} ByteFields(mem: Memory, p: nat, n: nat, bigEndian: bool)
    ensures TotalWidth(Bytewise(n)) == n && |Fields(mem, p, Bytewise(n), bigEndian)| == n
    ensures forall i :: 0 <= i < n ==> Fields(mem, p, Bytewise(n), bigEndian)[i] == mem(p + i)
    decreases n
  {
    if n > 0 {
      assert Bytewise(n)[1..] == Bytewise(n - 1);
      FieldKinds(mem, p, bigEndian);
      ByteFields(mem, p + 1, n - 1, bigEndian);
    }
  }

  /** Byte fields, a word, and byte fields again. */
  lemma WordWithin(mem: Memory, p: nat, n: nat, k: nat, bigEndian: bool)
    ensures var f := Fields(mem, p, Bytewise(n) + ("w" + Bytewise(k)), bigEndian);
      && |f| == n + 1 + k && f[n] == Word(mem, p + n)
      && (forall i :: 0 <= i < n ==> f[i] == mem(p + i))
      && (forall i :: n < i <= n + k ==> f[i] == mem(p + i + 1))
  {
    hide Field;
    ByteFields(mem, p, n, bigEndian);
    ByteFields(mem, p + n + 2, k, bigEndian);
    FieldsAppend(mem, p, Bytewise(n), "w" + Bytewise(k), bigEndian);
    FieldKinds(mem, p + n, bigEndian);
    assert ("w" + Bytewise(k))[1..] == Bytewise(k);
  }

  /** What usb_parse_descriptor reads is what the parsing functions fill in: for both
      formats of an endpoint, */
  lemma EndpointFieldsRead(mem: Memory, p: nat, bigEndian: bool)
    ensures var e := EndpointFields(mem, p);
      var first: seq<nat> :=
        [e.bLength, e.bDescriptorType, e.bEndpointAddress, e.bmAttributes, e.wMaxPacketSize, e.bInterval];
      && (mem(p) >= AUDIO_LENGTH ==>
            Fields(mem, p, "bbbbwbbb", bigEndian) == first + [e.bRefresh as nat, e.bSynchAddress])
      && (ENDPOINT_LENGTH <= mem(p) < AUDIO_LENGTH ==> Fields(mem, p, "bbbbwb", bigEndian) == first)
  {
    hide Fields, Word;
    WordWithin(mem, p, 4, 3, bigEndian);
    WordWithin(mem, p, 4, 1, bigEndian);
    assert Bytewise(4) + ("w" + Bytewise(3)) == "bbbbwbbb" && Bytewise(4) + ("w" + Bytewise(1)) == "bbbbwb";
    var f, g := Fields(mem, p, "bbbbwbbb", bigEndian), Fields(mem, p, "bbbbwb", bigEndian);
    assert f == f[..6] + [f[6], f[7]] && f[..6] == [f[0], f[1], f[2], f[3], f[4], f[5]];
    assert g == [g[0], g[1], g[2], g[3], g[4], g[5]];
  }

  /** for a setting, */
  lemma SettingFieldsRead(mem: Memory, p: nat, bigEndian: bool)
    ensures var s := SettingFields(mem, p);
      Fields(mem, p, "bbbbbbbbb", bigEndian) ==
      [s.bLength, s.bDescriptorType, s.bInterfaceNumber, s.bAlternateSetting, s.bNumEndpoints, s.bInterfaceClass,
       s.bInterfaceSubClass, s.bInterfaceProtocol, s.iInterface]
  {
    hide Fields;
    ByteFields(mem, p, 9, bigEndian);
    assert Bytewise(9) == "bbbbbbbbb";
    var f := Fields(mem, p, "bbbbbbbbb", bigEndian);
    assert f == [f[0], f[1], f[2], f[3], f[4], f[5], f[6], f[7], f[8]];
  }

  /** and for a configuration. */
  lemma ConfigurationFieldsRead(mem: Memory, p: nat, bigEndian: bool)
    ensures var c := ConfigurationFields(mem, p);
      Fields(mem, p, "bbwbbbbb", bigEndian) ==
      [c.bLength, c.bDescriptorType, c.wTotalLength, c.bNumInterfaces, c.bConfigurationValue, c.iConfiguration,
       c.bmAttributes, c.maxPower]
  {
    hide Fields, Word;
    WordWithin(mem, p, 2, 5, bigEndian);
    assert Bytewise(2) + ("w" + Bytewise(5)) == "bbwbbbbb";
    var f := Fields(mem, p, "bbwbbbbb", bigEndian);
    assert f == [f[0], f[1], f[2], f[3], f[4], f[5], f[6], f[7]];
  }

  // ------------------------------------------------------------ the nested loops

  function Plus(n: nat, r: Option<nat>): Option<nat> {
    match r
    case None => None
    case Some(m) => Some(n + m)
  }

  /** The loop past class and vendor descriptors, which the source writes out in each
      of its three functions. */
  method SkipUnknown(mem: Memory, buffer: nat, size: int, strict: bool) returns (r: Option<nat>)
    ensures r == Skip(mem, buffer, size, strict)
  {
    hide Proper;
    var p, left := buffer, size;
    while left >= HEADER_LENGTH
      invariant p >= buffer && left == size - (p - buffer)
      invariant Skip(mem, buffer, size, strict) == Plus(p - buffer, Skip(mem, p, left, strict))
      decreases left
    {
      if (strict && mem(p) > left) || mem(p) < HEADER_LENGTH {
        return None;
      }
      if Proper(mem(p + 1)) {
        break;
      }
      p, left := p + mem(p), left - mem(p);
    }
    return Some(p - buffer);
  }

  /** usb_parse_endpoint. */
  method UsbParseEndpoint(mem: Memory, buffer: nat, size: int) returns (r: Parsed<Endpoint>)
    ensures r == ParseEndpoint(mem, buffer, size)
  {
    if mem(buffer) > size {
      return Bad;
    }
    if mem(buffer + 1) != DT_ENDPOINT {
      return Parsed(NO_ENDPOINT, 0);
    }
    var endpoint := EndpointFields(mem, buffer);
    var p, left: int, parsed := buffer + mem(buffer), size - mem(buffer), mem(buffer) as int;
    var begin := p;
    var n := SkipUnknown(mem, p, left, false);
    if n.None? {
      return Bad;
    }
    p, left, parsed := p + n.value, left - n.value, parsed + n.value;
    return Parsed(endpoint.(extra := Block(mem, begin, p - begin)), parsed);
  }

  /** Results joined onto what the loop already has. */
  function JoinEndpoints(done: seq<Endpoint>, used: int, r: Parsed<seq<Endpoint>>): Parsed<seq<Endpoint>> {
    match r
    case Bad => Bad
    case Parsed(es, more) => Parsed(done + es, used + more)
  }

  method UsbParseEndpoints(mem: Memory, buffer: nat, size: int, n: nat) returns (r: Parsed<seq<Endpoint>>)
    ensures r == ParseEndpoints(mem, buffer, size, n)
  {
    hide ParseEndpoint;
    var es, p, left, parsed := [], buffer, size, 0;
    ghost var whole := ParseEndpoints(mem, buffer, size, n);
    assert whole.Parsed? ==> es + whole.value == whole.value;
    for i := 0 to n
      invariant p >= buffer
      invariant whole == JoinEndpoints(es, parsed, ParseEndpoints(mem, p, left, n - i))
    {
      if mem(p) > left {
        return Bad;
      }
      var e := UsbParseEndpoint(mem, p, left);
      if e.Bad? {
        return Bad;
      }
      ghost var later := ParseEndpoints(mem, p + e.used, left - e.used, n - i - 1);
      assert later.Parsed? ==> es + ([e.value] + later.value) == es + [e.value] + later.value;
      es := es + [e.value];
      p, left, parsed := p + e.used, left - e.used, parsed + e.used;
    }
    assert es + [] == es;
    return Parsed(es, parsed);
  }

  method UsbParseSetting(mem: Memory, buffer: nat, size: int) returns (t: Turn)
    requires size >= INTERFACE_LENGTH
    ensures t == ParseSetting(mem, buffer, size)
  {
    hide ParseEndpoints, Skip, SettingFields, Block;
    var ifp := SettingFields(mem, buffer);
    var p, left: int := buffer + ifp.bLength, size - ifp.bLength;
    var begin := p;
    var n := SkipUnknown(mem, p, left, false);
    if n.None? {
      return BadTurn;
    }
    p, left := p + n.value, left - n.value;
    ifp := ifp.(extra := Block(mem, begin, p - begin));
    if left >= HEADER_LENGTH && (mem(p + 1) == DT_CONFIG || mem(p + 1) == DT_DEVICE) {
      return Turn(ifp, ifp.bLength + (p - begin), true);
    }
    if ifp.bNumEndpoints > MAX_ENDPOINTS {
      return BadTurn;
    }
    var es := UsbParseEndpoints(mem, p, left, ifp.bNumEndpoints);
    if es.Bad? {
      return BadTurn;
    }
    return Turn(ifp.(endpoints := es.value), ifp.bLength + (p - begin) + es.used, false);
  }

  function JoinSettings(done: seq<Setting>, used: int, r: Parsed<seq<Setting>>): Parsed<seq<Setting>> {
    match r
    case Bad => Bad
    case Parsed(ss, more) => Parsed(done + ss, used + more)
  }

  /** usb_parse_interface; its outer loop terminates because every turn that does not
      fail uses at least one byte. */
  method UsbParseInterface(mem: Memory, buffer: nat, size: int) returns (r: Parsed<seq<Setting>>)
    ensures r == ParseInterface(mem, buffer, size)
  {
    hide ParseSetting, AlternateFollows;
    var settings, p, left, parsed := [], buffer, size, 0;
    ghost var whole := ParseInterface(mem, buffer, size);
    assert whole.Parsed? ==> settings + whole.value == whole.value;
    while left >= INTERFACE_LENGTH
      invariant p >= buffer
      invariant whole == JoinSettings(settings, parsed, ParseInterface(mem, p, left))
      decreases left
    {
      var t := UsbParseSetting(mem, p, left);
      if t.BadTurn? {
        return Bad;
      }
      ghost var later := ParseInterface(mem, p + t.used, left - t.used);
      assert later.Parsed? ==> settings + ([t.setting] + later.value) == settings + [t.setting] + later.value;
      settings := settings + [t.setting];
      if t.stopped || !AlternateFollows(mem, p + t.used, left - t.used) {
        return Parsed(settings, parsed + t.used);
      }
      p, left, parsed := p + t.used, left - t.used, parsed + t.used;
    }
    assert settings + [] == settings;
    return Parsed(settings, parsed);
  }

  function JoinInterfaces(done: seq<seq<Setting>>, b: Body): Body {
    match b
    case BadBody => BadBody
    case Body(x, ii, left) => Body(x, done + ii, left)
  }

  /** usb_parse_configuration. */
  method UsbParseConfiguration(mem: Memory, buffer: nat) returns (r: Parsed<Configuration>)
    ensures r == ParseConfiguration(mem, buffer)
  {
    hide ParseInterface, Skip, ConfigurationFields;
    var config := ConfigurationFields(mem, buffer);
    if config.bNumInterfaces > MAX_INTERFACES {
      return Bad;
    }
    var p, size: int := buffer + config.bLength, config.wTotalLength - config.bLength;
    ghost var whole := ParseInterfaces(mem, p, size, config.bNumInterfaces, []);
    var extra: seq<Byte>, interfaces: seq<seq<Setting>> := [], [];
    assert whole.Body? ==> interfaces + whole.interfaces == whole.interfaces;
    for i := 0 to config.bNumInterfaces
      invariant p >= 0
      invariant whole == JoinInterfaces(interfaces, ParseInterfaces(mem, p, size, config.bNumInterfaces - i, extra))
    {
      var k := SkipUnknown(mem, p, size, true);
      if k.None? {
        return Bad;
      }
      if k.value > 0 && extra == [] {
        extra := Block(mem, p, k.value);
      }
      p, size := p + k.value, size - k.value;
      var one := UsbParseInterface(mem, p, size);
      if one.Bad? {
        return Bad;
      }
      p, size := p + one.used, size - one.used;
      ghost var later := ParseInterfaces(mem, p, size, config.bNumInterfaces - i - 1, extra);
      assert later.Body? ==> interfaces + ([one.value] + later.interfaces) == interfaces + [one.value] + later.interfaces;
      interfaces := interfaces + [one.value];
    }
    assert interfaces + [] == interfaces;
    return Parsed(config.(extra := extra, interfaces := interfaces), size);
  }
}
