/** The parser inverts the printer: a well-formed configuration tree, flattened in
    the order of sections 9.6.3, 9.6.5 and 9.6.6 of the USB 2.0 specification, is
    rebuilt with every class and vendor byte in its place and nothing left. */
module DescriptorRoundTrip {
  import opened Bytes
  import opened Bags
  import opened Descriptors

  // ------------------------------------------------------------ well-formed trees

  /** A row of class or vendor descriptors. */
  predicate Extras(b: seq<Byte>) {
    b == [] || (|b| >= 2 && 2 <= b[0] <= |b| && !Proper(b[1]) && Extras(b[b[0]..]))
  }

  predicate GoodEndpoint(e: Endpoint) {
    && e.bDescriptorType == DT_ENDPOINT && Extras(e.extra)
    && (e.bLength == 9 || (e.bLength == 7 && e.bRefresh == 0 && e.bSynchAddress == 0))
  }

  predicate GoodSetting(s: Setting) {
    && s.bLength == 9 && s.bDescriptorType == DT_INTERFACE && Extras(s.extra)
    && s.bNumEndpoints == |s.endpoints| <= MAX_ENDPOINTS
    && forall e :: e in s.endpoints ==> GoodEndpoint(e)
  }

  /** The settings of one interface: all but the first are alternates. */
  predicate GoodInterface(ss: seq<Setting>) {
    && ss != []
    && (forall s :: s in ss ==> GoodSetting(s))
    && (forall k :: 1 <= k < |ss| ==> ss[k].bAlternateSetting != 0)
  }

  /** Interfaces in a row: each but the first starts with its default setting. */
  predicate GoodInterfaces(ii: seq<seq<Setting>>) {
    && (forall i :: i in ii ==> GoodInterface(i))
    && (forall k :: 1 <= k < |ii| ==> ii[k] != [] && ii[k][0].bAlternateSetting == 0)
  }

  predicate GoodConfiguration(c: Configuration) {
    && c.bLength == 9 && c.bDescriptorType == DT_CONFIG && Extras(c.extra)
    && c.bNumInterfaces == |c.interfaces| <= MAX_INTERFACES
    && (c.interfaces == [] ==> c.extra == [])
    && GoodInterfaces(c.interfaces)
    && c.wTotalLength == |PrintConfiguration(c)|
  }

  // ------------------------------------------------------------ the printer

  function PrintEndpoint(e: Endpoint): (b: seq<Byte>) {
    [e.bLength, e.bDescriptorType, e.bEndpointAddress, e.bmAttributes] + HalfBytes(e.wMaxPacketSize) + [e.bInterval]
    + (if e.bLength == 9 then [e.bRefresh, e.bSynchAddress] else []) + e.extra
  }

  function PrintEndpoints(es: seq<Endpoint>): seq<Byte> {
    if es == [] then [] else PrintEndpoint(es[0]) + PrintEndpoints(es[1..])
  }

  function SettingHead(s: Setting): (b: seq<Byte>)
    ensures |b| == 9
  {
    [s.bLength, s.bDescriptorType, s.bInterfaceNumber, s.bAlternateSetting, s.bNumEndpoints, s.bInterfaceClass,
     s.bInterfaceSubClass, s.bInterfaceProtocol, s.iInterface]
  }

  function PrintSetting(s: Setting): seq<Byte> {
    SettingHead(s) + (s.extra + PrintEndpoints(s.endpoints))
  }

  function PrintSettings(ss: seq<Setting>): seq<Byte> {
    if ss == [] then [] else PrintSetting(ss[0]) + PrintSettings(ss[1..])
  }

  function PrintInterfaces(ii: seq<seq<Setting>>): seq<Byte> {
    if ii == [] then [] else PrintSettings(ii[0]) + PrintInterfaces(ii[1..])
  }

  function ConfigurationHead(c: Configuration): (b: seq<Byte>)
    ensures |b| == 9
  {
    [c.bLength, c.bDescriptorType] + HalfBytes(c.wTotalLength)
    + [c.bNumInterfaces, c.bConfigurationValue, c.iConfiguration, c.bmAttributes, c.maxPower]
  }

  function PrintConfiguration(c: Configuration): seq<Byte> {
    ConfigurationHead(c) + (c.extra + PrintInterfaces(c.interfaces))
  }

  // ------------------------------------------------------------ bytes in memory

  /** The bytes lie in memory from p on; what lies beyond them is arbitrary. */
  predicate At(mem: Memory, p: nat, b: seq<Byte>) {
    forall i :: 0 <= i < |b| ==> mem(p + i) == b[i]
  }

  lemma AtSplit(mem: Memory, p: nat, a: seq<Byte>, b: seq<Byte>)
    requires At(mem, p, a + b)
    ensures At(mem, p, a) && At(mem, p + |a|, b)
  {
    forall i | 0 <= i < |a| ensures mem(p + i) == a[i] {
      assert (a + b)[i] == a[i];
    }
    forall i | 0 <= i < |b| ensures mem(p + |a| + i) == b[i] {
      assert (a + b)[|a| + i] == b[i];
    }
  }

  lemma AtBlock(mem: Memory, p: nat, b: seq<Byte>)
    requires At(mem, p, b)
    ensures Block(mem, p, |b|) == b
  {
  }

  lemma AtWord(mem: Memory, p: nat, w: U16)
    requires At(mem, p, HalfBytes(w))
    ensures Word(mem, p) == w
  {
    assert HalfBytes(w)[0] == mem(p + 0) && HalfBytes(w)[1] == mem(p + 1);
  }

  /** Nothing follows, or another standard descriptor does. */
  predicate Stops(rest: seq<Byte>) {
    rest == [] || (|rest| >= 7 && 2 <= rest[0] <= |rest| && (rest[1] == DT_ENDPOINT || rest[1] == DT_INTERFACE))
  }

  /** Nothing follows, or another interface setting does. */
  predicate SettingNext(rest: seq<Byte>) {
    rest == [] || (|rest| >= 9 && rest[0] == 9 && rest[1] == DT_INTERFACE)
  }

  /** Nothing follows, or the default setting of another interface does. */
  predicate InterfaceNext(rest: seq<Byte>) {
    SettingNext(rest) && (rest == [] || rest[3] == 0)
  }

  lemma AtFirstTwo(mem: Memory, p: nat, b: seq<Byte>)
    requires |b| >= 2 && At(mem, p, b)
    ensures mem(p) == b[0] && mem(p + 1) == b[1]
  {
    assert mem(p + 0) == b[0];
  }

  lemma Divided(x: seq<Byte>, rest: seq<Byte>, n: nat)
    requires n <= |x|
    ensures x + rest == x[..n] + (x[n..] + rest)
  {
  }

  lemma NextExtra(mem: Memory, p: nat, x: seq<Byte>, rest: seq<Byte>)
    requires Extras(x) && x != [] && At(mem, p, x + rest)
    ensures 2 <= mem(p) <= |x| && !Proper(mem(p + 1))
    ensures Extras(x[mem(p)..]) && At(mem, p + mem(p), x[mem(p)..] + rest)
  {
    hide At, Proper;
    AtFirstTwo(mem, p, x + rest);
    Divided(x, rest, x[0]);
    AtSplit(mem, p, x[..x[0]], x[x[0]..] + rest);
  }

  lemma {:induction false} SkipsExtras(mem: Memory, p: nat, x: seq<Byte>, rest: seq<Byte>, strict: bool)
    requires Extras(x) && Stops(rest) && At(mem, p, x + rest)
    ensures Skip(mem, p, |x + rest|, strict) == Some(|x|)
    decreases |x|
  {
    hide At, Extras;
    if x == [] {
      assert x + rest == rest;
      if rest != [] {
        StopsRead(mem, p, rest);
      }
    } else {
      hide Proper, Stops;
      NextExtra(mem, p, x, rest);
      SkipsExtras(mem, p + mem(p), x[mem(p)..], rest, strict);
    }
  }

  // ------------------------------------------------------------ endpoints

  function EndpointHead(e: Endpoint): seq<Byte> {
    [e.bLength, e.bDescriptorType, e.bEndpointAddress, e.bmAttributes] + HalfBytes(e.wMaxPacketSize) + [e.bInterval]
    + (if e.bLength == 9 then [e.bRefresh, e.bSynchAddress] else [])
  }

  lemma EndpointHeadRead(mem: Memory, p: nat, e: Endpoint)
    requires GoodEndpoint(e) && At(mem, p, EndpointHead(e))
    ensures mem(p) == e.bLength == |EndpointHead(e)| && mem(p + 1) == DT_ENDPOINT
    ensures EndpointFields(mem, p) == e.(extra := [])
  {
    hide Extras, Word, HalfBytes;
    var h, w := EndpointHead(e), HalfBytes(e.wMaxPacketSize);
    assert At(mem, p + 4, w) by {
      assert forall i :: 0 <= i < |w| ==> h[4 + i] == w[i];
    }
    AtWord(mem, p + 4, e.wMaxPacketSize);
    assert h[0] == mem(p + 0) && h[1] == mem(p + 1) && h[2] == mem(p + 2) && h[3] == mem(p + 3) && h[6] == mem(p + 6);
    if e.bLength == 9 {
      assert h[7] == mem(p + 7) && h[8] == mem(p + 8);
    }
  }

  lemma EndpointParses(mem: Memory, p: nat, e: Endpoint, rest: seq<Byte>)
    requires GoodEndpoint(e) && Stops(rest) && At(mem, p, PrintEndpoint(e) + rest)
    ensures ParseEndpoint(mem, p, |PrintEndpoint(e) + rest|) == Parsed(e, |PrintEndpoint(e)|)
  {
    hide Extras, Skip, At, EndpointHead, Stops;
    var h := EndpointHead(e);
    assert PrintEndpoint(e) == h + e.extra by { EndpointHeadFirst(e); }
    assert PrintEndpoint(e) + rest == h + (e.extra + rest);
    AtSplit(mem, p, h, e.extra + rest);
    EndpointHeadRead(mem, p, e);
    SkipsExtras(mem, p + |h|, e.extra, rest, false);
    AtSplit(mem, p + |h|, e.extra, rest);
    AtBlock(mem, p + |h|, e.extra);
  }

  lemma EndpointHeadFirst(e: Endpoint)
    ensures PrintEndpoint(e) == EndpointHead(e) + e.extra
  {
  }

  lemma EndpointsStop(es: seq<Endpoint>, rest: seq<Byte>)
    requires (forall e :: e in es ==> GoodEndpoint(e)) && SettingNext(rest)
    ensures Stops(PrintEndpoints(es) + rest)
  {
    hide Extras;
    if es == [] {
      assert PrintEndpoints(es) + rest == rest;
    } else {
      var e, b := es[0], PrintEndpoints(es) + rest;
      assert GoodEndpoint(e);
      assert b[0] == PrintEndpoint(e)[0] == e.bLength && b[1] == PrintEndpoint(e)[1] == DT_ENDPOINT;
    }
  }

  lemma {:induction false} EndpointsParse(mem: Memory, p: nat, es: seq<Endpoint>, rest: seq<Byte>)
    requires (forall e :: e in es ==> GoodEndpoint(e)) && SettingNext(rest)
    requires At(mem, p, PrintEndpoints(es) + rest)
    ensures ParseEndpoints(mem, p, |PrintEndpoints(es) + rest|, |es|) == Parsed(es, |PrintEndpoints(es)|)
    decreases |es|
  {
    hide GoodEndpoint, ParseEndpoint, PrintEndpoint, At, SettingNext, Stops;
    if es != [] {
      var e, later := es[0], PrintEndpoints(es[1..]) + rest;
      assert PrintEndpoints(es) + rest == PrintEndpoint(e) + later;
      EndpointsStop(es[1..], rest);
      EndpointParses(mem, p, e, later);
      EndpointFits(mem, p, e, later);
      AtSplit(mem, p, PrintEndpoint(e), later);
      EndpointsParse(mem, p + |PrintEndpoint(e)|, es[1..], rest);
      assert [e] + es[1..] == es;
    }
  }

  lemma EndpointFits(mem: Memory, p: nat, e: Endpoint, later: seq<Byte>)
    requires GoodEndpoint(e) && At(mem, p, PrintEndpoint(e) + later)
    ensures mem(p) <= |PrintEndpoint(e)|
  {
    hide Extras;
    assert mem(p + 0) == (PrintEndpoint(e) + later)[0];
  }

  // ------------------------------------------------------------ settings and interfaces

  lemma SettingHeadRead(mem: Memory, p: nat, s: Setting)
    requires At(mem, p, SettingHead(s))
    ensures SettingFields(mem, p) == s.(extra := [], endpoints := [])
  {
    var h := SettingHead(s);
    assert h[0] == mem(p + 0) && h[1] == mem(p + 1) && h[2] == mem(p + 2) && h[3] == mem(p + 3) && h[4] == mem(p + 4);
    assert h[5] == mem(p + 5) && h[6] == mem(p + 6) && h[7] == mem(p + 7) && h[8] == mem(p + 8);
  }

  lemma SettingParses(mem: Memory, p: nat, s: Setting, rest: seq<Byte>)
    requires GoodSetting(s) && SettingNext(rest) && At(mem, p, PrintSetting(s) + rest)
    ensures ParseSetting(mem, p, |PrintSetting(s) + rest|) == Turn(s, |PrintSetting(s)|, false)
  {
    hide Extras, Skip, At, SettingHead, SettingNext, GoodEndpoint, PrintEndpoints, ParseEndpoints, SettingFields;
    var h, es := SettingHead(s), PrintEndpoints(s.endpoints);
    var body, later := s.extra + (es + rest), es + rest;
    assert PrintSetting(s) + rest == h + body;
    AtSplit(mem, p, h, body);
    SettingHeadRead(mem, p, s);
    EndpointsStop(s.endpoints, rest);
    SkipsExtras(mem, p + 9, s.extra, later, false);
    AtSplit(mem, p + 9, s.extra, later);
    AtBlock(mem, p + 9, s.extra);
    var e := p + 9 + |s.extra|;
    EndpointsParse(mem, e, s.endpoints, rest);
    assert |later| >= HEADER_LENGTH ==> mem(e + 1) == DT_ENDPOINT || mem(e + 1) == DT_INTERFACE by {
      if later != [] {
        StopsRead(mem, e, later);
      }
    }
  }

  lemma StopsRead(mem: Memory, p: nat, rest: seq<Byte>)
    requires Stops(rest) && At(mem, p, rest) && rest != []
    ensures mem(p + 1) == DT_ENDPOINT || mem(p + 1) == DT_INTERFACE
    ensures 2 <= mem(p) <= |rest|
  {
    assert mem(p + 0) == rest[0] && mem(p + 1) == rest[1];
  }

  lemma SettingsNext(ss: seq<Setting>, rest: seq<Byte>)
    requires (forall s :: s in ss ==> GoodSetting(s)) && SettingNext(rest)
    ensures SettingNext(PrintSettings(ss) + rest)
    ensures ss != [] ==> (PrintSettings(ss) + rest) != [] && (PrintSettings(ss) + rest)[3] == ss[0].bAlternateSetting
  {
    hide Extras, GoodEndpoint;
    if ss == [] {
      assert PrintSettings(ss) + rest == rest;
    } else {
      var b, h := PrintSettings(ss) + rest, SettingHead(ss[0]);
      assert GoodSetting(ss[0]);
      assert b[0] == h[0] && b[1] == h[1] && b[3] == h[3];
    }
  }

  lemma AlternateFollowsIff(mem: Memory, p: nat, ss: seq<Setting>, rest: seq<Byte>)
    requires (forall s :: s in ss ==> GoodSetting(s)) && InterfaceNext(rest)
    requires forall s :: s in ss ==> s.bAlternateSetting != 0
    requires At(mem, p, PrintSettings(ss) + rest)
    ensures AlternateFollows(mem, p, |PrintSettings(ss) + rest|) <==> ss != []
  {
    hide GoodSetting, PrintSettings;
    SettingsNext(ss, rest);
    var b := PrintSettings(ss) + rest;
    if ss == [] {
      assert b == rest by { NoSettings(rest); }
    }
    if b != [] {
      assert mem(p + 1) == b[1] && mem(p + 3) == b[3];
    }
  }

  lemma NoSettings(rest: seq<Byte>)
    ensures PrintSettings([]) + rest == rest
  {
  }

  lemma {:induction false} InterfaceParses(mem: Memory, p: nat, ss: seq<Setting>, rest: seq<Byte>)
    requires GoodInterface(ss) && InterfaceNext(rest)
    requires At(mem, p, PrintSettings(ss) + rest)
    ensures ParseInterface(mem, p, |PrintSettings(ss) + rest|) == Parsed(ss, |PrintSettings(ss)|)
    decreases |ss|
  {
    hide GoodSetting, ParseSetting, PrintSetting, At, InterfaceNext, SettingNext, AlternateFollows;
    var s, later := ss[0], PrintSettings(ss[1..]) + rest;
    assert PrintSettings(ss) + rest == PrintSetting(s) + later;
    assert SettingNext(rest) by { InterfaceIsSetting(rest); }
    SettingsNext(ss[1..], rest);
    SettingParses(mem, p, s, later);
    SettingLength(s);
    AtSplit(mem, p, PrintSetting(s), later);
    AlternateFollowsIff(mem, p + |PrintSetting(s)|, ss[1..], rest);
    if |ss| > 1 {
      assert GoodInterface(ss[1..]);
      InterfaceParses(mem, p + |PrintSetting(s)|, ss[1..], rest);
      assert [s] + ss[1..] == ss;
    } else {
      assert ss == [s] && ss[1..] == [];
    }
  }

  lemma InterfaceIsSetting(rest: seq<Byte>)
    requires InterfaceNext(rest)
    ensures SettingNext(rest)
  {
  }

  lemma SettingLength(s: Setting)
    ensures |PrintSetting(s)| >= INTERFACE_LENGTH
  {
  }

  // ------------------------------------------------------------ the configuration

  lemma InterfacesNext(ii: seq<seq<Setting>>)
    requires GoodInterfaces(ii) && (ii != [] ==> ii[0] != [] && ii[0][0].bAlternateSetting == 0)
    ensures InterfaceNext(PrintInterfaces(ii))
  {
    hide GoodSetting, PrintSettings, SettingNext;
    if ii != [] {
      assert GoodInterface(ii[0]);
      InterfacesSettingNext(ii[1..]);
      SettingsNext(ii[0], PrintInterfaces(ii[1..]));
    } else {
      NothingNext();
    }
  }

  lemma NothingNext()
    ensures SettingNext([])
  {
  }

  lemma {:induction false} InterfacesSettingNext(ii: seq<seq<Setting>>)
    requires forall i :: i in ii ==> GoodInterface(i)
    ensures SettingNext(PrintInterfaces(ii))
  {
    hide GoodSetting, PrintSettings, SettingNext;
    if ii == [] {
      NothingNext();
    } else {
      assert GoodInterface(ii[0]);
      InterfacesSettingNext(ii[1..]);
      SettingsNext(ii[0], PrintInterfaces(ii[1..]));
    }
  }

  lemma SettingStops(rest: seq<Byte>)
    requires SettingNext(rest)
    ensures Stops(rest)
  {
  }

  /** One turn of the configuration's loop. */
  lemma InterfaceTurn(mem: Memory, p: nat, ii: seq<seq<Setting>>, x: seq<Byte>)
    requires GoodInterfaces(ii) && Extras(x) && ii != []
    requires At(mem, p, x + PrintInterfaces(ii))
    ensures var later := PrintInterfaces(ii[1..]);
      var n := |PrintSettings(ii[0])|;
      && |PrintInterfaces(ii)| == n + |later|
      && Skip(mem, p, |x| + n + |later|, true) == Some(|x|) && Block(mem, p, |x|) == x
      && ParseInterface(mem, p + |x|, n + |later|) == Parsed(ii[0], n)
      && At(mem, p + |x| + n, later)
  {
    hide GoodInterface, GoodSetting, At, ParseInterface, PrintSettings, Skip, SettingNext, Stops, InterfaceNext, Extras;
    var i, later := ii[0], PrintInterfaces(ii[1..]);
    assert PrintInterfaces(ii) == PrintSettings(i) + later;
    InterfacesSettingNext(ii);
    SettingStops(PrintInterfaces(ii));
    SkipsExtras(mem, p, x, PrintInterfaces(ii), true);
    AtSplit(mem, p, x, PrintInterfaces(ii));
    AtBlock(mem, p, x);
    InterfacesNext(ii[1..]);
    InterfaceParses(mem, p + |x|, i, later);
    AtSplit(mem, p + |x|, PrintSettings(i), later);
  }

  lemma {:induction false} InterfacesParse(mem: Memory, p: nat, ii: seq<seq<Setting>>, x: seq<Byte>, kept: seq<Byte>)
    requires GoodInterfaces(ii) && Extras(x) && (kept == [] || x == []) && (ii == [] ==> x == [])
    requires At(mem, p, x + PrintInterfaces(ii))
    ensures ParseInterfaces(mem, p, |x| + |PrintInterfaces(ii)|, |ii|, kept) == Body(if kept == [] then x else kept, ii, 0)
    decreases |ii|
  {
    hide GoodInterface, At, ParseInterface, PrintSettings, Skip, Extras, Block;
    if ii != [] {
      InterfaceTurn(mem, p, ii, x);
      assert [] + PrintInterfaces(ii[1..]) == PrintInterfaces(ii[1..]);
      assert Extras([]) by { NoExtras(); }
      InterfacesParse(mem, p + |x| + |PrintSettings(ii[0])|, ii[1..], [], if kept == [] then x else kept);
      assert [ii[0]] + ii[1..] == ii;
    }
  }

  lemma NoExtras()
    ensures Extras([])
  {
  }

  lemma ConfigurationHeadRead(mem: Memory, p: nat, c: Configuration)
    requires At(mem, p, ConfigurationHead(c))
    ensures ConfigurationFields(mem, p) == c.(extra := [], interfaces := [])
  {
    hide Word, HalfBytes;
    var h, w := ConfigurationHead(c), HalfBytes(c.wTotalLength);
    assert At(mem, p + 2, w) by {
      assert forall i :: 0 <= i < |w| ==> h[2 + i] == w[i];
    }
    AtWord(mem, p + 2, c.wTotalLength);
    assert h[0] == mem(p + 0) && h[1] == mem(p + 1) && h[4] == mem(p + 4) && h[5] == mem(p + 5);
    assert h[6] == mem(p + 6) && h[7] == mem(p + 7) && h[8] == mem(p + 8);
  }

  /** The whole tree comes back, whatever lies in memory after it, and no byte of its
      total length is left over. */
  lemma ConfigurationParses(mem: Memory, p: nat, c: Configuration)
    requires GoodConfiguration(c) && At(mem, p, PrintConfiguration(c))
    ensures ParseConfiguration(mem, p) == Parsed(c, 0)
  {
    hide GoodInterfaces, At, ParseInterfaces, PrintInterfaces, ConfigurationHead, ConfigurationFields, Extras;
    AtSplit(mem, p, ConfigurationHead(c), c.extra + PrintInterfaces(c.interfaces));
    ConfigurationHeadRead(mem, p, c);
    InterfacesParse(mem, p + 9, c.interfaces, c.extra, []);
  }
}
