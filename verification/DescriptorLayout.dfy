/** What the parser of configuration descriptors accepts, and what it makes of it: a
    description of the memory by the places where the descriptors begin. The parser
    fills in a tree exactly if the memory is laid out like that, and fails otherwise. */
module DescriptorLayout {
  import opened Bytes
  import opened Bags
  import opened Descriptors

  // ------------------------------------------------------------ the layout

  /** The last of some places. */
  function Last(at: seq<nat>): nat
    requires at != []
  {
    at[|at| - 1]
  }

  /** A device, configuration, interface or endpoint descriptor. */
  predicate Standard(kind: Byte) {
    kind in {1, 2, 4, 5}
  }

  /** A class or vendor descriptor, up to the next place. */
  predicate Passed(mem: Memory, q: nat, next: nat, end: int, strict: bool) {
    && q + 2 <= end && mem(q) >= 2 && !Standard(mem(q + 1))
    && next == q + mem(q) && (strict ==> next <= end)
  }

  /** Class and vendor descriptors, one after the other. */
  predicate Row(mem: Memory, at: seq<nat>, end: int, strict: bool) {
    forall i :: 1 <= i < |at| ==> Passed(mem, at[i - 1], at[i], end, strict)
  }

  /** A row ends where nothing fits any more, or at a standard descriptor. */
  predicate RowEnds(mem: Memory, q: nat, end: int, strict: bool) {
    q + 2 > end || (mem(q) >= 2 && Standard(mem(q + 1)) && (strict ==> q + mem(q) <= end))
  }

  ghost predicate Between(mem: Memory, q: nat, e: nat, end: int, strict: bool) {
    && RowEnds(mem, e, end, strict)
    && exists at: seq<nat> :: at != [] && at[0] == q && Last(at) == e && Row(mem, at, end, strict)
  }

  /** An endpoint's fields: of a short descriptor, of an audio one, or of none. */
  predicate EndpointHere(mem: Memory, q: nat, e: Endpoint) {
    if mem(q) < 7 then e.(extra := []) == Endpoint(0, 0, 0, 0, 0, 0, 0, 0, [])
    else
      && e.bLength == mem(q) && e.bDescriptorType == 5
      && e.bEndpointAddress == mem(q + 2) && e.bmAttributes == mem(q + 3)
      && e.wMaxPacketSize as int % 256 == mem(q + 4) as int && e.wMaxPacketSize as int / 256 == mem(q + 5) as int
      && e.bInterval == mem(q + 6)
      && if mem(q) < 9 then e.bRefresh == 0 && e.bSynchAddress == 0
         else e.bRefresh == mem(q + 7) && e.bSynchAddress == mem(q + 8)
  }

  /** Some bytes of memory, from one place to another. */
  predicate Holds(mem: Memory, q: nat, e: nat, b: seq<Byte>) {
    q + |b| == e && forall i :: 0 <= i < |b| ==> b[i] == mem(q + i)
  }

  /** An endpoint with what follows it; where another kind of descriptor stands, the
      endpoint is blank and nothing is used. */
  ghost predicate EndpointAt(mem: Memory, q: nat, next: nat, end: int, e: Endpoint) {
    && q + mem(q) <= end
    && if mem(q + 1) != 5 then next == q && e == Endpoint(0, 0, 0, 0, 0, 0, 0, 0, [])
       else
         var f := q + mem(q);
         EndpointHere(mem, q, e) && Between(mem, f, next, end, false) && Holds(mem, f, next, e.extra)
  }

  ghost predicate EndpointsAt(mem: Memory, at: seq<nat>, end: int, es: seq<Endpoint>) {
    && |at| == |es| + 1
    && forall i :: 0 <= i < |es| ==> EndpointAt(mem, at[i], at[i + 1], end, es[i])
  }

  predicate SettingHere(mem: Memory, q: nat, s: Setting) {
    && s.bLength == mem(q) && s.bDescriptorType == mem(q + 1) && s.bInterfaceNumber == mem(q + 2)
    && s.bAlternateSetting == mem(q + 3) && s.bNumEndpoints == mem(q + 4) && s.bInterfaceClass == mem(q + 5)
    && s.bInterfaceSubClass == mem(q + 6) && s.bInterfaceProtocol == mem(q + 7) && s.iInterface == mem(q + 8)
  }

  /** A configuration or device descriptor where a setting's endpoints would begin. */
  predicate CutOff(mem: Memory, e: nat, end: int) {
    e + 2 <= end && mem(e + 1) in {1, 2}
  }

  /** A setting, what follows it up to e, and its endpoints, unless it is cut off. */
  ghost predicate SettingFrom(mem: Memory, q: nat, e: nat, next: nat, end: int, s: Setting) {
    && q + 9 <= end && SettingHere(mem, q, s)
    && Between(mem, q + mem(q), e, end, false) && Holds(mem, q + mem(q), e, s.extra)
    && if CutOff(mem, e, end) then s.endpoints == [] && next == e
       else
         && s.bNumEndpoints <= 32 && |s.endpoints| == s.bNumEndpoints
         && exists at: seq<nat> :: at != [] && at[0] == e && Last(at) == next && EndpointsAt(mem, at, end, s.endpoints)
  }

  /** Another setting of the same interface. */
  predicate Alternate(mem: Memory, q: nat, end: int) {
    q + 9 <= end && mem(q + 1) == 4 && mem(q + 3) != 0
  }

  predicate MoreSettings(mem: Memory, mid: nat, next: nat, end: int) {
    !CutOff(mem, mid, end) && Alternate(mem, next, end)
  }

  /** The settings of an interface, with the places where their endpoints begin: every
      one but the last goes on to an alternate, and the last does not. */
  ghost predicate SettingsAt(mem: Memory, at: seq<nat>, mids: seq<nat>, end: int, ss: seq<Setting>) {
    && |at| == |ss| + 1 && |mids| == |ss| > 0
    && (forall i :: 0 <= i < |ss| ==> SettingFrom(mem, at[i], mids[i], at[i + 1], end, ss[i]))
    && forall i :: 0 <= i < |ss| ==> (i + 1 < |ss| <==> MoreSettings(mem, mids[i], at[i + 1], end))
  }

  ghost predicate InterfaceAt(mem: Memory, q: nat, next: nat, end: int, ss: seq<Setting>) {
    if ss == [] then q + 9 > end && next == q
    else exists at: seq<nat>, mids :: at != [] && at[0] == q && Last(at) == next && SettingsAt(mem, at, mids, end, ss)
  }

  /** The interfaces, each after a row of class and vendor descriptors. */
  ghost predicate InterfacesAt(mem: Memory, at: seq<nat>, mids: seq<nat>, end: int, ii: seq<seq<Setting>>) {
    && |at| == |ii| + 1 && |mids| == |ii|
    && forall i :: 0 <= i < |ii| ==>
      Between(mem, at[i], mids[i], end, true) && InterfaceAt(mem, mids[i], at[i + 1], end, ii[i])
  }

  /** The bytes kept are those of the first row that has any: all rows before the k-th
      are empty, and the k-th, if there is one, is not. */
  predicate KthRow(mem: Memory, at: seq<nat>, mids: seq<nat>, k: nat, extra: seq<Byte>)
    requires |at| == |mids| + 1 && k <= |mids|
  {
    && (forall i :: 0 <= i < k ==> at[i] == mids[i])
    && if k == |mids| then extra == [] else at[k] != mids[k] && Holds(mem, at[k], mids[k], extra)
  }

  predicate FirstRow(mem: Memory, at: seq<nat>, mids: seq<nat>, extra: seq<Byte>)
    requires |at| == |mids| + 1
  {
    exists k: nat :: k <= |mids| && KthRow(mem, at, mids, k, extra)
  }

  predicate ConfigurationHere(mem: Memory, p: nat, c: Configuration) {
    && c.bLength == mem(p) && c.bDescriptorType == mem(p + 1)
    && c.wTotalLength as int % 256 == mem(p + 2) as int && c.wTotalLength as int / 256 == mem(p + 3) as int
    && c.bNumInterfaces == mem(p + 4) && c.bConfigurationValue == mem(p + 5) && c.iConfiguration == mem(p + 6)
    && c.bmAttributes == mem(p + 7) && c.maxPower == mem(p + 8)
  }

  ghost predicate ConfigurationAt(mem: Memory, p: nat, c: Configuration, left: int) {
    && ConfigurationHere(mem, p, c) && c.bNumInterfaces <= 32
    && exists at: seq<nat>, mids: seq<nat> ::
      && |at| == |mids| + 1 && at[0] == p + c.bLength && left == p + c.wTotalLength - Last(at)
      && |c.interfaces| == c.bNumInterfaces && InterfacesAt(mem, at, mids, p + c.wTotalLength, c.interfaces)
      && FirstRow(mem, at, mids, c.extra)
  }

  // ------------------------------------------------------------ rows of class and vendor descriptors

  lemma Kinds(kind: Byte)
    ensures Standard(kind) <==> Proper(kind)
  {
  }

  lemma {:induction false} RowFound(mem: Memory, q: nat, end: int, strict: bool)
    ensures var r := Skip(mem, q, end - q, strict);
      r.Some? ==> Between(mem, q, q + r.value, end, strict)
    decreases end - q
  {
    hide Proper, Standard;
    Kinds(mem(q + 1));
    var r := Skip(mem, q, end - q, strict);
    if r.Some? {
      if r.value == 0 {
        var at: seq<nat> := [q];
        assert at[0] == q && Last(at) == q && Row(mem, at, end, strict);
      } else {
        var f := q + mem(q);
        RowFound(mem, f, end, strict);
        var at: seq<nat> :| at != [] && at[0] == f && Last(at) == q + r.value && Row(mem, at, end, strict);
        RowMore(mem, q, at, end, strict);
      }
    }
  }

  lemma RowMore(mem: Memory, q: nat, at: seq<nat>, end: int, strict: bool)
    requires at != [] && Passed(mem, q, at[0], end, strict) && Row(mem, at, end, strict)
    ensures Row(mem, [q] + at, end, strict) && Last([q] + at) == Last(at) && ([q] + at)[0] == q
  {
    hide Passed;
  }

  lemma {:induction false} RowSkipped(mem: Memory, at: seq<nat>, end: int, strict: bool)
    requires at != [] && Row(mem, at, end, strict) && RowEnds(mem, Last(at), end, strict)
    ensures at[0] <= Last(at) && Skip(mem, at[0], end - at[0], strict) == Some(Last(at) - at[0])
    decreases |at|
  {
    hide Proper, Standard, Row;
    Kinds(mem(at[0] + 1));
    if |at| > 1 {
      RowRest(mem, at, end, strict);
      RowSkipped(mem, at[1..], end, strict);
    }
  }

  lemma RowRest(mem: Memory, at: seq<nat>, end: int, strict: bool)
    requires |at| > 1 && Row(mem, at, end, strict)
    ensures Passed(mem, at[0], at[1], end, strict) && Row(mem, at[1..], end, strict) && Last(at[1..]) == Last(at)
  {
    hide Passed;
    assert Passed(mem, at[1 - 1], at[1], end, strict);
    forall i | 1 <= i < |at[1..]| ensures Passed(mem, at[1..][i - 1], at[1..][i], end, strict) {
      assert Passed(mem, at[(i + 1) - 1], at[i + 1], end, strict);
    }
  }

  /** The loop over class and vendor descriptors passes exactly a row of them. */
  lemma SkipIff(mem: Memory, q: nat, e: nat, end: int, strict: bool)
    ensures (e >= q && Skip(mem, q, end - q, strict) == Some(e - q)) <==> Between(mem, q, e, end, strict)
  {
    hide Row, RowEnds, Skip;
    RowFound(mem, q, end, strict);
    if Between(mem, q, e, end, strict) {
      var at: seq<nat> :| at != [] && at[0] == q && Last(at) == e && Row(mem, at, end, strict);
      RowSkipped(mem, at, end, strict);
    }
  }

  // ------------------------------------------------------------ endpoints

  lemma WordHere(mem: Memory, q: nat, w: U16)
    ensures w == Word(mem, q) <==> w as int % 256 == mem(q) as int && w as int / 256 == mem(q + 1) as int
  {
  }

  lemma HoldsBlock(mem: Memory, q: nat, n: nat, b: seq<Byte>)
    ensures Holds(mem, q, q + n, b) <==> b == Block(mem, q, n)
  {
  }

  lemma EndpointFieldsIff(mem: Memory, q: nat, e: Endpoint)
    requires mem(q + 1) == 5
    ensures e.(extra := []) == EndpointFields(mem, q) <==> EndpointHere(mem, q, e)
    ensures EndpointFields(mem, q).extra == []
  {
    hide Word;
    WordHere(mem, q + 4, e.wMaxPacketSize);
  }

  lemma EndpointIff(mem: Memory, q: nat, next: nat, end: int, e: Endpoint)
    ensures ParseEndpoint(mem, q, end - q) == Parsed(e, next - q) <==> EndpointAt(mem, q, next, end, e)
  {
    hide Skip, Between, EndpointFields, EndpointHere, Block, Holds;
    if mem(q + 1) == 5 && q + mem(q) <= end {
      var f := q + mem(q);
      EndpointFieldsIff(mem, q, e);
      SkipIff(mem, f, next, end, false);
      if next >= f {
        HoldsBlock(mem, f, next - f, e.extra);
      }
    }
  }

  lemma {:induction false} EndpointsFound(mem: Memory, q: nat, end: int, n: nat) returns (at: seq<nat>)
    requires ParseEndpoints(mem, q, end - q, n).Parsed?
    ensures var r := ParseEndpoints(mem, q, end - q, n);
      at != [] && at[0] == q && Last(at) == q + r.used && EndpointsAt(mem, at, end, r.value)
    decreases n
  {
    hide ParseEndpoint, EndpointAt;
    at := [q];
    if n > 0 {
      var e := ParseEndpoint(mem, q, end - q);
      EndpointIff(mem, q, q + e.used, end, e.value);
      var later := EndpointsFound(mem, q + e.used, end, n - 1);
      at := [q] + later;
    }
  }

  lemma {:induction false} EndpointsParsed(mem: Memory, at: seq<nat>, end: int, es: seq<Endpoint>)
    requires at != [] && EndpointsAt(mem, at, end, es)
    ensures ParseEndpoints(mem, at[0], end - at[0], |es|) == Parsed(es, Last(at) - at[0])
    decreases |es|
  {
    hide ParseEndpoint, EndpointAt;
    if es != [] {
      EndpointsFirst(mem, at, end, es);
      EndpointIff(mem, at[0], at[1], end, es[0]);
      EndpointsParsed(mem, at[1..], end, es[1..]);
      assert [es[0]] + es[1..] == es;
    }
  }

  lemma EndpointsFirst(mem: Memory, at: seq<nat>, end: int, es: seq<Endpoint>)
    requires EndpointsAt(mem, at, end, es) && es != []
    ensures EndpointAt(mem, at[0], at[1], end, es[0]) && mem(at[0]) <= end - at[0]
    ensures EndpointsAt(mem, at[1..], end, es[1..])
  {
    hide Between, EndpointHere, Holds;
    assert EndpointAt(mem, at[0], at[0 + 1], end, es[0]);
    forall i | 0 <= i < |es[1..]| ensures EndpointAt(mem, at[1..][i], at[1..][i + 1], end, es[1..][i]) {
      assert EndpointAt(mem, at[i + 1], at[i + 1 + 1], end, es[i + 1]);
    }
  }

  lemma EndpointsIff(mem: Memory, q: nat, next: nat, end: int, es: seq<Endpoint>)
    ensures ParseEndpoints(mem, q, end - q, |es|) == Parsed(es, next - q) <==>
      exists at: seq<nat> :: at != [] && at[0] == q && Last(at) == next && EndpointsAt(mem, at, end, es)
  {
    hide ParseEndpoints, EndpointsAt;
    if ParseEndpoints(mem, q, end - q, |es|) == Parsed(es, next - q) {
      var at := EndpointsFound(mem, q, end, |es|);
    }
    forall at: seq<nat> | at != [] && at[0] == q && Last(at) == next && EndpointsAt(mem, at, end, es)
      ensures ParseEndpoints(mem, q, end - q, |es|) == Parsed(es, next - q)
    {
      EndpointsParsed(mem, at, end, es);
    }
  }

  // ------------------------------------------------------------ settings

  lemma SettingFieldsIff(mem: Memory, q: nat, s: Setting)
    ensures s.(extra := [], endpoints := []) == SettingFields(mem, q) <==> SettingHere(mem, q, s)
    ensures SettingFields(mem, q).extra == [] && SettingFields(mem, q).endpoints == []
  {
  }

  /** A setting's descriptors end at e. */
  lemma SettingFromIff(mem: Memory, q: nat, e: nat, next: nat, end: int, s: Setting, stopped: bool)
    requires q + 9 <= end && Between(mem, q + mem(q), e, end, false)
    ensures ParseSetting(mem, q, end - q) == Turn(s, next - q, stopped) <==>
      SettingFrom(mem, q, e, next, end, s) && stopped == CutOff(mem, e, end)
  {
    hide Skip, Between, SettingFields, SettingHere, Block, Holds, EndpointsAt, ParseEndpoints;
    SettingFieldsIff(mem, q, s);
    var f := q + mem(q);
    SkipIff(mem, f, e, end, false);
    HoldsBlock(mem, f, e - f, s.extra);
    EndpointsIff(mem, e, next, end, s.endpoints);
    assert SettingFields(mem, q).bLength == mem(q) by { LengthHere(mem, q); }
  }

  lemma LengthHere(mem: Memory, q: nat)
    ensures SettingFields(mem, q).bLength == mem(q)
  {
  }

  lemma SettingIff(mem: Memory, q: nat, next: nat, end: int, s: Setting, stopped: bool)
    requires q + 9 <= end
    ensures ParseSetting(mem, q, end - q) == Turn(s, next - q, stopped) <==>
      exists e: nat :: SettingFrom(mem, q, e, next, end, s) && stopped == CutOff(mem, e, end)
  {
    hide SettingFrom, CutOff, ParseSetting, Between;
    forall e: nat | SettingFrom(mem, q, e, next, end, s) && stopped == CutOff(mem, e, end)
      ensures ParseSetting(mem, q, end - q) == Turn(s, next - q, stopped)
    {
      assert Between(mem, q + mem(q), e, end, false) by { RowOfSetting(mem, q, e, next, end, s); }
      SettingFromIff(mem, q, e, next, end, s, stopped);
    }
    if ParseSetting(mem, q, end - q) == Turn(s, next - q, stopped) {
      var e := SettingRow(mem, q, end);
      SettingFromIff(mem, q, e, next, end, s, stopped);
    }
  }

  lemma RowOfSetting(mem: Memory, q: nat, e: nat, next: nat, end: int, s: Setting)
    requires SettingFrom(mem, q, e, next, end, s)
    ensures Between(mem, q + mem(q), e, end, false)
  {
  }

  lemma SettingRow(mem: Memory, q: nat, end: int) returns (e: nat)
    requires q + 9 <= end && ParseSetting(mem, q, end - q).Turn?
    ensures Between(mem, q + mem(q), e, end, false)
  {
    hide Skip, Between;
    LengthHere(mem, q);
    var f := q + mem(q);
    e := f + Skip(mem, f, end - f, false).value;
    SkipIff(mem, f, e, end, false);
  }

  // ------------------------------------------------------------ interfaces

  lemma {:induction false} InterfaceFound(mem: Memory, q: nat, end: int) returns (at: seq<nat>, mids: seq<nat>)
    requires q + 9 <= end && ParseInterface(mem, q, end - q).Parsed?
    ensures var r := ParseInterface(mem, q, end - q);
      at != [] && at[0] == q && Last(at) == q + r.used && SettingsAt(mem, at, mids, end, r.value)
    decreases end - q
  {
    hide ParseSetting, SettingFrom, CutOff;
    var t := ParseSetting(mem, q, end - q);
    var next: nat := q + t.used;
    SettingIff(mem, q, next, end, t.setting, t.stopped);
    var e: nat :| SettingFrom(mem, q, e, next, end, t.setting) && t.stopped == CutOff(mem, e, end);
    at, mids := [q, next], [e];
    if !t.stopped && Alternate(mem, next, end) {
      var at1, mids1 := InterfaceFound(mem, next, end);
      at, mids := [q] + at1, [e] + mids1;
      SettingsMore(mem, q, e, at1, mids1, end, t.setting, ParseInterface(mem, next, end - next).value);
    }
  }

  lemma SettingsMore(mem: Memory, q: nat, e: nat, at: seq<nat>, mids: seq<nat>, end: int, s: Setting, ss: seq<Setting>)
    requires SettingsAt(mem, at, mids, end, ss) && SettingFrom(mem, q, e, at[0], end, s)
    requires !CutOff(mem, e, end) && Alternate(mem, at[0], end)
    ensures SettingsAt(mem, [q] + at, [e] + mids, end, [s] + ss)
  {
    hide SettingFrom, CutOff, Alternate;
    var at1, mids1, ss1 := [q] + at, [e] + mids, [s] + ss;
    forall i | 0 <= i < |ss1|
      ensures SettingFrom(mem, at1[i], mids1[i], at1[i + 1], end, ss1[i])
      ensures i + 1 < |ss1| <==> MoreSettings(mem, mids1[i], at1[i + 1], end)
    {
      if i > 0 {
        assert SettingFrom(mem, at[i - 1], mids[i - 1], at[i - 1 + 1], end, ss[i - 1]);
        assert (i - 1) + 1 < |ss| <==> MoreSettings(mem, mids[i - 1], at[i - 1 + 1], end);
      }
    }
  }

  lemma {:induction false} InterfaceParsed(mem: Memory, at: seq<nat>, mids: seq<nat>, end: int, ss: seq<Setting>)
    requires SettingsAt(mem, at, mids, end, ss)
    ensures ParseInterface(mem, at[0], end - at[0]) == Parsed(ss, Last(at) - at[0])
    decreases |ss|
  {
    hide ParseSetting, SettingFrom, CutOff;
    assert at[0] + 9 <= end by { SettingFits(mem, at, mids, end, ss); }
    SettingIff(mem, at[0], at[1], end, ss[0], CutOff(mem, mids[0], end));
    assert SettingFrom(mem, at[0], mids[0], at[0 + 1], end, ss[0]);
    if |ss| > 1 {
      SettingsRest(mem, at, mids, end, ss);
      InterfaceParsed(mem, at[1..], mids[1..], end, ss[1..]);
      assert [ss[0]] + ss[1..] == ss;
    } else {
      assert ss == [ss[0]];
    }
  }

  lemma SettingFits(mem: Memory, at: seq<nat>, mids: seq<nat>, end: int, ss: seq<Setting>)
    requires SettingsAt(mem, at, mids, end, ss)
    ensures at[0] + 9 <= end
  {
    assert SettingFrom(mem, at[0], mids[0], at[0 + 1], end, ss[0]);
  }

  lemma SettingsRest(mem: Memory, at: seq<nat>, mids: seq<nat>, end: int, ss: seq<Setting>)
    requires SettingsAt(mem, at, mids, end, ss) && |ss| > 1
    ensures SettingsAt(mem, at[1..], mids[1..], end, ss[1..])
  {
    hide SettingFrom, MoreSettings;
    forall i | 0 <= i < |ss[1..]|
      ensures SettingFrom(mem, at[1..][i], mids[1..][i], at[1..][i + 1], end, ss[1..][i])
      ensures i + 1 < |ss[1..]| <==> MoreSettings(mem, mids[1..][i], at[1..][i + 1], end)
    {
      assert SettingFrom(mem, at[i + 1], mids[i + 1], at[i + 1 + 1], end, ss[i + 1]);
      assert i + 1 + 1 < |ss| <==> MoreSettings(mem, mids[i + 1], at[i + 1 + 1], end);
    }
  }

  lemma InterfaceIff(mem: Memory, q: nat, next: nat, end: int, ss: seq<Setting>)
    ensures ParseInterface(mem, q, end - q) == Parsed(ss, next - q) <==> InterfaceAt(mem, q, next, end, ss)
  {
    hide SettingsAt, ParseSetting;
    if q + 9 <= end {
      if ParseInterface(mem, q, end - q).Parsed? {
        var at, mids := InterfaceFound(mem, q, end);
        NotNone(mem, at, mids, end, ParseInterface(mem, q, end - q).value);
      }
      forall at: seq<nat>, mids | at != [] && at[0] == q && Last(at) == next && SettingsAt(mem, at, mids, end, ss)
        ensures ParseInterface(mem, q, end - q) == Parsed(ss, next - q)
      {
        InterfaceParsed(mem, at, mids, end, ss);
      }
    } else {
      forall at: seq<nat>, mids | at != [] && at[0] == q && SettingsAt(mem, at, mids, end, ss)
        ensures false
      {
        SettingFits(mem, at, mids, end, ss);
      }
    }
  }

  lemma NotNone(mem: Memory, at: seq<nat>, mids: seq<nat>, end: int, ss: seq<Setting>)
    requires SettingsAt(mem, at, mids, end, ss)
    ensures ss != []
  {
  }

  // ------------------------------------------------------------ the configuration

  /** The bytes of the first row that has any, unless some are kept already. */
  ghost predicate KeptFrom(mem: Memory, at: seq<nat>, mids: seq<nat>, kept: seq<Byte>, extra: seq<Byte>)
    requires |at| == |mids| + 1
  {
    if kept == [] then FirstRow(mem, at, mids, extra) else extra == kept
  }

  lemma {:induction false} InterfacesFound(mem: Memory, q: nat, end: int, n: nat, kept: seq<Byte>)
    returns (at: seq<nat>, mids: seq<nat>)
    requires ParseInterfaces(mem, q, end - q, n, kept).Body?
    ensures var b := ParseInterfaces(mem, q, end - q, n, kept);
      && |at| == |mids| + 1 && at[0] == q && b.left == end - Last(at)
      && InterfacesAt(mem, at, mids, end, b.interfaces) && KeptFrom(mem, at, mids, kept, b.extra)
    decreases n
  {
    hide ParseInterface, Skip, Block, InterfaceAt, Between, KeptFrom;
    if n == 0 {
      at, mids := [q], [];
      NoRows(mem, q, kept);
    } else {
      var mid: nat := q + Skip(mem, q, end - q, true).value;
      SkipIff(mem, q, mid, end, true);
      var i := ParseInterface(mem, mid, end - mid);
      var next: nat := mid + i.used;
      InterfaceIff(mem, mid, next, end, i.value);
      var first := if kept == [] then Block(mem, q, mid - q) else kept;
      var b := ParseInterfaces(mem, next, end - next, n - 1, first);
      var at1, mids1 := InterfacesFound(mem, next, end, n - 1, first);
      at, mids := [q] + at1, [mid] + mids1;
      InterfacesMore(mem, q, mid, at1, mids1, end, i.value, b.interfaces);
      KeptMore(mem, q, mid, at1, mids1, kept, b.extra);
    }
  }

  lemma NoRows(mem: Memory, q: nat, kept: seq<Byte>)
    ensures KeptFrom(mem, [q], [], kept, kept)
  {
    assert KthRow(mem, [q], [], 0, []);
  }

  lemma InterfacesMore(mem: Memory, q: nat, mid: nat, at: seq<nat>, mids: seq<nat>, end: int, i: seq<Setting>,
                       ii: seq<seq<Setting>>)
    requires InterfacesAt(mem, at, mids, end, ii)
    ensures Between(mem, q, mid, end, true) && InterfaceAt(mem, mid, at[0], end, i) <==>
      InterfacesAt(mem, [q] + at, [mid] + mids, end, [i] + ii)
  {
    hide Between, InterfaceAt;
    var at1, mids1, ii1 := [q] + at, [mid] + mids, [i] + ii;
    forall k | 1 <= k < |ii1|
      ensures Between(mem, at1[k], mids1[k], end, true) && InterfaceAt(mem, mids1[k], at1[k + 1], end, ii1[k])
    {
      assert Between(mem, at[k - 1], mids[k - 1], end, true);
      assert InterfaceAt(mem, mids[k - 1], at[k - 1 + 1], end, ii[k - 1]);
    }
    if InterfacesAt(mem, at1, mids1, end, ii1) {
      assert InterfaceAt(mem, mids1[0], at1[0 + 1], end, ii1[0]);
    }
  }

  lemma KeptMore(mem: Memory, q: nat, mid: nat, at: seq<nat>, mids: seq<nat>, kept: seq<Byte>, extra: seq<Byte>)
    requires q <= mid && |at| == |mids| + 1
    ensures KeptFrom(mem, [q] + at, [mid] + mids, kept, extra) <==>
      KeptFrom(mem, at, mids, if kept == [] then Block(mem, q, mid - q) else kept, extra)
  {
    hide Holds, Block;
    var at1, mids1 := [q] + at, [mid] + mids;
    HoldsBlock(mem, q, mid - q, extra);
    if kept == [] && q < mid {
      forall k: nat | k <= |mids1| && KthRow(mem, at1, mids1, k, extra) ensures k == 0 {
        KthIsFirst(mem, at1, mids1, k, extra);
      }
      assert FirstRow(mem, at1, mids1, extra) <==> KthRow(mem, at1, mids1, 0, extra);
    } else if kept == [] {
      forall k: nat | k <= |mids| ensures KthRow(mem, at, mids, k, extra) <==> KthRow(mem, at1, mids1, k + 1, extra) {
        KthLater(mem, q, at, mids, k, extra);
      }
      assert !KthRow(mem, at1, mids1, 0, extra);
      if FirstRow(mem, at1, mids1, extra) {
        var k: nat :| k <= |mids1| && KthRow(mem, at1, mids1, k, extra);
        assert KthRow(mem, at, mids, k - 1, extra);
      }
    }
  }

  lemma KthIsFirst(mem: Memory, at: seq<nat>, mids: seq<nat>, k: nat, extra: seq<Byte>)
    requires |at| == |mids| + 1 && k <= |mids| && KthRow(mem, at, mids, k, extra) && mids != [] && at[0] != mids[0]
    ensures k == 0
  {
  }

  lemma KthLater(mem: Memory, q: nat, at: seq<nat>, mids: seq<nat>, k: nat, extra: seq<Byte>)
    requires |at| == |mids| + 1 && k <= |mids|
    ensures KthRow(mem, at, mids, k, extra) <==> KthRow(mem, [q] + at, [q] + mids, k + 1, extra)
  {
    hide Holds;
    var at1, mids1 := [q] + at, [q] + mids;
    if KthRow(mem, at1, mids1, k + 1, extra) {
      forall i | 0 <= i < k ensures at[i] == mids[i] {
        assert at1[i + 1] == mids1[i + 1];
      }
    }
  }

  lemma {:induction false} InterfacesParsed(mem: Memory, at: seq<nat>, mids: seq<nat>, end: int, ii: seq<seq<Setting>>,
                                            kept: seq<Byte>, extra: seq<Byte>)
    requires InterfacesAt(mem, at, mids, end, ii) && KeptFrom(mem, at, mids, kept, extra)
    ensures ParseInterfaces(mem, at[0], end - at[0], |ii|, kept) == Body(extra, ii, end - Last(at))
    decreases |ii|
  {
    hide ParseInterface, Skip, Block, InterfaceAt, Between, KeptFrom;
    if ii == [] {
      NothingKept(mem, at, mids, kept, extra);
    } else {
      InterfacesFirst(mem, at, mids, end, ii);
      SkipIff(mem, at[0], mids[0], end, true);
      InterfaceIff(mem, mids[0], at[1], end, ii[0]);
      assert at == [at[0]] + at[1..] && mids == [mids[0]] + mids[1..] && ii == [ii[0]] + ii[1..];
      KeptMore(mem, at[0], mids[0], at[1..], mids[1..], kept, extra);
      var first := if kept == [] then Block(mem, at[0], mids[0] - at[0]) else kept;
      InterfacesParsed(mem, at[1..], mids[1..], end, ii[1..], first, extra);
    }
  }

  lemma NothingKept(mem: Memory, at: seq<nat>, mids: seq<nat>, kept: seq<Byte>, extra: seq<Byte>)
    requires |at| == 1 && mids == [] && KeptFrom(mem, at, mids, kept, extra)
    ensures extra == kept
  {
  }

  lemma InterfacesFirst(mem: Memory, at: seq<nat>, mids: seq<nat>, end: int, ii: seq<seq<Setting>>)
    requires InterfacesAt(mem, at, mids, end, ii) && ii != []
    ensures Between(mem, at[0], mids[0], end, true) && InterfaceAt(mem, mids[0], at[1], end, ii[0])
    ensures InterfacesAt(mem, at[1..], mids[1..], end, ii[1..])
  {
    hide Between, InterfaceAt;
    assert InterfaceAt(mem, mids[0], at[0 + 1], end, ii[0]);
    forall k | 0 <= k < |ii[1..]|
      ensures Between(mem, at[1..][k], mids[1..][k], end, true)
      ensures InterfaceAt(mem, mids[1..][k], at[1..][k + 1], end, ii[1..][k])
    {
      assert Between(mem, at[k + 1], mids[k + 1], end, true);
      assert InterfaceAt(mem, mids[k + 1], at[k + 1 + 1], end, ii[k + 1]);
    }
  }

  lemma ConfigurationFieldsIff(mem: Memory, p: nat, c: Configuration)
    ensures c.(extra := [], interfaces := []) == ConfigurationFields(mem, p) <==> ConfigurationHere(mem, p, c)
    ensures ConfigurationFields(mem, p).extra == [] && ConfigurationFields(mem, p).interfaces == []
  {
    hide Word;
    WordHere(mem, p + 2, c.wTotalLength);
  }

  /** The parser builds a tree, and leaves so many bytes, if and only if the memory is
      laid out as that tree: for all memory, however malformed. Hence it fails exactly
      where there is no such layout, and never has a choice. */
  lemma ParsedIff(mem: Memory, p: nat, c: Configuration, left: int)
    ensures ParseConfiguration(mem, p) == Parsed(c, left) <==> ConfigurationAt(mem, p, c, left)
  {
    hide ParseInterfaces, ConfigurationFields, ConfigurationHere, InterfacesAt, FirstRow;
    ConfigurationFieldsIff(mem, p, c);
    if ConfigurationHere(mem, p, c) {
      LengthsHere(mem, p, c);
      var q, end := p + c.bLength, p + c.wTotalLength;
      if ParseConfiguration(mem, p) == Parsed(c, left) {
        var at, mids := InterfacesFound(mem, q, end, c.bNumInterfaces, []);
      }
      forall at: seq<nat>, mids: seq<nat>
        | |at| == |mids| + 1 && at[0] == q && |c.interfaces| == c.bNumInterfaces
          && InterfacesAt(mem, at, mids, end, c.interfaces) && FirstRow(mem, at, mids, c.extra)
        ensures ParseInterfaces(mem, q, end - q, c.bNumInterfaces, []) == Body(c.extra, c.interfaces, end - Last(at))
      {
        InterfacesParsed(mem, at, mids, end, c.interfaces, [], c.extra);
      }
    }
  }

  lemma LengthsHere(mem: Memory, p: nat, c: Configuration)
    requires ConfigurationHere(mem, p, c)
    ensures var f := ConfigurationFields(mem, p);
      f.bLength == c.bLength && f.wTotalLength == c.wTotalLength && f.bNumInterfaces == c.bNumInterfaces
  {
    ConfigurationFieldsIff(mem, p, c);
  }

  lemma FailsIff(mem: Memory, p: nat)
    ensures ParseConfiguration(mem, p).Bad? <==> forall c, left :: !ConfigurationAt(mem, p, c, left)
  {
    hide ParseConfiguration, ConfigurationAt;
    var r := ParseConfiguration(mem, p);
    if r.Parsed? {
      ParsedIff(mem, p, r.value, r.used);
    } else {
      forall c, left ensures !ConfigurationAt(mem, p, c, left) {
        ParsedIff(mem, p, c, left);
      }
    }
  }
}
