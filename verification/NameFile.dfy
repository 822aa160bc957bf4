/** The reading of the file of names, line by line: which section a line stands in
    decides whose name it gives. */
module NameFile {
  import opened Bags
  import opened Bytes
  import opened NameTables

  const ULONG_MAX: nat := 0xFFFF_FFFF_FFFF_FFFF

  // ------------------------------------------------------------ characters

  /** The character at i, and the terminating zero past the end. */
  function At(line: string, i: nat): char {
    if i < |line| then line[i] else '\0'
  }

  predicate IsSpace(c: char) {
    c == ' ' || '\t' <= c <= '\r'
  }

  predicate IsHex(c: char) {
    '0' <= c <= '9' || 'a' <= c <= 'f' || 'A' <= c <= 'F'
  }

  function HexValue(c: char): (v: nat)
    requires IsHex(c)
    ensures v < 16
  {
    if '0' <= c <= '9' then c as int - '0' as int
    else if 'a' <= c <= 'f' then c as int - 'a' as int + 10
    else c as int - 'A' as int + 10
  }

  function Find(line: string, c: char): (n: nat)
    ensures n <= |line| && c !in line[..n] && (n < |line| ==> line[n] == c)
  {
    if line == [] || line[0] == c then 0
    else
      assert line[..1 + Find(line[1..], c)] == [line[0]] + line[1..][..Find(line[1..], c)];
      1 + Find(line[1..], c)
  }

  /** The line without its ends: a string up to its zero, cut at the first return, then
      at the first newline. */
  function Cut(buf: string): string {
    var z := buf[..Find(buf, '\0')];
    var s := z[..Find(z, '\r')];
    s[..Find(s, '\n')]
  }

  predicate Starts(line: string, prefix: string) {
    |prefix| <= |line| && line[..|prefix|] == prefix
  }

  function SkipSpaces(line: string, i: nat): (n: nat)
    ensures n >= i
    decreases |line| - i
  {
    if i < |line| && IsSpace(line[i]) then SkipSpaces(line, i + 1) else i
  }

  function Min(a: nat, b: nat): nat {
    if a < b then a else b
  }

  /** The hexadecimal digits from i on, saturating as strtoul does. */
  function Digits(line: string, i: nat, acc: nat): (r: (nat, nat))
    ensures r.1 >= i
    decreases |line| - i
  {
    if i < |line| && IsHex(line[i]) then Digits(line, i + 1, Min(acc * 16 + HexValue(line[i]), ULONG_MAX)) else (acc, i)
  }

  /** strtoul base 16 at a digit, and what an unsigned int keeps of it. */
  function StrToUl(line: string, i: nat): (r: (U32, nat)) {
    var from := if At(line, i) == '0' && At(line, i + 1) in {'x', 'X'} && IsHex(At(line, i + 2)) then i + 2 else i;
    var d := Digits(line, from, 0);
    (d.0 % 0x1_0000_0000, d.1)
  }

  // ------------------------------------------------------------ sections

  /** The section variables; -1 means not in such a section. */
  datatype Section = Section(vendor: int, class_: int, subclass: int, hut: int, lang: int)

  const NO_SECTION := Section(-1, -1, -1, -1, -1)

  /** What an int keeps of an unsigned int. */
  function AsInt(u: U32): int {
    if u < 0x8000_0000 then u else u - 0x1_0000_0000
  }

  function Low8(n: int): U8 {
    n % 0x100
  }

  function Low16(n: int): U16 {
    n % 0x1_0000
  }

  datatype Line = Line(section: Section, naming: Option<Naming>)

  function Kept(s: Section): Line {
    Line(s, None)
  }

  /** The number at i and the name after it, if there is one. */
  function Numbered(line: string, i: nat): Option<(U32, string)> {
    var d := StrToUl(line, i);
    var n := SkipSpaces(line, d.1);
    if n < |line| && line[n] != '\0' then Some((d.0, line[n..])) else None
  }

  function ClassLine(s: Section, line: string): Line {
    var i := SkipSpaces(line, 2);
    if !IsHex(At(line, i)) then Kept(s)
    else
      match Numbered(line, i)
      case None => Kept(s)
      case Some((u, name)) => Line(Section(-1, AsInt(u), -1, -1, -1), Some(Naming(Class(Low8(u)), name)))
  }

  function VendorLine(s: Section, line: string): Line {
    match Numbered(line, 0)
    case None => Kept(s)
    case Some((u, name)) => Line(Section(AsInt(u), -1, -1, -1, -1), Some(Naming(Vendor(Low16(u)), name)))
  }

  function SubLine(s: Section, line: string): Line {
    match Numbered(line, 1)
    case None => Kept(s)
    case Some((u, name)) =>
      if s.vendor != -1 then Line(s, Some(Naming(Product((Low16(s.vendor), Low16(u))), name)))
      else if s.class_ != -1 then
        Line(s.(subclass := AsInt(u)), Some(Naming(Subclass((Low8(s.class_), Low8(u))), name)))
      else Kept(s)
  }

  function ProtocolLine(s: Section, line: string): Line {
    match Numbered(line, 2)
    case None => Kept(s)
    case Some((u, name)) =>
      if s.class_ != -1 && s.subclass != -1 then
        Line(s, Some(Naming(Protocol((Low8(s.class_), Low8(s.subclass), Low8(u))), name)))
      else Kept(s)
  }

  /** One line, tested in the source's order: several prefixes are hexadecimal digits
      too and must be recognised before the vendors. */
  function ReadLine(s: Section, line: string): Line {
    if At(line, 0) == '#' || At(line, 0) == '\0' then Kept(s)
    else if Starts(line, "PHYSDES ") || Starts(line, "PHY ") || Starts(line, "BIAS ") then Kept(s)
    else if Starts(line, "L ") then Kept(Section(-1, -1, -1, -1, 1))
    else if Starts(line, "C ") then ClassLine(s, line)
    else if Starts(line, "AT") && IsSpace(At(line, 2)) then Kept(s)
    else if Starts(line, "HCC") && IsSpace(At(line, 3)) then Kept(s)
    else if IsHex(At(line, 0)) then VendorLine(s, line)
    else if At(line, 0) == '\t' && IsHex(At(line, 1)) then SubLine(s, line)
    else if At(line, 0) == '\t' && At(line, 1) == '\t' && IsHex(At(line, 2)) then ProtocolLine(s, line)
    else if Starts(line, "HID ") then Kept(s)
    else if Starts(line, "HUT ") then Kept(Section(-1, -1, -1, 1, -1))
    else Kept(s)
  }

  datatype Reading = Reading(section: Section, namings: seq<Naming>)

  function OptionSeq<T>(o: Option<T>): seq<T> {
    match o
    case None => []
    case Some(x) => [x]
  }

  /** What the lines read name, in order. */
  function ReadLines(s: Section, bufs: seq<string>): Reading
    decreases |bufs|
  {
    if bufs == [] then Reading(s, [])
    else
      var l := ReadLine(s, Cut(bufs[0]));
      var later := ReadLines(l.section, bufs[1..]);
      Reading(later.section, OptionSeq(l.naming) + later.namings)
  }

  /** At most one section is open, and a subclass only inside a class. */
  predicate OneSection(s: Section) {
    && (s.vendor != -1 ==> s.class_ == -1 && s.hut == -1 && s.lang == -1)
    && (s.class_ != -1 ==> s.hut == -1 && s.lang == -1)
    && (s.hut != -1 ==> s.lang == -1)
    && (s.subclass != -1 ==> s.class_ != -1)
  }

  lemma LineKeepsOneSection(s: Section, line: string)
    requires OneSection(s)
    ensures OneSection(ReadLine(s, line).section)
  {
    hide Numbered, Starts, IsHex, IsSpace;
  }

  /** Whatever the file holds, never two sections are open at once. */
  lemma {:induction false} NeverTwoSections(s: Section, bufs: seq<string>)
    requires OneSection(s)
    ensures OneSection(ReadLines(s, bufs).section)
    decreases |bufs|
  {
    hide ReadLine, OneSection;
    if bufs != [] {
      LineKeepsOneSection(s, Cut(bufs[0]));
      NeverTwoSections(ReadLine(s, Cut(bufs[0])).section, bufs[1..]);
    }
  }

  lemma ReadingStarts()
    ensures OneSection(NO_SECTION)
  {
  }

  /** The loop that reads the file into the tables. */
  method Parse(names: NameDatabase, bufs: seq<string>) returns (s: Section)
    requires names.Valid()
    modifies names
    ensures names.Valid()
    ensures names.names == FileAll(old(names.names), ReadLines(NO_SECTION, bufs).namings)
    ensures OneSection(s)
  {
    hide ReadLine, OneSection, File;
    s := NO_SECTION;
    ReadingStarts();
    NeverTwoSections(s, bufs);
    ghost var all := FileAll(names.names, ReadLines(s, bufs).namings);
    ghost var end := ReadLines(s, bufs).section;
    for i := 0 to |bufs|
      invariant names.Valid()
      invariant all == FileAll(names.names, ReadLines(s, bufs[i..]).namings)
      invariant end == ReadLines(s, bufs[i..]).section
    {
      var l := ReadLine(s, Cut(bufs[i]));
      assert bufs[i..][0] == bufs[i] && bufs[i..][1..] == bufs[i + 1..];
      ghost var later := ReadLines(l.section, bufs[i + 1..]).namings;
      if l.naming.Some? {
        assert ([l.naming.value] + later)[1..] == later;
        var code := names.NewName(l.naming.value);
      } else {
        assert [] + later == later;
      }
      s := l.section;
    }
    assert bufs[|bufs|..] == [];
  }
}
