/** Reading inverts writing: a file printed from vendors with their products and
    classes with their subclasses and protocols is read back as exactly those names,
    in order. */
module NameFileRoundTrip {
  import opened Bags
  import opened Bytes
  import opened NameTables
  import opened NameFile

  // ------------------------------------------------------------ what a file describes

  datatype Item<T> = Item(id: T, name: string)

  datatype Subclassed = Subclassed(id: U8, name: string, protocols: seq<Item<U8>>)

  datatype Part =
    | VendorPart(vendor: U16, name: string, products: seq<Item<U16>>)
    | ClassPart(class_: U8, name: string, subclasses: seq<Subclassed>)

  predicate GoodName(name: string) {
    name != [] && !IsSpace(name[0]) && forall c :: c in name ==> c !in {'\0', '\r', '\n'}
  }

  predicate GoodSubclass(s: Subclassed) {
    GoodName(s.name) && forall p :: p in s.protocols ==> GoodName(p.name)
  }

  predicate GoodPart(p: Part) {
    && GoodName(p.name)
    && match p
       case VendorPart(_, _, products) => forall q :: q in products ==> GoodName(q.name)
       case ClassPart(_, _, subclasses) => forall s :: s in subclasses ==> GoodSubclass(s)
  }

  // ------------------------------------------------------------ the printer

  function HexDigit(v: nat): (c: char)
    requires v < 16
    ensures IsHex(c) && HexValue(c) == v
    ensures '0' <= c <= '9' || 'a' <= c <= 'f'
  {
    if v < 10 then '0' + v as char else 'a' + (v - 10) as char
  }

  function Hex2(n: U8): (s: string)
    ensures |s| == 2
  {
    [HexDigit(n / 16), HexDigit(n % 16)]
  }

  function Hex4(n: U16): (s: string)
    ensures |s| == 4
  {
    var hi, lo := n / 0x100, n % 0x100;
    Hex2(hi) + Hex2(lo)
  }

  const GAP: string := "  "

  function Text(prefix: string, digits: string, name: string): string {
    prefix + digits + GAP + name
  }

  function Ended(line: string): string {
    line + "\n"
  }

  function ProductLines(ps: seq<Item<U16>>): seq<string> {
    if ps == [] then [] else [Ended(Text("\t", Hex4(ps[0].id), ps[0].name))] + ProductLines(ps[1..])
  }

  function ProtocolLines(ps: seq<Item<U8>>): seq<string> {
    if ps == [] then [] else [Ended(Text("\t\t", Hex2(ps[0].id), ps[0].name))] + ProtocolLines(ps[1..])
  }

  function SubclassLines(ss: seq<Subclassed>): seq<string> {
    if ss == [] then []
    else [Ended(Text("\t", Hex2(ss[0].id), ss[0].name))] + (ProtocolLines(ss[0].protocols) + SubclassLines(ss[1..]))
  }

  function PartLines(p: Part): seq<string> {
    match p
    case VendorPart(v, name, products) => [Ended(Text("", Hex4(v), name))] + ProductLines(products)
    case ClassPart(c, name, subclasses) => [Ended(Text("C ", Hex2(c), name))] + SubclassLines(subclasses)
  }

  function FileLines(ps: seq<Part>): seq<string> {
    if ps == [] then [] else PartLines(ps[0]) + FileLines(ps[1..])
  }

  // ------------------------------------------------------------ its names

  function ProductNames(v: U16, ps: seq<Item<U16>>): seq<Naming> {
    if ps == [] then [] else [Naming(Product((v, ps[0].id)), ps[0].name)] + ProductNames(v, ps[1..])
  }

  function ProtocolNames(c: U8, s: U8, ps: seq<Item<U8>>): seq<Naming> {
    if ps == [] then [] else [Naming(Protocol((c, s, ps[0].id)), ps[0].name)] + ProtocolNames(c, s, ps[1..])
  }

  function SubclassNames(c: U8, ss: seq<Subclassed>): seq<Naming> {
    if ss == [] then []
    else
      var s := ss[0];
      [Naming(Subclass((c, s.id)), s.name)] + (ProtocolNames(c, s.id, s.protocols) + SubclassNames(c, ss[1..]))
  }

  function PartNames(p: Part): seq<Naming> {
    match p
    case VendorPart(v, name, products) => [Naming(Vendor(v), name)] + ProductNames(v, products)
    case ClassPart(c, name, subclasses) => [Naming(Class(c), name)] + SubclassNames(c, subclasses)
  }

  function FileNames(ps: seq<Part>): seq<Naming> {
    if ps == [] then [] else PartNames(ps[0]) + FileNames(ps[1..])
  }

  // ------------------------------------------------------------ one line

  lemma {:induction false} FindLast(s: string, c: char)
    requires c !in s
    ensures NameFile.Find(s, c) == |s| && NameFile.Find(s + [c], c) == |s|
  {
    if s == [] {
      assert s + [c] == [c];
    } else {
      assert (s + [c])[1..] == s[1..] + [c];
      FindLast(s[1..], c);
    }
  }

  lemma CutEnded(line: string)
    requires forall c :: c in line ==> c !in {'\0', '\r', '\n'}
    ensures Cut(Ended(line)) == line
  {
    var b := line + ['\n'];
    assert b == Ended(line);
    FindLast(b, '\0');
    assert b[..|b|] == b;
    FindLast(b, '\r');
    FindLast(line, '\n');
    assert b[..|line|] == line;
  }

  lemma DigitStep(line: string, i: nat, acc: nat)
    requires i < |line| && IsHex(line[i]) && acc < 0x1_0000_0000
    ensures Digits(line, i, acc) == Digits(line, i + 1, acc * 16 + HexValue(line[i]))
  {
  }

  lemma TwoDigits(line: string, i: nat, acc: nat, n: U8)
    requires i + 2 <= |line| && line[i..i + 2] == Hex2(n) && acc < 0x1_0000
    ensures Digits(line, i, acc) == Digits(line, i + 2, acc * 0x100 + n)
  {
    assert line[i] == line[i..i + 2][0] && line[i + 1] == line[i..i + 2][1];
    DigitStep(line, i, acc);
    DigitStep(line, i + 1, acc * 16 + n / 16);
  }

  lemma SpacesSkipped(line: string, i: nat)
    requires i + 2 < |line| && line[i] == ' ' && line[i + 1] == ' ' && !IsSpace(line[i + 2])
    ensures SkipSpaces(line, i) == i + 2
  {
    assert SkipSpaces(line, i + 1) == SkipSpaces(line, i + 2);
  }

  /** The text of a line from its digits on. */
  lemma TextParts(prefix: string, digits: string, name: string)
    requires GoodName(name)
    ensures var t, i, n := Text(prefix, digits, name), |prefix|, |digits|;
      && |t| > i + n + 2 && t[..i] == prefix && t[i..i + n] == digits && t[i + n] == ' ' && t[i + n + 1] == ' '
      && !IsSpace(t[i + n + 2]) && t[i + n + 2..] == name && t[i + n + 2] != '\0'
  {
    assert name[0] in name;
  }

  lemma Numbered2(prefix: string, n: U8, name: string)
    requires GoodName(name)
    ensures Numbered(Text(prefix, Hex2(n), name), |prefix|) == Some((n, name))
  {
    hide Text, Hex2;
    var t, i := Text(prefix, Hex2(n), name), |prefix|;
    TextParts(prefix, Hex2(n), name);
    TwoDigits(t, i, 0, n);
    assert t[i + 1] == t[i..i + 2][1];
    assert IsHex(Hex2(n)[1]) by { HexDigits(n); }
    assert StrToUl(t, i) == (n, i + 2);
    SpacesSkipped(t, i + 2);
  }

  lemma HexDigits(n: U8)
    ensures forall k :: 0 <= k < 2 ==> IsHex(Hex2(n)[k]) && ('0' <= Hex2(n)[k] <= '9' || 'a' <= Hex2(n)[k] <= 'f')
  {
  }

  lemma Numbered4(prefix: string, n: U16, name: string)
    requires GoodName(name)
    ensures Numbered(Text(prefix, Hex4(n), name), |prefix|) == Some((n, name))
  {
    hide Text, Hex2;
    var t, i := Text(prefix, Hex4(n), name), |prefix|;
    var hi, lo := n / 0x100, n % 0x100;
    TextParts(prefix, Hex4(n), name);
    assert t[i..i + 4][..2] == t[i..i + 2] && t[i..i + 4][2..] == t[i + 2..i + 4];
    TwoDigits(t, i, 0, hi);
    TwoDigits(t, i + 2, hi, lo);
    assert t[i + 1] == t[i..i + 2][1];
    assert IsHex(Hex2(hi)[1]) by { HexDigits(hi); }
    assert StrToUl(t, i) == (n, i + 4);
    SpacesSkipped(t, i + 4);
  }

  // ------------------------------------------------------------ which line it is

  lemma NotStarted(line: string, prefix: string)
    requires prefix != [] && At(line, 0) != prefix[0]
    ensures !Starts(line, prefix)
  {
    if |prefix| <= |line| {
      assert line[..|prefix|][0] == line[0];
    }
  }

  /** A line that begins with a tab or a small hexadecimal digit has none of the words
      the reader looks for first. */
  lemma NoWord(line: string)
    requires At(line, 0) !in {'P', 'B', 'L', 'C', 'A', 'H'}
    ensures !Starts(line, "PHYSDES ") && !Starts(line, "PHY ") && !Starts(line, "BIAS ") && !Starts(line, "L ")
    ensures !Starts(line, "C ") && !Starts(line, "AT") && !Starts(line, "HCC")
    ensures !Starts(line, "HID ") && !Starts(line, "HUT ")
  {
    NotStarted(line, "PHYSDES ");
    NotStarted(line, "PHY ");
    NotStarted(line, "BIAS ");
    NotStarted(line, "L ");
    NotStarted(line, "C ");
    NotStarted(line, "AT");
    NotStarted(line, "HCC");
    NotStarted(line, "HID ");
    NotStarted(line, "HUT ");
  }

  lemma VendorRead(s: Section, v: U16, name: string)
    requires GoodName(name)
    ensures ReadLine(s, Text("", Hex4(v), name)) == Line(Section(v, -1, -1, -1, -1), Some(Naming(Vendor(v), name)))
  {
    hide Text, Hex2, Starts, NameFile.Numbered;
    var t, hi := Text("", Hex4(v), name), v / 0x100;
    TextParts("", Hex4(v), name);
    HexDigits(hi);
    assert t[0] == t[0..4][0] == Hex2(hi)[0];
    NoWord(t);
    Numbered4("", v, name);
  }

  lemma ClassRead(s: Section, c: U8, name: string)
    requires GoodName(name)
    ensures ReadLine(s, Text("C ", Hex2(c), name)) == Line(Section(-1, c, -1, -1, -1), Some(Naming(Class(c), name)))
  {
    hide Text, Hex2, Starts, NameFile.Numbered;
    var t := Text("C ", Hex2(c), name);
    TextParts("C ", Hex2(c), name);
    HexDigits(c);
    assert t[0] == t[..2][0] == 'C' && t[2] == t[2..4][0];
    NotStarted(t, "PHYSDES ");
    NotStarted(t, "PHY ");
    NotStarted(t, "BIAS ");
    NotStarted(t, "L ");
    assert Starts(t, "C ") by { StartsItself(t, "C "); }
    assert SkipSpaces(t, 2) == 2;
    Numbered2("C ", c, name);
  }

  lemma StartsItself(line: string, prefix: string)
    requires |prefix| <= |line| && line[..|prefix|] == prefix
    ensures Starts(line, prefix)
  {
  }

  lemma ProductRead(s: Section, p: U16, name: string)
    requires GoodName(name) && 0 <= s.vendor < 0x1_0000
    ensures ReadLine(s, Text("\t", Hex4(p), name)) == Line(s, Some(Naming(Product((s.vendor, p)), name)))
  {
    hide Text, Hex2, Starts, NameFile.Numbered;
    var t, hi := Text("\t", Hex4(p), name), p / 0x100;
    TextParts("\t", Hex4(p), name);
    HexDigits(hi);
    assert t[0] == t[..1][0] == '\t' && t[1] == t[1..5][0] == Hex2(hi)[0];
    NoWord(t);
    Numbered4("\t", p, name);
  }

  lemma SubclassRead(s: Section, c: U8, u: U8, name: string)
    requires GoodName(name) && s.vendor == -1 && s.class_ == c
    ensures ReadLine(s, Text("\t", Hex2(u), name)) == Line(s.(subclass := u), Some(Naming(Subclass((c, u)), name)))
  {
    hide Text, Hex2, Starts, NameFile.Numbered;
    var t := Text("\t", Hex2(u), name);
    TextParts("\t", Hex2(u), name);
    HexDigits(u);
    assert t[0] == t[..1][0] == '\t' && t[1] == t[1..3][0] == Hex2(u)[0];
    NoWord(t);
    Numbered2("\t", u, name);
  }

  lemma ProtocolRead(s: Section, c: U8, u: U8, p: U8, name: string)
    requires GoodName(name) && s.class_ == c && s.subclass == u
    ensures ReadLine(s, Text("\t\t", Hex2(p), name)) == Line(s, Some(Naming(Protocol((c, u, p)), name)))
  {
    hide Text, Hex2, Starts, NameFile.Numbered;
    var t := Text("\t\t", Hex2(p), name);
    TextParts("\t\t", Hex2(p), name);
    HexDigits(p);
    assert t[0] == t[..2][0] == '\t' && t[1] == t[..2][1] == '\t' && t[2] == t[2..4][0] == Hex2(p)[0];
    NoWord(t);
    Numbered2("\t\t", p, name);
  }

  /** A printed line has no line end inside. */
  lemma TextCut(prefix: string, digits: string, name: string)
    requires GoodName(name)
    requires forall c :: c in prefix + digits ==> c !in {'\0', '\r', '\n'}
    ensures Cut(Ended(Text(prefix, digits, name))) == Text(prefix, digits, name)
  {
    var t := Text(prefix, digits, name);
    forall c | c in t ensures c !in {'\0', '\r', '\n'} {
      assert c in prefix + digits || c in GAP || c in name;
    }
    CutEnded(t);
  }

  lemma DigitsPlain2(n: U8)
    ensures forall c :: c in Hex2(n) ==> c !in {'\0', '\r', '\n', '\t'}
  {
    HexDigits(n);
  }

  lemma DigitsPlain4(n: U16)
    ensures forall c :: c in Hex4(n) ==> c !in {'\0', '\r', '\n', '\t'}
  {
    var hi, lo := n / 0x100, n % 0x100;
    DigitsPlain2(hi);
    DigitsPlain2(lo);
  }

  // ------------------------------------------------------------ the whole file

  lemma {:induction false} ReadAppended(s: Section, a: seq<string>, b: seq<string>)
    ensures var ra := ReadLines(s, a); var rb := ReadLines(ra.section, b);
      ReadLines(s, a + b) == Reading(rb.section, ra.namings + rb.namings)
    decreases |a|
  {
    hide ReadLine;
    if a == [] {
      assert a + b == b;
      assert [] + ReadLines(s, b).namings == ReadLines(s, b).namings;
    } else {
      assert (a + b)[1..] == a[1..] + b;
      var l := ReadLine(s, Cut(a[0]));
      ReadAppended(l.section, a[1..], b);
      var ra := ReadLines(l.section, a[1..]);
      var rb := ReadLines(ra.section, b);
      assert OptionSeq(l.naming) + (ra.namings + rb.namings) == (OptionSeq(l.naming) + ra.namings) + rb.namings;
    }
  }

  lemma ReadFirst(s: Section, line: string, later: seq<string>)
    requires Cut(Ended(line)) == line && ReadLine(s, line).naming.Some?
    ensures var l := ReadLine(s, line); var r := ReadLines(l.section, later);
      ReadLines(s, [Ended(line)] + later) == Reading(r.section, [l.naming.value] + r.namings)
  {
    hide ReadLine, Cut, Ended;
    assert ([Ended(line)] + later)[1..] == later;
  }

  lemma {:induction false} ProductsRead(s: Section, v: U16, ps: seq<Item<U16>>)
    requires s.vendor == v && forall q :: q in ps ==> GoodName(q.name)
    ensures ReadLines(s, ProductLines(ps)) == Reading(s, ProductNames(v, ps))
    decreases |ps|
  {
    hide ReadLine, Text, Hex4, GoodName, Ended, Cut;
    if ps != [] {
      var p := ps[0];
      DigitsPlain4(p.id);
      TextCut("\t", Hex4(p.id), p.name);
      ProductRead(s, p.id, p.name);
      ReadFirst(s, Text("\t", Hex4(p.id), p.name), ProductLines(ps[1..]));
      ProductsRead(s, v, ps[1..]);
    }
  }

  lemma {:induction false} ProtocolsRead(s: Section, c: U8, u: U8, ps: seq<Item<U8>>)
    requires s.class_ == c && s.subclass == u && forall q :: q in ps ==> GoodName(q.name)
    ensures ReadLines(s, ProtocolLines(ps)) == Reading(s, ProtocolNames(c, u, ps))
    decreases |ps|
  {
    hide ReadLine, Text, Hex2, GoodName, Ended, Cut;
    if ps != [] {
      var p := ps[0];
      DigitsPlain2(p.id);
      TextCut("\t\t", Hex2(p.id), p.name);
      ProtocolRead(s, c, u, p.id, p.name);
      ReadFirst(s, Text("\t\t", Hex2(p.id), p.name), ProtocolLines(ps[1..]));
      ProtocolsRead(s, c, u, ps[1..]);
    }
  }

  lemma {:induction false} SubclassesRead(s: Section, c: U8, ss: seq<Subclassed>)
    requires s.vendor == -1 && s.class_ == c && forall u :: u in ss ==> GoodSubclass(u)
    ensures var r := ReadLines(s, SubclassLines(ss));
      r.namings == SubclassNames(c, ss) && r.section == s.(subclass := r.section.subclass)
    decreases |ss|
  {
    hide ReadLine, Text, Hex2, GoodName, Ended, Cut, ProtocolLines, ProtocolNames;
    if ss != [] {
      var u := ss[0];
      assert GoodSubclass(u);
      var t := s.(subclass := u.id);
      DigitsPlain2(u.id);
      TextCut("\t", Hex2(u.id), u.name);
      SubclassRead(s, c, u.id, u.name);
      ReadFirst(s, Text("\t", Hex2(u.id), u.name), ProtocolLines(u.protocols) + SubclassLines(ss[1..]));
      ProtocolsRead(t, c, u.id, u.protocols);
      ReadAppended(t, ProtocolLines(u.protocols), SubclassLines(ss[1..]));
      SubclassesRead(t, c, ss[1..]);
    }
  }

  lemma PartRead(s: Section, p: Part)
    requires GoodPart(p)
    ensures ReadLines(s, PartLines(p)).namings == PartNames(p)
  {
    hide ReadLine, Text, Hex2, Hex4, GoodName, Ended, Cut, ProductLines, SubclassLines;
    match p {
      case VendorPart(v, name, products) =>
        DigitsPlain4(v);
        TextCut("", Hex4(v), name);
        VendorRead(s, v, name);
        ReadFirst(s, Text("", Hex4(v), name), ProductLines(products));
        ProductsRead(Section(v, -1, -1, -1, -1), v, products);
      case ClassPart(c, name, subclasses) =>
        DigitsPlain2(c);
        TextCut("C ", Hex2(c), name);
        ClassRead(s, c, name);
        ReadFirst(s, Text("C ", Hex2(c), name), SubclassLines(subclasses));
        SubclassesRead(Section(-1, c, -1, -1, -1), c, subclasses);
    }
  }

  /** Whatever section was open before, the printed file names exactly what it
      describes. */
  lemma {:induction false} FileRead(s: Section, ps: seq<Part>)
    requires forall p :: p in ps ==> GoodPart(p)
    ensures ReadLines(s, FileLines(ps)).namings == FileNames(ps)
    decreases |ps|
  {
    hide PartLines, PartNames, GoodPart;
    if ps != [] {
      PartRead(s, ps[0]);
      ReadAppended(s, PartLines(ps[0]), FileLines(ps[1..]));
      FileRead(ReadLines(s, PartLines(ps[0])).section, ps[1..]);
    }
  }
}
