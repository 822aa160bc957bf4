/** What a file of names says, told without the reader's section variables: every line
    has one of six shapes or says nothing, and whose name an indented line gives depends
    on the heading that stands last above it. The reader finds exactly this, in any file. */
module NameLines {
  import opened Bags
  import opened Bytes
  import opened NameTables
  import opened NameFile
  import RoundTrip = NameFileRoundTrip

  // ------------------------------------------------------------ the shapes of lines

  /** A hexadecimal number as strtoul takes it. */
  datatype Numeral = Numeral(prefix: string, digits: string)

  datatype Entry =
    | VendorEntry(number: Numeral, gap: string, name: string)
    | ClassEntry(lead: string, number: Numeral, gap: string, name: string)
    | TabEntry(number: Numeral, gap: string, name: string)
    | TwoTabEntry(number: Numeral, gap: string, name: string)
    | LanguageHeading(text: string)
    | UsageHeading(text: string)

  function HexFrom(acc: nat, digits: string): nat
    requires forall c :: c in digits ==> IsHex(c)
    decreases |digits|
  {
    if digits == [] then acc else HexFrom(acc * 16 + HexValue(digits[0]), digits[1..])
  }

  predicate GoodNumeral(n: Numeral) {
    n.prefix in {"", "0x", "0X"} && n.digits != [] && forall c :: c in n.digits ==> IsHex(c)
  }

  /** The number: what an unsigned int keeps of an unsigned long that does not overflow. */
  function Worth(n: Numeral): U32
    requires GoodNumeral(n)
  {
    Min(HexFrom(0, n.digits), 0xFFFF_FFFF_FFFF_FFFF) % 0x1_0000_0000
  }

  predicate Spaces(s: string) {
    forall c :: c in s ==> IsSpace(c)
  }

  /** What follows a number: any space, and a name. The number ends where it can. */
  predicate GoodRest(n: Numeral, gap: string, name: string) {
    && Spaces(gap) && name != [] && !IsSpace(name[0])
    && var rest := gap + name;
    && !IsHex(rest[0])
    && (n.prefix == "" && n.digits == "0" ==> !(rest[0] in {'x', 'X'} && |rest| > 1 && IsHex(rest[1])))
  }

  function Text(n: Numeral, gap: string, name: string): string {
    (n.prefix + n.digits) + (gap + name)
  }

  function Print(e: Entry): string {
    match e
    case VendorEntry(n, gap, name) => Text(n, gap, name)
    case ClassEntry(lead, n, gap, name) => "C " + (lead + Text(n, gap, name))
    case TabEntry(n, gap, name) => "\t" + Text(n, gap, name)
    case TwoTabEntry(n, gap, name) => "\t\t" + Text(n, gap, name)
    case LanguageHeading(text) => "L " + text
    case UsageHeading(text) => "HUT " + text
  }

  /** Words that begin a line of another kind although they begin with a hexadecimal
      digit. */
  predicate Reserved(line: string) {
    Starts(line, "BIAS ") || Starts(line, "C ") || (Starts(line, "AT") && IsSpace(At(line, 2)))
  }

  predicate Good(e: Entry) {
    match e
    case VendorEntry(n, gap, name) => GoodNumeral(n) && GoodRest(n, gap, name) && !Reserved(Print(e))
    case ClassEntry(lead, n, gap, name) => Spaces(lead) && GoodNumeral(n) && GoodRest(n, gap, name)
    case TabEntry(n, gap, name) => GoodNumeral(n) && GoodRest(n, gap, name)
    case TwoTabEntry(n, gap, name) => GoodNumeral(n) && GoodRest(n, gap, name)
    case _ => true
  }

  /** The line has this shape. */
  predicate Says(line: string, e: Entry) {
    Good(e) && Print(e) == line
  }

  ghost function EntryOf(line: string): (o: Option<Entry>)
    ensures o.Some? ==> Says(line, o.value)
    ensures o.None? ==> forall e :: !Says(line, e)
  {
    if exists e :: Says(line, e) then
      var e :| Says(line, e);
      Some(e)
    else None
  }

  // ------------------------------------------------------------ numbers

  lemma {:induction false} DigitsRun(line: string, i: nat, digits: string, acc: nat)
    requires i + |digits| <= |line| && line[i..i + |digits|] == digits
    requires forall c :: c in digits ==> IsHex(c)
    requires !IsHex(At(line, i + |digits|))
    ensures Digits(line, i, Min(acc, ULONG_MAX)) == (Min(HexFrom(acc, digits), ULONG_MAX), i + |digits|)
    decreases |digits|
  {
    if digits != [] {
      assert line[i] == line[i..i + |digits|][0] == digits[0];
      assert line[i + 1..i + |digits|] == line[i..i + |digits|][1..];
      DigitsRun(line, i + 1, digits[1..], acc * 16 + HexValue(digits[0]));
    }
  }

  lemma {:induction false} SpacesRun(line: string, i: nat, gap: string)
    requires i + |gap| < |line| && line[i..i + |gap|] == gap && Spaces(gap) && !IsSpace(line[i + |gap|])
    ensures SkipSpaces(line, i) == i + |gap|
    decreases |gap|
  {
    if gap != [] {
      assert line[i] == line[i..i + |gap|][0] == gap[0];
      assert line[i + 1..i + |gap|] == line[i..i + |gap|][1..];
      SpacesRun(line, i + 1, gap[1..]);
    }
  }

  /** Where the parts of a text lie in a line. */
  lemma Parts(line: string, i: nat, a: string, b: string, c: string, d: string)
    requires i <= |line| && line[i..] == (a + b) + (c + d)
    ensures var j, k := i + |a|, i + |a| + |b|;
      && |line| == k + |c| + |d| && line[i..j] == a && line[j..k] == b && line[k..k + |c|] == c && line[k + |c|..] == d
      && (forall x :: 0 <= x < |c + d| ==> line[k + x] == (c + d)[x])
  {
    forall x | i <= x < |line| ensures line[x] == ((a + b) + (c + d))[x - i] {
      assert line[i..][x - i] == line[x];
    }
  }

  lemma NumberTaken(line: string, i: nat, n: Numeral, gap: string, name: string)
    requires i <= |line| && line[i..] == Text(n, gap, name) && GoodNumeral(n) && GoodRest(n, gap, name)
    ensures StrToUl(line, i) == (Worth(n), i + |n.prefix| + |n.digits|) && IsHex(At(line, i))
  {
    hide Spaces;
    Parts(line, i, n.prefix, n.digits, gap, name);
    var j, k := i + |n.prefix|, i + |n.prefix| + |n.digits|;
    var rest := gap + name;
    assert line[j] == line[j..k][0] == n.digits[0];
    assert line[k] == rest[0];
    if n.prefix == "" {
      NoPrefix(line, i, n, rest);
    } else {
      assert line[i] == line[i..j][0] && line[i + 1] == line[i..j][1];
    }
    DigitsRun(line, j, n.digits, 0);
  }

  lemma NumberRead(line: string, i: nat, n: Numeral, gap: string, name: string)
    requires i <= |line| && line[i..] == Text(n, gap, name) && GoodNumeral(n) && GoodRest(n, gap, name)
    ensures IsHex(At(line, i))
    ensures '\0' !in line ==> Numbered(line, i) == Some((Worth(n), name))
  {
    hide Digits, Worth, GoodNumeral, StrToUl, IsHex;
    NumberTaken(line, i, n, gap, name);
    Parts(line, i, n.prefix, n.digits, gap, name);
    var k := i + |n.prefix| + |n.digits|;
    assert line[k + |gap|] == line[k + |gap|..][0] == name[0];
    SpacesRun(line, k, gap);
  }

  /** Without a prefix none is seen. */
  lemma NoPrefix(line: string, i: nat, n: Numeral, rest: string)
    requires n.prefix == "" && GoodNumeral(n) && i + |n.digits| + |rest| == |line| && rest != []
    requires line[i..i + |n.digits|] == n.digits && forall x :: 0 <= x < |rest| ==> line[i + |n.digits| + x] == rest[x]
    requires n.digits == "0" ==> !(rest[0] in {'x', 'X'} && |rest| > 1 && IsHex(rest[1]))
    requires !IsHex(rest[0])
    ensures !(At(line, i) == '0' && At(line, i + 1) in {'x', 'X'} && IsHex(At(line, i + 2)))
  {
    var d := n.digits;
    assert line[i] == line[i..i + |d|][0] == d[0];
    if |d| == 1 {
      if d[0] == '0' {
        assert d == "0";
        assert line[i + 1] == rest[0];
        if |rest| > 1 {
          assert line[i + 1 + 1] == rest[1];
        }
      }
    } else {
      assert line[i + 1] == line[i..i + |d|][1] == d[1];
      assert d[1] in d;
    }
  }

  // ------------------------------------------------------------ every number has a shape

  lemma {:induction false} DigitsEnd(line: string, i: nat, acc: nat)
    requires i <= |line|
    ensures var j := Digits(line, i, acc).1;
      i <= j <= |line| && !IsHex(At(line, j)) && (forall x :: i <= x < j ==> IsHex(line[x]))
      && (IsHex(At(line, i)) ==> i < j)
    decreases |line| - i
  {
    if i < |line| && IsHex(line[i]) {
      DigitsEnd(line, i + 1, Min(acc * 16 + HexValue(line[i]), ULONG_MAX));
    }
  }

  lemma {:induction false} SpacesEnd(line: string, i: nat)
    requires i <= |line|
    ensures var j := SkipSpaces(line, i);
      i <= j <= |line| && !IsSpace(At(line, j)) && forall x :: i <= x < j ==> IsSpace(line[x])
    decreases |line| - i
  {
    if i < |line| && IsSpace(line[i]) {
      SpacesEnd(line, i + 1);
    }
  }

  /** What strtoul took for a prefix, if anything. */
  function PrefixAt(line: string, i: nat): (n: nat)
    ensures n <= 2
  {
    if At(line, i) == '0' && At(line, i + 1) in {'x', 'X'} && IsHex(At(line, i + 2)) then 2 else 0
  }

  lemma PrefixText(line: string, i: nat)
    requires i < |line|
    ensures i + PrefixAt(line, i) <= |line| && line[i..i + PrefixAt(line, i)] in {"", "0x", "0X"}
    ensures PrefixAt(line, i) == 2 ==> IsHex(At(line, i + 2))
  {
    if PrefixAt(line, i) == 2 {
      var p := line[i..i + 2];
      if line[i + 1] == 'x' {
        assert p == "0x";
      } else {
        assert p == "0X";
      }
    } else {
      assert line[i..i] == "";
    }
  }

  lemma StrToUlIs(line: string, i: nat)
    ensures var d := Digits(line, i + PrefixAt(line, i), 0); StrToUl(line, i) == (d.0 % 0x1_0000_0000, d.1)
  {
    hide Digits;
  }

  lemma NumberShape(line: string, i: nat, u: U32, name: string) returns (n: Numeral, gap: string)
    requires '\0' !in line && IsHex(At(line, i)) && Numbered(line, i) == Some((u, name))
    ensures GoodNumeral(n) && GoodRest(n, gap, name) && i <= |line| && line[i..] == Text(n, gap, name) && u == Worth(n)
  {
    hide Digits, SkipSpaces, StrToUl, IsHex, IsSpace, HexFrom, GoodRest, PrefixAt;
    StrToUlIs(line, i);
    PrefixText(line, i);
    var j := i + PrefixAt(line, i);
    DigitsEnd(line, j, 0);
    var k := Digits(line, j, 0).1;
    SpacesEnd(line, k);
    var m := SkipSpaces(line, k);
    n, gap := Numeral(line[i..j], line[j..k]), line[k..m];
    DigitsRun(line, j, n.digits, 0);
    assert name == line[m..];
    assert line[i..] == (line[i..j] + line[j..k]) + (line[k..m] + line[m..]);
    assert k > j;
    RestIsGood(line, i, j, k, m);
  }

  lemma RestIsGood(line: string, i: nat, j: nat, k: nat, m: nat)
    requires i <= j < k <= m < |line| && j == i + PrefixAt(line, i) && !IsHex(At(line, k))
    requires (forall x :: j <= x < k ==> IsHex(line[x])) && (forall x :: k <= x < m ==> IsSpace(line[x])) && !IsSpace(line[m])
    requires line[i..j] in {"", "0x", "0X"}
    ensures GoodNumeral(Numeral(line[i..j], line[j..k])) && GoodRest(Numeral(line[i..j], line[j..k]), line[k..m], line[m..])
  {
    var rest := line[k..m] + line[m..];
    assert rest == line[k..];
    if line[i..j] == "" && line[j..k] == "0" {
      assert line[j] == line[j..k][0];
    }
  }

  // ------------------------------------------------------------ every line

  /** What the reader makes of a line of each shape. */
  function Reads(s: Section, e: Entry): Line
    requires Good(e)
  {
    match e
    case VendorEntry(n, _, name) =>
      Line(Section(AsInt(Worth(n)), -1, -1, -1, -1), Some(Naming(Vendor(Worth(n) % 0x1_0000), name)))
    case ClassEntry(_, n, _, name) =>
      Line(Section(-1, AsInt(Worth(n)), -1, -1, -1), Some(Naming(Class(Worth(n) % 0x100), name)))
    case TabEntry(n, _, name) =>
      if s.vendor != -1 then Line(s, Some(Naming(Product((Low16(s.vendor), Worth(n) % 0x1_0000)), name)))
      else if s.class_ != -1 then
        Line(s.(subclass := AsInt(Worth(n))), Some(Naming(Subclass((Low8(s.class_), Worth(n) % 0x100)), name)))
      else Line(s, None)
    case TwoTabEntry(n, _, name) =>
      if s.class_ != -1 && s.subclass != -1 then
        Line(s, Some(Naming(Protocol((Low8(s.class_), Low8(s.subclass), Worth(n) % 0x100)), name)))
      else Line(s, None)
    case LanguageHeading(_) => Line(Section(-1, -1, -1, -1, 1), None)
    case UsageHeading(_) => Line(Section(-1, -1, -1, 1, -1), None)
  }

  lemma StartsIff(line: string, prefix: string)
    ensures Starts(line, prefix) <==> |prefix| <= |line| && forall i :: 0 <= i < |prefix| ==> line[i] == prefix[i]
  {
    if |prefix| <= |line| && forall i :: 0 <= i < |prefix| ==> line[i] == prefix[i] {
      assert line[..|prefix|] == prefix;
    }
    if Starts(line, prefix) {
      forall i | 0 <= i < |prefix| ensures line[i] == prefix[i] {
        assert line[i] == line[..|prefix|][i];
      }
    }
  }

  /** Which word a line begins with, told from its first character. */
  lemma OtherWords(line: string, c: char)
    requires At(line, 0) == c
    ensures c != 'P' ==> !Starts(line, "PHYSDES ") && !Starts(line, "PHY ")
    ensures c != 'B' ==> !Starts(line, "BIAS ")
    ensures c != 'L' ==> !Starts(line, "L ")
    ensures c != 'C' ==> !Starts(line, "C ")
    ensures c != 'A' ==> !Starts(line, "AT")
    ensures c != 'H' ==> !Starts(line, "HCC") && !Starts(line, "HID ") && !Starts(line, "HUT ")
  {
    hide Starts;
    StartsIff(line, "PHYSDES ");
    StartsIff(line, "PHY ");
    StartsIff(line, "BIAS ");
    StartsIff(line, "L ");
    StartsIff(line, "C ");
    StartsIff(line, "AT");
    StartsIff(line, "HCC");
    StartsIff(line, "HID ");
    StartsIff(line, "HUT ");
  }

  lemma VendorReads(s: Section, line: string, e: Entry)
    requires '\0' !in line && e.VendorEntry? && Says(line, e)
    ensures ReadLine(s, line) == Reads(s, e)
  {
    hide Numbered, Starts, Text, Worth, GoodNumeral, GoodRest;
    assert line[0..] == line;
    NumberRead(line, 0, e.number, e.gap, e.name);
    OtherWords(line, At(line, 0));
  }

  lemma ClassReads(s: Section, line: string, e: Entry)
    requires '\0' !in line && e.ClassEntry? && Says(line, e)
    ensures ReadLine(s, line) == Reads(s, e)
  {
    hide Numbered, Starts, Text, Worth, GoodNumeral, GoodRest, SkipSpaces;
    var text := Text(e.number, e.gap, e.name);
    var i := 2 + |e.lead|;
    assert line == "C " + (e.lead + text);
    assert line[0] == 'C' && line[1] == ' ';
    assert line[2..i] == e.lead && line[i..] == text;
    NumberRead(line, i, e.number, e.gap, e.name);
    HexIsNoSpace(At(line, i));
    SpacesRun(line, 2, e.lead);
    OtherWords(line, 'C');
    assert Starts(line, "C ") by { StartsIff(line, "C "); }
  }

  lemma HexIsNoSpace(c: char)
    ensures IsHex(c) ==> !IsSpace(c) && c != '\t' && c != '\0'
  {
  }

  lemma TabReads(s: Section, line: string, e: Entry)
    requires '\0' !in line && e.TabEntry? && Says(line, e)
    ensures ReadLine(s, line) == Reads(s, e)
  {
    hide Numbered, Starts, Text, Worth, GoodNumeral, GoodRest;
    assert line[0] == '\t' && line[1..] == Text(e.number, e.gap, e.name);
    NumberRead(line, 1, e.number, e.gap, e.name);
    OtherWords(line, '\t');
  }

  lemma TwoTabReads(s: Section, line: string, e: Entry)
    requires '\0' !in line && e.TwoTabEntry? && Says(line, e)
    ensures ReadLine(s, line) == Reads(s, e)
  {
    hide Numbered, Starts, Text, Worth, GoodNumeral, GoodRest;
    assert line[0] == '\t' && line[1] == '\t' && line[2..] == Text(e.number, e.gap, e.name);
    NumberRead(line, 2, e.number, e.gap, e.name);
    OtherWords(line, '\t');
  }

  lemma HeadingReads(s: Section, line: string, e: Entry)
    requires '\0' !in line && (e.LanguageHeading? || e.UsageHeading?) && Says(line, e)
    ensures ReadLine(s, line) == Reads(s, e)
  {
    hide Numbered, Starts;
    StartsIff(line, "L ");
    StartsIff(line, "HUT ");
    StartsIff(line, "HCC");
    StartsIff(line, "HID ");
    if e.LanguageHeading? {
      assert line[0] == 'L' && line[1] == ' ';
      OtherWords(line, 'L');
    } else {
      assert line[0] == 'H' && line[1] == 'U' && line[2] == 'T' && line[3] == ' ';
      assert "HCC"[1] == 'C' && "HID "[1] == 'I';
      OtherWords(line, 'H');
    }
  }

  lemma EntryReads(s: Section, line: string, e: Entry)
    requires '\0' !in line && Says(line, e)
    ensures ReadLine(s, line) == Reads(s, e)
  {
    hide ReadLine, Says;
    match e {
      case VendorEntry(_, _, _) => VendorReads(s, line, e);
      case ClassEntry(_, _, _, _) => ClassReads(s, line, e);
      case TabEntry(_, _, _) => TabReads(s, line, e);
      case TwoTabEntry(_, _, _) => TwoTabReads(s, line, e);
      case _ => HeadingReads(s, line, e);
    }
  }

  /** Any other line says nothing and changes nothing. */
  lemma OthersRead(s: Section, line: string)
    requires '\0' !in line && forall e :: !Says(line, e)
    ensures ReadLine(s, line) == Kept(s)
  {
    hide Says, Starts, Numbered;
    if ReadLine(s, line) != Kept(s) {
      if Starts(line, "L ") {
        LanguageShape(line);
      } else if Starts(line, "C ") {
        ClassShape(line);
      } else if IsHex(At(line, 0)) {
        VendorShape(line);
      } else if At(line, 0) == '\t' && IsHex(At(line, 1)) {
        TabShape(line);
      } else if At(line, 0) == '\t' && At(line, 1) == '\t' && IsHex(At(line, 2)) {
        TwoTabShape(line);
      } else {
        UsageShape(line);
      }
    }
  }

  lemma LanguageShape(line: string)
    requires Starts(line, "L ")
    ensures exists e :: Says(line, e)
  {
    assert line == "L " + line[2..];
    assert Says(line, LanguageHeading(line[2..]));
  }

  lemma UsageShape(line: string)
    requires Starts(line, "HUT ")
    ensures exists e :: Says(line, e)
  {
    assert line == "HUT " + line[4..];
    assert Says(line, UsageHeading(line[4..]));
  }

  lemma ClassShape(line: string)
    requires '\0' !in line && Starts(line, "C ")
    requires var i := SkipSpaces(line, 2); IsHex(At(line, i)) && Numbered(line, i).Some?
    ensures exists e :: Says(line, e)
  {
    hide Numbered, Text, SkipSpaces, GoodNumeral, GoodRest;
    var i := SkipSpaces(line, 2);
    var found := Numbered(line, i).value;
    var n, gap := NumberShape(line, i, found.0, found.1);
    SpacesEnd(line, 2);
    var lead := line[2..i];
    assert line == line[..2] + (lead + line[i..]);
    assert Says(line, ClassEntry(lead, n, gap, found.1));
  }

  lemma VendorShape(line: string)
    requires '\0' !in line && IsHex(At(line, 0)) && Numbered(line, 0).Some? && !Reserved(line)
    ensures exists e :: Says(line, e)
  {
    hide Numbered, Text, GoodNumeral, GoodRest;
    var found := Numbered(line, 0).value;
    var n, gap := NumberShape(line, 0, found.0, found.1);
    assert line[0..] == line;
    assert Says(line, VendorEntry(n, gap, found.1));
  }

  lemma TabShape(line: string)
    requires '\0' !in line && At(line, 0) == '\t' && IsHex(At(line, 1)) && Numbered(line, 1).Some?
    ensures exists e :: Says(line, e)
  {
    hide Numbered, Text, GoodNumeral, GoodRest;
    var found := Numbered(line, 1).value;
    var n, gap := NumberShape(line, 1, found.0, found.1);
    assert line == "\t" + line[1..];
    assert Says(line, TabEntry(n, gap, found.1));
  }

  lemma TwoTabShape(line: string)
    requires '\0' !in line && At(line, 0) == '\t' && At(line, 1) == '\t' && IsHex(At(line, 2)) && Numbered(line, 2).Some?
    ensures exists e :: Says(line, e)
  {
    hide Numbered, Text, GoodNumeral, GoodRest;
    var found := Numbered(line, 2).value;
    var n, gap := NumberShape(line, 2, found.0, found.1);
    assert line == "\t\t" + line[2..];
    assert Says(line, TwoTabEntry(n, gap, found.1));
  }

  // ------------------------------------------------------------ a whole file

  /** The last heading above line k, or -1. */
  function LastHeading(es: seq<Option<Entry>>, k: nat): (h: int)
    requires k <= |es|
    ensures -1 <= h < k
    ensures h >= 0 ==> es[h].Some? && Heads(es[h].value)
    ensures forall i :: h < i < k ==> es[i].None? || !Heads(es[i].value)
  {
    if k == 0 then -1
    else if es[k - 1].Some? && Heads(es[k - 1].value) then k - 1
    else LastHeading(es, k - 1)
  }

  predicate Heads(e: Entry) {
    e.VendorEntry? || e.ClassEntry? || e.LanguageHeading? || e.UsageHeading?
  }

  /** The last line with one tab between a heading and line k, or -1. */
  function LastTab(es: seq<Option<Entry>>, h: int, k: nat): (t: int)
    requires -1 <= h < k <= |es|
    ensures t == -1 || (h < t < k && es[t].Some? && es[t].value.TabEntry?)
    ensures forall i :: h < i < k && i > t ==> es[i].None? || !es[i].value.TabEntry?
  {
    if k == h + 1 then -1
    else if es[k - 1].Some? && es[k - 1].value.TabEntry? then k - 1
    else LastTab(es, h, k - 1)
  }

  /** A number that opens a section: all but the one that is -1 in an int. */
  predicate Opens(n: Numeral)
    requires GoodNumeral(n)
  {
    Worth(n) != 0xFFFF_FFFF
  }

  predicate AllGood(es: seq<Option<Entry>>) {
    forall i :: 0 <= i < |es| && es[i].Some? ==> Good(es[i].value)
  }

  /** The name that line k gives, told from the lines above it. */
  function NameAt(es: seq<Option<Entry>>, k: nat): Option<Naming>
    requires k < |es| && AllGood(es)
  {
    if es[k].None? then None
    else
      var h := LastHeading(es, k);
      match es[k].value
      case VendorEntry(n, _, name) => Some(Naming(Vendor(Worth(n) % 0x1_0000), name))
      case ClassEntry(_, n, _, name) => Some(Naming(Class(Worth(n) % 0x100), name))
      case TabEntry(n, _, name) =>
        if h >= 0 && es[h].value.VendorEntry? && Opens(es[h].value.number) then
          Some(Naming(Product((Worth(es[h].value.number) % 0x1_0000, Worth(n) % 0x1_0000)), name))
        else if h >= 0 && es[h].value.ClassEntry? && Opens(es[h].value.number) then
          Some(Naming(Subclass((Worth(es[h].value.number) % 0x100, Worth(n) % 0x100)), name))
        else None
      case TwoTabEntry(n, _, name) =>
        if h >= 0 && es[h].value.ClassEntry? && Opens(es[h].value.number) then
          var t := LastTab(es, h, k);
          if t >= 0 && Opens(es[t].value.number) then
            Some(Naming(Protocol((Worth(es[h].value.number) % 0x100, Worth(es[t].value.number) % 0x100, Worth(n) % 0x100)), name))
          else None
        else None
      case _ => None
  }

  function NamesUpTo(es: seq<Option<Entry>>, k: nat): seq<Naming>
    requires k <= |es| && AllGood(es)
  {
    if k == 0 then [] else NamesUpTo(es, k - 1) + OptionSeq(NameAt(es, k - 1))
  }

  /** The reader's section variables above line k. */
  function SectionAt(es: seq<Option<Entry>>, k: nat): Section
    requires k <= |es| && AllGood(es)
  {
    var h := LastHeading(es, k);
    if h < 0 then NO_SECTION
    else
      match es[h].value
      case VendorEntry(n, _, _) => Section(AsInt(Worth(n)), -1, -1, -1, -1)
      case ClassEntry(_, n, _, _) =>
        var t := LastTab(es, h, k);
        Section(-1, AsInt(Worth(n)), if t >= 0 && Opens(n) then AsInt(Worth(es[t].value.number)) else -1, -1, -1)
      case LanguageHeading(_) => Section(-1, -1, -1, -1, 1)
      case UsageHeading(_) => Section(-1, -1, -1, 1, -1)
  }

  lemma IntParts(u: U32)
    ensures AsInt(u) == -1 <==> u == 0xFFFF_FFFF
    ensures Low16(AsInt(u)) == u % 0x1_0000 && Low8(AsInt(u)) == u % 0x100
  {
  }

  /** One more line. */
  lemma LineReads(es: seq<Option<Entry>>, k: nat)
    requires k < |es| && AllGood(es) && es[k].Some?
    ensures Reads(SectionAt(es, k), es[k].value) == Line(SectionAt(es, k + 1), NameAt(es, k))
  {
    hide Worth, Good, AsInt, Low8, Low16, GoodNumeral;
    assert Good(es[k].value);
    var h := LastHeading(es, k);
    if h >= 0 && (es[h].value.VendorEntry? || es[h].value.ClassEntry?) {
      assert Good(es[h].value);
      NumeralGood(es[h].value);
      IntParts(Worth(es[h].value.number));
      var t := LastTab(es, h, k);
      if t >= 0 {
        assert Good(es[t].value);
        NumeralGood(es[t].value);
        IntParts(Worth(es[t].value.number));
      }
    }
    NumeralGood(es[k].value);
  }

  lemma NumeralGood(e: Entry)
    requires Good(e)
    ensures !e.LanguageHeading? && !e.UsageHeading? ==> GoodNumeral(e.number)
  {
  }

  lemma NoLineReads(es: seq<Option<Entry>>, k: nat)
    requires k < |es| && AllGood(es) && es[k].None?
    ensures Kept(SectionAt(es, k)) == Line(SectionAt(es, k + 1), NameAt(es, k))
  {
    hide Worth, Good, AsInt;
  }

  // ------------------------------------------------------------ the reader

  /** What each line of a file says, its end cut off. */
  ghost function Entries(bufs: seq<string>): (es: seq<Option<Entry>>)
    ensures |es| == |bufs| && AllGood(es)
  {
    seq(|bufs|, i requires 0 <= i < |bufs| => EntryOf(Cut(bufs[i])))
  }

  lemma CutHasNoZero(buf: string)
    ensures '\0' !in Cut(buf)
  {
  }

  lemma ReadOne(s: Section, buf: string)
    ensures var l := ReadLine(s, Cut(buf));
      l == match EntryOf(Cut(buf)) { case Some(e) => Reads(s, e) case None => Kept(s) }
      && ReadLines(s, [buf]) == Reading(l.section, OptionSeq(l.naming))
  {
    hide ReadLine, Cut, Says, Reads, Good;
    CutHasNoZero(buf);
    match EntryOf(Cut(buf)) {
      case Some(e) =>
        assert Good(e) by { SaysGood(Cut(buf), e); }
        EntryReads(s, Cut(buf), e);
      case None => OthersRead(s, Cut(buf));
    }
    assert [buf][1..] == [];
    assert ReadLines(ReadLine(s, Cut(buf)).section, []) == Reading(ReadLine(s, Cut(buf)).section, []);
  }

  lemma SaysGood(line: string, e: Entry)
    requires Says(line, e)
    ensures Good(e)
  {
  }

  lemma {:induction false} ReadUpTo(bufs: seq<string>, k: nat)
    requires k <= |bufs|
    ensures ReadLines(NO_SECTION, bufs[..k]) == Reading(SectionAt(Entries(bufs), k), NamesUpTo(Entries(bufs), k))
  {
    hide ReadLine, ReadLines, Cut, Reads, SectionAt, NameAt;
    var es := Entries(bufs);
    if k == 0 {
      assert bufs[..0] == [];
      NothingRead(es);
    } else {
      ReadUpTo(bufs, k - 1);
      assert bufs[..k] == bufs[..k - 1] + [bufs[k - 1]];
      RoundTrip.ReadAppended(NO_SECTION, bufs[..k - 1], [bufs[k - 1]]);
      ReadOne(SectionAt(es, k - 1), bufs[k - 1]);
      if es[k - 1].Some? {
        LineReads(es, k - 1);
      } else {
        NoLineReads(es, k - 1);
      }
    }
  }

  lemma NothingRead(es: seq<Option<Entry>>)
    requires AllGood(es)
    ensures ReadLines(NO_SECTION, []) == Reading(SectionAt(es, 0), NamesUpTo(es, 0))
  {
  }

  /** Any file at all: the reader names, in order, exactly what the lines name, each
      told from the last heading above it and, inside a class, from the last line with
      one tab since. */
  lemma FileMeans(bufs: seq<string>)
    ensures ReadLines(NO_SECTION, bufs).namings == NamesUpTo(Entries(bufs), |bufs|)
  {
    hide ReadLines, NamesUpTo;
    ReadUpTo(bufs, |bufs|);
    assert bufs[..|bufs|] == bufs;
  }

  /** Under the heading of a language or of usages, as before any heading, indented lines
      name nothing. */
  lemma OtherSectionsNameNothing(es: seq<Option<Entry>>, k: nat)
    requires k < |es| && AllGood(es) && es[k].Some? && (es[k].value.TabEntry? || es[k].value.TwoTabEntry?)
    requires var h := LastHeading(es, k); h < 0 || es[h].value.LanguageHeading? || es[h].value.UsageHeading?
    ensures NameAt(es, k) == None
  {
  }

  /** Comments, empty lines and the kinds of line that the reader passes over say nothing. */
  lemma PassedOver(line: string)
    requires '\0' !in line
    requires (|| line == "" || Starts(line, "#") || Starts(line, "PHYSDES ") || Starts(line, "PHY ") || Starts(line, "BIAS ")
              || (Starts(line, "AT") && |line| > 2 && IsSpace(line[2])) || (Starts(line, "HCC") && |line| > 3 && IsSpace(line[3]))
              || Starts(line, "HID ") || Starts(line, "R ") || Starts(line, "VT"))
    ensures EntryOf(line) == None
  {
    hide Starts, Text;
    StartsIff(line, "#");
    StartsIff(line, "PHYSDES ");
    StartsIff(line, "PHY ");
    StartsIff(line, "BIAS ");
    StartsIff(line, "AT");
    StartsIff(line, "HCC");
    StartsIff(line, "HID ");
    StartsIff(line, "R ");
    StartsIff(line, "VT");
    if EntryOf(line).Some? {
      NotThese(line, EntryOf(line).value);
    }
  }

  lemma NotThese(line: string, e: Entry)
    requires Says(line, e) && '\0' !in line
    ensures line != ""
    ensures e.VendorEntry? ==> IsHex(line[0]) && !Reserved(line)
    ensures e.ClassEntry? ==> |line| >= 2 && line[0] == 'C' && line[1] == ' '
    ensures e.TabEntry? || e.TwoTabEntry? ==> line[0] == '\t'
    ensures e.LanguageHeading? ==> line[0] == 'L'
    ensures e.UsageHeading? ==> |line| >= 4 && line[0] == 'H' && line[1] == 'U'
  {
    hide Starts, Text, GoodNumeral, GoodRest, Worth;
    if e.VendorEntry? {
      assert line[0..] == line;
      NumberRead(line, 0, e.number, e.gap, e.name);
    }
  }

  // ------------------------------------------------------------ characters and line ends

  /** The space characters, and the digits with their values in either case. */
  lemma Characters(c: char)
    ensures IsSpace(c) <==> c as int == 32 || 9 <= c as int <= 13
    ensures IsHex(c) <==> c in "0123456789abcdef" || c in "0123456789ABCDEF"
    ensures forall v :: 0 <= v < 16 && ("0123456789abcdef"[v] == c || "0123456789ABCDEF"[v] == c) ==> IsHex(c) && HexValue(c) == v
  {
    var small, large := "0123456789abcdef", "0123456789ABCDEF";
    if IsHex(c) {
      var v := HexValue(c);
      assert small[v] == c || large[v] == c;
    }
  }

  /** A line ends at the first return, newline or zero. */
  lemma CutAtEnd(line: string, tail: string)
    requires forall c :: c in line ==> c !in {'\0', '\r', '\n'}
    requires tail == "" || tail[0] in {'\0', '\r', '\n'}
    ensures Cut(line + tail) == line
  {
    var z := (line + tail)[..NameFile.Find(line + tail, '\0')];
    FoundAfter(line, tail, '\0');
    var tail1 := tail[..NameFile.Find(tail, '\0')];
    assert z == line + tail1;
    FoundAfter(line, tail1, '\r');
    var tail2 := tail1[..NameFile.Find(tail1, '\r')];
    assert z[..NameFile.Find(z, '\r')] == line + tail2;
    FoundAfter(line, tail2, '\n');
  }

  lemma {:induction false} FoundAfter(line: string, tail: string, c: char)
    requires c !in line
    ensures NameFile.Find(line + tail, c) == |line| + NameFile.Find(tail, c)
  {
    if line == "" {
      assert line + tail == tail;
    } else {
      assert (line + tail)[1..] == line[1..] + tail;
      FoundAfter(line[1..], tail, c);
    }
  }
}
