/** Keeping a linked list of buses or devices in step with what the operating system
    reports: entries still there keep their node, the rest are taken out, and new ones
    are put in front. */
module BusLists {
  import opened Bags

  /** An entry of a list, in place in memory. */
  class Node {
    const name: string
    var next: Node?
    var prev: Node?

    constructor (name: string)
      ensures this.name == name && next == null && prev == null
    {
      this.name := name;
      next, prev := null, null;
    }
  }

  // ------------------------------------------------------------ lists

  predicate Distinct(s: seq<Node>) {
    forall i, j :: 0 <= i < j < |s| ==> s[i] != s[j]
  }

  /** The pointer that stands at position i of a list: null past its ends. */
  function Pointer(s: seq<Node>, i: int): Node? {
    if 0 <= i < |s| then s[i] else null
  }

  /** The nodes of s, linked both ways in this order from the pointer begin. */
  ghost predicate Linked(begin: Node?, s: seq<Node>)
    reads s
  {
    && Distinct(s)
    && begin == Pointer(s, 0)
    && forall i :: 0 <= i < |s| ==> s[i].next == Pointer(s, i + 1) && s[i].prev == Pointer(s, i - 1)
  }

  /** LIST_ADD: a node in front. */
  method ListAdd(begin: Node?, ent: Node, ghost s: seq<Node>) returns (head: Node?)
    requires Linked(begin, s) && ent !in s
    modifies ent, begin
    ensures head == ent && Linked(head, [ent] + s)
  {
    if begin != null {
      ent.next := begin;
      ent.next.prev := ent;
    } else {
      ent.next := null;
    }
    ent.prev := null;
    head := ent;
  }

  /** LIST_DEL: a node out of the middle or an end. */
  method ListDel(begin: Node?, ent: Node, ghost s: seq<Node>, ghost i: nat) returns (head: Node?)
    requires Linked(begin, s) && i < |s| && s[i] == ent
    modifies s
    ensures Linked(head, Without(s, i))
    ensures ent.next == null && ent.prev == null
  {
    hide Without, Pointer;
    head := begin;
    PointerCases(s, i - 1);
    PointerCases(s, i + 1);
    PointerCases(s, 0);
    if ent.prev != null {
      ent.prev.next := ent.next;
    } else {
      head := ent.next;
    }
    if ent.next != null {
      ent.next.prev := ent.prev;
    }
    ent.prev := null;
    ent.next := null;
    assert Bridged(s, i);
    WithoutPointer(s, i, 0);
    BridgedLinks(head, s, i);
  }

  /** All links of s but the two around position i, which pass over it. */
  ghost predicate Bridged(s: seq<Node>, i: nat)
    reads s
  {
    && i < |s|
    && (forall j :: 0 <= j < |s| && j != i ==> s[j].next == Pointer(s, if j == i - 1 then i + 1 else j + 1))
    && (forall j :: 0 <= j < |s| && j != i ==> s[j].prev == Pointer(s, if j == i + 1 then i - 1 else j - 1))
  }

  lemma PointerCases(s: seq<Node>, j: int)
    ensures Pointer(s, j) != null <==> 0 <= j < |s|
    ensures 0 <= j < |s| ==> Pointer(s, j) == s[j]
  {
  }

  lemma PointerAt(s: seq<Node>, j: nat)
    requires j < |s|
    ensures Pointer(s, j) == s[j]
  {
  }

  lemma WithoutPointer(s: seq<Node>, i: nat, j: int)
    requires i < |s|
    ensures |Without(s, i)| == |s| - 1
    ensures Pointer(Without(s, i), j) == Pointer(s, if j < i then j else j + 1)
  {
  }

  lemma WithoutDistinct(s: seq<Node>, i: nat)
    requires i < |s| && Distinct(s)
    ensures Distinct(Without(s, i)) && s[i] !in Without(s, i)
    ensures forall n :: n in Without(s, i) ==> n in s
  {
    var w := Without(s, i);
    forall j, k | 0 <= j < k < |w| ensures w[j] != w[k] {
      WithoutPointer(s, i, j);
      WithoutPointer(s, i, k);
    }
  }

  lemma BridgedLinks(head: Node?, s: seq<Node>, i: nat)
    requires Distinct(s) && Bridged(s, i) && head == Pointer(Without(s, i), 0)
    ensures Linked(head, Without(s, i))
  {
    hide Without, Distinct, Pointer;
    var w := Without(s, i);
    WithoutDistinct(s, i);
    WithoutPointer(s, i, 0);
    forall j | 0 <= j < |w| ensures w[j].next == Pointer(w, j + 1) && w[j].prev == Pointer(w, j - 1) {
      WithoutPointer(s, i, j);
      WithoutPointer(s, i, j + 1);
      WithoutPointer(s, i, j - 1);
      var k := if j < i then j else j + 1;
      assert w[j] == s[k] by {
        PointerAt(w, j);
        PointerAt(s, k);
      }
    }
  }

  // ------------------------------------------------------------ what reconciling means

  function FindName(s: seq<Node>, name: string): (i: nat)
    ensures i <= |s| && (i < |s| ==> s[i].name == name)
    ensures forall j :: 0 <= j < i ==> s[j].name != name
  {
    if s == [] || s[0].name == name then 0
    else
      var i := FindName(s[1..], name);
      assert forall j :: 1 <= j < 1 + i ==> s[j] == s[1..][j - 1];
      1 + i
  }

  /** Known entries that stay, and reported ones that are new. */
  datatype Match = Match(kept: seq<Node>, left: seq<Node>)

  /** Each known entry takes the first reported one of its name off the report. */
  function Compare(known: seq<Node>, found: seq<Node>): (m: Match)
    ensures |m.kept| <= |known| && |m.left| <= |found| && |m.kept| + |m.left| == |found|
    decreases |known|
  {
    if known == [] then Match([], found)
    else
      var i := FindName(found, known[0].name);
      if i < |found| then
        var m := Compare(known[1..], Without(found, i));
        Match([known[0]] + m.kept, m.left)
      else Compare(known[1..], found)
  }

  function Backwards(s: seq<Node>): (r: seq<Node>)
    ensures |r| == |s|
  {
    if s == [] then [] else Backwards(s[1..]) + [s[0]]
  }

  /** The list afterwards: the new entries, last reported first, then those that stay. */
  function Reconciled(known: seq<Node>, found: seq<Node>): seq<Node> {
    Backwards(Compare(known, found).left) + Compare(known, found).kept
  }

  function Changes(known: seq<Node>, found: seq<Node>): nat {
    |known| - |Compare(known, found).kept| + |Compare(known, found).left|
  }

  function Names(s: seq<Node>): (ns: seq<string>)
    ensures |ns| == |s| && forall i :: 0 <= i < |s| ==> ns[i] == s[i].name
  {
    seq(|s|, i requires 0 <= i < |s| => s[i].name)
  }

  lemma NamesCons(s: seq<Node>)
    requires s != []
    ensures multiset(Names(s)) == multiset{s[0].name} + multiset(Names(s[1..]))
  {
    assert Names(s) == [s[0].name] + Names(s[1..]);
  }

  lemma NamesJoin(a: seq<Node>, b: seq<Node>)
    ensures multiset(Names(a + b)) == multiset(Names(a)) + multiset(Names(b))
  {
    assert Names(a + b) == Names(a) + Names(b);
  }

  lemma NamesWithout(s: seq<Node>, i: nat)
    requires i < |s|
    ensures multiset(Names(s)) == multiset(Names(Without(s, i))) + multiset{s[i].name}
  {
    assert s == s[..i] + ([s[i]] + s[i + 1..]);
    NamesJoin(s[..i], [s[i]] + s[i + 1..]);
    NamesJoin([s[i]], s[i + 1..]);
    NamesJoin(s[..i], s[i + 1..]);
    assert Names([s[i]]) == [s[i].name];
  }

  lemma {:induction false} NamesBackwards(s: seq<Node>)
    ensures multiset(Names(Backwards(s))) == multiset(Names(s))
  {
    if s != [] {
      NamesBackwards(s[1..]);
      NamesJoin(Backwards(s[1..]), [s[0]]);
      NamesCons(s);
      assert Names([s[0]]) == [s[0].name];
    }
  }

  lemma {:induction false} CompareNames(known: seq<Node>, found: seq<Node>)
    ensures var m := Compare(known, found);
      multiset(Names(m.kept)) + multiset(Names(m.left)) == multiset(Names(found))
    decreases |known|
  {
    if known != [] {
      var i := FindName(found, known[0].name);
      if i < |found| {
        CompareNames(known[1..], Without(found, i));
        NamesWithout(found, i);
        NamesCons(Compare(known, found).kept);
        assert Compare(known, found).kept[1..] == Compare(known[1..], Without(found, i)).kept;
      } else {
        CompareNames(known[1..], found);
      }
    }
  }

  /** Afterwards the list has exactly the reported names, each as often as reported,
      whether or not names repeat. */
  lemma ReconciledNames(known: seq<Node>, found: seq<Node>)
    ensures multiset(Names(Reconciled(known, found))) == multiset(Names(found))
  {
    var m := Compare(known, found);
    CompareNames(known, found);
    NamesBackwards(m.left);
    NamesJoin(Backwards(m.left), m.kept);
  }

  // ------------------------------------------------------------ which entries match

  /** The entries of s that have a partner in the other list, or have none: the n-th of a
      name has one if the other list has that name n times. before counts the names
      in front of s. */
  function Ranked(s: seq<Node>, before: multiset<string>, other: multiset<string>, matched: bool): seq<Node> {
    if s == [] then []
    else
      var n, rest := s[0].name, Ranked(s[1..], before + multiset{s[0].name}, other, matched);
      if (before[n] < other[n]) == matched then [s[0]] + rest else rest
  }

  /** Counts that decide alike for this name, however often it still comes. */
  predicate Alike(n: string, before: multiset<string>, other: multiset<string>, before1: multiset<string>,
                  other1: multiset<string>) {
    || before[n] + other1[n] == before1[n] + other[n]
    || (before[n] >= other[n] && before1[n] >= other1[n])
  }

  lemma {:induction false} RankedAlike(s: seq<Node>, before: multiset<string>, other: multiset<string>,
                                       before1: multiset<string>, other1: multiset<string>, matched: bool)
    requires forall i :: 0 <= i < |s| ==> Alike(s[i].name, before, other, before1, other1)
    ensures Ranked(s, before, other, matched) == Ranked(s, before1, other1, matched)
    decreases |s|
  {
    if s != [] {
      var b, b1 := before + multiset{s[0].name}, before1 + multiset{s[0].name};
      assert Alike(s[0].name, before, other, before1, other1);
      forall i | 0 <= i < |s[1..]| ensures Alike(s[1..][i].name, b, other, b1, other1) {
        assert Alike(s[i + 1].name, before, other, before1, other1);
      }
      RankedAlike(s[1..], b, other, b1, other1, matched);
    }
  }

  lemma RankedCons(x: Node, s: seq<Node>, before: multiset<string>, other: multiset<string>, matched: bool)
    ensures Ranked([x] + s, before, other, matched) ==
      (if (before[x.name] < other[x.name]) == matched then [x] else [])
      + Ranked(s, before + multiset{x.name}, other, matched)
  {
    assert ([x] + s)[1..] == s;
  }

  lemma {:induction false} RankedAppend(a: seq<Node>, b: seq<Node>, before: multiset<string>, other: multiset<string>,
                                        matched: bool)
    ensures Ranked(a + b, before, other, matched) ==
      Ranked(a, before, other, matched) + Ranked(b, before + multiset(Names(a)), other, matched)
    decreases |a|
  {
    hide Names, Ranked;
    if a == [] {
      NoNames();
      NothingRanked(before, other, matched);
      assert a + b == b && before + multiset(Names(a)) == before;
    } else {
      var x, rest := a[0], a[1..];
      assert a + b == [x] + (rest + b);
      RankedAppend(rest, b, before + multiset{x.name}, other, matched);
      RankedHead(x, rest, b, before, other, matched);
      assert before + multiset{x.name} + multiset(Names(rest)) == before + multiset(Names(a)) by { NamesCons(a); }
      assert a == [x] + rest;
    }
  }

  lemma RankedHead(x: Node, rest: seq<Node>, b: seq<Node>, before: multiset<string>, other: multiset<string>,
                   matched: bool)
    requires var next := before + multiset{x.name};
      Ranked(rest + b, next, other, matched) ==
      Ranked(rest, next, other, matched) + Ranked(b, next + multiset(Names(rest)), other, matched)
    ensures Ranked([x] + (rest + b), before, other, matched) ==
      Ranked([x] + rest, before, other, matched)
      + Ranked(b, before + multiset{x.name} + multiset(Names(rest)), other, matched)
  {
    hide Names, Ranked;
    RankedCons(x, rest, before, other, matched);
    RankedCons(x, rest + b, before, other, matched);
  }

  lemma NoNames()
    ensures multiset(Names([])) == multiset{}
  {
  }

  lemma NoneOf(s: seq<Node>, name: string)
    requires forall i :: 0 <= i < |s| ==> s[i].name != name
    ensures multiset(Names(s))[name] == 0
  {
    assert name !in Names(s);
  }

  /** A reported entry is taken by the first known one; the rest are ranked as before. */
  lemma RankedTaken(a: seq<Node>, x: Node, b: seq<Node>, rest: multiset<string>)
    requires forall j :: 0 <= j < |a| ==> a[j].name != x.name
    ensures Ranked(a + ([x] + b), multiset{}, multiset{x.name} + rest, false) == Ranked(a + b, multiset{}, rest, false)
  {
    hide Ranked, Names;
    var all, none, mid: multiset<string> := multiset{x.name} + rest, multiset{}, multiset(Names(a));
    assert none + mid == mid;
    RankedAppend(a, [x] + b, none, all, false);
    RankedAppend(a, b, none, rest, false);
    NoneOf(a, x.name);
    RankedAlike(a, none, all, none, rest, false);
    OneRanked(x, b, mid, all);
    RankedAlike(b, mid + multiset{x.name}, all, mid, rest, false);
  }

  lemma OneRanked(x: Node, b: seq<Node>, before: multiset<string>, other: multiset<string>)
    requires before[x.name] < other[x.name]
    ensures Ranked([x] + b, before, other, false) == Ranked(b, before + multiset{x.name}, other, false)
  {
    assert ([x] + b)[1..] == b;
  }

  lemma HeadRanked(s: seq<Node>, other: multiset<string>)
    requires s != []
    ensures Ranked(s, multiset{}, other, true) ==
      (if s[0].name in other then [s[0]] else []) + Ranked(s[1..], multiset{s[0].name}, other, true)
  {
    assert multiset{} + multiset{s[0].name} == multiset{s[0].name};
  }

  /** The first known entry takes the reported one between a and b. */
  lemma FirstTakes(k: Node, rest: seq<Node>, a: seq<Node>, x: Node, b: seq<Node>)
    requires x.name == k.name && forall j :: 0 <= j < |a| ==> a[j].name != x.name
    ensures var known, found, w := [k] + rest, a + ([x] + b), a + b;
      && Ranked(known, multiset{}, multiset(Names(found)), true) ==
         [k] + Ranked(rest, multiset{}, multiset(Names(w)), true)
      && Ranked(found, multiset{}, multiset(Names(known)), false) ==
         Ranked(w, multiset{}, multiset(Names(rest)), false)
  {
    hide Ranked, Names;
    var known, found, w := [k] + rest, a + ([x] + b), a + b;
    assert known[1..] == rest && found[|a|] == x && Without(found, |a|) == w;
    NamesWithout(found, |a|);
    NamesCons(known);
    HeadRanked(known, multiset(Names(found)));
    RankedAlike(rest, multiset{k.name}, multiset(Names(found)), multiset{}, multiset(Names(w)), true);
    RankedTaken(a, x, b, multiset(Names(rest)));
  }

  /** The first known entry is not reported. */
  lemma FirstGoes(known: seq<Node>, found: seq<Node>)
    requires known != [] && forall j :: 0 <= j < |found| ==> found[j].name != known[0].name
    ensures Ranked(known, multiset{}, multiset(Names(found)), true) ==
      Ranked(known[1..], multiset{}, multiset(Names(found)), true)
    ensures Ranked(found, multiset{}, multiset(Names(known)), false) ==
      Ranked(found, multiset{}, multiset(Names(known[1..])), false)
  {
    hide Ranked, Names;
    var all, name := multiset(Names(found)), known[0].name;
    NamesCons(known);
    NoneOf(found, name);
    HeadRanked(known, all);
    RankedAlike(known[1..], multiset{name}, all, multiset{}, all, true);
    RankedAlike(found, multiset{}, multiset(Names(known)), multiset{}, multiset(Names(known[1..])), false);
  }

  /** Whatever names repeat: of each name as many known entries stay, the first ones, as
      are reported, and as many reported ones, again the first, are not new. */
  lemma {:induction false} CompareRanks(known: seq<Node>, found: seq<Node>)
    ensures var m := Compare(known, found);
      && m.kept == Ranked(known, multiset{}, multiset(Names(found)), true)
      && m.left == Ranked(found, multiset{}, multiset(Names(known)), false)
    decreases |known|
  {
    hide Ranked, Names, Without;
    if known == [] {
      NoNames();
      NothingRanked(multiset{}, multiset(Names(found)), true);
      AllNew(found, multiset{});
    } else {
      var k, rest, i := known[0], known[1..], FindName(found, known[0].name);
      if i < |found| {
        var a, b := found[..i], found[i + 1..];
        assert Without(found, i) == a + b by { WithoutParts(found, i); }
        CompareRanks(rest, a + b);
        assert known == [k] + rest && found == a + ([found[i]] + b);
        FirstTakes(k, rest, a, found[i], b);
      } else {
        CompareRanks(rest, found);
        FirstGoes(known, found);
      }
    }
  }

  lemma WithoutParts(s: seq<Node>, i: nat)
    requires i < |s|
    ensures Without(s, i) == s[..i] + s[i + 1..]
  {
  }

  lemma NothingRanked(before: multiset<string>, other: multiset<string>, matched: bool)
    ensures Ranked([], before, other, matched) == []
  {
  }

  lemma {:induction false} AllNew(found: seq<Node>, before: multiset<string>)
    ensures Ranked(found, before, multiset{}, false) == found
    decreases |found|
  {
    if found != [] {
      AllNew(found[1..], before + multiset{found[0].name});
    }
  }

  /** The new entries stand in front, the last reported first. */
  lemma {:induction false} BackwardsAt(s: seq<Node>, k: nat)
    requires k < |s|
    ensures Backwards(s)[k] == s[|s| - 1 - k]
    decreases |s|
  {
    if k < |s| - 1 {
      BackwardsAt(s[1..], k);
    }
  }

  // ------------------------------------------------------------ with distinct names

  predicate NamesDistinct(s: seq<Node>) {
    forall i, j :: 0 <= i < j < |s| ==> s[i].name != s[j].name
  }

  predicate HasName(s: seq<Node>, name: string) {
    exists i :: 0 <= i < |s| && s[i].name == name
  }

  /** The entries of s whose names the other list has, or has not, in order. */
  function Sharing(s: seq<Node>, other: seq<Node>, shared: bool): (r: seq<Node>)
    ensures |r| <= |s|
  {
    if s == [] then []
    else if HasName(other, s[0].name) == shared then [s[0]] + Sharing(s[1..], other, shared)
    else Sharing(s[1..], other, shared)
  }

  lemma {:induction false} SharingAppend(a: seq<Node>, b: seq<Node>, other: seq<Node>, shared: bool)
    ensures Sharing(a + b, other, shared) == Sharing(a, other, shared) + Sharing(b, other, shared)
  {
    if a == [] {
      assert a + b == b;
    } else {
      assert (a + b)[1..] == a[1..] + b;
      SharingAppend(a[1..], b, other, shared);
    }
  }

  lemma {:induction false} SharingSame(s: seq<Node>, other: seq<Node>, another: seq<Node>, shared: bool)
    requires forall i :: 0 <= i < |s| ==> (HasName(other, s[i].name) <==> HasName(another, s[i].name))
    ensures Sharing(s, other, shared) == Sharing(s, another, shared)
  {
    if s != [] {
      assert forall i :: 0 <= i < |s[1..]| ==> s[1..][i] == s[i + 1];
      SharingSame(s[1..], other, another, shared);
    }
  }

  lemma HasNameWithout(s: seq<Node>, i: nat, name: string)
    requires i < |s| && s[i].name != name
    ensures HasName(Without(s, i), name) <==> HasName(s, name)
  {
    var w := Without(s, i);
    if HasName(s, name) {
      var j :| 0 <= j < |s| && s[j].name == name;
      assert w[if j < i then j else j - 1] == s[j];
    }
    if HasName(w, name) {
      var j :| 0 <= j < |w| && w[j].name == name;
      assert w[j] == s[if j < i then j else j + 1];
    }
  }

  lemma HasNameTail(s: seq<Node>, name: string)
    requires s != []
    ensures HasName(s, name) <==> s[0].name == name || HasName(s[1..], name)
  {
    if HasName(s[1..], name) {
      var j :| 0 <= j < |s[1..]| && s[1..][j].name == name;
      assert s[j + 1].name == name;
    }
    if HasName(s, name) && s[0].name != name {
      var j :| 0 <= j < |s| && s[j].name == name;
      assert s[1..][j - 1].name == name;
    }
  }

  lemma FoundIff(s: seq<Node>, name: string)
    ensures FindName(s, name) < |s| <==> HasName(s, name)
  {
  }

  lemma NamesDistinctParts(s: seq<Node>, i: nat)
    requires NamesDistinct(s) && i < |s|
    ensures NamesDistinct(Without(s, i)) && !HasName(Without(s, i), s[i].name)
  {
    var w := Without(s, i);
    assert forall j :: 0 <= j < |w| ==> w[j] == s[if j < i then j else j + 1];
  }

  /** When names do not repeat, the entries that stay are exactly the known ones still
      reported, and the new ones exactly those reported and not known. */
  lemma {:induction false} CompareSeparates(known: seq<Node>, found: seq<Node>)
    requires NamesDistinct(known) && NamesDistinct(found)
    ensures var m := Compare(known, found);
      m.kept == Sharing(known, found, true) && m.left == Sharing(found, known, false)
    decreases |known|
  {
    hide HasName, NamesDistinct;
    if known == [] {
      NothingShared(found);
    } else {
      var k, rest := known[0], known[1..];
      assert Without(known, 0) == rest;
      NamesDistinctParts(known, 0);
      FoundIff(found, k.name);
      var i := FindName(found, k.name);
      if i < |found| {
        var w := Without(found, i);
        NamesDistinctParts(found, i);
        CompareSeparates(rest, w);
        KnownTaken(rest, found, i, k.name);
        NewKept(found, i, known);
      } else {
        CompareSeparates(rest, found);
        forall j | 0 <= j < |found| ensures HasName(known, found[j].name) <==> HasName(rest, found[j].name) {
          HasNameTail(known, found[j].name);
        }
        SharingSame(found, known, rest, false);
      }
    }
  }

  lemma {:induction false} NothingShared(found: seq<Node>)
    ensures Sharing(found, [], false) == found
  {
    if found != [] {
      NothingShared(found[1..]);
    }
  }

  /** Taking a reported entry away does not matter to known entries of other names. */
  lemma KnownTaken(rest: seq<Node>, found: seq<Node>, i: nat, name: string)
    requires i < |found| && found[i].name == name && !HasName(rest, name)
    ensures Sharing(rest, Without(found, i), true) == Sharing(rest, found, true)
  {
    forall j | 0 <= j < |rest| ensures HasName(Without(found, i), rest[j].name) <==> HasName(found, rest[j].name) {
      assert rest[j].name != name;
      HasNameWithout(found, i, rest[j].name);
    }
    SharingSame(rest, Without(found, i), found, true);
  }

  /** The reported entry that was taken is known, and the others look the same. */
  lemma NewKept(found: seq<Node>, i: nat, known: seq<Node>)
    requires known != [] && i < |found| && found[i].name == known[0].name
    requires !HasName(Without(found, i), found[i].name)
    ensures Sharing(found, known, false) == Sharing(Without(found, i), known[1..], false)
  {
    var w := Without(found, i);
    forall j | 0 <= j < |w| ensures HasName(known, w[j].name) <==> HasName(known[1..], w[j].name) {
      assert w[j].name != found[i].name;
      HasNameTail(known, w[j].name);
    }
    SharingSame(w, known, known[1..], false);
    var a, b := found[..i], found[i + 1..];
    assert found == a + ([found[i]] + b) && w == a + b;
    SharingAppend(a, [found[i]] + b, known, false);
    SharingAppend([found[i]], b, known, false);
    SharingAppend(a, b, known, false);
    assert HasName(known, found[i].name);
    assert [found[i]][1..] == [] && Sharing([found[i]], known, false) == [];
  }
}
