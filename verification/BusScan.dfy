/** The scans for buses and for each bus's devices, on the linked nodes themselves. */
module BusScan {
  import opened Bags
  import opened BusLists

  lemma {:induction false} FindNameIs(s: seq<Node>, name: string, j: nat)
    requires j < |s| && s[j].name == name && forall k :: 0 <= k < j ==> s[k].name != name
    ensures FindName(s, name) == j
  {
  }

  predicate Apart(a: seq<Node>, b: seq<Node>) {
    forall i :: 0 <= i < |a| ==> a[i] !in b
  }

  predicate Within(a: seq<Node>, b: seq<Node>) {
    forall i :: 0 <= i < |a| ==> a[i] in b
  }

  /** The inner loop: the first reported entry of this name is taken off the report. */
  method TakeReported(busses: Node?, ghost found: seq<Node>, name: string)
    returns (head: Node?, taken: bool, ghost left: seq<Node>)
    requires Linked(busses, found)
    modifies found
    ensures var i := FindName(found, name);
      taken == (i < |found|) && left == if taken then Without(found, i) else found
    ensures Linked(head, left)
  {
    hide Pointer, Without, FindName;
    var nbus := busses;
    ghost var j := 0;
    PointerCases(found, 0);
    while nbus != null
      invariant 0 <= j <= |found| && nbus == Pointer(found, j)
      invariant Linked(busses, found)
      invariant forall k :: 0 <= k < j ==> found[k].name != name
      decreases |found| - j
    {
      PointerCases(found, j);
      var tnbus := nbus.next;
      if name == nbus.name {
        FindNameIs(found, name, j);
        head := ListDel(busses, nbus, found, j);
        return head, true, Without(found, j);
      }
      nbus := tnbus;
      j := j + 1;
    }
    PointerCases(found, j);
    NotFound(found, name);
    return busses, false, found;
  }

  lemma NotFound(s: seq<Node>, name: string)
    requires forall k :: 0 <= k < |s| ==> s[k].name != name
    ensures FindName(s, name) == |s|
  {
  }

  /** Where the outer loop stands: entries kept so far, known ones still to look at, and
      what is left of the report. */
  ghost predicate Comparing(known: seq<Node>, found: seq<Node>, kept: seq<Node>, rest: seq<Node>, left: seq<Node>) {
    var m := Compare(rest, left);
    Compare(known, found) == Match(kept + m.kept, m.left)
  }

  lemma ComparedOne(known: seq<Node>, found: seq<Node>, kept: seq<Node>, rest: seq<Node>, left: seq<Node>)
    requires Comparing(known, found, kept, rest, left) && rest != []
    ensures var i := FindName(left, rest[0].name);
      if i < |left| then Comparing(known, found, kept + [rest[0]], rest[1..], Without(left, i))
      else Comparing(known, found, kept, rest[1..], left)
  {
    var i := FindName(left, rest[0].name);
    if i < |left| {
      var m := Compare(rest[1..], Without(left, i));
      assert kept + ([rest[0]] + m.kept) == kept + [rest[0]] + m.kept;
    }
  }

  lemma NothingCompared(known: seq<Node>, found: seq<Node>)
    ensures Comparing(known, found, [], known, found)
  {
    var m := Compare(known, found);
    assert [] + m.kept == m.kept;
  }

  lemma AllCompared(known: seq<Node>, found: seq<Node>, kept: seq<Node>, left: seq<Node>)
    requires Comparing(known, found, kept, [], left)
    ensures Compare(known, found) == Match(kept, left)
  {
    assert kept + [] == kept;
  }

  lemma LinkedMiddle(begin: Node?, kept: seq<Node>, rest: seq<Node>)
    requires Linked(begin, kept + rest) && rest != []
    ensures rest[0].next == Pointer(rest, 1)
    ensures Pointer(kept + rest, |kept|) == rest[0] && Without(kept + rest, |kept|) == kept + rest[1..]
  {
    assert (kept + rest)[|kept|] == rest[0];
  }

  lemma TailPointer(rest: seq<Node>)
    requires rest != []
    ensures Pointer(rest[1..], 0) == Pointer(rest, 1)
  {
  }

  lemma ApartParts(a: seq<Node>, b: seq<Node>, i: nat)
    requires Apart(a, b) && i < |b|
    ensures Apart(a, Without(b, i))
  {
  }

  /** The lists while the first walk is under way. */
  ghost predicate Walked(known: seq<Node>, found: seq<Node>, head: Node?, others: Node?, kept: seq<Node>,
                         rest: seq<Node>, left: seq<Node>)
    reads kept, rest, left
  {
    && Comparing(known, found, kept, rest, left)
    && Linked(head, kept + rest) && Linked(others, left) && Apart(kept + rest, left)
    && Within(kept + rest, known) && Within(left, found)
  }

  /** An entry that is reported stays, and its report is taken. */
  method KeepOne(others: Node?, bus: Node, ghost head: Node?, ghost known: seq<Node>, ghost found: seq<Node>,
                 ghost kept: seq<Node>, ghost rest: seq<Node>, ghost left: seq<Node>)
    returns (o: Node?, taken: bool, ghost l: seq<Node>)
    requires rest != [] && bus == rest[0] && Walked(known, found, head, others, kept, rest, left)
    modifies left
    ensures Linked(head, kept + rest) && Linked(o, l) && Apart(kept + rest, l) && Within(l, found)
    ensures taken == (FindName(left, bus.name) < |left|)
    ensures l == if taken then Without(left, FindName(left, bus.name)) else left
  {
    hide Pointer, Without, Comparing, FindName, Compare;
    ghost var i := FindName(left, bus.name);
    if i < |left| {
      ApartParts(kept + rest, left, i);
      WithoutMembers(left, i);
      WithinWithin(Without(left, i), left, found);
    }
    o, taken, l := TakeReported(others, left, bus.name);
  }

  /** An entry that is not reported is taken out. */
  method DropOne(head: Node?, bus: Node, ghost others: Node?, ghost known: seq<Node>, ghost found: seq<Node>,
                 ghost kept: seq<Node>, ghost rest: seq<Node>, ghost left: seq<Node>)
    returns (h: Node?)
    requires rest != [] && bus == rest[0] && Linked(head, kept + rest) && Linked(others, left)
    requires Apart(kept + rest, left) && Within(kept + rest, known)
    modifies kept + rest
    ensures Linked(h, kept + rest[1..]) && Linked(others, left)
    ensures Apart(kept + rest[1..], left) && Within(kept + rest[1..], known)
  {
    hide Pointer;
    LinkedMiddle(head, kept, rest);
    WithoutMembers(kept + rest, |kept|);
    WithinWithin(Without(kept + rest, |kept|), kept + rest, known);
    PartsApart(kept + rest, left, |kept|);
    h := ListDel(head, bus, kept + rest, |kept|);
  }

  /** The first walk of a scan: known entries that are not reported are taken out. */
  method TakeMissing(begin: Node?, ghost known: seq<Node>, busses: Node?, ghost found: seq<Node>)
    returns (head: Node?, others: Node?, changes: nat)
    requires Linked(begin, known) && Linked(busses, found) && Apart(known, found)
    modifies known, found
    ensures var m := Compare(known, found);
      Linked(head, m.kept) && Linked(others, m.left) && changes == |known| - |m.kept|
    ensures var m := Compare(known, found); Apart(m.kept, m.left)
    ensures Within(Compare(known, found).kept, known) && Within(Compare(known, found).left, found)
  {
    hide Pointer, Without, Comparing, FindName, Compare, Linked;
    head, others, changes := begin, busses, 0;
    var bus := begin;
    ghost var kept: seq<Node>, rest, left := [], known, found;
    NothingCompared(known, found);
    assert kept + rest == known;
    assert bus == Pointer(rest, 0) by { LinkedBegins(begin, known); }
    while bus != null
      invariant bus == Pointer(rest, 0) && Walked(known, found, head, others, kept, rest, left)
      invariant changes == |known| - |kept| - |rest|
      decreases |rest|
    {
      PointerCases(rest, 0);
      assert rest != [] && bus == rest[0];
      LinkedMiddle(head, kept, rest);
      TailPointer(rest);
      ComparedOne(known, found, kept, rest, left);
      var tbus := bus.next;
      var taken;
      others, taken, left := KeepOne(others, bus, head, known, found, kept, rest, left);
      if taken {
        assert kept + rest == kept + [rest[0]] + rest[1..];
        kept := kept + [rest[0]];
      } else {
        head := DropOne(head, bus, others, known, found, kept, rest, left);
        changes := changes + 1;
      }
      rest := rest[1..];
      bus := tbus;
    }
    PointerCases(rest, 0);
    assert rest == [] && kept + rest == kept;
    AllCompared(known, found, kept, left);
  }

  lemma PartsApart(a: seq<Node>, b: seq<Node>, i: nat)
    requires Apart(a, b) && i < |a|
    ensures Apart(Without(a, i), b)
  {
  }

  lemma WithinWithin(a: seq<Node>, b: seq<Node>, c: seq<Node>)
    requires Within(a, b) && Within(b, c)
    ensures Within(a, c)
  {
  }

  lemma WithoutMembers(s: seq<Node>, i: nat)
    requires i < |s|
    ensures Within(Without(s, i), s)
  {
  }

  lemma LinkedBegins(begin: Node?, s: seq<Node>)
    requires Linked(begin, s)
    ensures begin == Pointer(s, 0)
  {
  }

  lemma BackwardsStep(rest: seq<Node>, list: seq<Node>)
    requires rest != []
    ensures Backwards(rest) + list == Backwards(rest[1..]) + ([rest[0]] + list)
  {
  }

  lemma FirstOut(rest: seq<Node>)
    requires rest != []
    ensures Without(rest, 0) == rest[1..] && Pointer(rest, 0) == rest[0]
  {
  }

  lemma MovedApart(list: seq<Node>, rest: seq<Node>)
    requires Apart(list, rest) && rest != [] && Distinct(rest)
    ensures rest[0] !in list && Apart([rest[0]] + list, rest[1..])
  {
    forall n | n in rest[1..] ensures n != rest[0] && n in rest {
      var j :| 0 <= j < |rest[1..]| && rest[1..][j] == n;
      assert rest[j + 1] == n;
    }
  }

  lemma MovedWithin(list: seq<Node>, rest: seq<Node>, all: seq<Node>)
    requires Within(list, all) && Within(rest, all) && rest != []
    ensures Within([rest[0]] + list, all) && Within(rest[1..], all)
  {
  }

  /** The second walk of a scan: what is left of the report moves to the front. */
  method AddNew(begin: Node?, ghost kept: seq<Node>, busses: Node?, ghost left: seq<Node>)
    returns (head: Node?, changes: nat)
    requires Linked(begin, kept) && Linked(busses, left) && Apart(kept, left)
    modifies kept, left
    ensures Linked(head, Backwards(left) + kept) && changes == |left|
    ensures Within(Backwards(left) + kept, kept + left)
  {
    hide Pointer, Without, Backwards;
    head, changes := begin, 0;
    var others, bus := busses, busses;
    ghost var list, rest, all := kept, left, kept + left;
    assert Within(list, all) && Within(rest, all);
    while bus != null
      invariant bus == Pointer(rest, 0) && Linked(others, rest) && Linked(head, list)
      invariant Apart(list, rest) && Within(list, all) && Within(rest, all)
      invariant forall i :: 0 <= i < |all| ==> all[i] in kept || all[i] in left
      invariant Backwards(rest) + list == Backwards(left) + kept
      invariant changes == |left| - |rest|
      decreases |rest|
    {
      PointerCases(rest, 0);
      FirstOut(rest);
      TailPointer(rest);
      MovedApart(list, rest);
      MovedWithin(list, rest, all);
      BackwardsStep(rest, list);
      PointerCases(list, 0);
      var tbus := bus.next;
      others := ListDel(others, bus, rest, 0);
      head := ListAdd(head, bus, list);
      changes := changes + 1;
      list, rest := [rest[0]] + list, rest[1..];
      bus := tbus;
    }
    PointerCases(rest, 0);
    assert Backwards(rest) == [] by { NoneBackwards(); }
    assert list == Backwards(left) + kept;
  }

  lemma NoneBackwards()
    ensures Backwards([]) == []
  {
  }

  /** A whole scan of one list: afterwards it is the reconciled list, linked both ways,
      and the result counts the entries taken out and put in. */
  method Scan(begin: Node?, ghost known: seq<Node>, busses: Node?, ghost found: seq<Node>)
    returns (head: Node?, changes: nat)
    requires Linked(begin, known) && Linked(busses, found) && Apart(known, found)
    modifies known, found
    ensures Linked(head, Reconciled(known, found)) && changes == Changes(known, found)
    ensures Within(Reconciled(known, found), known + found)
  {
    hide Pointer, Compare, Backwards;
    ghost var m := Compare(known, found);
    var others, removed, added;
    head, others, removed := TakeMissing(begin, known, busses, found);
    head, added := AddNew(head, m.kept, others, m.left);
    changes := removed + added;
    PartsWithin(m, known, found);
    WithinWithin(Backwards(m.left) + m.kept, m.kept + m.left, known + found);
  }

  lemma PartsWithin(m: Match, known: seq<Node>, found: seq<Node>)
    requires Within(m.kept, known) && Within(m.left, found)
    ensures Within(m.kept + m.left, known + found)
  {
  }

  /** usb_find_busses and its list. */
  class Usb {
    var busses: Node?
    ghost var list: seq<Node>

    ghost predicate Valid()
      reads this, list
    {
      Linked(busses, list)
    }

    constructor ()
      ensures Valid() && list == []
    {
      busses, list := null, [];
    }

    /** ret and reported are what the operating system's own scan returned. */
    method FindBusses(ret: int, reported: Node?, ghost found: seq<Node>) returns (changes: int)
      requires Valid() && Linked(reported, found) && Apart(list, found)
      modifies this, list, found
      ensures Valid()
      ensures ret < 0 ==> changes == ret && list == old(list)
      ensures ret >= 0 ==> list == Reconciled(old(list), found) && changes == Changes(old(list), found)
    {
      hide Reconciled, Changes, Pointer, Within;
      if ret < 0 {
        return ret;
      }
      var n;
      busses, n := Scan(busses, list, reported, found);
      list := Reconciled(list, found);
      changes := n;
    }
  }

  /** What a scan leaves and returns, when names do not repeat: the known entries still
      reported are the same nodes as before, the new ones are those not known, and the
      result is how many known ones went and how many new ones came. */
  lemma ScanKeepsNodes(known: seq<Node>, found: seq<Node>)
    requires NamesDistinct(known) && NamesDistinct(found)
    ensures Reconciled(known, found) == Backwards(Sharing(found, known, false)) + Sharing(known, found, true)
    ensures Changes(known, found) == |known| - |Sharing(known, found, true)| + |Sharing(found, known, false)|
    ensures multiset(Names(Reconciled(known, found))) == multiset(Names(found))
  {
    CompareSeparates(known, found);
    ReconciledNames(known, found);
  }

  // ------------------------------------------------------------ devices, bus by bus

  class Bus {
    var devices: Node?
    ghost var list: seq<Node>

    ghost predicate Valid()
      reads this, list
    {
      Linked(devices, list)
    }

    constructor ()
      ensures Valid() && list == []
    {
      devices, list := null, [];
    }

    /** The device pass of one bus. */
    method ScanDevices(reported: Node?, ghost found: seq<Node>) returns (changes: nat)
      requires Valid() && Linked(reported, found) && Apart(list, found)
      modifies this, list, found
      ensures Valid()
      ensures list == Reconciled(old(list), found) && changes == Changes(old(list), found)
      ensures Within(list, old(list) + found)
    {
      hide Reconciled, Changes, Pointer, Within;
      devices, changes := Scan(devices, list, reported, found);
      list := Reconciled(list, found);
    }
  }

  /** What the operating system returned for one bus. */
  datatype Report = Report(ret: int, devices: Node?)

  function FirstFailure(reports: seq<Report>): (k: nat)
    ensures k <= |reports| && (k < |reports| ==> reports[k].ret < 0)
    ensures forall i :: 0 <= i < k ==> reports[i].ret >= 0
  {
    if reports == [] || reports[0].ret < 0 then 0
    else
      var k := FirstFailure(reports[1..]);
      assert forall i :: 1 <= i < 1 + k ==> reports[i] == reports[1..][i - 1];
      1 + k
  }

  function TotalChanges(lists: seq<seq<Node>>, found: seq<seq<Node>>, n: nat): nat
    requires n <= |lists| == |found|
  {
    if n == 0 then 0 else TotalChanges(lists, found, n - 1) + Changes(lists[n - 1], found[n - 1])
  }

  /** Every bus's known and reported devices are nodes of its own. */
  predicate Separate(lists: seq<seq<Node>>, found: seq<seq<Node>>) {
    && |lists| == |found|
    && (forall i :: 0 <= i < |lists| ==> Apart(lists[i], found[i]))
    && (forall i, j :: 0 <= i < |lists| && 0 <= j < |lists| && i != j ==> Apart(lists[i] + found[i], lists[j] + found[j]))
  }

  /** All the nodes of a list belong to a set. */
  predicate In(s: seq<Node>, nodes: set<Node>) {
    forall i :: 0 <= i < |s| ==> s[i] in nodes
  }

  predicate AllIn(lists: seq<seq<Node>>, nodes: set<Node>) {
    forall i :: 0 <= i < |lists| ==> In(lists[i], nodes)
  }

  lemma SeparateAt(lists: seq<seq<Node>>, found: seq<seq<Node>>, i: nat)
    requires Separate(lists, found) && i < |lists|
    ensures Apart(lists[i], found[i])
    ensures forall k :: 0 <= k < |lists| && k != i ==>
      Apart(lists[k], lists[i]) && Apart(lists[k], found[i]) && Apart(found[k], lists[i]) && Apart(found[k], found[i])
  {
    forall k | 0 <= k < |lists| && k != i
      ensures Apart(lists[k], lists[i]) && Apart(lists[k], found[i])
      ensures Apart(found[k], lists[i]) && Apart(found[k], found[i])
    {
      JoinedApart(lists[k], found[k], lists[i], found[i]);
    }
  }

  lemma JoinedApart(a: seq<Node>, b: seq<Node>, c: seq<Node>, d: seq<Node>)
    requires Apart(a + b, c + d)
    ensures Apart(a, c) && Apart(a, d) && Apart(b, c) && Apart(b, d)
  {
    assert forall i :: 0 <= i < |a| ==> (a + b)[i] == a[i];
    assert forall i :: 0 <= i < |b| ==> (a + b)[|a| + i] == b[i];
    assert forall i :: 0 <= i < |c| ==> (c + d)[i] == c[i];
    assert forall i :: 0 <= i < |d| ==> (c + d)[|c| + i] == d[i];
  }

  lemma WithinApart(s: seq<Node>, a: seq<Node>, b: seq<Node>, c: seq<Node>)
    requires Within(s, a + b) && Apart(a, c) && Apart(b, c)
    ensures Apart(s, c)
  {
    forall i | 0 <= i < |s| ensures s[i] !in c {
      var j :| 0 <= j < |a + b| && (a + b)[j] == s[i];
      assert j < |a| ==> a[j] !in c;
      assert j >= |a| ==> b[j - |a|] !in c;
    }
  }

  /** A bus whose devices have been reconciled. */
  ghost predicate Done(b: Bus, list: seq<Node>, found: seq<Node>)
    reads b, b.list
  {
    b.Valid() && b.list == Reconciled(list, found) && Within(b.list, list + found)
  }

  /** A bus still to be looked at, and its report. */
  ghost predicate Ahead(b: Bus, list: seq<Node>, devices: Node?, found: seq<Node>)
    reads b, list, found
  {
    b.devices == Pointer(list, 0) && Linked(b.devices, list) && b.list == list && Linked(devices, found)
  }

  lemma DoneApart(b: Bus, list: seq<Node>, found: seq<Node>, other: seq<Node>)
    requires Done(b, list, found) && Apart(list, other) && Apart(found, other)
    ensures Apart(b.list, other)
  {
    WithinApart(b.list, list, found, other);
  }

  /** usb_find_devices: each bus's list is reconciled in turn; the first bus whose scan
      failed ends the walk, with the earlier buses done and their count forgotten. */
  method FindDevices(buses: seq<Bus>, reports: seq<Report>, ghost lists: seq<seq<Node>>, ghost found: seq<seq<Node>>,
                     ghost nodes: set<Node>) returns (changes: int)
    requires |buses| == |reports| == |lists| == |found| && Separate(lists, found)
    requires AllIn(lists, nodes) && AllIn(found, nodes)
    requires forall i, j :: 0 <= i < j < |buses| ==> buses[i] != buses[j]
    requires forall i :: 0 <= i < |buses| ==> buses[i].Valid() && buses[i].list == lists[i]
    requires forall i :: 0 <= i < |buses| ==> Linked(reports[i].devices, found[i])
    modifies buses, nodes
    ensures forall i :: 0 <= i < |buses| ==> buses[i].Valid()
    ensures forall i :: 0 <= i < FirstFailure(reports) ==> buses[i].list == Reconciled(lists[i], found[i])
    ensures forall i :: FirstFailure(reports) <= i < |buses| ==> buses[i].list == lists[i]
    ensures var k := FirstFailure(reports);
      changes == if k < |reports| then reports[k].ret else TotalChanges(lists, found, k)
  {
    hide Reconciled, Changes, Linked, Separate, Done, Ahead, Pointer, Within, FirstFailure, TotalChanges;
    changes := 0;
    var i := 0;
    NothingChanged(lists, found);
    forall k | 0 <= k < |buses| ensures Ahead(buses[k], lists[k], reports[k].devices, found[k]) {
      StartsAhead(buses[k], lists[k], reports[k].devices, found[k]);
    }
    while i < |buses|
      invariant 0 <= i <= FirstFailure(reports)
      invariant changes == TotalChanges(lists, found, i)
      invariant forall k :: 0 <= k < i ==> Done(buses[k], lists[k], found[k])
      invariant forall k :: i <= k < |buses| ==> Ahead(buses[k], lists[k], reports[k].devices, found[k])
    {
      if reports[i].ret < 0 {
        break;
      }
      SeparateAt(lists, found, i);
      forall k | 0 <= k < i
        ensures Apart(buses[k].list, lists[i]) && Apart(buses[k].list, found[i])
      {
        DoneApart(buses[k], lists[k], found[k], lists[i]);
        DoneApart(buses[k], lists[k], found[k], found[i]);
      }
      assert In(lists[i], nodes) && In(found[i], nodes);
      AheadIs(buses[i], lists[i], reports[i].devices, found[i]);
      var n := buses[i].ScanDevices(reports[i].devices, found[i]);
      assert Done(buses[i], lists[i], found[i]) by { IsDone(buses[i], lists[i], found[i]); }
      OneMoreChanged(lists, found, i);
      changes := changes + n;
      i := i + 1;
    }
    forall k | 0 <= k < i ensures buses[k].Valid() && buses[k].list == Reconciled(lists[k], found[k]) {
      DoneIs(buses[k], lists[k], found[k]);
    }
    forall k | i <= k < |buses| ensures buses[k].Valid() && buses[k].list == lists[k] {
      AheadIs(buses[k], lists[k], reports[k].devices, found[k]);
    }
    if i < |buses| {
      return reports[i].ret;
    }
  }

  lemma NothingChanged(lists: seq<seq<Node>>, found: seq<seq<Node>>)
    requires |lists| == |found|
    ensures TotalChanges(lists, found, 0) == 0
  {
  }

  lemma OneMoreChanged(lists: seq<seq<Node>>, found: seq<seq<Node>>, n: nat)
    requires n < |lists| == |found|
    ensures TotalChanges(lists, found, n + 1) == TotalChanges(lists, found, n) + Changes(lists[n], found[n])
  {
    hide Changes;
  }

  lemma StartsAhead(b: Bus, list: seq<Node>, devices: Node?, found: seq<Node>)
    requires b.Valid() && b.list == list && Linked(devices, found)
    ensures Ahead(b, list, devices, found)
  {
  }

  lemma AheadIs(b: Bus, list: seq<Node>, devices: Node?, found: seq<Node>)
    requires Ahead(b, list, devices, found)
    ensures b.Valid() && b.list == list && Linked(devices, found)
  {
  }

  lemma IsDone(b: Bus, list: seq<Node>, found: seq<Node>)
    requires b.Valid() && b.list == Reconciled(list, found) && Within(b.list, list + found)
    ensures Done(b, list, found)
  {
  }

  lemma DoneIs(b: Bus, list: seq<Node>, found: seq<Node>)
    requires Done(b, list, found)
    ensures b.Valid() && b.list == Reconciled(list, found)
  {
  }
}
