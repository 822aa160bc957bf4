/** Isochronous data crosses the wire without the padding between packets: the
    sender gathers the bytes each packet really carries, and the receiver moves
    them, last packet first and in place, back to the packets' own offsets. */
module Iso {
  import opened Bytes
  import opened Wire

  /** The bytes carried by a run of packets. */
  function Total(ps: seq<Packet>): (n: nat) {
    if ps == [] then 0 else ps[0].actual + Total(ps[1..])
  }

  /** Where a packet's bytes end. */
  function End(p: Packet): nat {
    p.offset + p.actual
  }

  /** Every packet's bytes lie inside a buffer of the given size. */
  predicate Inside(ps: seq<Packet>, size: nat) {
    forall i :: 0 <= i < |ps| ==> End(ps[i]) <= size
  }

  /** The slots of a transfer: increasing, not overlapping, each large enough for
      what it carries, all within the transfer buffer. */
  predicate Placed(ps: seq<Packet>, size: nat) {
    && (forall i :: 0 <= i < |ps| ==> ps[i].actual <= ps[i].length && ps[i].offset + ps[i].length <= size)
    && (forall i, j :: 0 <= i < j < |ps| ==> ps[i].offset + ps[i].length <= ps[j].offset)
  }

  /** The bytes of one packet in a buffer. */
  function Slot(buffer: seq<Byte>, p: Packet): (b: seq<Byte>)
    requires End(p) <= |buffer|
    ensures |b| == p.actual
  {
    buffer[p.offset..End(p)]
  }

  /** What the sender's scatter list strings together. */
  function Gather(buffer: seq<Byte>, ps: seq<Packet>): (b: seq<Byte>)
    requires Inside(ps, |buffer|)
    ensures |b| == Total(ps)
  {
    if ps == [] then [] else Slot(buffer, ps[0]) + Gather(buffer, ps[1..])
  }

  function Move(b: seq<Byte>, to: nat, from: nat, n: nat): (m: seq<Byte>)
    requires to + n <= |b| && from + n <= |b|
    ensures |m| == |b|
  {
    b[..to] + b[from..from + n] + b[to + n..]
  }

  /** The receiver's loop from packet n - 1 down to packet 1. */
  function Spread(b: seq<Byte>, ps: seq<Packet>, n: nat): (r: seq<Byte>)
    requires n <= |ps|
    requires Inside(ps, |b|) && Total(ps) <= |b|
    ensures |r| == |b|
    decreases n
  {
    if n <= 1 then b
    else
      var at := Total(ps[..n - 1]);
      PrefixFits(ps, n);
      Spread(Move(b, ps[n - 1].offset, at, ps[n - 1].actual), ps, n - 1)
  }

  /** usbip_pad_iso, its early returns included. */
  function Pad(b: seq<Byte>, ps: seq<Packet>, actual: nat, size: int): (r: seq<Byte>)
    requires Inside(ps, |b|) && actual <= |b| && actual == Total(ps)
    ensures |r| == |b|
  {
    if |ps| == 0 || actual == 0 || actual == size then b else Spread(b, ps, |ps|)
  }

  // ------------------------------------------------------------ sums

  lemma {:induction false} TotalAppend(a: seq<Packet>, b: seq<Packet>)
    ensures Total(a + b) == Total(a) + Total(b)
  {
    if a == [] {
      assert a + b == b;
    } else {
      assert (a + b)[1..] == a[1..] + b;
      TotalAppend(a[1..], b);
    }
  }

  lemma PrefixFits(ps: seq<Packet>, n: nat)
    requires 0 < n <= |ps|
    ensures Total(ps[..n]) == Total(ps[..n - 1]) + ps[n - 1].actual <= Total(ps)
  {
    assert ps[..n] == ps[..n - 1] + [ps[n - 1]] && ps == ps[..n] + ps[n..];
    TotalAppend(ps[..n - 1], [ps[n - 1]]);
    TotalAppend(ps[..n], ps[n..]);
  }

  lemma {:induction false} GatherAppend(buffer: seq<Byte>, a: seq<Packet>, b: seq<Packet>)
    requires Inside(a + b, |buffer|)
    requires Inside(a, |buffer|) && Inside(b, |buffer|)
    ensures Gather(buffer, a + b) == Gather(buffer, a) + Gather(buffer, b)
  {
    if a == [] {
      assert a + b == b;
    } else {
      assert (a + b)[1..] == a[1..] + b;
      assert forall i :: 0 <= i < |a[1..]| ==> a[1..][i] == a[i + 1];
      assert forall i :: 0 <= i < |(a + b)[1..]| ==> (a + b)[1..][i] == (a + b)[i + 1];
      GatherAppend(buffer, a[1..], b);
    }
  }

  lemma StartOfSecond(x: seq<Byte>, y: seq<Byte>, n: nat)
    requires n <= |y|
    ensures (x + y)[|x|..|x| + n] == y[..n]
  {
  }

  lemma FirstSlot(buffer: seq<Byte>, ps: seq<Packet>)
    requires ps != [] && Inside(ps, |buffer|)
    ensures ps[0].actual <= Total(ps) && Gather(buffer, ps)[..ps[0].actual] == Slot(buffer, ps[0])
  {
  }

  /** The gathered bytes of packet k. */
  lemma GatherAt(buffer: seq<Byte>, ps: seq<Packet>, k: nat)
    requires k < |ps| && Inside(ps, |buffer|)
    ensures Total(ps[..k]) + ps[k].actual <= Total(ps)
    ensures Gather(buffer, ps)[Total(ps[..k])..Total(ps[..k]) + ps[k].actual] == Slot(buffer, ps[k])
  {
    hide Gather, Total, Slot;
    PrefixFits(ps, k + 1);
    var a, b := ps[..k], ps[k..];
    assert ps == a + b && b[0] == ps[k];
    assert Inside(b, |buffer|) && Inside(a, |buffer|);
    GatherAppend(buffer, a, b);
    FirstSlot(buffer, b);
    StartOfSecond(Gather(buffer, a), Gather(buffer, b), ps[k].actual);
  }

  /** Gathered data never lies beyond the slot it belongs to: this is why moving
      the last packet first overwrites no byte that is still to be read. */
  lemma {:induction false} PrefixBelowOffset(ps: seq<Packet>, size: nat, k: nat)
    requires Placed(ps, size) && k < |ps|
    ensures Total(ps[..k]) + ps[0].offset <= ps[k].offset
  {
    if k == 0 {
      assert ps[..0] == [];
    } else {
      PrefixBelowOffset(ps, size, k - 1);
      PrefixFits(ps, k);
    }
  }

  // ------------------------------------------------------------ what the loop moves where

  lemma MovedPart(b: seq<Byte>, to: nat, from: nat, n: nat)
    requires to + n <= |b| && from + n <= |b|
    ensures Move(b, to, from, n)[to..to + n] == b[from..from + n]
    ensures Move(b, to, from, n)[..to] == b[..to]
    ensures Move(b, to, from, n)[to + n..] == b[to + n..]
  {
  }

  lemma PartOfPrefix(a: seq<Byte>, b: seq<Byte>, n: nat, i: nat, j: nat)
    requires i <= j <= n <= |a| && n <= |b| && a[..n] == b[..n]
    ensures a[i..j] == b[i..j]
  {
    assert a[i..j] == a[..n][i..j] && b[i..j] == b[..n][i..j];
  }

  lemma PartOfSuffix(a: seq<Byte>, b: seq<Byte>, k: nat, i: nat, j: nat)
    requires k <= i <= j <= |b| == |a| && a[k..] == b[k..]
    ensures a[i..j] == b[i..j]
  {
    forall x | i <= x < j ensures a[x] == b[x] {
      assert a[k..][x - k] == b[k..][x - k];
    }
  }

  /** From packet n down the loop writes nothing above packet n - 1. */
  lemma {:induction false} SpreadKeepsAbove(b: seq<Byte>, ps: seq<Packet>, size: nat, n: nat, from: nat)
    requires n <= |ps| && Placed(ps, size) && Inside(ps, |b|) && Total(ps) <= |b|
    requires from <= |b| && (n > 0 ==> End(ps[n - 1]) <= from)
    ensures Spread(b, ps, n)[from..] == b[from..]
    decreases n
  {
    hide Move, Total;
    if n > 1 {
      var p, at := ps[n - 1], Total(ps[..n - 1]);
      PrefixFits(ps, n);
      MovedPart(b, p.offset, at, p.actual);
      var m := Move(b, p.offset, at, p.actual);
      assert End(ps[n - 2]) <= p.offset <= from;
      SpreadKeepsAbove(m, ps, size, n - 1, from);
      PartOfSuffix(m, b, End(p), from, |b|);
      assert m[from..|b|] == m[from..] && b[from..|b|] == b[from..];
    }
  }

  /** Below the second packet's slot the loop writes nothing. */
  lemma {:induction false} SpreadKeepsBelow(b: seq<Byte>, ps: seq<Packet>, size: nat, n: nat, to: nat)
    requires n <= |ps| && Placed(ps, size) && Inside(ps, |b|) && Total(ps) <= |b|
    requires to <= |b| && (|ps| > 1 ==> to <= ps[1].offset)
    ensures Spread(b, ps, n)[..to] == b[..to]
    decreases n
  {
    hide Move, Total;
    if n > 1 {
      var p, at := ps[n - 1], Total(ps[..n - 1]);
      PrefixFits(ps, n);
      MovedPart(b, p.offset, at, p.actual);
      var m := Move(b, p.offset, at, p.actual);
      assert to <= p.offset by { SlotsIncrease(ps, size, 1, n - 1); }
      SpreadKeepsBelow(m, ps, size, n - 1, to);
      PartOfPrefix(m, b, p.offset, 0, to);
      assert m[0..to] == m[..to] && b[0..to] == b[..to];
    }
  }

  lemma SlotsIncrease(ps: seq<Packet>, size: nat, i: nat, j: nat)
    requires Placed(ps, size) && i <= j < |ps|
    ensures ps[i].offset <= ps[j].offset && (i < j ==> End(ps[i]) <= ps[j].offset)
  {
  }

  /** Every packet but the first gets exactly the bytes that lay at its place in the
      gathered data: no move overwrites a byte that is still to be read. */
  lemma {:induction false} SpreadSlot(b: seq<Byte>, ps: seq<Packet>, size: nat, n: nat, k: nat)
    requires 1 <= k < n <= |ps| && Placed(ps, size) && size <= |b|
    requires Inside(ps, |b|) && Total(ps) <= |b|
    ensures Total(ps[..k]) + ps[k].actual <= |b|
    ensures Slot(Spread(b, ps, n), ps[k]) == b[Total(ps[..k])..Total(ps[..k]) + ps[k].actual]
    decreases n
  {
    hide Move, Total;
    var p, at := ps[n - 1], Total(ps[..n - 1]);
    PrefixFits(ps, n);
    PrefixFits(ps, k + 1);
    MovedPart(b, p.offset, at, p.actual);
    var m := Move(b, p.offset, at, p.actual);
    if k == n - 1 {
      SlotsIncrease(ps, size, n - 2, n - 1);
      SpreadKeepsAbove(m, ps, size, n - 1, p.offset);
      PartOfSuffix(Spread(m, ps, n - 1), m, p.offset, p.offset, End(p));
    } else {
      SpreadSlot(m, ps, size, n - 1, k);
      PrefixBelowOffset(ps, size, n - 1);
      PrefixGrows(ps, k + 1, n - 1);
      PartOfPrefix(m, b, p.offset, Total(ps[..k]), Total(ps[..k]) + ps[k].actual);
    }
  }

  lemma {:induction false} PrefixGrows(ps: seq<Packet>, i: nat, j: nat)
    requires i <= j <= |ps|
    ensures Total(ps[..i]) <= Total(ps[..j])
    decreases j
  {
    if i < j {
      PrefixFits(ps, j);
      PrefixGrows(ps, i, j - 1);
    }
  }

  /** When the data fills the transfer buffer there is no padding: every packet
      already lies at its offset. */
  lemma FullMeansNoPadding(ps: seq<Packet>, size: nat, k: nat)
    requires Placed(ps, size) && Total(ps) == size && k < |ps|
    ensures ps[k].offset == Total(ps[..k])
  {
    PrefixBelowOffset(ps, size, k);
    SuffixAboveOffset(ps, size, k);
    assert ps == ps[..k] + ps[k..];
    TotalAppend(ps[..k], ps[k..]);
  }

  lemma {:induction false} SuffixAboveOffset(ps: seq<Packet>, size: nat, k: nat)
    requires Placed(ps, size) && k < |ps|
    ensures ps[k].offset + Total(ps[k..]) <= size
    decreases |ps| - k
  {
    assert ps[k..][0] == ps[k] && ps[k..][1..] == ps[k + 1..];
    if k + 1 < |ps| {
      SuffixAboveOffset(ps, size, k + 1);
    }
  }

  lemma {:induction false} NoBytesAnywhere(ps: seq<Packet>, k: nat)
    requires Total(ps) == 0 && k < |ps|
    ensures ps[k].actual == 0
  {
    if k > 0 {
      NoBytesAnywhere(ps[1..], k - 1);
    }
  }

  /** The gathered bytes of what the device wrote lie at the start of the buffer. */
  predicate Arrived(b: seq<Byte>, device: seq<Byte>, ps: seq<Packet>, size: nat) {
    && size <= |b| && Inside(ps, |b|) && Inside(ps, |device|) && Total(ps) <= |b|
    && b[..Total(ps)] == Gather(device, ps)
  }

  /** Every packet has its own bytes at its own offset again. */
  predicate Restored(b: seq<Byte>, device: seq<Byte>, ps: seq<Packet>, size: nat)
    requires Arrived(b, device, ps, size)
  {
    forall j :: 0 <= j < |ps| ==> Slot(Pad(b, ps, Total(ps), size), ps[j]) == Slot(device, ps[j])
  }

  /** Round trip: whatever the device wrote into its slots, gathering it, laying it
      at the start of the client's buffer and spreading it there in place gives every
      packet back at its own offset, provided the first that carries anything in the
      first slot starts the buffer. */
  lemma PadRestoresEveryPacket(b: seq<Byte>, device: seq<Byte>, ps: seq<Packet>, size: nat)
    requires Placed(ps, size) && Arrived(b, device, ps, size)
    requires ps != [] ==> ps[0].offset == 0 || ps[0].actual == 0
    ensures Restored(b, device, ps, size)
  {
    hide Gather, Total;
    var r, n := Pad(b, ps, Total(ps), size), |ps|;
    forall j | 0 <= j < n ensures Slot(r, ps[j]) == Slot(device, ps[j]) {
      var at := Total(ps[..j]);
      GatherAt(device, ps, j);
      PartOfPrefix(b, b[..Total(ps)], Total(ps), at, at + ps[j].actual);
      assert b[at..at + ps[j].actual] == Slot(device, ps[j]);
      if Total(ps) == 0 {
        NoBytesAnywhere(ps, j);
      } else if Total(ps) == size {
        FullMeansNoPadding(ps, size, j);
      } else if j > 0 {
        SpreadSlot(b, ps, size, n, j);
      } else {
        assert at == 0 by { NothingBefore(ps); }
        FirstSlotKept(b, ps, size);
      }
    }
  }

  lemma NothingBefore(ps: seq<Packet>)
    ensures Total(ps[..0]) == 0
  {
  }

  lemma FirstSlotKept(b: seq<Byte>, ps: seq<Packet>, size: nat)
    requires ps != [] && Placed(ps, size) && Inside(ps, |b|) && Total(ps) <= |b|
    ensures Spread(b, ps, |ps|)[..End(ps[0])] == b[..End(ps[0])]
    ensures Slot(Spread(b, ps, |ps|), ps[0]) == Slot(b, ps[0])
  {
    hide Spread, Total;
    SpreadKeepsBelow(b, ps, size, |ps|, End(ps[0]));
    PartOfPrefix(Spread(b, ps, |ps|), b, End(ps[0]), ps[0].offset, End(ps[0]));
  }

  // ------------------------------------------------------------ exactly when it works

  /** Nothing but zeros, except one byte. */
  function OneByte(n: nat, at: nat): (b: seq<Byte>)
    ensures |b| == n
  {
    seq(n, i => if i == at then 1 else 0)
  }

  lemma {:induction false} GatherZeros(device: seq<Byte>, ps: seq<Packet>)
    requires Inside(ps, |device|)
    requires forall j, i :: 0 <= j < |ps| && ps[j].offset <= i < End(ps[j]) ==> device[i] == 0
    ensures forall i :: 0 <= i < Total(ps) ==> Gather(device, ps)[i] == 0
  {
    if ps != [] {
      assert forall j :: 0 <= j < |ps[1..]| ==> ps[1..][j] == ps[j + 1];
      GatherZeros(device, ps[1..]);
    }
  }

  /** A device that wrote one byte, the last of a first packet that does not start the
      buffer: the loop never moves it there. */
  lemma FirstPacketLost(ps: seq<Packet>, size: nat) returns (b: seq<Byte>, device: seq<Byte>)
    requires Placed(ps, size) && ps != [] && ps[0].offset > 0 && ps[0].actual > 0
    ensures Arrived(b, device, ps, size) && !Restored(b, device, ps, size)
  {
    hide Spread;
    var p := ps[0];
    var last := End(p) - 1;
    device := OneByte(size, last);
    SuffixAboveOffset(ps, size, 0);
    assert ps[0..] == ps;
    var wire := Gather(device, ps);
    b := wire + OneByte(size - Total(ps), size);
    assert Arrived(b, device, ps, size);
    assert forall j :: 0 <= j < |ps[1..]| ==> ps[1..][j] == ps[j + 1];
    GatherZeros(device, ps[1..]);
    assert forall i :: p.actual <= i < Total(ps) ==> wire[i] == Gather(device, ps[1..])[i - p.actual];
    assert b[last] == 0;
    FirstSlotKept(b, ps, size);
    var r := Pad(b, ps, Total(ps), size);
    assert r == Spread(b, ps, |ps|);
    assert Slot(r, p)[p.actual - 1] == b[last] && Slot(device, p)[p.actual - 1] == device[last] == 1;
  }

  /** Exactly when the round trip holds for every content: the first slot starts the
      buffer or carries nothing. The loop stops before packet 0. */
  lemma RestoredIff(ps: seq<Packet>, size: nat)
    requires Placed(ps, size)
    ensures (forall b, device :: Arrived(b, device, ps, size) ==> Restored(b, device, ps, size))
        <==> ps == [] || ps[0].offset == 0 || ps[0].actual == 0
  {
    hide Placed, Arrived, Restored;
    if ps == [] || ps[0].offset == 0 || ps[0].actual == 0 {
      forall b, device | Arrived(b, device, ps, size) ensures Restored(b, device, ps, size) {
        PadRestoresEveryPacket(b, device, ps, size);
      }
    } else {
      var b, device := FirstPacketLost(ps, size);
    }
  }

  /** Every packet beyond the first that carries anything already lies at its place in
      the gathered data. */
  predicate InPlace(ps: seq<Packet>) {
    forall k :: 1 <= k < |ps| && ps[k].actual > 0 ==> ps[k].offset == Total(ps[..k])
  }

  lemma MoveNowhere(b: seq<Byte>, to: nat, from: nat, n: nat)
    requires to + n <= |b| && from + n <= |b| && (to == from || n == 0)
    ensures Move(b, to, from, n) == b
  {
  }

  lemma {:induction false} InPlaceKept(b: seq<Byte>, ps: seq<Packet>, n: nat)
    requires n <= |ps| && Inside(ps, |b|) && Total(ps) <= |b| && InPlace(ps)
    ensures Spread(b, ps, n) == b
    decreases n
  {
    hide Move, Total;
    if n > 1 {
      PrefixFits(ps, n);
      MoveNowhere(b, ps[n - 1].offset, Total(ps[..n - 1]), ps[n - 1].actual);
      InPlaceKept(b, ps, n - 1);
    }
  }

  /** A buffer that shows a packet out of place: its slot's last byte is not the last of
      its gathered bytes. */
  lemma OutOfPlaceMoved(ps: seq<Packet>, size: nat, len: nat, k: nat) returns (b: seq<Byte>)
    requires Placed(ps, size) && size <= len
    requires 1 <= k < |ps| && ps[k].actual > 0 && ps[k].offset != Total(ps[..k])
    ensures |b| == len && Inside(ps, len) && Total(ps) <= len && Pad(b, ps, Total(ps), size) != b
  {
    hide Spread, Total;
    var p, at := ps[k], Total(ps[..k]);
    var last := End(p) - 1;
    b := OneByte(len, last);
    PrefixBelowOffset(ps, size, k);
    PrefixFits(ps, k + 1);
    TotalInside(ps, size);
    SpreadSlot(b, ps, size, |ps|, k);
    var r := Spread(b, ps, |ps|);
    assert Slot(r, p)[p.actual - 1] == r[last];
    assert b[at..at + p.actual][p.actual - 1] == b[at + p.actual - 1] == 0;
    assert Pad(b, ps, Total(ps), size) == r by {
      if Total(ps) == size {
        FullMeansNoPadding(ps, size, k);
      }
    }
  }

  lemma TotalInside(ps: seq<Packet>, size: nat)
    requires Placed(ps, size)
    ensures Total(ps) <= size
  {
    if ps != [] {
      SuffixAboveOffset(ps, size, 0);
      assert ps[0..] == ps;
    }
  }

  /** Exactly when padding leaves every buffer as it is. */
  lemma PadKeepsIff(ps: seq<Packet>, size: nat, len: nat)
    requires Placed(ps, size) && size <= len
    requires Inside(ps, len) && Total(ps) <= len
    ensures (forall b: seq<Byte> :: |b| == len ==> Pad(b, ps, Total(ps), size) == b) <==> InPlace(ps)
  {
    hide Placed, Total, Spread;
    if InPlace(ps) {
      forall b: seq<Byte> | |b| == len ensures Pad(b, ps, Total(ps), size) == b {
        InPlaceKept(b, ps, |ps|);
      }
    } else {
      var k :| 1 <= k < |ps| && ps[k].actual > 0 && ps[k].offset != Total(ps[..k]);
      var b := OutOfPlaceMoved(ps, size, len, k);
    }
  }

  /** A transfer that moved all of the buffer, or none of it, has its packets in place. */
  lemma WholeOrNoneInPlace(ps: seq<Packet>, size: nat)
    requires Placed(ps, size) && (Total(ps) == 0 || Total(ps) == size)
    ensures InPlace(ps)
  {
    forall k | 1 <= k < |ps| && ps[k].actual > 0 ensures ps[k].offset == Total(ps[..k]) {
      if Total(ps) == 0 {
        NoBytesAnywhere(ps, k);
      } else {
        FullMeansNoPadding(ps, size, k);
      }
    }
  }

  // ------------------------------------------------------------ in place

  /** memmove inside one buffer. */
  method MemMove(a: array<Byte>, to: nat, from: nat, n: nat)
    requires to + n <= a.Length && from + n <= a.Length
    modifies a
    ensures a[..] == Move(old(a[..]), to, from, n)
  {
    forall k | 0 <= k < n {
      a[to + k] := a[from + k];
    }
  }

  /** usbip_pad_iso on the buffer itself. */
  method PadInPlace(a: array<Byte>, ps: seq<Packet>, actual: nat, size: int)
    requires Inside(ps, a.Length) && actual <= a.Length && actual == Total(ps)
    modifies a
    ensures a[..] == Pad(old(a[..]), ps, actual, size)
  {
    hide Move, Total;
    if |ps| == 0 || actual == 0 {
      return;
    }
    if actual == size {
      return;
    }
    var actualOffset: int := actual;
    var i := |ps| - 1;
    assert ps[..|ps|] == ps;
    while i > 0
      invariant 0 <= i < |ps|
      invariant actualOffset == Total(ps[..i + 1])
      invariant Spread(a[..], ps, i + 1) == Spread(old(a[..]), ps, |ps|)
    {
      PrefixFits(ps, i + 1);
      actualOffset := actualOffset - ps[i].actual;
      MemMove(a, ps[i].offset, actualOffset, ps[i].actual);
      i := i - 1;
    }
    assert Spread(a[..], ps, i + 1) == a[..];
    assert Pad(old(a[..]), ps, actual, size) == Spread(old(a[..]), ps, |ps|);
  }
}
