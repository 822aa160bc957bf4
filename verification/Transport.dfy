/** Receiving an exact number of bytes from a connection that delivers them in
    pieces of any size. */
module Transport {
  import opened Bytes
  import opened Wire

  const EINVAL: int := 22

  /** What the connection reports once nothing is left to deliver: 0 for an orderly
      close, a negative number for an error. */
  type Ending = x: int | x <= 0

  /** What is still to arrive. */
  datatype Stream = Stream(bytes: seq<Byte>, ending: Ending)

  datatype Receipt = Receipt(ret: int, data: seq<Byte>, rest: Stream)

  /** usbip_recv, without the pieces: all the bytes asked for, or those there were
      and the connection's own result. */
  function Exactly(st: Stream, size: nat): (r: Receipt)
    ensures r.rest.ending == st.ending
    ensures st.bytes == r.data + r.rest.bytes
    ensures r.ret == size <==> 0 < size <= |st.bytes|
    ensures r.ret == size ==> |r.data| == size
    ensures size == 0 ==> r.ret == -22
    ensures size > |st.bytes| ==> r.ret == st.ending && r.data == st.bytes
  {
    if size == 0 then Receipt(-EINVAL, [], st)
    else if size <= |st.bytes| then Receipt(size, st.bytes[..size], st.(bytes := st.bytes[size..]))
    else Receipt(st.ending, st.bytes, st.(bytes := []))
  }

  lemma PieceStored(before: seq<Byte>, after: seq<Byte>, all: seq<Byte>, was: seq<Byte>, total: nat, n: nat)
    requires total + n <= |all| && total + n <= |was|
    requires before == all[..total] + was[total..]
    requires after == before[..total] + all[total..][..n] + before[total + n..]
    ensures after == all[..total + n] + was[total + n..]
    ensures all[total..][n..] == all[total + n..]
  {
    assert before[..total] == all[..total] && before[total + n..] == was[total + n..];
    assert all[..total] + all[total..][..n] == all[..total + n];
  }

  class Socket {
    var incoming: seq<Byte>
    // how much the next calls will deliver at most; any division of the bytes
    var pieces: seq<nat>
    const ending: Ending

    constructor (bytes: seq<Byte>, pieces: seq<nat>, ending: Ending)
      ensures incoming == bytes && this.pieces == pieces && this.ending == ending
    {
      incoming := bytes;
      this.pieces := pieces;
      this.ending := ending;
    }

    function State(): Stream
      reads this
    {
      Stream(incoming, ending)
    }

    /** One receive call: at least one byte while any is to come, never more than
        asked for, and otherwise the connection's result. */
    method RecvMsg(buf: array<Byte>, at: nat, size: nat) returns (result: int)
      requires 0 < size && at + size <= buf.Length
      modifies this, buf
      ensures old(incoming) == [] ==> result == ending && incoming == [] && buf[..] == old(buf[..])
      ensures old(incoming) != [] ==>
        && 0 < result <= size && result <= |old(incoming)|
        && incoming == old(incoming)[result..]
        && buf[..] == old(buf[..at]) + old(incoming)[..result] + old(buf[at + result..])
    {
      if incoming == [] {
        return ending;
      }
      var n := if pieces == [] || pieces[0] == 0 then 1 else pieces[0];
      n := if n <= size then n else size;
      n := if n <= |incoming| then n else |incoming|;
      if pieces != [] {
        pieces := pieces[1..];
      }
      forall k | 0 <= k < n {
        buf[at + k] := incoming[k];
      }
      incoming := incoming[n..];
      result := n;
    }

    /** The receive loop: however the bytes are divided, the result is the same. */
    method Recv(buf: array<Byte>, size: nat) returns (ret: int)
      requires size <= buf.Length
      modifies this, buf
      ensures var r := Exactly(old(State()), size);
        ret == r.ret && State() == r.rest && buf[..] == r.data + old(buf[..])[|r.data|..]
    {
      ghost var was, all := buf[..], incoming;
      if size == 0 {
        return -EINVAL;
      }
      var left, total := size, 0;
      while left > 0
        invariant 0 <= left <= size && total == size - left
        invariant total <= |all| && incoming == all[total..]
        invariant buf[..] == all[..total] + was[total..]
      {
        ghost var before := buf[..];
        var result := RecvMsg(buf, total, left);
        if result <= 0 {
          assert all[..total] == all;
          return result;
        }
        PieceStored(before, buf[..], all, was, total, result);
        left, total := left - result, total + result;
      }
      return total;
    }
  }
}
