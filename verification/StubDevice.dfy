/** The server's lists as the code keeps them. */
module StubDevice {
  import opened Bags
  import opened UrbProtocol
  import opened VhciDevice

  function RetSubmitMessages(q: seq<StubPriv>): seq<Ret> {
    if q == [] then [] else [RetSubmit(q[0].seqnum, q[0].outcome)] + RetSubmitMessages(q[1..])
  }

  function RetUnlinkMessages(q: seq<StubUnlink>): seq<Ret> {
    if q == [] then [] else [RetUnlink(q[0].seqnum, q[0].status)] + RetUnlinkMessages(q[1..])
  }

  lemma {:induction false} RetSubmitMessagesSnoc(q: seq<StubPriv>, p: StubPriv)
    ensures RetSubmitMessages(q + [p]) == RetSubmitMessages(q) + [RetSubmit(p.seqnum, p.outcome)]
  {
    if q == [] {
      assert q + [p] == [p];
    } else {
      assert (q + [p])[1..] == q[1..] + [p];
      RetSubmitMessagesSnoc(q[1..], p);
    }
  }

  lemma {:induction false} RetUnlinkMessagesSnoc(q: seq<StubUnlink>, u: StubUnlink)
    ensures RetUnlinkMessages(q + [u]) == RetUnlinkMessages(q) + [RetUnlink(u.seqnum, u.status)]
  {
    if q == [] {
      assert q + [u] == [u];
    } else {
      assert (q + [u])[1..] == q[1..] + [u];
      RetUnlinkMessagesSnoc(q[1..], u);
    }
  }

  class Device {
    var privInit: seq<StubPriv>
    var privTx: seq<StubPriv>
    var privFree: seq<StubPriv>
    var unlinkTx: seq<StubUnlink>
    var unlinkFree: seq<StubUnlink>
    /** What was written to the socket. */
    var sent: seq<Ret>

    function View(): Server
      reads this
    {
      Server(privInit, privTx, privFree, unlinkTx, unlinkFree)
    }

    constructor ()
      ensures View() == START.server && sent == []
    {
      privInit, privTx, privFree, unlinkTx, unlinkFree, sent := [], [], [], [], [], [];
    }

    /** stub_priv_alloc and what stub_build_urb fills in. */
    method RecvCmdSubmit(n: nat, request: Request)
      modifies this
      ensures View() == UrbProtocol.RecvCmdSubmit(old(View()), n, request) && sent == old(sent)
    {
      privInit := privInit + [StubPriv(n, request, n, false, NO_OUTCOME)];
    }

    /** stub_enqueue_ret_unlink. */
    method EnqueueRetUnlink(n: nat, status: int)
      modifies this`unlinkTx
      ensures unlinkTx == old(unlinkTx) + [StubUnlink(n, status)]
    {
      unlinkTx := unlinkTx + [StubUnlink(n, status)];
    }

    /** stub_recv_cmd_unlink: walk priv_init for the target; rename it in place,
        or answer at once. */
    method RecvCmdUnlink(n: nat, target: nat)
      modifies this
      ensures View() == UrbProtocol.RecvCmdUnlink(old(View()), n, target) && sent == old(sent)
    {
      var i := 0;
      while i < |privInit|
        invariant i <= |privInit| && View() == old(View()) && sent == old(sent)
        invariant forall j :: 0 <= j < i ==> privInit[j].seqnum != target
      {
        if privInit[i].seqnum == target {
          FirstIs(privInit, StubPrivKey, target, i);
          var priv := privInit[i];
          priv := priv.(unlinking := true);
          priv := priv.(seqnum := n);
          privInit := privInit[i := priv];
          return;
        }
        i := i + 1;
      }
      EnqueueRetUnlink(n, 0);
    }

    /** stub_complete for the i-th URB in progress. The status -ENOENT belongs
        to a connection being torn down: nothing is queued. */
    method Complete(i: nat, outcome: Outcome)
      requires i < |privInit|
      modifies this
      ensures View() == if outcome.status == ENOENT then old(View())
                        else UrbProtocol.Complete(old(View()), i, outcome)
      ensures sent == old(sent)
    {
      if outcome.status == ENOENT {
        return;
      }
      var priv := privInit[i];
      privInit := privInit[..i] + privInit[i + 1..];
      if priv.unlinking {
        EnqueueRetUnlink(priv.seqnum, outcome.status);
      } else {
        privTx := privTx + [priv.(outcome := outcome)];
      }
    }

    /** dequeue_from_priv_tx. */
    method DequeueFromPrivTx() returns (priv: Option<StubPriv>)
      modifies this
      ensures if old(privTx) == [] then priv == None && View() == old(View())
              else priv == Some(old(privTx)[0]) && View() == StubTakeSubmit(old(View()))
      ensures sent == old(sent)
    {
      if privTx == [] {
        return None;
      }
      priv := Some(privTx[0]);
      privFree := privFree + [privTx[0]];
      privTx := privTx[1..];
    }

    /** stub_send_ret_submit with nobody else at the lists: every result is sent
        in the order of completion, then freed. */
    method SendRetSubmit()
      modifies this
      ensures View() == old(View()).(privTx := [], privFree := [])
      ensures sent == old(sent) + RetSubmitMessages(old(privTx))
    {
      var priv := DequeueFromPrivTx();
      ghost var done: seq<StubPriv> := [];
      while priv.Some?
        invariant View() == old(View()).(privTx := privTx, privFree := privFree)
        invariant old(privTx) == done + (if priv.Some? then [priv.value] else []) + privTx
        invariant priv.None? ==> privTx == []
        invariant sent == old(sent) + RetSubmitMessages(done)
        decreases |privTx|, priv.Some?
      {
        hide RetSubmitMessages;
        RetSubmitMessagesSnoc(done, priv.value);
        done := done + [priv.value];
        sent := sent + [RetSubmit(priv.value.seqnum, priv.value.outcome)];
        priv := DequeueFromPrivTx();
      }
      assert done == old(privTx);
      while privFree != []
        invariant View() == old(View()).(privTx := [], privFree := privFree)
        invariant sent == old(sent) + RetSubmitMessages(old(privTx))
        decreases |privFree|
      {
        privFree := privFree[1..];
      }
    }

    /** dequeue_from_unlink_tx. */
    method DequeueFromUnlinkTx() returns (unlink: Option<StubUnlink>)
      modifies this
      ensures if old(unlinkTx) == [] then unlink == None && View() == old(View())
              else unlink == Some(old(unlinkTx)[0]) && View() == StubTakeUnlink(old(View()))
      ensures sent == old(sent)
    {
      if unlinkTx == [] {
        return None;
      }
      unlink := Some(unlinkTx[0]);
      unlinkFree := unlinkFree + [unlinkTx[0]];
      unlinkTx := unlinkTx[1..];
    }

    /** stub_send_ret_unlink with nobody else at the lists. */
    method SendRetUnlink()
      modifies this
      ensures View() == old(View()).(unlinkTx := [], unlinkFree := [])
      ensures sent == old(sent) + RetUnlinkMessages(old(unlinkTx))
    {
      var unlink := DequeueFromUnlinkTx();
      ghost var done: seq<StubUnlink> := [];
      while unlink.Some?
        invariant View() == old(View()).(unlinkTx := unlinkTx, unlinkFree := unlinkFree)
        invariant old(unlinkTx) == done + (if unlink.Some? then [unlink.value] else []) + unlinkTx
        invariant unlink.None? ==> unlinkTx == []
        invariant sent == old(sent) + RetUnlinkMessages(done)
        decreases |unlinkTx|, unlink.Some?
      {
        hide RetUnlinkMessages;
        RetUnlinkMessagesSnoc(done, unlink.value);
        done := done + [unlink.value];
        sent := sent + [RetUnlink(unlink.value.seqnum, unlink.value.status)];
        unlink := DequeueFromUnlinkTx();
      }
      assert done == old(unlinkTx);
      while unlinkFree != []
        invariant View() == old(View()).(unlinkTx := [], unlinkFree := unlinkFree)
        invariant sent == old(sent) + RetUnlinkMessages(old(unlinkTx))
        decreases |unlinkFree|
      {
        unlinkFree := unlinkFree[1..];
      }
    }
  }
}
