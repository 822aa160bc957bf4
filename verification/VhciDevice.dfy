/** The client's lists as the code keeps them: fields updated in place by loops
    over lists. Each method is one locked section or one drain loop, and is
    proved to do to the lists what the protocol model says. */
module VhciDevice {
  import opened Bags
  import opened UrbProtocol

  /** The messages a drain loop sends for a queue of URBs, in order. */
  function SubmitMessages(q: seq<Priv>): seq<Cmd> {
    if q == [] then [] else [CmdSubmit(q[0].seqnum, q[0].request)] + SubmitMessages(q[1..])
  }

  function UnlinkMessages(q: seq<Unlink>): seq<Cmd> {
    if q == [] then [] else [CmdUnlink(q[0].seqnum, q[0].target)] + UnlinkMessages(q[1..])
  }

  lemma {:induction false} SubmitMessagesSnoc(q: seq<Priv>, p: Priv)
    ensures SubmitMessages(q + [p]) == SubmitMessages(q) + [CmdSubmit(p.seqnum, p.request)]
  {
    if q == [] {
      assert q + [p] == [p];
    } else {
      assert (q + [p])[1..] == q[1..] + [p];
      SubmitMessagesSnoc(q[1..], p);
    }
  }

  lemma {:induction false} UnlinkMessagesSnoc(q: seq<Unlink>, u: Unlink)
    ensures UnlinkMessages(q + [u]) == UnlinkMessages(q) + [CmdUnlink(u.seqnum, u.target)]
  {
    if q == [] {
      assert q + [u] == [u];
    } else {
      assert (q + [u])[1..] == q[1..] + [u];
      UnlinkMessagesSnoc(q[1..], u);
    }
  }

  /** What drivers dequeue while the cleanup has dropped its locks. */
  function Dequeues(c: Client, ns: seq<nat>): Client
    decreases |ns|
  {
    if ns == [] then c else Dequeues(UrbDequeue(c, ns[0]), ns[1..])
  }

  /** The cleanup loop from one turn on. windows[k] lists the URBs that drivers
      dequeue in its k-th unlocked window; a turn that finds no URB opens none. */
  function Cleanup(c: Client, windows: seq<seq<nat>>): Client
    requires !c.socket
    decreases |c.unlinkRx|
  {
    if c.unlinkRx == [] then c
    else
      var c' := CleanupOne(c);
      if !Waiting(c.privRx, c.unlinkRx[0].target) then Cleanup(c', windows)
      else if windows == [] then Cleanup(c', [])
      else
        DequeuesKeepUnlinks(c', windows[0]);
        Cleanup(Dequeues(c', windows[0]), windows[1..])
  }

  /** A dequeue after the connection is closed queues no unlink request. */
  lemma {:induction false} DequeuesKeepUnlinks(c: Client, ns: seq<nat>)
    requires !c.socket
    ensures var c' := Dequeues(c, ns);
      c'.unlinkRx == c.unlinkRx && c'.unlinkTx == c.unlinkTx && !c'.socket
    decreases |ns|
  {
    if ns != [] {
      DequeuesKeepUnlinks(UrbDequeue(c, ns[0]), ns[1..]);
    }
  }

  lemma {:induction false} CleanupEmpties(c: Client, windows: seq<seq<nat>>)
    requires !c.socket
    ensures Cleanup(c, windows).unlinkRx == [] && Cleanup(c, windows).unlinkTx == c.unlinkTx
    decreases |c.unlinkRx|
  {
    if c.unlinkRx != [] {
      var c' := CleanupOne(c);
      if !Waiting(c.privRx, c.unlinkRx[0].target) {
        CleanupEmpties(c', windows);
      } else if windows == [] {
        CleanupEmpties(c', []);
      } else {
        DequeuesKeepUnlinks(c', windows[0]);
        CleanupEmpties(Dequeues(c', windows[0]), windows[1..]);
      }
    }
  }

  class Device {
    var seqnum: nat
    var privTx: seq<Priv>
    var privRx: seq<Priv>
    var unlinkTx: seq<Unlink>
    var unlinkRx: seq<Unlink>
    var marked: set<nat>
    var given: seq<Given>
    var socket: bool
    /** What was written to the socket. */
    var sent: seq<Cmd>

    function View(): Client
      reads this
    {
      Client(seqnum, privTx, privRx, unlinkTx, unlinkRx, marked, given, socket)
    }

    constructor ()
      ensures View() == START.client && sent == []
    {
      seqnum, marked, given, socket, sent := 0, {}, [], true, [];
      privTx, privRx, unlinkTx, unlinkRx := [], [], [], [];
    }

    /** vhci_tx_urb. */
    method Enqueue(request: Request) returns (n: nat)
      modifies this
      ensures View() == TxUrb(old(View()), request) && n == seqnum && sent == old(sent)
    {
      seqnum := seqnum + 1;
      n := seqnum;
      privTx := privTx + [Priv(n, request)];
    }

    /** pickup_urb_and_free_priv: walk priv_rx, unlink the first entry with this
        number. */
    method PickupUrbAndFreePriv(n: nat) returns (urb: Option<Priv>)
      modifies this`privRx
      ensures urb.Some? <==> Waiting(old(privRx), n)
      ensures urb.Some? ==> urb.value == old(privRx)[PrivAt(old(privRx), n)]
                            && privRx == Without(old(privRx), PrivAt(old(privRx), n))
      ensures urb.None? ==> privRx == old(privRx)
    {
      urb := None;
      var i := 0;
      while i < |privRx|
        invariant i <= |privRx| && privRx == old(privRx) && urb.None?
        invariant forall j :: 0 <= j < i ==> privRx[j].seqnum != n
      {
        if privRx[i].seqnum == n {
          urb := Some(privRx[i]);
          privRx := privRx[..i] + privRx[i + 1..];
          FirstIs(old(privRx), PrivKey, n, i);
          return;
        }
        i := i + 1;
      }
    }

    /** vhci_urb_dequeue. */
    method UrbDequeue(n: nat)
      modifies this
      ensures View() == UrbProtocol.UrbDequeue(old(View()), n) && sent == old(sent)
    {
      if !(Waiting(privTx, n) || Waiting(privRx, n)) || n in marked {
        return;
      }
      marked := marked + {n};
      if !socket {
        if Waiting(privTx, n) {
          privTx := Without(privTx, PrivAt(privTx, n));
        } else {
          privRx := Without(privRx, PrivAt(privRx, n));
        }
        given := given + [Given(n, ByDequeue)];
      } else {
        seqnum := seqnum + 1;
        unlinkTx := unlinkTx + [Unlink(seqnum, n)];
      }
    }

    /** vhci_recv_ret_submit: false is the TCP error. */
    method RecvRetSubmit(n: nat, outcome: Outcome) returns (ok: bool)
      modifies this
      ensures View() == PickupAndGiveBack(old(View()), n, ByRetSubmit(outcome)) && sent == old(sent)
      ensures ok <==> Waiting(old(privRx), n)
    {
      var urb := PickupUrbAndFreePriv(n);
      ok := urb.Some?;
      if ok {
        given := given + [Given(urb.value.seqnum, ByRetSubmit(outcome))];
      }
    }

    /** dequeue_pending_unlink. */
    method DequeuePendingUnlink(n: nat) returns (unlink: Option<Unlink>)
      modifies this`unlinkRx
      ensures var i := First(old(unlinkRx), UnlinkKey, n);
        if i < |old(unlinkRx)|
        then unlink == Some(old(unlinkRx)[i]) && View() == DropUnlink(old(View()), i)
        else unlink == None && View() == old(View())
    {
      unlink := None;
      var i := 0;
      while i < |unlinkRx|
        invariant i <= |unlinkRx| && unlinkRx == old(unlinkRx) && unlink.None?
        invariant forall j :: 0 <= j < i ==> unlinkRx[j].seqnum != n
      {
        if unlinkRx[i].seqnum == n {
          unlink := Some(unlinkRx[i]);
          unlinkRx := unlinkRx[..i] + unlinkRx[i + 1..];
          FirstIs(old(unlinkRx), UnlinkKey, n, i);
          return;
        }
        i := i + 1;
      }
    }

    /** vhci_recv_ret_unlink, both sections in a row. */
    method RecvRetUnlink(n: nat, status: int)
      modifies this
      ensures var i := First(old(unlinkRx), UnlinkKey, n);
        View() == if i < |old(unlinkRx)|
                  then PickupAndGiveBack(DropUnlink(old(View()), i), old(unlinkRx)[i].target, ByRetUnlink(status))
                  else old(View())
      ensures sent == old(sent)
    {
      var unlink := DequeuePendingUnlink(n);
      if unlink.None? {
        return;
      }
      var urb := PickupUrbAndFreePriv(unlink.value.target);
      if urb.Some? {
        given := given + [Given(urb.value.seqnum, ByRetUnlink(status))];
      }
    }

    /** dequeue_from_priv_tx. */
    method DequeueFromPrivTx() returns (priv: Option<Priv>)
      modifies this
      ensures if old(privTx) == [] then priv == None && View() == old(View())
              else priv == Some(old(privTx)[0]) && View() == TakeSubmit(old(View()))
      ensures sent == old(sent)
    {
      if privTx == [] {
        return None;
      }
      priv := Some(privTx[0]);
      privRx := privRx + [privTx[0]];
      privTx := privTx[1..];
    }

    /** vhci_send_cmd_submit with nobody else at the lists: everything queued is
        sent, oldest first, and waits in priv_rx in the same order. */
    method SendCmdSubmit()
      modifies this
      ensures View() == old(View()).(privTx := [], privRx := old(privRx) + old(privTx))
      ensures sent == old(sent) + SubmitMessages(old(privTx))
    {
      var priv := DequeueFromPrivTx();
      ghost var done: seq<Priv> := [];
      while priv.Some?
        invariant View() == old(View()).(privTx := privTx, privRx := privRx)
        invariant old(privTx) == done + (if priv.Some? then [priv.value] else []) + privTx
        invariant privRx == old(privRx) + done + (if priv.Some? then [priv.value] else [])
        invariant priv.None? ==> privTx == []
        invariant sent == old(sent) + SubmitMessages(done)
        decreases |privTx|, priv.Some?
      {
        hide SubmitMessages;
        SubmitMessagesSnoc(done, priv.value);
        done := done + [priv.value];
        sent := sent + [CmdSubmit(priv.value.seqnum, priv.value.request)];
        priv := DequeueFromPrivTx();
      }
      assert done == old(privTx);
    }

    /** dequeue_from_unlink_tx. */
    method DequeueFromUnlinkTx() returns (unlink: Option<Unlink>)
      modifies this
      ensures if old(unlinkTx) == [] then unlink == None && View() == old(View())
              else unlink == Some(old(unlinkTx)[0]) && View() == TakeUnlink(old(View()))
      ensures sent == old(sent)
    {
      if unlinkTx == [] {
        return None;
      }
      unlink := Some(unlinkTx[0]);
      unlinkRx := unlinkRx + [unlinkTx[0]];
      unlinkTx := unlinkTx[1..];
    }

    /** vhci_send_cmd_unlink with nobody else at the lists. */
    method SendCmdUnlink()
      modifies this
      ensures View() == old(View()).(unlinkTx := [], unlinkRx := old(unlinkRx) + old(unlinkTx))
      ensures sent == old(sent) + UnlinkMessages(old(unlinkTx))
    {
      var unlink := DequeueFromUnlinkTx();
      ghost var done: seq<Unlink> := [];
      while unlink.Some?
        invariant View() == old(View()).(unlinkTx := unlinkTx, unlinkRx := unlinkRx)
        invariant old(unlinkTx) == done + (if unlink.Some? then [unlink.value] else []) + unlinkTx
        invariant unlinkRx == old(unlinkRx) + done + (if unlink.Some? then [unlink.value] else [])
        invariant unlink.None? ==> unlinkTx == []
        invariant sent == old(sent) + UnlinkMessages(done)
        decreases |unlinkTx|, unlink.Some?
      {
        hide UnlinkMessages;
        UnlinkMessagesSnoc(done, unlink.value);
        done := done + [unlink.value];
        sent := sent + [CmdUnlink(unlink.value.seqnum, unlink.value.target)];
        unlink := DequeueFromUnlinkTx();
      }
      assert done == old(unlinkTx);
    }

    /** One turn of the cleanup loop. */
    method CleanupTurn() returns (found: bool)
      requires unlinkRx != []
      modifies this
      ensures View() == CleanupOne(old(View())) && sent == old(sent)
      ensures found == Waiting(old(privRx), old(unlinkRx[0]).target)
      ensures socket == old(socket) && unlinkTx == old(unlinkTx) && unlinkRx == old(unlinkRx)[1..]
    {
      var unlink := unlinkRx[0];
      var urb := PickupUrbAndFreePriv(unlink.target);
      unlinkRx := unlinkRx[1..];
      found := urb.Some?;
      if found {
        given := given + [Given(urb.value.seqnum, ByCleanup(ENODEV))];
      }
    }

    /** vhci_device_unlink_cleanup. The locks are dropped around each giveback;
        windows says which URBs drivers dequeue meanwhile. */
    method UnlinkCleanup(windows: seq<seq<nat>>)
      requires !socket
      modifies this
      ensures View() == Cleanup(old(View()).(unlinkTx := []), windows)
      ensures unlinkTx == [] && unlinkRx == [] && sent == old(sent)
    {
      hide Waiting, Dequeues, PickupAndGiveBack;
      while unlinkTx != []
        invariant View() == old(View()).(unlinkTx := unlinkTx) && sent == old(sent)
        decreases |unlinkTx|
      {
        unlinkTx := unlinkTx[1..];
      }
      var rest := windows;
      CleanupEmpties(View(), windows);
      while unlinkRx != []
        invariant !socket && unlinkTx == [] && sent == old(sent)
        invariant Cleanup(View(), rest) == Cleanup(old(View()).(unlinkTx := []), windows)
        decreases |unlinkRx|
      {
        var found := CleanupTurn();
        if found && rest != [] {
          DequeuesKeepUnlinks(View(), rest[0]);
          DriversDequeue(rest[0]);
          rest := rest[1..];
        }
      }
    }

    /** The drivers' dequeues in one unlocked window. */
    method DriversDequeue(ns: seq<nat>)
      modifies this
      ensures View() == Dequeues(old(View()), ns) && sent == old(sent)
    {
      var i := 0;
      while i < |ns|
        invariant i <= |ns| && sent == old(sent)
        invariant Dequeues(View(), ns[i..]) == Dequeues(old(View()), ns)
      {
        assert ns[i..][1..] == ns[i + 1..];
        UrbDequeue(ns[i]);
        i := i + 1;
      }
    }
  }

  // ------------------------------------- the cleanup method is a protocol run

  lemma {:induction false} JoinRuns(w: World, es: seq<Event>, ds: seq<Event>)
    requires Feasible(w, es) && Feasible(Run(w, es), ds)
    ensures Feasible(w, es + ds) && Run(w, es + ds) == Run(Run(w, es), ds)
    decreases |es|
  {
    hide Enabled, Next;
    if es == [] {
      assert es + ds == ds;
    } else {
      assert (es + ds)[1..] == es[1..] + ds;
      JoinRuns(Next(w, es[0]), es[1..], ds);
    }
  }

  lemma OneEvent(w: World, e: Event)
    requires Enabled(w, e)
    ensures Feasible(w, [e]) && Run(w, [e]) == Next(w, e)
  {
    assert [e][1..] == [];
  }

  lemma {:induction false} DequeuesAreRun(w: World, ns: seq<nat>) returns (es: seq<Event>)
    requires !w.client.socket
    ensures Feasible(w, es) && Run(w, es) == w.(client := Dequeues(w.client, ns))
    decreases |ns|
  {
    hide First;
    if ns == [] {
      return [];
    }
    var w1 := DoDequeue(w, ns[0]);
    OneEvent(w, Dequeue(ns[0]));
    hide Next, Enabled, Feasible, Run;
    assert w1 == w.(client := UrbDequeue(w.client, ns[0]));
    var ds := DequeuesAreRun(w1, ns[1..]);
    JoinRuns(w, [Dequeue(ns[0])], ds);
    es := [Dequeue(ns[0])] + ds;
  }

  /** However the drivers' dequeues fall into its unlocked windows, what
      UnlinkCleanup does to the lists is what some run of the protocol does. */
  lemma {:induction false} CleanupIsRun(w: World, windows: seq<seq<nat>>) returns (es: seq<Event>)
    requires w.phase.Cleaning? && !w.client.socket
    ensures Feasible(w, es) && Run(w, es) == w.(client := Cleanup(w.client, windows))
    decreases |w.client.unlinkRx|
  {
    hide First;
    if w.client.unlinkRx == [] {
      return [];
    }
    var w1 := w.(client := CleanupOne(w.client));
    OneEvent(w, CleanupTurn);
    assert Next(w, CleanupTurn) == w1;
    hide Next, Enabled, Feasible, Run;
    if !Waiting(w.client.privRx, w.client.unlinkRx[0].target) || windows == [] {
      var ds := CleanupIsRun(w1, if windows == [] then [] else windows);
      JoinRuns(w, [CleanupTurn], ds);
      es := [CleanupTurn] + ds;
    } else {
      DequeuesKeepUnlinks(w1.client, windows[0]);
      var ds := DequeuesAreRun(w1, windows[0]);
      var fs := CleanupIsRun(Run(w1, ds), windows[1..]);
      JoinRuns(w1, ds, fs);
      JoinRuns(w, [CleanupTurn], ds + fs);
      es := [CleanupTurn] + (ds + fs);
    }
  }

  lemma FirstIs<T>(q: seq<T>, key: T -> nat, n: nat, i: nat)
    requires i < |q| && key(q[i]) == n
    requires forall j :: 0 <= j < i ==> key(q[j]) != n
    ensures First(q, key, n) == i
  {
    FirstExists(q, key, i);
  }
}
