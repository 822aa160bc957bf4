/** Sequence numbers rise along every queue: entries are put at the end and keep their
    places, on every run, the shutdown included. */
module UrbNumbers {
  import opened Bags
  import opened UrbProtocol
  import opened UrbInvariants
  import opened UrbRuns
  import opened UrbFifo

  predicate Rising<T>(q: seq<T>, key: T -> nat, top: nat) {
    && (forall i, j :: 0 <= i < j < |q| ==> key(q[i]) < key(q[j]))
    && (forall i :: 0 <= i < |q| ==> key(q[i]) <= top)
  }

  lemma RisingPush<T>(q: seq<T>, x: T, key: T -> nat, top: nat)
    requires Rising(q, key, top) && key(x) > top
    ensures Rising(q + [x], key, key(x))
  {
  }

  lemma RisingWithout<T>(q: seq<T>, i: nat, key: T -> nat, top: nat)
    requires Rising(q, key, top) && i < |q|
    ensures Rising(Without(q, i), key, top)
  {
    forall j | 0 <= j < |q| - 1 ensures Without(q, i)[j] == q[if j < i then j else j + 1] {
    }
  }

  lemma RisingPrefix<T>(q: seq<T>, k: nat, key: T -> nat, top: nat)
    requires Rising(q, key, top) && k <= |q|
    ensures Rising(q[..k], key, top)
  {
  }

  lemma RisingTop<T>(q: seq<T>, key: T -> nat, top: nat, more: nat)
    requires Rising(q, key, top) && top <= more
    ensures Rising(q, key, more)
  {
  }

  /** Removing from one of two queues joined. */
  lemma WithoutLeft<T>(a: seq<T>, b: seq<T>, i: nat)
    requires i < |a|
    ensures Without(a, i) + b == Without(a + b, i)
  {
  }

  lemma WithoutRight<T>(a: seq<T>, b: seq<T>, i: nat)
    requires i < |b|
    ensures a + Without(b, i) == Without(a + b, |a| + i)
  {
  }

  // ------------------------------------------------------------ five lines

  /** The URBs at the device, then those on their way to it, then those still to go. */
  ghost function InitLine(w: World): seq<Priv> {
    Inits(w.server.privInit) + (Picked(Forward(w), SubmitOf) + w.client.privTx)
  }

  function Inits(q: seq<StubPriv>): (r: seq<Priv>)
    ensures |r| == |q|
  {
    seq(|q|, i requires 0 <= i < |q| => Priv(q[i].urb, q[i].request))
  }

  ghost predicate InNumberOrder(w: World) {
    && Rising(SubmitLine(w), PrivKey, w.client.seqnum)
    && Rising(UnlinkLine(w), UnlinkKey, w.client.seqnum)
    && Rising(w.client.privRx + w.client.privTx, PrivKey, w.client.seqnum)
    && Rising(w.client.unlinkRx + w.client.unlinkTx, UnlinkKey, w.client.seqnum)
    && Rising(InitLine(w), PrivKey, w.client.seqnum)
  }

  lemma SameOrder(w: World, w': World)
    requires InNumberOrder(w) && w'.client.seqnum == w.client.seqnum
    requires SubmitLine(w') == SubmitLine(w) && UnlinkLine(w') == UnlinkLine(w) && InitLine(w') == InitLine(w)
    requires w'.client.privRx + w'.client.privTx == w.client.privRx + w.client.privTx
    requires w'.client.unlinkRx + w'.client.unlinkTx == w.client.unlinkRx + w.client.unlinkTx
    ensures InNumberOrder(w')
  {
    hide Rising, SubmitLine, UnlinkLine, InitLine;
  }

  // ------------------------------------------------------------ the client's events

  lemma EnqueueOrder(w: World, request: Request)
    requires InNumberOrder(w)
    ensures InNumberOrder(DoEnqueue(w, request))
  {
    hide Rising, Picked, Inits;
    var w', p, top := DoEnqueue(w, request), Priv(w.client.seqnum + 1, request), w.client.seqnum;
    EnqueueLines(w, request);
    RisingPush(SubmitLine(w), p, PrivKey, top);
    RisingPush(w.client.privRx + w.client.privTx, p, PrivKey, top);
    RisingPush(InitLine(w), p, PrivKey, top);
    assert w'.client.privRx + w'.client.privTx == w.client.privRx + w.client.privTx + [p];
    assert InitLine(w') == InitLine(w) + [p];
    RisingTop(UnlinkLine(w), UnlinkKey, top, top + 1);
    RisingTop(w.client.unlinkRx + w.client.unlinkTx, UnlinkKey, top, top + 1);
  }

  lemma AcceptedOrder(w: World, n: nat)
    requires InNumberOrder(w) && w.client.socket && AcceptedBy(w, Dequeue(n)) != []
    ensures InNumberOrder(DoDequeue(w, n))
  {
    hide Rising, Picked, Inits, Waiting, InitLine, SubmitLine, UnlinkLine;
    var w', u, top := DoDequeue(w, n), Unlink(w.client.seqnum + 1, n), w.client.seqnum;
    DequeueLines(w, n);
    RisingPush(UnlinkLine(w), u, UnlinkKey, top);
    RisingPush(w.client.unlinkRx + w.client.unlinkTx, u, UnlinkKey, top);
    assert w'.client.unlinkRx + w'.client.unlinkTx == w.client.unlinkRx + w.client.unlinkTx + [u];
    RisingTop(SubmitLine(w), PrivKey, top, top + 1);
    RisingTop(w.client.privRx + w.client.privTx, PrivKey, top, top + 1);
    RisingTop(InitLine(w), PrivKey, top, top + 1);
    assert InitLine(w') == InitLine(w) by { InitsOf(w, w'); }
  }

  lemma InitsOf(w: World, w': World)
    requires w'.server == w.server && Forward(w') == Forward(w) && w'.client.privTx == w.client.privTx
    ensures InitLine(w') == InitLine(w)
  {
  }

  /** Not connected any more, a dequeue takes the URB out of its list. */
  lemma ClosedOrder(w: World, n: nat)
    requires InNumberOrder(w) && !w.client.socket
    ensures InNumberOrder(DoDequeue(w, n))
  {
    hide Rising, Picked, Inits, First;
    var c, top := w.client, w.client.seqnum;
    if (Waiting(c.privTx, n) || Waiting(c.privRx, n)) && n !in c.marked {
      if Waiting(c.privTx, n) {
        TakenOut(w, DoDequeue(w, n), PrivAt(c.privTx, n));
      } else {
        var i := PrivAt(c.privRx, n);
        WithoutLeft(c.privRx, c.privTx, i);
        RisingWithout(c.privRx + c.privTx, i, PrivKey, top);
      }
    }
  }

  lemma TakenOut(w: World, w': World, i: nat)
    requires InNumberOrder(w) && i < |w.client.privTx|
    requires w'.client == w.client.(privTx := Without(w.client.privTx, i), marked := w'.client.marked, given := w'.client.given)
    requires w'.h == w.h && w'.server == w.server && w'.c2s == w.c2s && w'.tx == w.tx
    ensures InNumberOrder(w')
  {
    hide Rising, Picked, Inits;
    var c, top := w.client, w.client.seqnum;
    WithoutRight(c.privRx, c.privTx, i);
    RisingWithout(c.privRx + c.privTx, |c.privRx| + i, PrivKey, top);
    var sent := Picked(w.h.cmds + Forward(w), SubmitOf);
    WithoutRight(sent, c.privTx, i);
    RisingWithout(SubmitLine(w), |sent| + i, PrivKey, top);
    var a, b := Inits(w.server.privInit), Picked(Forward(w), SubmitOf);
    WithoutRight(b, c.privTx, i);
    WithoutRight(a, b + c.privTx, |b| + i);
    RisingWithout(InitLine(w), |a| + (|b| + i), PrivKey, top);
  }

  /** A giveback takes a URB out of priv_rx, if it finds it. */
  lemma GivebackOrder(w: World, w': World, n: nat, how: Giveback)
    requires InNumberOrder(w)
    requires w'.client == PickupAndGiveBack(w.client, n, how).(unlinkRx := w'.client.unlinkRx)
    requires Rising(w'.client.unlinkRx + w.client.unlinkTx, UnlinkKey, w.client.seqnum)
    requires w'.h.cmds == w.h.cmds && w'.server == w.server && w'.c2s == w.c2s && w'.tx == w.tx
    ensures InNumberOrder(w')
  {
    hide Rising, Picked, Inits, First;
    var c := w.client;
    var i := PrivAt(c.privRx, n);
    if i < |c.privRx| {
      WithoutLeft(c.privRx, c.privTx, i);
      RisingWithout(c.privRx + c.privTx, i, PrivKey, c.seqnum);
    }
  }

  lemma RxOrder(w: World)
    requires InNumberOrder(w) && w.s2c != []
    ensures InNumberOrder(DoRxReply(w))
  {
    hide Rising, Picked, Inits, First, InNumberOrder, Waiting, PickupAndGiveBack;
    var c, m := w.client, w.s2c[0];
    assert Rising(c.unlinkRx + c.unlinkTx, UnlinkKey, c.seqnum) by { UnlinksRise(w); }
    match m {
      case RetSubmit(n, outcome) =>
        if Waiting(c.privRx, n) {
          assert PickupAndGiveBack(c, n, ByRetSubmit(outcome)).unlinkRx == c.unlinkRx by { PickupKeeps(c, n, ByRetSubmit(outcome)); }
          GivebackOrder(w, DoRxReply(w), n, ByRetSubmit(outcome));
        } else {
          ClientSame(w, DoRxReply(w));
        }
      case RetUnlink(n, status) =>
        var i := First(c.unlinkRx, UnlinkKey, n);
        if i < |c.unlinkRx| {
          WithoutLeft(c.unlinkRx, c.unlinkTx, i);
          RisingWithout(c.unlinkRx + c.unlinkTx, i, UnlinkKey, c.seqnum);
          UnlinksTaken(w, DoRxReply(w));
        } else {
          ClientSame(w, DoRxReply(w));
        }
    }
  }

  lemma PickupKeeps(c: Client, n: nat, how: Giveback)
    ensures var d := PickupAndGiveBack(c, n, how); d == c.(privRx := d.privRx, given := d.given)
  {
    hide First;
  }

  lemma UnlinksRise(w: World)
    requires InNumberOrder(w)
    ensures Rising(w.client.unlinkRx + w.client.unlinkTx, UnlinkKey, w.client.seqnum)
  {
    hide Rising;
  }

  lemma ClientSame(w: World, w': World)
    requires InNumberOrder(w) && w'.client == w.client
    requires w'.h.cmds == w.h.cmds && w'.server == w.server && w'.c2s == w.c2s && w'.tx == w.tx
    ensures InNumberOrder(w')
  {
    hide Rising, Picked, Inits;
  }

  lemma UnlinksTaken(w: World, w': World)
    requires InNumberOrder(w) && w'.client == w.client.(unlinkRx := w'.client.unlinkRx)
    requires Rising(w'.client.unlinkRx + w.client.unlinkTx, UnlinkKey, w.client.seqnum)
    requires w'.h.cmds == w.h.cmds && w'.server == w.server && w'.c2s == w.c2s && w'.tx == w.tx
    ensures InNumberOrder(w')
  {
    hide Rising, Picked, Inits;
  }

  lemma TurnOrder(w: World)
    requires InNumberOrder(w) && w.client.unlinkRx != []
    ensures InNumberOrder(w.(client := CleanupOne(w.client)))
  {
    hide Rising, Picked, Inits, First, InNumberOrder, PickupAndGiveBack;
    var c := w.client;
    UnlinksRise(w);
    WithoutLeft(c.unlinkRx, c.unlinkTx, 0);
    RisingWithout(c.unlinkRx + c.unlinkTx, 0, UnlinkKey, c.seqnum);
    assert Without(c.unlinkRx, 0) == c.unlinkRx[1..];
    var n, how := c.unlinkRx[0].target, ByCleanup(ENODEV);
    PickupKeeps(c, n, how);
    GivebackOrder(w, w.(client := CleanupOne(c)), n, how);
  }

  // ------------------------------------------------------------ messages move on

  lemma PickedForward(w: World, m: Cmd)
    requires w.tx.hand.None?
    ensures Picked(w.c2s + [m], SubmitOf) == Picked(Forward(w), SubmitOf) + SubmitOf(m)
  {
    hide Picked;
    assert w.c2s + [m] == Forward(w) + [m];
    PickedPush(Forward(w), m, SubmitOf);
  }

  lemma TakeSubmitOrder(w: World)
    requires InNumberOrder(w) && Enabled(w, TxTakeSubmit)
    ensures InNumberOrder(Next(w, TxTakeSubmit))
  {
    hide Rising, Picked, Inits;
    var c, w' := w.client, Next(w, TxTakeSubmit);
    var p := c.privTx[0];
    assert c.privTx == [p] + c.privTx[1..];
    TakeSubmitLines(w);
    PickedForward(w, CmdSubmit(p.seqnum, p.request));
    assert w'.client.privRx + w'.client.privTx == c.privRx + c.privTx;
    assert InitLine(w') == InitLine(w);
    SameOrder(w, w');
  }

  lemma TakeUnlinkOrder(w: World)
    requires InNumberOrder(w) && Enabled(w, TxTakeUnlink)
    ensures InNumberOrder(Next(w, TxTakeUnlink))
  {
    hide Rising, Picked, Inits;
    var c, w' := w.client, Next(w, TxTakeUnlink);
    var u := c.unlinkTx[0];
    assert c.unlinkTx == [u] + c.unlinkTx[1..];
    TakeUnlinkLines(w);
    PickedForward(w, CmdUnlink(u.seqnum, u.target));
    assert w'.client.unlinkRx + w'.client.unlinkTx == c.unlinkRx + c.unlinkTx;
    assert InitLine(w') == InitLine(w);
    SameOrder(w, w');
  }

  lemma SendOrder(w: World)
    requires InNumberOrder(w) && Enabled(w, TxSend)
    ensures InNumberOrder(Next(w, TxSend))
  {
    hide Rising, Picked, Inits;
    CommandSent(w);
    var w' := Next(w, TxSend);
    assert Forward(w') == Forward(w);
    SameOrder(w, w');
  }

  /** The server's list takes the URB over from the channel. */
  lemma StubRxOrder(w: World)
    requires InNumberOrder(w) && w.c2s != []
    ensures InNumberOrder(DoStubRx(w))
  {
    hide Rising, Inits, First, InNumberOrder, Picked, RecvCmdSubmit, RecvCmdUnlink;
    var w', m := DoStubRx(w), w.c2s[0];
    CommandReceived(w);
    assert Forward(w) == [m] + Forward(w');
    PickedPop(m, Forward(w'), SubmitOf);
    InitsReceived(w.server, m);
    Regrouped(Inits(w.server.privInit), SubmitOf(m), Picked(Forward(w'), SubmitOf), w.client.privTx);
    assert InitLine(w') == InitLine(w);
    SameOrder(w, w');
  }

  lemma Regrouped<T>(a: seq<T>, x: seq<T>, b: seq<T>, c: seq<T>)
    ensures (a + x) + (b + c) == a + ((x + b) + c)
  {
  }

  lemma InitsReceived(s: Server, m: Cmd)
    ensures m.CmdSubmit? ==> Inits(RecvCmdSubmit(s, m.seqnum, m.request).privInit) == Inits(s.privInit) + SubmitOf(m)
    ensures m.CmdUnlink? ==> Inits(RecvCmdUnlink(s, m.seqnum, m.target).privInit) == Inits(s.privInit)
  {
    hide First;
  }

  lemma DoneOrder(w: World, i: nat, outcome: Outcome)
    requires InNumberOrder(w) && i < |w.server.privInit|
    ensures InNumberOrder(DoDeviceDone(w, i, outcome))
  {
    hide Rising, Picked;
    var q, b := w.server.privInit, Picked(Forward(w), SubmitOf) + w.client.privTx;
    assert Inits(Without(q, i)) == Without(Inits(q), i);
    WithoutLeft(Inits(q), b, i);
    RisingWithout(InitLine(w), i, PrivKey, w.client.seqnum);
  }

  // ------------------------------------------------------------ shutting down

  /** The thread that is stopped drops what it holds. */
  lemma StopOrder(w: World)
    requires InNumberOrder(w) && Enabled(w, StopThreads)
    ensures InNumberOrder(Next(w, StopThreads))
  {
    hide Rising, Picked, Inits, InNumberOrder, Enabled;
    var w' := Next(w, StopThreads);
    assert Forward(w') == w.c2s;
    if w.tx.hand.None? {
      assert Forward(w) == w.c2s;
      assert SubmitLine(w') == SubmitLine(w) && UnlinkLine(w') == UnlinkLine(w) && InitLine(w') == InitLine(w);
      SameOrder(w, w');
    } else {
      DropOrder(w, w', w.tx.hand.value);
    }
  }

  lemma DropOrder(w: World, w': World, m: Cmd)
    requires InNumberOrder(w) && w.tx.hand == Some(m)
    requires w' == w.(tx := w'.tx, phase := w'.phase) && w'.tx.hand == None
    ensures InNumberOrder(w')
  {
    hide Rising, Picked, Inits;
    var c, top, q := w.client, w.client.seqnum, w.h.cmds + w.c2s;
    assert w.h.cmds + Forward(w) == q + [m] && w.h.cmds + Forward(w') == q;
    PickedPush(q, m, SubmitOf);
    PickedPush(q, m, UnlinkOf);
    PickedPush(w.c2s, m, SubmitOf);
    assert Forward(w) == w.c2s + [m] && Forward(w') == w.c2s;
    Dropped(Picked(q, SubmitOf), SubmitOf(m), c.privTx, PrivKey, top);
    Dropped(Picked(q, UnlinkOf), UnlinkOf(m), c.unlinkTx, UnlinkKey, top);
    var a, b := Inits(w.server.privInit), Picked(w.c2s, SubmitOf);
    assert InitLine(w) == (a + b + SubmitOf(m)) + c.privTx && InitLine(w') == (a + b) + c.privTx;
    Dropped(a + b, SubmitOf(m), c.privTx, PrivKey, top);
  }

  lemma Dropped<T>(a: seq<T>, x: seq<T>, b: seq<T>, key: T -> nat, top: nat)
    requires Rising((a + x) + b, key, top) && |x| <= 1
    ensures Rising(a + b, key, top)
  {
    hide Rising;
    if x == [] {
      assert (a + x) + b == a + b;
    } else {
      assert Without((a + x) + b, |a|) == a + b;
      RisingWithout((a + x) + b, |a|, key, top);
    }
  }

  lemma ForgetOrder(w: World)
    requires InNumberOrder(w)
    ensures InNumberOrder(w.(phase := Cleaning, client := w.client.(unlinkTx := [])))
  {
    hide Rising, Picked, Inits;
    var c := w.client;
    var sent := Picked(w.h.cmds + Forward(w), UnlinkOf);
    assert UnlinkLine(w)[..|sent|] == sent == sent + [];
    RisingPrefix(UnlinkLine(w), |sent|, UnlinkKey, c.seqnum);
    assert (c.unlinkRx + c.unlinkTx)[..|c.unlinkRx|] == c.unlinkRx == c.unlinkRx + [];
    RisingPrefix(c.unlinkRx + c.unlinkTx, |c.unlinkRx|, UnlinkKey, c.seqnum);
  }

  // ------------------------------------------------------------ every step

  /** A step of the sending loops, or of the server's, that moves no command and no URB. */
  lemma QuietOrder(w: World, e: Event)
    requires InNumberOrder(w) && Enabled(w, e)
    requires (e.TxEndSubmits? || e.TxEndUnlinks? || e.TxWake? || e.StubTakeSubmitEv? || e.StubEndSubmits?
              || e.StubTakeUnlinkEv? || e.StubEndUnlinks? || e.StubWake? || e.StubSend? || e.CloseSocket? || e.CleanupEnd?)
    ensures InNumberOrder(Next(w, e))
  {
    hide Rising, Picked, Inits, InNumberOrder;
    var w' := Next(w, e);
    assert Forward(w') == Forward(w);
    SameOrder(w, w');
  }

  lemma DequeueOrder(w: World, n: nat)
    requires InNumberOrder(w)
    ensures InNumberOrder(DoDequeue(w, n))
  {
    hide InNumberOrder, Waiting;
    if !w.client.socket {
      ClosedOrder(w, n);
    } else if AcceptedBy(w, Dequeue(n)) != [] {
      AcceptedOrder(w, n);
    } else {
      assert DoDequeue(w, n) == w;
    }
  }

  lemma PickupOrder(w: World)
    requires InNumberOrder(w) && w.rx.Answered?
    ensures InNumberOrder(DoRxPickup(w))
  {
    hide InNumberOrder, Rising, PickupAndGiveBack;
    UnlinksRise(w);
    PickupKeeps(w.client, w.rx.unlink.target, ByRetUnlink(w.rx.status));
    GivebackOrder(w, DoRxPickup(w), w.rx.unlink.target, ByRetUnlink(w.rx.status));
  }

  lemma StepOrder(w: World, e: Event)
    requires InNumberOrder(w) && Enabled(w, e)
    ensures InNumberOrder(Next(w, e))
  {
    hide InNumberOrder, DoEnqueue, DoDequeue, DoRxReply, DoRxPickup, DoStubRx, DoDeviceDone, CleanupOne;
    match e {
      case Enqueue(request) => EnqueueOrder(w, request);
      case Dequeue(n) => DequeueOrder(w, n);
      case TxTakeSubmit => TakeSubmitOrder(w);
      case TxTakeUnlink => TakeUnlinkOrder(w);
      case TxSend => SendOrder(w);
      case RxReply => RxOrder(w);
      case RxPickup => PickupOrder(w);
      case StubRx => StubRxOrder(w);
      case DeviceDone(i, outcome) => DoneOrder(w, i, outcome);
      case StopThreads => StopOrder(w);
      case CleanupBegin => ForgetOrder(w);
      case CleanupTurn => TurnOrder(w);
      case _ => QuietOrder(w, e);
    }
  }

  lemma {:induction false} RunOrder(w: World, es: seq<Event>)
    requires InNumberOrder(w) && Feasible(w, es)
    ensures InNumberOrder(Run(w, es))
    decreases |es|
  {
    hide InNumberOrder, Next, Enabled;
    if es != [] {
      StepOrder(w, es[0]);
      RunOrder(Next(w, es[0]), es[1..]);
    }
  }

  lemma StartOrder()
    ensures InNumberOrder(START)
  {
    StartLines();
    assert Forward(START) == [] && InitLine(START) == [];
  }

  /** On every run, the shutdown included, sequence numbers rise strictly along: the URBs
      sent and then those in priv_tx; the unlink requests sent and then those in
      unlink_tx; priv_rx and then priv_tx; unlink_rx and then unlink_tx; and the URBs at
      the device, on their way to it and still in priv_tx. */
  lemma NumbersRise(es: seq<Event>)
    requires Feasible(START, es)
    ensures InNumberOrder(Run(START, es))
  {
    hide InNumberOrder, Next, Enabled;
    StartOrder();
    RunOrder(START, es);
  }

  // ------------------------------------------------------------ the logs

  predicate LogsGrew(w: World, w': World) {
    w.client.given <= w'.client.given && w.h.cmds <= w'.h.cmds && w.h.rets <= w'.h.rets && w.h.cancelled <= w'.h.cancelled
  }

  lemma HandlersLog(w: World)
    ensures w.s2c != [] ==> LogsGrew(w, DoRxReply(w))
    ensures w.rx.Answered? ==> LogsGrew(w, DoRxPickup(w))
    ensures w.c2s != [] ==> LogsGrew(w, DoStubRx(w))
    ensures w.client.unlinkRx != [] ==> LogsGrew(w, w.(client := CleanupOne(w.client)))
  {
    hide First, RecvCmdUnlink, RecvCmdSubmit;
  }

  lemma EndingsLog(w: World, n: nat, outcome: Outcome)
    ensures LogsGrew(w, DoDequeue(w, n))
    ensures n < |w.server.privInit| ==> LogsGrew(w, DoDeviceDone(w, n, outcome))
  {
    hide First, Complete;
  }

  /** The logs of givebacks and of received messages only grow, at their end. */
  lemma LogsGrow(w: World, e: Event)
    requires Enabled(w, e)
    ensures LogsGrew(w, Next(w, e))
  {
    hide DoRxReply, DoRxPickup, DoStubRx, CleanupOne, DoDequeue, DoDeviceDone;
    HandlersLog(w);
    match e {
      case Dequeue(n) => EndingsLog(w, n, NO_OUTCOME);
      case DeviceDone(i, outcome) => EndingsLog(w, i, outcome);
      case _ =>
    }
  }

  // ------------------------------------------------------------ no number is skipped

  ghost predicate AllUsed(w: World) {
    forall n: nat :: 1 <= n <= w.client.seqnum <==> n in w.h.submitted || n in w.h.aim
  }

  lemma UsedStep(w: World, e: Event)
    requires AllUsed(w) && Enabled(w, e) && Truth(w)
    ensures AllUsed(Next(w, e))
  {
    hide Truth, Waiting, RecvCmdUnlink, RecvCmdSubmit, Complete, PickupAndGiveBack, First;
    match e {
      case Enqueue(request) =>
      case Dequeue(n) =>
      case _ => NumbersSame(w, e);
    }
  }

  lemma NumbersSame(w: World, e: Event)
    requires Enabled(w, e) && !e.Enqueue? && !e.Dequeue?
    ensures var w' := Next(w, e);
      w'.client.seqnum == w.client.seqnum && w'.h.submitted == w.h.submitted && w'.h.aim == w.h.aim
  {
    hide Waiting, RecvCmdUnlink, RecvCmdSubmit, Complete, DoRxReply, CleanupOne, DoRxPickup;
    match e {
      case RxReply => RxNumbers(w);
      case RxPickup => PickupKeeps(w.client, w.rx.unlink.target, ByRetUnlink(w.rx.status)); PickupLeavesQueues(w);
      case CleanupTurn => CleanupNumbers(w.client);
      case _ =>
    }
  }

  lemma RxNumbers(w: World)
    requires w.s2c != []
    ensures var w' := DoRxReply(w);
      w'.client.seqnum == w.client.seqnum && w'.h.submitted == w.h.submitted && w'.h.aim == w.h.aim
  {
    hide First;
  }

  lemma CleanupNumbers(c: Client)
    requires c.unlinkRx != []
    ensures CleanupOne(c).seqnum == c.seqnum
  {
    hide First;
  }

  lemma {:induction false} RunUsed(w: World, es: seq<Event>)
    requires AllUsed(w) && Inv(w) && Feasible(w, es)
    ensures AllUsed(Run(w, es))
    decreases |es|
  {
    hide AllUsed, Next, Enabled, Counts, Truth;
    if es != [] {
      UsedStep(w, es[0]);
      StepKeepsInv(w, es[0]);
      RunUsed(Next(w, es[0]), es[1..]);
    }
  }

  /** On every run the numbers from one up to the counter are exactly those of the URBs
      enqueued and of the unlink requests made. */
  lemma NumbersUsed(es: seq<Event>)
    requires Feasible(START, es)
    ensures AllUsed(Run(START, es))
  {
    hide Next, Enabled, Inv;
    StartInv();
    RunUsed(START, es);
  }
}
