/** What happens when an unlink message does overtake a submit message: exactly
    which replies find no URB, and two runs of the loops as written that end in
    the TCP error branch. */
module UrbOvertaking {
  import opened Bags
  import opened UrbProtocol
  import opened UrbInvariants
  import opened UrbServerSteps
  import opened UrbRuns
  import opened UrbOrder

  // ---------------------------------------------- which replies find no URB

  predicate GivenByUnlink(c: Client, n: nat) {
    exists i :: 0 <= i < |c.given| && c.given[i].seqnum == n && c.given[i].how.ByRetUnlink?
  }

  /** On every run at all: a RET_SUBMIT about to be received finds its URB in
      priv_rx exactly when no RET_UNLINK has given that URB back before. */
  lemma ReplyFindsItsUrbIff(es: seq<Event>)
    requires Feasible(START, es)
    requires var w := Run(START, es); w.phase.Up? && w.s2c != [] && w.s2c[0].RetSubmit?
    ensures var w := Run(START, es);
      Waiting(w.client.privRx, w.s2c[0].seqnum) <==> !GivenByUnlink(w.client, w.s2c[0].seqnum)
  {
    hide Inv, Next, Enabled, Waiting, GivenByUnlink;
    ReachableInv(es);
    ReplyFindsIff(Run(START, es));
  }

  lemma ReplyFindsIff(w: World)
    requires w.phase.Up? && w.s2c != [] && w.s2c[0].RetSubmit?
    requires Inv(w)
    ensures Waiting(w.client.privRx, w.s2c[0].seqnum) <==> !GivenByUnlink(w.client, w.s2c[0].seqnum)
  {
    hide Bag, Truth, SubmitsAnswered, UnlinksAnswered, SentOnce, CancelsAnswered, Connected, Waiting;
    var n := w.s2c[0].seqnum;
    NotWaiting(w.client.privRx, n);
    SentNotGivenBySubmit(w);
    assert multiset(w.h.submitted.Keys)[n] <= 1;
    if n in Bag(w.client.given, GivenNo) {
      var i := BagFrom(w.client.given, GivenNo, n);
      assert GivenByUnlink(w.client, n);
    }
    if GivenByUnlink(w.client, n) {
      var i :| 0 <= i < |w.client.given| && w.client.given[i].seqnum == n && w.client.given[i].how.ByRetUnlink?;
      BagHas(w.client.given, i, GivenNo);
    }
  }

  /** A URB whose RET_SUBMIT is under way was submitted, has left priv_tx, and
      has not been given back by anything but a RET_UNLINK. */
  lemma SentNotGivenBySubmit(w: World)
    requires w.phase.Up? && w.s2c != [] && w.s2c[0].RetSubmit?
    requires Inv(w)
    ensures var n := w.s2c[0].seqnum;
      && n in w.h.submitted && n !in Bag(w.client.privTx, PrivNo)
      && (forall i :: 0 <= i < |w.client.given| && w.client.given[i].seqnum == n ==> w.client.given[i].how.ByRetUnlink?)
  {
    var n := w.s2c[0].seqnum;
    hide Bag, Counts, Numbered, PrivsOk, UnlinksOk, CmdsOk, ServerTrue;
    assert Backward(w)[0] == w.s2c[0];
    assert RetOk(w.h, Backward(w)[0]);
    BackwardPopped(w);
    OnceUnderWay(w, n);
    forall i | 0 <= i < |w.client.given| && w.client.given[i].seqnum == n
      ensures w.client.given[i].how.ByRetUnlink?
    {
      assert GivenOk(w.h, w.client.given[i]);
      if w.client.given[i].how.ByRetSubmit? {
        var m := RetSubmit(n, w.client.given[i].how.outcome);
        var k :| 0 <= k < |w.h.rets| && w.h.rets[k] == m;
        BagHas(w.h.rets, k, RetSubmitNo);
      }
    }
  }

  // ------------------------------------------- the server's side, both ways

  /** The j-th reply is a RET_UNLINK u ahead of any RET_SUBMIT(t). */
  ghost predicate AheadAt(backward: seq<Ret>, j: int, u: nat, t: nat) {
    && 0 <= j < |backward| && backward[j].RetUnlink? && backward[j].seqnum == u
    && t !in Bag(backward[..j], RetSubmitNo)
  }

  /** Request u is aimed at URB t, which has left priv_tx; and the answer of u
      is ahead of any RET_SUBMIT(t), is between the two steps that consume it,
      or t has left priv_rx as well. */
  ghost predicate Overtaken(w: World, u: nat, t: nat) {
    && AimOk(w.h, u, t)
    && t !in Bag(w.client.privTx, PrivNo)
    && (|| t !in Bag(w.client.privRx, PrivNo)
        || (w.rx.Answered? && w.rx.unlink.target == t)
        || (exists j :: AheadAt(Backward(w), j, u, t)))
  }

  lemma OvertakenTakeSubmit(w: World, u: nat, t: nat)
    requires Enabled(w, TxTakeSubmit)
    requires Inv(w) && Overtaken(w, u, t)
    ensures Overtaken(Next(w, TxTakeSubmit), u, t)
  {
    hide Inv, Bag;
    var w' := Next(w, TxTakeSubmit);
    BagWithout(w.client.privTx, 0, PrivNo);
    assert Without(w.client.privTx, 0) == w'.client.privTx;
    BagPush(w.client.privRx, w.client.privTx[0], PrivNo);
    assert Backward(w') == Backward(w);
  }

  lemma OvertakenStubPush(w: World, m: Ret, w': World, u: nat, t: nat)
    requires Overtaken(w, u, t)
    requires w'.client == w.client && w'.rx == w.rx && w'.h == w.h && Backward(w') == Backward(w) + [m]
    ensures Overtaken(w', u, t)
  {
    hide Bag;
    if j :| AheadAt(Backward(w), j, u, t) {
      assert Backward(w')[j] == Backward(w)[j] && Backward(w')[..j] == Backward(w)[..j];
      assert AheadAt(Backward(w'), j, u, t);
    }
  }

  lemma OvertakenRx(w: World, u: nat, t: nat)
    requires w.phase.Up? && w.rx.Idle? && w.s2c != []
    requires Inv(w) && Overtaken(w, u, t)
    ensures Overtaken(DoRxReply(w), u, t)
  {
    hide Inv, Bag, First, Waiting, PickupAndGiveBack, AheadAt;
    var w', m := DoRxReply(w), w.s2c[0];
    assert Backward(w) == [m] + Backward(w');
    RxKeepsQueued(w);
    if t !in Bag(w.client.privRx, PrivNo) {
      RxOnlyShrinks(w, t);
    } else {
      var j :| AheadAt(Backward(w), j, u, t);
      if j == 0 {
        AheadFirst(Backward(w), u, t);
        RxUnlinkFound(w);
      } else {
        assert j > 0 by { AheadInRange(Backward(w), j, u, t); }
        AheadTail(Backward(w), j, u, t);
        assert Backward(w') == Backward(w)[1..];
        assert AheadAt(Backward(w'), j - 1, u, t);
      }
    }
  }

  lemma RxKeepsQueued(w: World)
    requires w.s2c != []
    ensures DoRxReply(w).client.privTx == w.client.privTx
  {
  }

  lemma RxOnlyShrinks(w: World, t: nat)
    requires w.s2c != [] && t !in Bag(w.client.privRx, PrivNo)
    ensures t !in Bag(DoRxReply(w).client.privRx, PrivNo)
  {
    hide Bag, First, Waiting, PickupAndGiveBack;
    RxKeepsQueued(w);
    var m := w.s2c[0];
    if m.RetSubmit? {
      OnlyShrinks(w.client, m.seqnum, ByRetSubmit(m.outcome), t);
    }
  }

  lemma AheadInRange(backward: seq<Ret>, j: int, u: nat, t: nat)
    requires AheadAt(backward, j, u, t)
    ensures 0 <= j < |backward|
  {
  }

  lemma AheadFirst(backward: seq<Ret>, u: nat, t: nat)
    requires AheadAt(backward, 0, u, t)
    ensures backward != [] && backward[0].RetUnlink? && backward[0].seqnum == u
  {
  }

  lemma AheadTail(backward: seq<Ret>, j: int, u: nat, t: nat)
    requires AheadAt(backward, j, u, t) && j > 0
    ensures AheadAt(backward[1..], j - 1, u, t)
  {
    hide Bag;
    assert backward[..j] == [backward[0]] + backward[1..][..j - 1];
    BagAppend([backward[0]], backward[1..][..j - 1], RetSubmitNo);
  }

  lemma OnlyShrinks(c: Client, n: nat, how: Giveback, t: nat)
    ensures t !in Bag(c.privRx, PrivNo) ==> t !in Bag(PickupAndGiveBack(c, n, how).privRx, PrivNo)
  {
    hide Bag;
    if Waiting(c.privRx, n) {
      BagWithout(c.privRx, PrivAt(c.privRx, n), PrivNo);
    }
  }

  lemma OvertakenPickup(w: World, u: nat, t: nat)
    requires w.phase.Up? && w.rx.Answered?
    requires Inv(w) && Overtaken(w, u, t)
    ensures Overtaken(DoRxPickup(w), u, t)
  {
    hide Inv, Bag, First;
    var n := w.rx.unlink.target;
    OnlyShrinks(w.client, n, ByRetUnlink(w.rx.status), t);
    PickedUpIsGone(w, n, ByRetUnlink(w.rx.status));
    assert Backward(DoRxPickup(w)) == Backward(w);
  }

  lemma PickedUpIsGone(w: World, n: nat, how: Giveback)
    requires Inv(w)
    ensures n !in Bag(PickupAndGiveBack(w.client, n, how).privRx, PrivNo)
  {
    hide Bag, Truth, SubmitsAnswered, UnlinksAnswered, SentOnce, CancelsAnswered, Connected;
    NotWaiting(w.client.privRx, n);
    assert multiset(w.h.submitted.Keys)[n] <= 1;
    if Waiting(w.client.privRx, n) {
      BagWithout(w.client.privRx, PrivAt(w.client.privRx, n), PrivNo);
    }
  }

  lemma OvertakenEnqueue(w: World, request: Request, u: nat, t: nat)
    requires Inv(w) && Overtaken(w, u, t)
    ensures Overtaken(DoEnqueue(w, request), u, t)
  {
    hide Bag, Counts, ClientTrue, ServerTrue, CmdsOk, RetsOk;
    BagPush(w.client.privTx, Priv(w.client.seqnum + 1, request), PrivNo);
    assert Backward(DoEnqueue(w, request)) == Backward(w);
  }

  /** Events that leave the client's lists and the replies under way alone. */
  lemma OvertakenFrame(w: World, w': World, u: nat, t: nat)
    requires Overtaken(w, u, t)
    requires w'.client.privTx == w.client.privTx && w'.client.privRx == w.client.privRx
    requires w'.rx == w.rx && Backward(w') == Backward(w)
    requires AimOk(w'.h, u, t)
    ensures Overtaken(w', u, t)
  {
  }

  lemma OvertakenStub(w: World, e: Event, u: nat, t: nat)
    requires e.StubTakeSubmitEv? || e.StubTakeUnlinkEv?
    requires Enabled(w, e)
    requires Overtaken(w, u, t)
    ensures Overtaken(Next(w, e), u, t)
  {
    hide Overtaken;
    var m := if e.StubTakeSubmitEv? then RetSubmit(w.server.privTx[0].seqnum, w.server.privTx[0].outcome)
             else RetUnlink(w.server.unlinkTx[0].seqnum, w.server.unlinkTx[0].status);
    assert Backward(Next(w, e)) == Backward(w) + [m];
    OvertakenStubPush(w, m, Next(w, e), u, t);
  }

  lemma OvertakenStep(w: World, e: Event, u: nat, t: nat)
    requires Enabled(w, e) && w.phase.Up?
    requires Inv(w) && Overtaken(w, u, t)
    ensures Next(w, e).phase.Up? ==> Overtaken(Next(w, e), u, t)
  {
    hide Inv, Bag, Overtaken, Waiting;
    FreshNumberInv(w);
    assert AimOk(w.h, u, t) by { OvertakenAimed(w, u, t); }
    match e {
      case Enqueue(request) => OvertakenEnqueue(w, request, u, t);
      case TxTakeSubmit => OvertakenTakeSubmit(w, u, t);
      case RxReply => OvertakenRx(w, u, t);
      case RxPickup => OvertakenPickup(w, u, t);
      case StubTakeSubmitEv => OvertakenStub(w, e, u, t);
      case StubTakeUnlinkEv => OvertakenStub(w, e, u, t);
      case StopThreads =>
      case CloseSocket =>
      case CleanupBegin =>
      case CleanupTurn =>
      case CleanupEnd =>
      case _ =>
        assert Backward(Next(w, e)) == Backward(w);
        OvertakenFrame(w, Next(w, e), u, t);
    }
  }

  lemma OvertakenAimed(w: World, u: nat, t: nat)
    requires Overtaken(w, u, t)
    ensures AimOk(w.h, u, t)
  {
  }

  lemma FreshNumberInv(w: World)
    requires Inv(w)
    ensures w.client.seqnum + 1 !in w.h.aim && Staged(w)
  {
    hide Counts;
    FreshNumber(w);
  }

  lemma {:induction false} OvertakenRun(w: World, es: seq<Event>, u: nat, t: nat)
    requires Feasible(w, es) && w.phase.Up? && Run(w, es).phase.Up?
    requires Inv(w) && Overtaken(w, u, t)
    ensures Inv(Run(w, es)) && Overtaken(Run(w, es), u, t)
    decreases |es|
  {
    hide Inv, Next, Enabled, Overtaken;
    if es != [] {
      StaysUp(Next(w, es[0]), es[1..]);
      OvertakenStep(w, es[0], u, t);
      StepKeepsInv(w, es[0]);
      OvertakenRun(Next(w, es[0]), es[1..], u, t);
    }
  }

  /** Once down, never up again. */
  lemma {:induction false} StaysUp(w: World, es: seq<Event>)
    requires Feasible(w, es) && Run(w, es).phase.Up?
    ensures w.phase.Up?
    decreases |es|
  {
    if es != [] {
      StaysUp(Next(w, es[0]), es[1..]);
    }
  }

  /** The server's guard is exact. If stub_send_ret_unlink takes an answer while
      the target's own result still waits in priv_tx, then on every continuation
      the RET_SUBMIT of that target, when it is received, finds no URB. */
  lemma OvertakenReplyFails(w: World, w1: World, es: seq<Event>)
    requires w.phase.Up? && Enabled(w, StubTakeUnlinkEv) && TargetQueued(w)
    requires w1 == Next(w, StubTakeUnlinkEv) && Feasible(w1, es)
    requires Inv(w)
    requires RetSubmitDue(Run(w1, es), w.h.aim[w.server.unlinkTx[0].seqnum])
    ensures DoRxReply(Run(w1, es)).tcpError
  {
    hide Inv, Overtaken, Feasible, Run;
    var u := w.server.unlinkTx[0].seqnum;
    OvertakenStart(w, w1, u, w.h.aim[u]);
    StepKeepsInv(w, StubTakeUnlinkEv);
    OvertakenToTheEnd(w1, es, u, w.h.aim[u]);
  }

  lemma OvertakenToTheEnd(w: World, es: seq<Event>, u: nat, t: nat)
    requires w.phase.Up? && Feasible(w, es)
    requires Inv(w) && Overtaken(w, u, t)
    requires RetSubmitDue(Run(w, es), t)
    ensures DoRxReply(Run(w, es)).tcpError
  {
    hide Inv, Overtaken, Next, Enabled;
    OvertakenRun(w, es, u, t);
    OvertakenEnd(Run(w, es), u, t);
  }

  /** The next reply to be received is RET_SUBMIT(t). */
  predicate RetSubmitDue(w: World, t: nat) {
    w.phase.Up? && w.rx.Idle? && w.s2c != [] && w.s2c[0].RetSubmit? && w.s2c[0].seqnum == t
  }

  lemma OvertakenStart(w: World, w1: World, u: nat, t: nat)
    requires w.phase.Up? && Enabled(w, StubTakeUnlinkEv) && TargetQueued(w)
    requires u == w.server.unlinkTx[0].seqnum && t == w.h.aim[u]
    requires w1 == Next(w, StubTakeUnlinkEv)
    requires Inv(w)
    ensures Overtaken(w1, u, t)
  {
    hide Inv, Bag;
    TargetQueuedMeans(w);
    OnceUnderWay(w, t);
    var j := |Backward(w)|;
    assert Backward(w1) == Backward(w) + [RetUnlink(u, w.server.unlinkTx[0].status)];
    assert Backward(w1)[..j] == Backward(w);
    assert AheadAt(Backward(w1), j, u, t);
  }

  lemma OvertakenEnd(w: World, u: nat, t: nat)
    requires RetSubmitDue(w, t)
    requires Overtaken(w, u, t)
    ensures DoRxReply(w).tcpError
  {
    hide Bag, First;
    NotWaiting(w.client.privRx, t);
    if j :| AheadAt(Backward(w), j, u, t) {
      assert Backward(w)[..j][0] == w.s2c[0];
      BagHas(Backward(w)[..j], 0, RetSubmitNo);
    }
  }

  // ------------------------------------------- the client's side, both ways

  /** The answer of an unlink request is picked up while URB t is in priv_rx. */
  predicate PicksUp(w: World, e: Event, t: nat) {
    e.RxPickup? && w.rx.Answered? && w.rx.unlink.target == t && Waiting(w.client.privRx, t)
  }

  predicate PickedUpOnRun(w: World, es: seq<Event>, t: nat)
    requires Feasible(w, es)
    decreases |es|
  {
    es != [] && (PicksUp(w, es[0], t) || PickedUpOnRun(Next(w, es[0]), es[1..], t))
  }

  lemma GivenMore(c: Client, d: Client, g: Given, t: nat)
    requires d.given == c.given + [g]
    ensures GivenByUnlink(d, t) <==> GivenByUnlink(c, t) || (g.seqnum == t && g.how.ByRetUnlink?)
  {
    if i :| 0 <= i < |c.given| && c.given[i].seqnum == t && c.given[i].how.ByRetUnlink? {
      assert d.given[i] == c.given[i];
    }
    assert d.given[|c.given|] == g;
  }

  lemma PickedOrNot(c: Client, n: nat, how: Giveback, t: nat)
    ensures GivenByUnlink(PickupAndGiveBack(c, n, how), t) <==>
      GivenByUnlink(c, t) || (Waiting(c.privRx, n) && n == t && how.ByRetUnlink?)
  {
    hide First, GivenByUnlink;
    if Waiting(c.privRx, n) {
      GivenMore(c, PickupAndGiveBack(c, n, how), Given(n, how), t);
    }
  }

  lemma GivenStep(w: World, e: Event, t: nat)
    requires Enabled(w, e)
    ensures GivenByUnlink(Next(w, e).client, t) <==> GivenByUnlink(w.client, t) || PicksUp(w, e, t)
  {
    hide First, Waiting, PickupAndGiveBack;
    match e {
      case Dequeue(n) => GivenDequeue(w.client, n, t);
      case RxPickup => PickedOrNot(w.client, w.rx.unlink.target, ByRetUnlink(w.rx.status), t);
      case RxReply =>
        if w.s2c[0].RetSubmit? {
          PickedOrNot(w.client, w.s2c[0].seqnum, ByRetSubmit(w.s2c[0].outcome), t);
        }
      case CleanupTurn => PickedOrNot(w.client, w.client.unlinkRx[0].target, ByCleanup(ENODEV), t);
      case _ =>
    }
  }

  lemma GivenDequeue(c: Client, n: nat, t: nat)
    ensures GivenByUnlink(UrbDequeue(c, n), t) <==> GivenByUnlink(c, t)
  {
    hide First, GivenByUnlink;
    if (Waiting(c.privTx, n) || Waiting(c.privRx, n)) && n !in c.marked && !c.socket {
      GivenMore(c, UrbDequeue(c, n), Given(n, ByDequeue), t);
    } else {
      assert UrbDequeue(c, n).given == c.given;
      SameGiven(c, UrbDequeue(c, n), t);
    }
  }

  lemma SameGiven(c: Client, d: Client, t: nat)
    requires c.given == d.given
    ensures GivenByUnlink(c, t) <==> GivenByUnlink(d, t)
  {
  }

  lemma {:induction false} GivenOnRun(w: World, es: seq<Event>, t: nat)
    requires Feasible(w, es)
    ensures GivenByUnlink(Run(w, es).client, t) <==> GivenByUnlink(w.client, t) || PickedUpOnRun(w, es, t)
    decreases |es|
  {
    hide Next, Enabled, GivenByUnlink, PicksUp;
    if es != [] {
      GivenStep(w, es[0], t);
      GivenOnRun(Next(w, es[0]), es[1..], t);
    }
  }

  /** What the client's overtaking comes to. vhci_send_cmd_unlink has taken a request
      whose target is still in priv_tx. Then on every continuation the target's
      RET_SUBMIT, when it is received, ends in the TCP error branch if and only if an
      answer was picked up while the target was in priv_rx. */
  lemma ClientOvertakenFailsIff(w: World, w1: World, es: seq<Event>, t: nat)
    requires Inv(w) && Enabled(w, TxTakeUnlink) && w1 == Next(w, TxTakeUnlink) && Feasible(w1, es)
    requires t == w.client.unlinkTx[0].target && Waiting(w.client.privTx, t)
    requires RetSubmitDue(Run(w1, es), t) && !Run(w1, es).tcpError
    ensures DoRxReply(Run(w1, es)).tcpError <==> PickedUpOnRun(w1, es, t)
  {
    hide Inv, Feasible, Run, Enabled, Waiting, GivenByUnlink, PickedUpOnRun, PickupAndGiveBack;
    StillQueuedNotGiven(w, t);
    GivenStep(w, TxTakeUnlink, t);
    GivenOnRun(w1, es, t);
    StepKeepsInv(w, TxTakeUnlink);
    RunKeepsInv(w1, es);
    ReplyFindsIff(Run(w1, es));
  }

  lemma StillQueuedNotGiven(w: World, t: nat)
    requires Inv(w) && Waiting(w.client.privTx, t)
    ensures !GivenByUnlink(w.client, t)
  {
    hide Bag, Truth, SubmitsAnswered, UnlinksAnswered, SentOnce, CancelsAnswered, Connected;
    NotWaiting(w.client.privTx, t);
    assert multiset(w.h.submitted.Keys)[t] <= 1;
    if i :| 0 <= i < |w.client.given| && w.client.given[i].seqnum == t && w.client.given[i].how.ByRetUnlink? {
      BagHas(w.client.given, i, GivenNo);
    }
  }
}
