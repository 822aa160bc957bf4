/** Once no more URBs are enqueued or unlinked, the system runs down, and when
    nothing can happen any more every URB has been given back. */
module UrbDrain {
  import opened Bags
  import opened UrbProtocol
  import opened UrbInvariants
  import opened UrbServerSteps
  import opened UrbRuns
  import opened UrbOrder
  import opened UrbCounterexamples

  /** Everything but new work and shutdown. */
  predicate Draining(e: Event) {
    !(e.Enqueue? || e.Dequeue? || e.StopThreads? || e.CloseSocket?
      || e.CleanupBegin? || e.CleanupTurn? || e.CleanupEnd?)
  }

  /** Work left: each entry and message weighs the number of steps it may need. */
  function Weight(w: World): nat {
    10 * |w.client.privTx| + 10 * |w.client.unlinkTx| + 9 * |Held(w.tx.hand)| + 8 * |w.c2s|
    + 7 * |w.server.privInit| + 6 * |w.server.privTx| + 6 * |w.server.unlinkTx|
    + 5 * |Held(w.stx.hand)| + 4 * |w.s2c| + (if w.rx.Answered? then 2 else 0)
  }

  /** How many steps a transmit thread is from its next message or from sleep. */
  function Distance(loop: Loop, submits: bool, unlinks: bool): (d: nat)
    ensures d <= 2
  {
    match loop
    case Submits => if submits then 0 else if unlinks then 1 else 2
    case Unlinks => if unlinks then 0 else if submits then 2 else 1
    case Asleep => if submits then 1 else if unlinks then 2 else 0
  }

  function TxDistance(w: World): (d: nat)
    ensures d <= 2
  {
    Distance(w.tx.loop, w.client.privTx != [], w.client.unlinkTx != [])
  }

  function StubDistance(w: World): (d: nat)
    ensures d <= 2
  {
    Distance(w.stx.loop, w.server.privTx != [], w.server.unlinkTx != [])
  }

  function Measure(w: World): nat {
    5 * Weight(w) + TxDistance(w) + StubDistance(w)
  }

  /** A step that moves a message on, or consumes it. */
  predicate Moves(e: Event) {
    e.TxTakeSubmit? || e.TxTakeUnlink? || e.TxSend? || e.RxReply? || e.RxPickup?
    || e.StubRx? || e.DeviceDone? || e.StubTakeSubmitEv? || e.StubTakeUnlinkEv? || e.StubSend?
  }

  lemma MovesLighten(w: World, e: Event)
    requires Moves(e) && !e.RxReply? && !e.StubRx?
    requires Enabled(w, e)
    ensures Weight(Next(w, e)) < Weight(w)
  {
    hide First;
  }

  lemma RxReplyLightens(w: World)
    requires w.s2c != [] && w.rx.Idle?
    ensures Weight(DoRxReply(w)) < Weight(w)
  {
    hide First;
    var c := DoRxReply(w).client;
    assert c.privTx == w.client.privTx && c.unlinkTx == w.client.unlinkTx;
  }

  lemma StubRxLightens(w: World)
    requires w.c2s != []
    ensures Weight(DoStubRx(w)) < Weight(w)
  {
    hide First;
    var s := DoStubRx(w).server;
    assert |s.privInit| + |s.unlinkTx| <= |w.server.privInit| + |w.server.unlinkTx| + 1 && s.privTx == w.server.privTx;
  }

  /** A thread that finds its queue empty, falls asleep or wakes up. */
  lemma TurnsApproach(w: World, e: Event)
    requires !Moves(e) && Draining(e)
    requires Enabled(w, e)
    ensures Weight(Next(w, e)) == Weight(w)
    ensures TxDistance(Next(w, e)) + StubDistance(Next(w, e)) < TxDistance(w) + StubDistance(w)
  {
  }

  lemma DrainStepDecreases(w: World, e: Event)
    requires Draining(e)
    requires Enabled(w, e)
    ensures Measure(Next(w, e)) < Measure(w)
  {
    hide Weight, TxDistance, StubDistance;
    if !Moves(e) {
      TurnsApproach(w, e);
    } else if e.RxReply? {
      RxReplyLightens(w);
    } else if e.StubRx? {
      StubRxLightens(w);
    } else {
      MovesLighten(w, e);
    }
  }

  /** While something is left to do, some step can be taken: no deadlock. */
  lemma DrainNotStuck(w: World) returns (e: Event)
    requires w.phase.Up? && !w.tcpError && Measure(w) > 0
    ensures Draining(e) && Enabled(w, e)
  {
    if w.tx.hand.Some? { return TxSend; }
    if w.stx.hand.Some? { return StubSend; }
    if w.rx.Answered? { return RxPickup; }
    if w.s2c != [] { return RxReply; }
    if w.c2s != [] { return StubRx; }
    if w.server.privInit != [] { return DeviceDone(0, NO_OUTCOME); }
    if w.client.privTx != [] || w.client.unlinkTx != []
       || Distance(w.tx.loop, false, false) > 0
    {
      return match w.tx.loop
        case Submits => if w.client.privTx != [] then TxTakeSubmit else TxEndSubmits
        case Unlinks => if w.client.unlinkTx != [] then TxTakeUnlink else TxEndUnlinks
        case Asleep => TxWake;
    }
    return match w.stx.loop
      case Submits => if w.server.privTx != [] then StubTakeSubmitEv else StubEndSubmits
      case Unlinks => if w.server.unlinkTx != [] then StubTakeUnlinkEv else StubEndUnlinks
      case Asleep => StubWake;
  }

  /** Nothing left to do: both waiting lists are empty and the giveback log
      holds each URB exactly once. */
  ghost predicate AllGivenBack(w: World) {
    && w.client.privTx == [] && w.client.privRx == []
    && w.client.unlinkTx == [] && w.client.unlinkRx == []
    && Bag(w.client.given, GivenNo) == multiset(w.h.submitted.Keys)
  }

  lemma NothingAwaited(w: World)
    requires w.phase.Up? && Weight(w) == 0
    requires Counts(w)
    ensures w.client.privRx == []
  {
    hide Bag, UnlinksSent, UnlinksAwaited, UnlinksAnswered, SentOnce;
    EmptyBags(w);
    if w.client.privRx != [] {
      var n := w.client.privRx[0].seqnum;
      BagHas(w.client.privRx, 0, PrivNo);
      assert n in multiset(w.h.submitted.Keys);
      assert n in Bag(w.h.cancelled, TargetNo);
      var i := BagFrom(w.h.cancelled, TargetNo, n);
    }
  }

  lemma EmptyBag<T>(f: T -> multiset<nat>)
    ensures Bag([], f) == multiset{}
  {
  }

  /** With nothing under way, the bags of the queues are empty. */
  lemma EmptyBags(w: World)
    requires Weight(w) == 0
    ensures w.client.privTx == [] && w.client.unlinkTx == [] && w.rx.Idle?
    ensures Bag(w.client.privTx, PrivNo) == multiset{} && Bag(w.client.unlinkTx, UnlinkNo) == multiset{}
    ensures Bag(w.server.privInit, UrbNo) == multiset{} && Bag(w.server.privInit, RenamedNo) == multiset{}
    ensures Bag(w.server.privTx, UrbNo) == multiset{} && Bag(w.server.unlinkTx, StubUnlinkNo) == multiset{}
    ensures Bag(Forward(w), CmdSubmitNo) == multiset{} && Bag(Forward(w), CmdUnlinkNo) == multiset{}
    ensures Bag(Backward(w), RetSubmitNo) == multiset{} && Bag(Backward(w), RetUnlinkNo) == multiset{}
  {
    hide Bag;
    assert Forward(w) == [] && Backward(w) == [];
    assert w.server.privInit == [] && w.server.privTx == [] && w.server.unlinkTx == [];
    EmptyBag<Priv>(PrivNo);
    EmptyBag<Unlink>(UnlinkNo);
    EmptyBag<StubPriv>(UrbNo);
    EmptyBag<StubPriv>(RenamedNo);
    EmptyBag<StubUnlink>(StubUnlinkNo);
    EmptyBag<Cmd>(CmdSubmitNo);
    EmptyBag<Cmd>(CmdUnlinkNo);
    EmptyBag<Ret>(RetSubmitNo);
    EmptyBag<Ret>(RetUnlinkNo);
  }

  lemma NoAnswerAwaited(w: World)
    requires w.phase.Up? && Weight(w) == 0
    requires Counts(w)
    ensures w.client.unlinkRx == []
  {
    hide Bag, UrbsConserved, SubmitsSent, SubmitsAnswered, SentOnce, RepliesHeeded, CancelsHeeded, CancelsAnswered;
    EmptyBags(w);
    forall u: nat
      ensures Bag(w.client.unlinkRx, UnlinkNo)[u] == 0
    {
      assert Bag(w.h.cmds, CmdUnlinkNo)[u] == multiset(w.h.aim.Keys)[u];
    }
    if w.client.unlinkRx != [] {
      BagHas(w.client.unlinkRx, 0, UnlinkNo);
    }
  }

  /** Completeness of quiescence, on every run at all without a TCP error. */
  lemma QuietMeansAllGivenBack(w: World)
    requires w.phase.Up? && Weight(w) == 0
    requires Inv(w)
    ensures AllGivenBack(w)
  {
    hide Truth;
    NothingAwaited(w);
    NoAnswerAwaited(w);
    EmptyBags(w);
    assert Bag(w.client.privRx, PrivNo) == multiset{};
    hide Bag, SubmitsAnswered, UnlinksAnswered, SentOnce, CancelsAnswered, Connected;
  }

  ghost predicate AllDraining(es: seq<Event>) {
    forall i :: 0 <= i < |es| ==> Draining(es[i])
  }

  lemma {:induction false} DrainRun(w: World, es: seq<Event>)
    requires Feasible(w, es) && AllDraining(es)
    ensures |es| + Measure(Run(w, es)) <= Measure(w)
    ensures Run(w, es).phase == w.phase
    decreases |es|
  {
    hide Measure, Enabled;
    if es != [] {
      DrainStepDecreases(w, es[0]);
      DrainRun(Next(w, es[0]), es[1..]);
    }
  }

  lemma {:induction false} OrderedParts(w: World, es: seq<Event>, ds: seq<Event>)
    requires Feasible(w, es) && Ordered(w, es)
    requires Feasible(Run(w, es), ds) && Ordered(Run(w, es), ds)
    ensures Feasible(w, es + ds) && Ordered(w, es + ds) && Run(w, es + ds) == Run(Run(w, es), ds)
    decreases |es|
  {
    hide Enabled, Next, InOrder;
    if es == [] {
      assert es + ds == ds;
    } else {
      assert (es + ds)[1..] == es[1..] + ds;
      OrderedParts(Next(w, es[0]), es[1..], ds);
    }
  }

  /** With nothing to move on or wake up for, every thread sleeps. */
  lemma QuietWeighsNothing(w: World)
    requires Measure(w) == 0
    ensures Weight(w) == 0
  {
  }

  // -------------------------------------------------- where order must be broken

  /** A thread stands in its unlink loop with an empty hand, and the message it would
      take next must wait for one that only its submit loop sends. */
  predicate TxBlocked(w: World) {
    w.tx == Sender(Unlinks, None) && w.client.unlinkTx != [] && Waiting(w.client.privTx, w.client.unlinkTx[0].target)
  }

  predicate StubBlocked(w: World) {
    w.stx == Sender(Unlinks, None) && w.server.unlinkTx != [] && TargetQueued(w)
  }

  predicate TxAsleep(w: World) {
    w.tx == Sender(Asleep, None) && w.client.privTx == [] && w.client.unlinkTx == []
  }

  predicate StubAsleep(w: World) {
    w.stx == Sender(Asleep, None) && w.server.privTx == [] && w.server.unlinkTx == []
  }

  /** Nothing moves but out of order: at least one thread is blocked, the other blocked
      or asleep, and no message or URB is under way. */
  predicate Stalled(w: World) {
    && (TxBlocked(w) || TxAsleep(w)) && (StubBlocked(w) || StubAsleep(w)) && (TxBlocked(w) || StubBlocked(w))
    && w.c2s == [] && w.s2c == [] && w.rx.Idle? && w.server.privInit == []
  }

  /** A step that keeps the order, if there is anything left to do. */
  lemma InOrderStep(w: World) returns (e: Event)
    requires w.phase.Up? && !w.tcpError && Measure(w) > 0 && !Stalled(w)
    ensures Draining(e) && Enabled(w, e) && InOrder(w, e)
  {
    hide Waiting, TargetQueued;
    if w.tx.hand.Some? { return TxSend; }
    if w.stx.hand.Some? { return StubSend; }
    if w.rx.Answered? { return RxPickup; }
    if w.s2c != [] { return RxReply; }
    if w.c2s != [] { return StubRx; }
    if w.server.privInit != [] { return DeviceDone(0, NO_OUTCOME); }
    if !TxBlocked(w) && !TxAsleep(w) {
      return match w.tx.loop
        case Submits => if w.client.privTx != [] then TxTakeSubmit else TxEndSubmits
        case Unlinks => if w.client.unlinkTx != [] then TxTakeUnlink else TxEndUnlinks
        case Asleep => TxWake;
    }
    assert StubBlocked(w) || StubAsleep(w) ==> TxAsleep(w) && StubAsleep(w);
    return match w.stx.loop
      case Submits => if w.server.privTx != [] then StubTakeSubmitEv else StubEndSubmits
      case Unlinks => if w.server.unlinkTx != [] then StubTakeUnlinkEv else StubEndUnlinks
      case Asleep => StubWake;
  }

  lemma StalledOutOfOrder(w: World, e: Event)
    requires w.phase.Up? && (Measure(w) == 0 || Stalled(w))
    requires Draining(e) && Enabled(w, e)
    ensures !InOrder(w, e)
  {
    hide Waiting, TargetQueued;
  }

  /** Exactly when no step keeps the order: nothing is left to do, or the state is
      stalled. */
  lemma NoOrderlyStepIff(w: World)
    requires w.phase.Up? && !w.tcpError
    ensures (exists e :: Draining(e) && Enabled(w, e) && InOrder(w, e)) <==> Measure(w) > 0 && !Stalled(w)
  {
    hide Measure, Stalled, Draining, Enabled, InOrder;
    if Measure(w) > 0 && !Stalled(w) {
      var e := InOrderStep(w);
    } else {
      forall e | Draining(e) && Enabled(w, e) ensures !InOrder(w, e) {
        StalledOutOfOrder(w, e);
      }
    }
  }

  // -------------------------------------------------------------- whole drains

  /** Drain in order. Take any ordered run es that leaves the connection up, continued
      by an ordered run ds without new work. Then ds has at most Measure steps; it can
      be continued in order unless nothing is left to do or it is stalled; and if
      nothing is left to do, every URB ever enqueued has been given back exactly once. */
  lemma DrainCompletes(es: seq<Event>, ds: seq<Event>)
    requires Feasible(START, es) && Ordered(START, es) && Run(START, es).phase.Up?
    requires Feasible(Run(START, es), ds) && Ordered(Run(START, es), ds) && AllDraining(ds)
    ensures |ds| <= Measure(Run(START, es))
    ensures var w := Run(Run(START, es), ds);
      && ((exists e :: Draining(e) && Enabled(w, e) && InOrder(w, e)) <==> Measure(w) > 0 && !Stalled(w))
      && (Measure(w) == 0 ==> AllGivenBack(w))
  {
    hide Inv, Next, Enabled, InOrder, Measure, AllGivenBack, Draining, Weight, Stalled;
    DrainRun(Run(START, es), ds);
    OrderedParts(START, es, ds);
    ReplyFindsItsUrb(es + ds);
    ReachableInv(es + ds);
    var w := Run(Run(START, es), ds);
    NoOrderlyStepIff(w);
    if Measure(w) == 0 {
      QuietWeighsNothing(w);
      QuietMeansAllGivenBack(w);
    }
  }

  lemma {:induction false} RunParts(w: World, es: seq<Event>, ds: seq<Event>)
    requires Feasible(w, es) && Feasible(Run(w, es), ds)
    ensures Feasible(w, es + ds) && Run(w, es + ds) == Run(Run(w, es), ds)
    decreases |es|
  {
    hide Enabled, Next;
    if es == [] {
      assert es + ds == ds;
    } else {
      assert (es + ds)[1..] == es[1..] + ds;
      RunParts(Next(w, es[0]), es[1..], ds);
    }
  }

  /** Drain in any order the threads may choose, as the code leaves it to them: a drain
      ds has at most Measure steps, and one that cannot go on has given every URB back
      exactly once or has met the TCP error. */
  lemma DrainEnds(es: seq<Event>, ds: seq<Event>)
    requires Feasible(START, es) && Run(START, es).phase.Up?
    requires Feasible(Run(START, es), ds) && AllDraining(ds)
    ensures |ds| <= Measure(Run(START, es))
    ensures var w := Run(Run(START, es), ds);
      (exists e :: Draining(e) && Enabled(w, e)) || w.tcpError || AllGivenBack(w)
  {
    hide Inv, Next, Enabled, Measure, AllGivenBack, Draining, Weight;
    DrainRun(Run(START, es), ds);
    RunParts(START, es, ds);
    ReachableInv(es + ds);
    var w := Run(Run(START, es), ds);
    if !w.tcpError {
      if Measure(w) > 0 {
        var e := DrainNotStuck(w);
      } else {
        QuietWeighsNothing(w);
        QuietMeansAllGivenBack(w);
      }
    }
  }

  // ------------------------------------------------------- a stalled state is reached

  lemma ThenInOrder(es: seq<Event>, w: World, e: Event) returns (es': seq<Event>, w': World)
    requires Feasible(START, es) && Ordered(START, es) && w == Run(START, es) && Enabled(w, e) && InOrder(w, e)
    ensures w' == Next(w, e)
    ensures Feasible(START, es') && Ordered(START, es') && w' == Run(START, es')
  {
    hide Next, Enabled, InOrder;
    OneInOrder(w, e);
    OrderedParts(START, es, [e]);
    es', w' := es + [e], Next(w, e);
  }

  lemma OneInOrder(w: World, e: Event)
    requires Enabled(w, e) && InOrder(w, e)
    ensures Feasible(w, [e]) && Ordered(w, [e]) && Run(w, [e]) == Next(w, e)
  {
    hide Next, Enabled, InOrder;
    assert [e][1..] == [];
  }

  lemma StartInOrder()
    ensures Feasible(START, []) && Ordered(START, []) && Run(START, []) == START
  {
  }

  lemma AtDeviceInOrder() returns (es: seq<Event>)
    ensures Feasible(START, es) && Ordered(START, es) && Run(START, es) == AT_DEVICE
  {
    hide Feasible, Run, Ordered;
    StartInOrder();
    var w;
    es, w := ThenInOrder([], START, Enqueue(REQUEST));
    es, w := ThenInOrder(es, w, TxTakeSubmit);
    es, w := ThenInOrder(es, w, TxSend);
    es, w := ThenInOrder(es, w, StubRx);
  }

  lemma UnlinkingInOrder() returns (es: seq<Event>)
    ensures Feasible(START, es) && Ordered(START, es) && Run(START, es) == UNLINKING
  {
    hide Feasible, Run, Ordered;
    es := AtDeviceInOrder();
    var w;
    es, w := ThenInOrder(es, AT_DEVICE, Dequeue(1));
    es, w := ThenInOrder(es, w, TxEndSubmits);
    es, w := ThenInOrder(es, w, TxTakeUnlink);
    es, w := ThenInOrder(es, w, TxSend);
    es, w := ThenInOrder(es, w, StubEndSubmits);
  }

  /** A URB completes and its unlink request arrives while the server's thread stands in
      its unlink loop: an ordered run to a stalled state, with the URB not given back. */
  lemma StalledReached() returns (es: seq<Event>)
    ensures Feasible(START, es) && Ordered(START, es)
    ensures var w := Run(START, es); w.phase.Up? && !w.tcpError && Stalled(w) && w.client.given == []
  {
    hide Feasible, Run, Ordered;
    es := UnlinkingInOrder();
    var w;
    es, w := ThenInOrder(es, UNLINKING, DeviceDone(0, SUCCESS));
    es, w := ThenInOrder(es, w, StubRx);
    es, w := ThenInOrder(es, w, TxEndUnlinks);
    assert w.server.privTx[0].urb == 1;
  }
}
