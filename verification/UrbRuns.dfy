/** What holds after every run of the protocol, in whatever order its threads
    are scheduled. */
module UrbRuns {
  import opened Bags
  import opened UrbProtocol
  import opened UrbInvariants
  import opened UrbServerSteps

  // ------------------------------------------------- the invariant, all runs

  lemma StartInv()
    ensures Inv(START)
  {
    assert Forward(START) == [] && Backward(START) == [];
  }

  lemma FreshNumber(w: World)
    requires Truth(w)
    ensures w.client.seqnum + 1 !in w.h.submitted && w.client.seqnum + 1 !in w.h.aim && Staged(w)
  {
    hide ClientTrue, ServerTrue, CmdsOk, RetsOk;
  }

  lemma ClientStep(w: World, e: Event)
    requires Enabled(w, e)
    requires e.Enqueue? || e.Dequeue? || e.TxTakeSubmit? || e.TxTakeUnlink? || e.RxReply? || e.RxPickup?
    requires Inv(w)
    ensures Inv(Next(w, e))
  {
    hide Truth, Counts, Waiting;
    FreshNumber(w);
    match e
    case Enqueue(request) => EnqueueTruth(w, request); EnqueueCounts(w, request);
    case Dequeue(n) => DequeueTruth(w, n); DequeueCounts(w, n);
    case TxTakeSubmit => TxTakeSubmitTruth(w); TxTakeSubmitCounts(w);
    case TxTakeUnlink => TxTakeUnlinkTruth(w); TxTakeUnlinkCounts(w);
    case RxReply =>
      RxReplyTruth(w);
      if w.s2c[0].RetSubmit? { RxSubmitCounts(w); } else { RxUnlinkCounts(w); }
    case RxPickup => RxPickupTruth(w); RxPickupCounts(w);
  }

  lemma ServerStep(w: World, e: Event)
    requires Enabled(w, e)
    requires e.StubRx? || e.DeviceDone? || e.StubTakeSubmitEv? || e.StubTakeUnlinkEv? || e.CleanupTurn?
    requires Inv(w)
    ensures Inv(Next(w, e))
  {
    hide Truth, Counts, Waiting;
    FreshNumber(w);
    match e
    case StubRx => StubRxTruth(w); StubRxCounts(w);
    case DeviceDone(i, outcome) => DeviceDoneTruth(w, i, outcome); DeviceDoneCounts(w, i, outcome);
    case StubTakeSubmitEv => StubTakeSubmitTruth(w); StubTakeSubmitCounts(w);
    case StubTakeUnlinkEv => StubTakeUnlinkTruth(w); StubTakeUnlinkCounts(w);
    case CleanupTurn => CleanupTurnTruth(w); CleanupTurnCounts(w);
  }

  lemma StepKeepsInv(w: World, e: Event)
    requires Enabled(w, e)
    requires Inv(w)
    ensures Inv(Next(w, e))
  {
    hide Inv, Next, Enabled;
    match e {
      case TxSend => TxQuietKeepsInv(w, e);
      case TxEndSubmits => TxQuietKeepsInv(w, e);
      case TxEndUnlinks => TxQuietKeepsInv(w, e);
      case TxWake => TxQuietKeepsInv(w, e);
      case StubSend => StubQuietKeepsInv(w, e);
      case StubEndSubmits => StubQuietKeepsInv(w, e);
      case StubEndUnlinks => StubQuietKeepsInv(w, e);
      case StubWake => StubQuietKeepsInv(w, e);
      case StopThreads => StopKeepsInv(w);
      case CloseSocket => CloseKeepsInv(w, e);
      case CleanupBegin => CloseKeepsInv(w, e);
      case CleanupEnd => CloseKeepsInv(w, e);
      case Enqueue(_) => ClientStep(w, e);
      case Dequeue(_) => ClientStep(w, e);
      case TxTakeSubmit => ClientStep(w, e);
      case TxTakeUnlink => ClientStep(w, e);
      case RxReply => ClientStep(w, e);
      case RxPickup => ClientStep(w, e);
      case _ => ServerStep(w, e);
    }
  }

  lemma {:induction false} RunKeepsInv(w: World, es: seq<Event>)
    requires Feasible(w, es) && Inv(w)
    ensures Inv(Run(w, es))
    decreases |es|
  {
    hide Inv, Next, Enabled;
    if es != [] {
      StepKeepsInv(w, es[0]);
      RunKeepsInv(Next(w, es[0]), es[1..]);
    }
  }

  lemma ReachableInv(es: seq<Event>)
    requires Feasible(START, es)
    ensures Inv(Run(START, es))
  {
    hide Inv, Next, Enabled;
    StartInv();
    RunKeepsInv(START, es);
  }

  // ---------------------------------------------------------- client results

  function Once(present: bool): nat { if present then 1 else 0 }

  /** In every reachable state, whatever the scheduling: each URB enqueued is
      in exactly one of priv_tx, priv_rx and given back, once; nothing else is. */
  lemma EachUrbInOnePlace(es: seq<Event>, n: nat)
    requires Feasible(START, es)
    ensures var w := Run(START, es);
      Bag(w.client.privTx, PrivNo)[n] + Bag(w.client.privRx, PrivNo)[n] + Bag(w.client.given, GivenNo)[n]
      == Once(n in w.h.submitted)
  {
    hide Bag, Next, Enabled;
    ReachableInv(es);
    hide Truth, SubmitsAnswered, UnlinksAnswered, SentOnce, CancelsAnswered, Connected;
    var w := Run(START, es);
    assert multiset(w.h.submitted.Keys)[n] == Once(n in w.h.submitted);
  }

  /** Request u is aimed at URB n, and status is how the device ended n if u
      cancelled it there, zero if it did not. */
  predicate UnlinkedBy(h: History, n: nat, u: nat, status: int) {
    && u in h.aim && h.aim[u] == n
    && (Unlink(u, n) in h.cancelled ==> n in h.ended && h.ended[n].1.status == status)
    && (Unlink(u, n) !in h.cancelled ==> status == 0)
  }

  /** A URB given back through RET_SUBMIT carries exactly what the device
      produced for that URB's own request; through RET_UNLINK, the status the
      device ended it with when the request cancelled it, and zero otherwise. */
  lemma GivebackIsTrue(es: seq<Event>, i: nat)
    requires Feasible(START, es) && i < |Run(START, es).client.given|
    ensures var w := Run(START, es); var g := w.client.given[i];
      && g.seqnum in w.h.submitted
      && (g.how.ByRetSubmit? ==>
            g.seqnum in w.h.ended && w.h.ended[g.seqnum] == (w.h.submitted[g.seqnum], g.how.outcome))
      && (g.how.ByRetUnlink? ==> exists u :: UnlinkedBy(w.h, g.seqnum, u, g.how.status))
  {
    hide Bag, Next, Enabled;
    ReachableInv(es);
    var w := Run(START, es);
    var g := w.client.given[i];
    hide Counts, Numbered, CmdsOk, ServerTrue, RetsOk, PrivsOk, UnlinksOk;
    assert GivenOk(w.h, g);
    GivenSubmitted(w, i);
    if g.how.ByRetUnlink? {
      var u :| AimOk(w.h, u, g.seqnum) && RetOk(w.h, RetUnlink(u, g.how.status)) && RetUnlink(u, g.how.status) in w.h.rets;
      assert UnlinkedBy(w.h, g.seqnum, u, g.how.status);
    }
  }

  lemma GivenSubmitted(w: World, i: nat)
    requires Inv(w) && i < |w.client.given|
    ensures w.client.given[i].seqnum in w.h.submitted
  {
    hide Bag, Truth, SubmitsAnswered, UnlinksAnswered, SentOnce, CancelsAnswered, Connected;
    BagHas(w.client.given, i, GivenNo);
    assert w.client.given[i].seqnum in multiset(w.h.submitted.Keys);
  }

  function Enqueues(es: seq<Event>): nat {
    if es == [] then 0 else Once(es[0].Enqueue?) + Enqueues(es[1..])
  }

  lemma StepSubmits(w: World, e: Event)
    requires Enabled(w, e)
    requires Inv(w)
    ensures |Next(w, e).h.submitted| == |w.h.submitted| + Once(e.Enqueue?)
  {
    hide Counts, Truth, Waiting, Enabled;
    if e.Enqueue? {
      FreshNumber(w);
      CountedOnce(w.h.submitted, w.client.seqnum + 1, e.request);
    } else {
      hide Inv;
      OthersSubmitNothing(w, e);
    }
  }

  lemma OthersSubmitNothing(w: World, e: Event)
    requires Enabled(w, e) && !e.Enqueue?
    ensures Next(w, e).h.submitted == w.h.submitted
  {
    hide Waiting, RecvCmdUnlink, Complete, PickupAndGiveBack;
  }

  lemma CountedOnce(m: map<nat, Request>, n: nat, request: Request)
    requires n !in m
    ensures |m[n := request]| == |m| + 1
  {
    var k := m[n := request];
    assert k - {n} == m;
  }

  lemma {:induction false} EnqueuesCounted(w: World, es: seq<Event>)
    requires Feasible(w, es) && Inv(w)
    ensures |Run(w, es).h.submitted| == |w.h.submitted| + Enqueues(es)
    decreases |es|
  {
    hide Inv, Next, Enabled;
    if es != [] {
      StepSubmits(w, es[0]);
      StepKeepsInv(w, es[0]);
      EnqueuesCounted(Next(w, es[0]), es[1..]);
    }
  }

  /** The submitted URBs are those the drivers enqueued: every Enqueue has a number of
      its own. */
  lemma EveryEnqueueNumbered(es: seq<Event>)
    requires Feasible(START, es)
    ensures |Run(START, es).h.submitted| == Enqueues(es)
  {
    hide Inv, Next, Enabled;
    StartInv();
    EnqueuesCounted(START, es);
  }

  // ---------------------------------------------------------- server results

  /** All replies the server has produced, sent or about to be. */
  function Replies(w: World): seq<Ret> { w.h.rets + Backward(w) }

  /** Server conservation over every run. Of each CMD_SUBMIT received: it is in
      progress, waits in priv_tx, was answered by RET_SUBMIT or was cancelled,
      exactly one of these and once. Of each CMD_UNLINK: it renames a URB in
      progress, waits in unlink_tx or was answered, likewise. A request that
      cancelled its target has its own answer waiting or sent. No reply answers
      a command that was not received. */
  lemma ServerAnswersOnce(es: seq<Event>, n: nat)
    requires Feasible(START, es)
    ensures var w := Run(START, es);
      && Bag(w.h.cmds, CmdSubmitNo)[n] <= 1 && Bag(w.h.cmds, CmdUnlinkNo)[n] <= 1
      && Bag(w.server.privInit, UrbNo)[n] + Bag(w.server.privTx, UrbNo)[n]
         + Bag(Replies(w), RetSubmitNo)[n] + Bag(w.h.cancelled, TargetNo)[n] == Bag(w.h.cmds, CmdSubmitNo)[n]
      && Bag(w.server.privInit, RenamedNo)[n] + Bag(w.server.unlinkTx, StubUnlinkNo)[n]
         + Bag(Replies(w), RetUnlinkNo)[n] == Bag(w.h.cmds, CmdUnlinkNo)[n]
      && (forall i :: 0 <= i < |w.h.cancelled| && w.h.cancelled[i].target == n ==>
            var u := w.h.cancelled[i].seqnum;
            u in w.h.aim && w.h.aim[u] == n
            && Bag(w.server.unlinkTx, StubUnlinkNo)[u] + Bag(Replies(w), RetUnlinkNo)[u] == 1)
  {
    hide Bag, Next, Enabled;
    ReachableInv(es);
    var w := Run(START, es);
    hide Numbered, ClientTrue, CmdsOk, RetsOk, InitsOk, DonesOk, StubUnlinksOk, UrbsConserved, Connected;
    BagAppend(w.h.rets, Backward(w), RetSubmitNo);
    BagAppend(w.h.rets, Backward(w), RetUnlinkNo);
    assert multiset(w.h.submitted.Keys)[n] <= 1 && multiset(w.h.aim.Keys)[n] <= 1;
    forall i | 0 <= i < |w.h.cancelled| && w.h.cancelled[i].target == n
      ensures AimOk(w.h, w.h.cancelled[i].seqnum, n)
      ensures var u := w.h.cancelled[i].seqnum;
        Bag(w.server.unlinkTx, StubUnlinkNo)[u] + Bag(Replies(w), RetUnlinkNo)[u] == 1
    {
      var u := w.h.cancelled[i].seqnum;
      assert AimOk(w.h, u, w.h.cancelled[i].target);
      assert multiset(w.h.aim.Keys)[u] <= 1;
      assert u in Bag(w.server.unlinkTx, StubUnlinkNo) + Bag(Backward(w), RetUnlinkNo) + Bag(w.h.rets, RetUnlinkNo);
    }
  }

  /** Renaming never aliases: the numbers in priv_init stay pairwise distinct,
      and the number of a renamed entry is the target of no unlink request, past
      or still to be received. */
  lemma RenamingNeverAliases(es: seq<Event>, i: nat)
    requires Feasible(START, es) && i < |Run(START, es).server.privInit|
    ensures var w := Run(START, es); var q := w.server.privInit;
      && (forall j :: 0 <= j < |q| && j != i ==> q[j].seqnum != q[i].seqnum)
      && (q[i].unlinking ==>
            && (forall u :: u in w.h.aim ==> w.h.aim[u] != q[i].seqnum)
            && (forall j :: 0 <= j < |Forward(w)| && Forward(w)[j].CmdUnlink? ==> Forward(w)[j].target != q[i].seqnum)
            && (forall j :: 0 <= j < |w.client.unlinkTx| ==> w.client.unlinkTx[j].target != q[i].seqnum))
  {
    hide Bag, Next, Enabled;
    ReachableInv(es);
    var w := Run(START, es);
    InitDistinct(w, i);
    hide Counts, GivensOk, PrivsOk, RetsOk, DonesOk, StubUnlinksOk;
    assert InitOk(w.h, w.server.privInit[i]);
    forall j | 0 <= j < |Forward(w)| && Forward(w)[j].CmdUnlink?
      ensures Forward(w)[j].target in w.h.submitted
    {
      assert CmdOk(w.h, Forward(w)[j]);
    }
    forall j | 0 <= j < |w.client.unlinkTx|
      ensures w.client.unlinkTx[j].target in w.h.submitted
    {
      assert AimOk(w.h, w.client.unlinkTx[j].seqnum, w.client.unlinkTx[j].target);
    }
  }

  lemma InitDistinct(w: World, i: nat)
    requires i < |w.server.privInit| && Inv(w)
    ensures forall j :: 0 <= j < |w.server.privInit| && j != i ==>
      w.server.privInit[j].seqnum != w.server.privInit[i].seqnum
  {
    hide Bag, Counts, ClientTrue, CmdsOk, RetsOk, DonesOk, StubUnlinksOk, UnlinksOk;
    var q := w.server.privInit;
    InProgressUnmentionedInv(w, i);
    forall j | 0 <= j < |q| && j != i
      ensures q[j].seqnum != q[i].seqnum
    {
      assert InitOk(w.h, q[i]) && InitOk(w.h, q[j]);
    }
  }
}
