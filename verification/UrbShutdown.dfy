/** The client's shutdown: what the unlink cleanup gives back, however it
    interleaves with the drivers' own dequeues, and what it leaves behind. */
module UrbShutdown {
  import opened Bags
  import opened UrbProtocol
  import opened UrbInvariants
  import opened UrbServerSteps
  import opened UrbRuns
  import opened UrbOvertaking
  import opened UrbCounterexamples

  /** Some request waiting in unlink_rx is aimed at URB n. */
  predicate Named(q: seq<Unlink>, n: nat) {
    exists i :: 0 <= i < |q| && q[i].target == n
  }

  /** URB n was given back by the cleanup. */
  predicate CleanedUp(given: seq<Given>, n: nat) {
    Given(n, ByCleanup(ENODEV)) in given
  }

  /** URB n is on one of the client's lists. */
  ghost predicate PendingUrb(c: Client, n: nat) {
    n in Bag(c.privTx, PrivNo) + Bag(c.privRx, PrivNo)
  }

  /** Cleanup has begun: the socket is closed and unlink_tx is empty. */
  predicate CleaningUp(w: World) {
    && (w.phase.Cleaning? || w.phase.Cleaned?)
    && w.client.unlinkTx == []
    && (w.phase.Cleaned? ==> w.client.unlinkRx == [])
  }

  function Turns(es: seq<Event>): nat {
    if es == [] then 0 else Once(es[0].CleanupTurn?) + Turns(es[1..])
  }

  // ------------------------------------------------------------- one event

  /** From w to w' the cleanup took one URB at most, and one named. */
  ghost predicate CleansFrom(c: Client, c': Client) {
    && (forall n :: Named(c.unlinkRx, n) && n in Bag(c.privRx, PrivNo) ==>
          CleanedUp(c'.given, n) || (Named(c'.unlinkRx, n) && n in Bag(c'.privRx, PrivNo)))
    && (forall n :: CleanedUp(c'.given, n) ==>
          CleanedUp(c.given, n) || (Named(c.unlinkRx, n) && n in Bag(c.privRx, PrivNo)))
    && (forall n :: Named(c'.unlinkRx, n) && n in Bag(c'.privRx, PrivNo) ==>
          Named(c.unlinkRx, n) && n in Bag(c.privRx, PrivNo))
    && (forall n :: CleanedUp(c.given, n) ==> CleanedUp(c'.given, n))
  }

  lemma TurnCleans(w: World)
    requires w.client.unlinkRx != []
    ensures CleansFrom(w.client, CleanupOne(w.client))
  {
    hide Bag, First;
    var c := w.client;
    var c' := CleanupOne(c);
    var t := c.unlinkRx[0].target;
    NotWaiting(c.privRx, t);
    if Waiting(c.privRx, t) {
      BagWithout(c.privRx, PrivAt(c.privRx, t), PrivNo);
      assert c'.given[|c.given|] == Given(t, ByCleanup(ENODEV));
    }
    forall n | Named(c.unlinkRx, n) && n != t
      ensures Named(c'.unlinkRx, n)
    {
      var i :| 0 <= i < |c.unlinkRx| && c.unlinkRx[i].target == n;
      assert c'.unlinkRx[i - 1] == c.unlinkRx[i];
    }
    forall n | Named(c'.unlinkRx, n)
      ensures Named(c.unlinkRx, n)
    {
      var i :| 0 <= i < |c'.unlinkRx| && c'.unlinkRx[i].target == n;
      assert c'.unlinkRx[i] == c.unlinkRx[i + 1];
    }
  }

  /** A driver's dequeue takes no URB named in unlink_rx: the USB core has
      accepted its unlink once already. */
  lemma DequeueCleans(w: World, n: nat)
    requires !w.client.socket
    requires Inv(w)
    ensures CleansFrom(w.client, DoDequeue(w, n).client)
  {
    hide Bag, First, Counts;
    var c := w.client;
    NamedMarked(w);
    if Waiting(c.privTx, n) {
      BagWithout(c.privTx, PrivAt(c.privTx, n), PrivNo);
    } else if Waiting(c.privRx, n) {
      BagWithout(c.privRx, PrivAt(c.privRx, n), PrivNo);
    }
  }

  lemma NamedMarked(w: World)
    requires Inv(w)
    ensures forall n :: Named(w.client.unlinkRx, n) ==> n in w.client.marked
  {
    hide Bag, Counts, CmdsOk, ServerTrue, RetsOk, PrivsOk, GivensOk;
    forall n | Named(w.client.unlinkRx, n)
      ensures n in w.client.marked
    {
      var i :| 0 <= i < |w.client.unlinkRx| && w.client.unlinkRx[i].target == n;
      assert AimOk(w.h, w.client.unlinkRx[i].seqnum, n);
    }
  }

  lemma CleanupStep(w: World, e: Event)
    requires CleaningUp(w) && Enabled(w, e)
    requires Inv(w)
    ensures var w' := Next(w, e);
      && CleaningUp(w')
      && Once(e.CleanupTurn?) + |w'.client.unlinkRx| == |w.client.unlinkRx|
      && CleansFrom(w.client, w'.client)
  {
    hide Inv, Bag, Waiting, Named, CleanedUp, First;
    StagedInv(w);
    match e {
      case Dequeue(n) => DequeueCleans(w, n);
      case CleanupTurn => TurnCleans(w);
      case _ =>
    }
  }

  lemma StagedInv(w: World)
    requires Inv(w)
    ensures Staged(w)
  {
    hide Counts;
  }

  // ------------------------------------------------------------- whole runs

  /** The cleanup, over every interleaving with the drivers' enqueues and
      dequeues and with whatever the server still does: its turns are counted by
      unlink_rx, so it ends; afterwards both unlink lists are empty; it gives
      back each URB that was pending and named in unlink_rx, and no other. */
  lemma {:induction false} CleanupRun(w: World, es: seq<Event>)
    requires CleaningUp(w) && Feasible(w, es)
    requires Inv(w)
    ensures var w' := Run(w, es);
      && CleaningUp(w') && Inv(w')
      && Turns(es) + |w'.client.unlinkRx| == |w.client.unlinkRx|
      && CleansFrom(w.client, w'.client)
    decreases |es|
  {
    hide Inv, Bag, Enabled, Next, CleaningUp, Named, CleanedUp;
    if es != [] {
      CleanupStep(w, es[0]);
      StepKeepsInv(w, es[0]);
      CleanupRun(Next(w, es[0]), es[1..]);
    }
  }

  /** When the cleanup has ended, exactly the URBs that were pending and named
      in unlink_rx when it began are given back by it, each once. */
  lemma CleanupGivesBackNamed(es: seq<Event>, cs: seq<Event>, n: nat)
    requires Feasible(START, es) && Enabled(Run(START, es), CleanupBegin)
    requires Feasible(Next(Run(START, es), CleanupBegin), cs)
    requires Run(Next(Run(START, es), CleanupBegin), cs).phase.Cleaned?
    ensures var c := Run(START, es).client; var c' := Run(Next(Run(START, es), CleanupBegin), cs).client;
      && c'.unlinkTx == [] && c'.unlinkRx == [] && Turns(cs) == |c.unlinkRx|
      && (CleanedUp(c'.given, n) <==> Named(c.unlinkRx, n) && n in Bag(c.privRx, PrivNo))
      && Bag(c'.given, GivenNo)[n] <= 1
  {
    hide Inv, Bag;
    ReachableInv(es);
    var w := Run(START, es);
    var w1 := Next(w, CleanupBegin);
    StepKeepsInv(w, CleanupBegin);
    NoneCleanedYet(w, n);
    hide Next, Enabled;
    CleanupRun(w1, cs);
    GivenOnce(Run(w1, cs), n);
  }

  lemma GivenOnce(w: World, n: nat)
    requires Inv(w)
    ensures Bag(w.client.given, GivenNo)[n] <= 1
  {
    hide Bag, Truth, SubmitsAnswered, UnlinksAnswered, SentOnce, CancelsAnswered, Connected;
    assert multiset(w.h.submitted.Keys)[n] <= 1;
  }

  /** Before the cleanup begins nothing was given back by it. */
  lemma NoneCleanedYet(w: World, n: nat)
    requires w.phase.Closed? && Inv(w)
    ensures !CleanedUp(w.client.given, n)
  {
    hide Counts;
  }

  // ------------------------------------------------- what cleanup leaves behind

  /** URB n is pending, its unlink was accepted, and no request in unlink_rx
      can give it back. */
  ghost predicate Abandoned(c: Client, n: nat) {
    PendingUrb(c, n) && n in c.marked && !(Named(c.unlinkRx, n) && n in Bag(c.privRx, PrivNo))
  }

  lemma AbandonedStep(w: World, e: Event, n: nat)
    requires CleaningUp(w) && Enabled(w, e)
    requires Inv(w) && Abandoned(w.client, n)
    ensures Abandoned(Next(w, e).client, n)
  {
    hide Inv, Bag, Named, CleanedUp, First;
    StagedInv(w);
    match e {
      case Enqueue(request) =>
        BagPush(w.client.privTx, Priv(w.client.seqnum + 1, request), PrivNo);
      case Dequeue(m) => AbandonedDequeue(w, m, n);
      case CleanupTurn => AbandonedTurn(w, n);
      case _ =>
    }
  }

  lemma AbandonedDequeue(w: World, m: nat, n: nat)
    requires !w.client.socket && Abandoned(w.client, n)
    ensures Abandoned(UrbDequeue(w.client, m), n)
  {
    hide Bag, Named, First;
    var c := w.client;
    if Waiting(c.privTx, m) {
      BagWithout(c.privTx, PrivAt(c.privTx, m), PrivNo);
    } else if Waiting(c.privRx, m) {
      BagWithout(c.privRx, PrivAt(c.privRx, m), PrivNo);
    }
  }

  lemma AbandonedTurn(w: World, n: nat)
    requires w.client.unlinkRx != [] && Abandoned(w.client, n)
    ensures Abandoned(CleanupOne(w.client), n)
  {
    hide Bag, First;
    var c := w.client;
    var t := c.unlinkRx[0].target;
    NotWaiting(c.privRx, t);
    if Waiting(c.privRx, t) {
      BagWithout(c.privRx, PrivAt(c.privRx, t), PrivNo);
    }
    TurnCleans(w);
    if n == t {
      assert Named(c.unlinkRx, n);
    }
  }

  lemma {:induction false} AbandonedRun(w: World, es: seq<Event>, n: nat)
    requires CleaningUp(w) && Feasible(w, es)
    requires Inv(w) && Abandoned(w.client, n)
    ensures Inv(Run(w, es)) && Abandoned(Run(w, es).client, n)
    decreases |es|
  {
    hide Inv, Bag, Enabled, Next, CleaningUp, Abandoned;
    if es != [] {
      AbandonedStep(w, es[0], n);
      CleanupStep(w, es[0]);
      StepKeepsInv(w, es[0]);
      AbandonedRun(Next(w, es[0]), es[1..], n);
    }
  }

  /** Pending and given back exclude each other. */
  lemma PendingNotGiven(w: World, n: nat)
    requires Inv(w) && PendingUrb(w.client, n)
    ensures n !in Bag(w.client.given, GivenNo)
  {
    hide Bag, Truth, SubmitsAnswered, UnlinksAnswered, SentOnce, CancelsAnswered, Connected;
    assert multiset(w.h.submitted.Keys)[n] <= 1;
  }

  /** Of the URBs whose unlink was accepted, the cleanup leaves behind exactly
      those it finds no request for in unlink_rx: the entries still in unlink_tx
      are dropped without giving their URBs back. */
  lemma LeftBehindIff(es: seq<Event>, w1: World, cs: seq<Event>, n: nat)
    requires Feasible(START, es) && Enabled(Run(START, es), CleanupBegin)
    requires w1 == Next(Run(START, es), CleanupBegin) && Feasible(w1, cs) && Run(w1, cs).phase.Cleaned?
    requires PendingUrb(Run(START, es).client, n) && n in Run(START, es).client.marked
    ensures var c := Run(START, es).client;
      PendingUrb(Run(w1, cs).client, n) <==> !(Named(c.unlinkRx, n) && n in Bag(c.privRx, PrivNo))
  {
    hide Inv, Bag;
    ReachableInv(es);
    StepKeepsInv(Run(START, es), CleanupBegin);
    hide Next, Enabled;
    var c := Run(START, es).client;
    CleanupRun(w1, cs);
    if Named(c.unlinkRx, n) && n in Bag(c.privRx, PrivNo) {
      CleanedIsGiven(Run(w1, cs), n);
    } else {
      AbandonedRun(w1, cs, n);
    }
  }

  lemma CleanedIsGiven(w: World, n: nat)
    requires Inv(w) && CleanedUp(w.client.given, n)
    ensures !PendingUrb(w.client, n)
  {
    hide Inv, Bag;
    var i :| 0 <= i < |w.client.given| && w.client.given[i] == Given(n, ByCleanup(ENODEV));
    BagHas(w.client.given, i, GivenNo);
    if PendingUrb(w.client, n) {
      PendingNotGiven(w, n);
    }
  }

  /** After the cleanup a pending URB can still go back to its driver exactly
      when its unlink was never accepted before; otherwise it never will. */
  lemma GivenAfterCleanupIff(w: World, n: nat)
    requires w.phase.Cleaned? && CleaningUp(w) && PendingUrb(w.client, n)
    requires Inv(w)
    ensures (exists es :: Feasible(w, es) && n in Bag(Run(w, es).client.given, GivenNo)) <==> n !in w.client.marked
  {
    hide Inv, Bag, First;
    StagedInv(w);
    if n in w.client.marked {
      forall es | Feasible(w, es)
        ensures n !in Bag(Run(w, es).client.given, GivenNo)
      {
        AbandonedRun(w, es, n);
        PendingNotGiven(Run(w, es), n);
      }
    } else {
      DequeueGives(w.client, n);
      DequeueRuns(w, n);
    }
  }

  lemma DequeueRuns(w: World, n: nat)
    ensures Feasible(w, [Dequeue(n)]) && Run(w, [Dequeue(n)]) == DoDequeue(w, n)
  {
    hide DoDequeue;
    var es := [Dequeue(n)];
    assert es[1..] == [];
    assert Run(DoDequeue(w, n), []) == DoDequeue(w, n);
  }

  /** Once the cleanup has begun the lists it empties stay empty. */
  predicate Swept(w: World) {
    w.phase.Cleaning? || w.phase.Cleaned? ==> CleaningUp(w)
  }

  lemma SweptStep(w: World, e: Event)
    requires Swept(w) && Enabled(w, e)
    requires Inv(w)
    ensures Swept(Next(w, e))
  {
    hide Inv;
    if CleaningUp(w) {
      hide Next, Enabled;
      CleanupStep(w, e);
    } else {
      NotYetCleaning(w, e);
    }
  }

  lemma NotYetCleaning(w: World, e: Event)
    requires !w.phase.Cleaning? && !w.phase.Cleaned? && Enabled(w, e)
    ensures Next(w, e).phase.Cleaning? || Next(w, e).phase.Cleaned? ==> CleaningUp(Next(w, e))
  {
    hide Waiting, First, PickupAndGiveBack, RecvCmdUnlink, Complete;
  }

  lemma {:induction false} SweptRun(w: World, es: seq<Event>)
    requires Feasible(w, es) && Swept(w) && Inv(w)
    ensures Swept(Run(w, es))
    decreases |es|
  {
    hide Inv, Next, Enabled, Swept;
    if es != [] {
      SweptStep(w, es[0]);
      StepKeepsInv(w, es[0]);
      SweptRun(Next(w, es[0]), es[1..]);
    }
  }

  /** On every run that ends after the cleanup: a URB still pending can go back to its
      driver on some continuation if and only if its unlink was never accepted. */
  lemma StrandedUnlessNeverUnlinked(es: seq<Event>, n: nat)
    requires Feasible(START, es) && Run(START, es).phase.Cleaned? && PendingUrb(Run(START, es).client, n)
    ensures var w := Run(START, es);
      (exists cs :: Feasible(w, cs) && n in Bag(Run(w, cs).client.given, GivenNo)) <==> n !in w.client.marked
  {
    hide Inv, Bag, Next, Enabled;
    ReachableInv(es);
    StartInv();
    SweptRun(START, es);
    GivenAfterCleanupIff(Run(START, es), n);
  }

  lemma DequeueGives(c: Client, n: nat)
    requires !c.socket && n !in c.marked && PendingUrb(c, n)
    ensures n in Bag(UrbDequeue(c, n).given, GivenNo)
  {
    hide Bag, First;
    NotWaiting(c.privTx, n);
    NotWaiting(c.privRx, n);
    BagPush(c.given, Given(n, ByDequeue), GivenNo);
  }

  /** A URB is unlinked while the connection is up; the connection goes down
      before the request is sent; the cleanup drops the request. The URB stays on
      the client's list for ever. */
  lemma UnsentUnlinkStrandsUrb() returns (es: seq<Event>)
    ensures Feasible(START, es)
    ensures var w := Run(START, es); w.phase.Cleaned? && PendingUrb(w.client, 1) && 1 in w.client.marked
  {
    hide Feasible, Run, Bag;
    es := ReachAtDevice();
    var w;
    es, w := Then(es, AT_DEVICE, Dequeue(1));
    es, w := Then(es, w, StopThreads);
    es, w := Then(es, w, CloseSocket);
    es, w := Then(es, w, CleanupBegin);
    es, w := Then(es, w, CleanupEnd);
    assert w.client.privRx[0] == PRIV;
    BagHas(w.client.privRx, 0, PrivNo);
  }
}
