/** Replies never find their URB gone, as long as neither transmit thread lets
    an unlink message overtake the submit message of its target. */
module UrbOrder {
  import opened Bags
  import opened UrbProtocol
  import opened UrbInvariants
  import opened UrbServerSteps
  import opened UrbRuns

  /** A transmit thread takes an unlink message only when the URB it is about is
      not still waiting in that thread's own submit queue. */
  predicate InOrder(w: World, e: Event)
    requires Enabled(w, e)
  {
    && (e.TxTakeUnlink? ==> !Waiting(w.client.privTx, w.client.unlinkTx[0].target))
    && (e.StubTakeUnlinkEv? ==> !TargetQueued(w))
  }

  /** The target of the server's next RET_UNLINK is still in priv_tx. */
  predicate TargetQueued(w: World)
    requires w.server.unlinkTx != []
  {
    var u := w.server.unlinkTx[0].seqnum;
    u in w.h.aim && exists i :: 0 <= i < |w.server.privTx| && w.server.privTx[i].urb == w.h.aim[u]
  }

  ghost predicate Ordered(w: World, es: seq<Event>)
    requires Feasible(w, es)
    decreases |es|
  {
    es != [] ==> InOrder(w, es[0]) && Ordered(Next(w, es[0]), es[1..])
  }

  /** The stricter discipline the comment in stub_tx_loop relies on: an unlink
      message is taken only when the submit queue is empty. */
  ghost predicate SubmitsFirst(w: World, es: seq<Event>)
    requires Feasible(w, es)
    decreases |es|
  {
    es != [] ==>
      && (es[0].TxTakeUnlink? ==> w.client.privTx == [])
      && (es[0].StubTakeUnlinkEv? ==> w.server.privTx == [])
      && SubmitsFirst(Next(w, es[0]), es[1..])
  }

  lemma {:induction false} SubmitsFirstIsOrdered(w: World, es: seq<Event>)
    requires Feasible(w, es) && SubmitsFirst(w, es)
    ensures Ordered(w, es)
    decreases |es|
  {
    if es != [] {
      SubmitsFirstIsOrdered(Next(w, es[0]), es[1..]);
    }
  }

  // ------------------------------------------------------ the order invariant

  /** URB t has been received by the server and is not in progress there. */
  ghost predicate Passed(privTx: seq<Priv>, forward: seq<Cmd>, privInit: seq<StubPriv>, t: nat) {
    t !in Bag(privTx, PrivNo) + Bag(forward, CmdSubmitNo) + Bag(privInit, UrbNo)
  }

  /** No CMD_SUBMIT follows a CMD_UNLINK aimed at its URB. */
  ghost predicate CmdsOrdered(privTx: seq<Priv>, forward: seq<Cmd>) {
    forall j :: 0 <= j < |forward| && forward[j].CmdUnlink? ==>
      forward[j].target !in Bag(privTx, PrivNo) + Bag(forward[j..], CmdSubmitNo)
  }

  /** The answers of unlink requests about to be queued: target passed. */
  ghost predicate AnswersOrdered(
    privTx: seq<Priv>, forward: seq<Cmd>, privInit: seq<StubPriv>, unlinkTx: seq<StubUnlink>, aim: map<nat, nat>)
  {
    forall j :: 0 <= j < |unlinkTx| && unlinkTx[j].seqnum in aim ==>
      Passed(privTx, forward, privInit, aim[unlinkTx[j].seqnum])
  }

  /** No RET_SUBMIT follows a RET_UNLINK whose request was aimed at its URB. */
  ghost predicate RetsOrdered(
    privTx: seq<Priv>, forward: seq<Cmd>, s: Server, backward: seq<Ret>, aim: map<nat, nat>)
  {
    forall j :: 0 <= j < |backward| && backward[j].RetUnlink? && backward[j].seqnum in aim ==>
      (&& Passed(privTx, forward, s.privInit, aim[backward[j].seqnum])
       && aim[backward[j].seqnum] !in Bag(s.privTx, UrbNo) + Bag(backward[j..], RetSubmitNo))
  }

  ghost predicate AnswerOrdered(
    privTx: seq<Priv>, forward: seq<Cmd>, s: Server, backward: seq<Ret>, rx: Receiver)
  {
    rx.Answered? ==>
      && Passed(privTx, forward, s.privInit, rx.unlink.target)
      && rx.unlink.target !in Bag(s.privTx, UrbNo) + Bag(backward, RetSubmitNo)
  }

  /** A URB whose RET_SUBMIT is under way, or may still come, is in priv_rx. */
  ghost predicate StillAwaited(privRx: seq<Priv>, forward: seq<Cmd>, s: Server, backward: seq<Ret>) {
    forall n :: n in Bag(forward, CmdSubmitNo) + Bag(s.privInit, UrbNo) + Bag(s.privTx, UrbNo) + Bag(backward, RetSubmitNo)
      ==> n in Bag(privRx, PrivNo)
  }

  ghost predicate Order(w: World) {
    && CmdsOrdered(w.client.privTx, Forward(w))
    && AnswersOrdered(w.client.privTx, Forward(w), w.server.privInit, w.server.unlinkTx, w.h.aim)
    && RetsOrdered(w.client.privTx, Forward(w), w.server, Backward(w), w.h.aim)
    && AnswerOrdered(w.client.privTx, Forward(w), w.server, Backward(w), w.rx)
    && StillAwaited(w.client.privRx, Forward(w), w.server, Backward(w))
    && !w.tcpError
  }

  // ----------------------------------------------------- client-side events

  lemma EnqueueOrder(w: World, request: Request)
    requires w.phase.Up?
    requires Inv(w) && Order(w)
    ensures Order(DoEnqueue(w, request))
  {
    hide Bag, Counts, ClientTrue, ServerTrue, RetsOk, Staged;
    var n := w.client.seqnum + 1;
    BagPush(w.client.privTx, Priv(n, request), PrivNo);
    forall j | 0 <= j < |Forward(w)| && Forward(w)[j].CmdUnlink?
      ensures Forward(w)[j].target != n
    {
      assert CmdOk(w.h, Forward(w)[j]);
    }
    if w.rx.Answered? {
      assert AimOk(w.h, w.rx.unlink.seqnum, w.rx.unlink.target) by { RxAimed(w); }
    }
  }

  lemma RxAimed(w: World)
    requires Inv(w) && w.rx.Answered?
    ensures AimOk(w.h, w.rx.unlink.seqnum, w.rx.unlink.target)
  {
    hide Bag, Counts, ServerTrue, RetsOk, CmdsOk, Numbered;
  }

  lemma DequeueOrder(w: World, n: nat)
    requires w.phase.Up?
    requires Inv(w) && Order(w)
    ensures Order(DoDequeue(w, n))
  {
    hide Bag, Counts, ClientTrue, Waiting;
    var w' := DoDequeue(w, n);
    assert w.client.socket;
    assert w.client.seqnum + 1 !in w.h.aim;
    AnswersAimed(w);
  }

  /** Whatever the server answers is a request aimed at some URB. */
  lemma AnswersAimed(w: World)
    requires Truth(w)
    ensures forall j :: 0 <= j < |w.server.unlinkTx| ==> w.server.unlinkTx[j].seqnum in w.h.aim
    ensures forall j :: 0 <= j < |Backward(w)| && Backward(w)[j].RetUnlink? ==> Backward(w)[j].seqnum in w.h.aim
  {
    hide ClientTrue, CmdsOk, InitsOk, DonesOk, UnlinksOk, Numbered;
    forall j | 0 <= j < |w.server.unlinkTx|
      ensures w.server.unlinkTx[j].seqnum in w.h.aim
    {
      assert AnswerOk(w.h, w.server.unlinkTx[j].seqnum, w.server.unlinkTx[j].status);
    }
    forall j | 0 <= j < |Backward(w)| && Backward(w)[j].RetUnlink?
      ensures Backward(w)[j].seqnum in w.h.aim
    {
      assert RetOk(w.h, Backward(w)[j]);
    }
  }

  /** What follows position j, after one more entry joined the queue. */
  lemma SuffixPush<T>(q: seq<T>, x: T, j: nat, f: T -> multiset<nat>)
    requires j <= |q|
    ensures Bag((q + [x])[j..], f) == Bag(q[j..], f) + f(x)
  {
    hide Bag;
    assert (q + [x])[j..] == q[j..] + [x];
    BagPush(q[j..], x, f);
  }

  lemma CmdsOrderedPush(privTx: seq<Priv>, forward: seq<Cmd>, m: Cmd)
    requires CmdsOrdered(privTx, forward)
    requires m.CmdSubmit? ==> m.seqnum in Bag(privTx, PrivNo)
    requires m.CmdUnlink? ==> m.target !in Bag(privTx, PrivNo)
    ensures CmdsOrdered(privTx, forward + [m])
  {
    hide Bag;
    var f := forward + [m];
    forall j | 0 <= j < |f| && f[j].CmdUnlink?
      ensures f[j].target !in Bag(privTx, PrivNo) + Bag(f[j..], CmdSubmitNo)
    {
      SuffixPush(forward, m, j, CmdSubmitNo);
      if j < |forward| {
        assert f[j] == forward[j];
      } else {
        assert forward[j..] == [];
        BagOne(m, CmdSubmitNo);
        assert f[j..] == [m];
      }
    }
  }

  lemma CmdsOrderedShrink(privTx: seq<Priv>, privTx': seq<Priv>, forward: seq<Cmd>)
    requires CmdsOrdered(privTx, forward) && Bag(privTx', PrivNo) <= Bag(privTx, PrivNo)
    ensures CmdsOrdered(privTx', forward)
  {
    hide Bag;
  }

  lemma TxTakeSubmitOrder(w: World)
    requires Enabled(w, TxTakeSubmit)
    requires Inv(w) && Order(w)
    ensures Order(Next(w, TxTakeSubmit))
  {
    hide Bag, Truth, Counts, First;
    var w' := Next(w, TxTakeSubmit);
    var p := w.client.privTx[0];
    var m := CmdSubmit(p.seqnum, p.request);
    assert Forward(w') == Forward(w) + [m];
    BagPush(Forward(w), m, CmdSubmitNo);
    BagWithout(w.client.privTx, 0, PrivNo);
    assert Without(w.client.privTx, 0) == w'.client.privTx;
    BagPush(w.client.privRx, p, PrivNo);
    CmdsOrderedPush(w.client.privTx, Forward(w), m);
    CmdsOrderedShrink(w.client.privTx, w'.client.privTx, Forward(w'));
    hide CmdsOrdered;
  }

  lemma TxTakeUnlinkOrder(w: World)
    requires Enabled(w, TxTakeUnlink) && InOrder(w, TxTakeUnlink)
    requires Inv(w) && Order(w)
    ensures Order(Next(w, TxTakeUnlink))
  {
    hide Bag, Truth, Counts, First, TargetQueued;
    var w' := Next(w, TxTakeUnlink);
    var u := w.client.unlinkTx[0];
    var m := CmdUnlink(u.seqnum, u.target);
    assert Forward(w') == Forward(w) + [m];
    BagPush(Forward(w), m, CmdSubmitNo);
    NotWaiting(w.client.privTx, u.target);
    CmdsOrderedPush(w.client.privTx, Forward(w), m);
    hide CmdsOrdered;
  }

  lemma TxQuietOrder(w: World, e: Event)
    requires Enabled(w, e) && (e.TxSend? || e.TxEndSubmits? || e.TxEndUnlinks? || e.TxWake?)
    requires Inv(w) && Order(w)
    ensures Order(Next(w, e))
  {
    hide Bag, Truth, Counts, CmdsOrdered, AnswersOrdered, RetsOrdered, AnswerOrdered, StillAwaited;
    assert w.tx.loop.Asleep? ==> w.tx.hand.None? by { StagedNow(w); }
    assert Forward(Next(w, e)) == Forward(w);
  }

  lemma StagedNow(w: World)
    requires Inv(w)
    ensures Staged(w)
  {
  }

  // --------------------------------------------------------------- replies

  lemma RetsOrderedTail(privTx: seq<Priv>, forward: seq<Cmd>, s: Server, backward: seq<Ret>, aim: map<nat, nat>)
    requires backward != [] && RetsOrdered(privTx, forward, s, backward, aim)
    ensures RetsOrdered(privTx, forward, s, backward[1..], aim)
  {
    hide Bag, Passed;
    var b := backward[1..];
    forall j | 0 <= j < |b| && b[j].RetUnlink? && b[j].seqnum in aim
      ensures Passed(privTx, forward, s.privInit, aim[b[j].seqnum])
      ensures aim[b[j].seqnum] !in Bag(s.privTx, UrbNo) + Bag(b[j..], RetSubmitNo)
    {
      assert b[j] == backward[j + 1] && b[j..] == backward[j + 1..];
    }
  }

  lemma RxSubmitOrder(w: World)
    requires w.phase.Up? && w.rx.Idle? && w.s2c != [] && w.s2c[0].RetSubmit?
    requires Inv(w) && Order(w)
    ensures Order(DoRxReply(w))
  {
    hide Bag, Truth, First, CmdsOrdered, AnswersOrdered, UrbsConserved, UnlinksAnswered, CancelsAnswered, Connected;
    var w' := DoRxReply(w);
    var n := w.s2c[0].seqnum;
    BackwardPopped(w);
    assert Backward(w') == Backward(w)[1..];
    RetsOrderedTail(w.client.privTx, Forward(w), w.server, Backward(w), w.h.aim);
    hide RetsOrdered;
    NotWaiting(w.client.privRx, n);
    BagWithout(w.client.privRx, PrivAt(w.client.privRx, n), PrivNo);
    OnceUnderWay(w, n);
    forall k | k in Bag(Forward(w'), CmdSubmitNo) + Bag(w'.server.privInit, UrbNo) + Bag(w'.server.privTx, UrbNo)
                  + Bag(Backward(w'), RetSubmitNo)
      ensures k in Bag(w'.client.privRx, PrivNo)
    {
      assert k != n;
      assert k in Bag(w.client.privRx, PrivNo);
      assert w'.client.privRx == Without(w.client.privRx, PrivAt(w.client.privRx, n));
    }
  }

  /** How often URB n counts on its way to the server and back. */
  ghost function UnderWay(w: World, n: nat): nat {
    Bag(Forward(w), CmdSubmitNo)[n] + Bag(w.server.privInit, UrbNo)[n] + Bag(w.server.privTx, UrbNo)[n]
    + Bag(Backward(w), RetSubmitNo)[n] + Bag(w.h.rets, RetSubmitNo)[n] + Bag(w.h.cancelled, TargetNo)[n]
  }

  /** A URB is at one stage of its way. */
  lemma OnceUnderWay(w: World, n: nat)
    requires Inv(w)
    ensures UnderWay(w, n) <= 1
    ensures w.phase.Up? ==> Bag(w.client.privTx, PrivNo)[n] + UnderWay(w, n) <= 1
  {
    hide Bag, Truth, UrbsConserved, UnlinksAnswered, CancelsAnswered;
    assert multiset(w.h.submitted.Keys)[n] <= 1;
  }

  lemma RxUnlinkOrder(w: World)
    requires w.phase.Up? && w.rx.Idle? && w.s2c != [] && w.s2c[0].RetUnlink?
    requires Inv(w) && Order(w)
    ensures Order(DoRxReply(w))
  {
    hide Bag, Truth, First, CmdsOrdered, AnswersOrdered, Passed, Counts;
    var w' := DoRxReply(w);
    var u := w.s2c[0].seqnum;
    BackwardPopped(w);
    assert Backward(w') == Backward(w)[1..];
    RetsOrderedTail(w.client.privTx, Forward(w), w.server, Backward(w), w.h.aim);
    RxUnlinkFound(w);
    assert Backward(w)[0] == w.s2c[0] && Backward(w)[0..] == Backward(w);
  }

  /** The request found in unlink_rx is the one answered, with its own target. */
  lemma RxUnlinkFound(w: World)
    requires w.phase.Up? && w.rx.Idle? && w.s2c != [] && w.s2c[0].RetUnlink?
    requires Inv(w)
    ensures var w' := DoRxReply(w);
      w'.rx.Answered? && AimOk(w.h, w.s2c[0].seqnum, w'.rx.unlink.target)
  {
    hide Bag, Numbered, CmdsOk, ServerTrue, RetsOk, PrivsOk, GivensOk;
    RetUnlinkFindsRequest(w);
    var i := First(w.client.unlinkRx, UnlinkKey, w.s2c[0].seqnum);
    assert AimOk(w.h, w.client.unlinkRx[i].seqnum, w.client.unlinkRx[i].target);
  }

  lemma RxPickupOrder(w: World)
    requires w.phase.Up? && w.rx.Answered?
    requires Inv(w) && Order(w)
    ensures Order(DoRxPickup(w))
  {
    hide Bag, Truth, Counts, First, CmdsOrdered, AnswersOrdered, RetsOrdered;
    var n := w.rx.unlink.target;
    if Waiting(w.client.privRx, n) {
      BagWithout(w.client.privRx, PrivAt(w.client.privRx, n), PrivNo);
    }
  }

  // ------------------------------------------------------------- the server

  lemma CmdsOrderedTail(privTx: seq<Priv>, forward: seq<Cmd>)
    requires forward != [] && CmdsOrdered(privTx, forward)
    ensures CmdsOrdered(privTx, forward[1..])
  {
    hide Bag;
    var f := forward[1..];
    forall j | 0 <= j < |f| && f[j].CmdUnlink?
      ensures f[j].target !in Bag(privTx, PrivNo) + Bag(f[j..], CmdSubmitNo)
    {
      assert f[j] == forward[j + 1] && f[j..] == forward[j + 1..];
    }
  }

  lemma StubRxSubmitOrder(w: World)
    requires w.phase.Up? && w.c2s != [] && w.c2s[0].CmdSubmit?
    requires Inv(w) && Order(w)
    ensures Order(DoStubRx(w))
  {
    hide Bag, Truth, Counts;
    var w' := DoStubRx(w);
    var m := w.c2s[0];
    ForwardPopped(w);
    assert Forward(w') == Forward(w)[1..];
    CmdsOrderedTail(w.client.privTx, Forward(w));
    hide CmdsOrdered;
    BagPush(w.server.privInit, StubPriv(m.seqnum, m.request, m.seqnum, false, NO_OUTCOME), UrbNo);
  }

  lemma StubRxUnlinkOrder(w: World)
    requires w.phase.Up? && w.c2s != [] && w.c2s[0].CmdUnlink?
    requires Inv(w) && Order(w)
    ensures Order(DoStubRx(w))
  {
    hide Bag, Truth, Counts;
    var w' := DoStubRx(w);
    var m := w.c2s[0];
    ForwardPopped(w);
    assert Forward(w') == Forward(w)[1..];
    CmdsOrderedTail(w.client.privTx, Forward(w));
    assert Forward(w)[0] == m && Forward(w)[0..] == Forward(w);
    assert m.target !in Bag(w.client.privTx, PrivNo) + Bag(Forward(w'), CmdSubmitNo);
    hide CmdsOrdered;
    var i := First(w.server.privInit, StubPrivKey, m.target);
    UnlinkFinds(w);
    if i < |w.server.privInit| {
      RenameBags(w.server.privInit, i, m.seqnum);
    }
  }

  /** The search of stub_recv_cmd_unlink finds the target whenever the target
      is in priv_init at all. */
  lemma UnlinkFinds(w: World)
    requires w.phase.Up? && w.c2s != [] && w.c2s[0].CmdUnlink?
    requires Inv(w)
    ensures var m := w.c2s[0]; var q := w.server.privInit; var i := First(q, StubPrivKey, m.target);
      && AimOk(w.h, m.seqnum, m.target)
      && (if i < |q| then !q[i].unlinking && q[i].urb == m.target else m.target !in Bag(q, UrbNo))
  {
    hide Bag, Counts, ClientTrue, RetsOk, DonesOk, StubUnlinksOk;
    var m := w.c2s[0];
    var q := w.server.privInit;
    assert Forward(w)[0] == m;
    assert CmdOk(w.h, m);
    FoundIsTarget(w, m);
    if m.target in Bag(q, UrbNo) {
      var k := BagFrom(q, UrbNo, m.target);
      assert InitOk(w.h, q[k]);
      if q[k].unlinking {
        SentAndRenaming(w, k);
      }
      FirstExists(q, StubPrivKey, k);
    }
  }

  /** A request still on its way is renaming nothing. */
  lemma SentAndRenaming(w: World, k: nat)
    requires k < |w.server.privInit| && w.server.privInit[k].unlinking
    requires w.c2s != [] && w.c2s[0].CmdUnlink?
    requires Inv(w)
    ensures w.server.privInit[k].seqnum != w.c2s[0].seqnum
  {
    hide Bag, Truth, UrbsConserved, SubmitsAnswered, CancelsAnswered, Connected;
    BagHas(w.server.privInit, k, RenamedNo);
    ForwardPopped(w);
    assert multiset(w.h.aim.Keys)[w.c2s[0].seqnum] <= 1;
  }

  lemma DeviceDoneOrder(w: World, i: nat, outcome: Outcome)
    requires w.phase.Up? && i < |w.server.privInit|
    requires Inv(w) && Order(w)
    ensures Order(DoDeviceDone(w, i, outcome))
  {
    hide Bag, Truth, Counts, CmdsOrdered;
    var w' := DoDeviceDone(w, i, outcome);
    var p := w.server.privInit[i];
    BagWithout(w.server.privInit, i, UrbNo);
    OnceUnderWay(w, p.urb);
    if p.unlinking {
      assert AimOk(w.h, p.seqnum, p.urb) by { RenamedAim(w, i); }
    } else {
      BagPush(w.server.privTx, p.(outcome := outcome), UrbNo);
    }
  }

  lemma RenamedAim(w: World, i: nat)
    requires i < |w.server.privInit| && w.server.privInit[i].unlinking
    requires Inv(w)
    ensures AimOk(w.h, w.server.privInit[i].seqnum, w.server.privInit[i].urb)
  {
    hide Bag, Counts, ClientTrue, RetsOk, CmdsOk, DonesOk, StubUnlinksOk;
    assert InitOk(w.h, w.server.privInit[i]);
  }

  lemma RetsOrderedPush(
    privTx: seq<Priv>, forward: seq<Cmd>, s: Server, backward: seq<Ret>, aim: map<nat, nat>, s': Server, m: Ret)
    requires RetsOrdered(privTx, forward, s, backward, aim)
    requires s'.privInit == s.privInit
    requires if m.RetSubmit? then Bag(s.privTx, UrbNo) == Bag(s'.privTx, UrbNo) + RetSubmitNo(m)
             else s'.privTx == s.privTx && m.seqnum in aim && Passed(privTx, forward, s.privInit, aim[m.seqnum])
                  && aim[m.seqnum] !in Bag(s.privTx, UrbNo)
    ensures RetsOrdered(privTx, forward, s', backward + [m], aim)
  {
    hide Bag, Passed;
    var b := backward + [m];
    forall j | 0 <= j < |b| && b[j].RetUnlink? && b[j].seqnum in aim
      ensures Passed(privTx, forward, s'.privInit, aim[b[j].seqnum])
      ensures aim[b[j].seqnum] !in Bag(s'.privTx, UrbNo) + Bag(b[j..], RetSubmitNo)
    {
      SuffixPush(backward, m, j, RetSubmitNo);
      if j < |backward| {
        assert b[j] == backward[j];
      } else {
        BagOne(m, RetSubmitNo);
        assert b[j..] == [m];
      }
    }
  }

  lemma StubTakeSubmitOrder(w: World)
    requires w.phase.Up? && Enabled(w, StubTakeSubmitEv)
    requires Inv(w) && Order(w)
    ensures Order(Next(w, StubTakeSubmitEv))
  {
    hide Bag, Truth, Counts, CmdsOrdered, AnswersOrdered;
    var w' := Next(w, StubTakeSubmitEv);
    var p := w.server.privTx[0];
    var m := RetSubmit(p.seqnum, p.outcome);
    assert p.seqnum == p.urb by { DoneNumber(w); }
    assert Backward(w') == Backward(w) + [m];
    BagPush(Backward(w), m, RetSubmitNo);
    BagWithout(w.server.privTx, 0, UrbNo);
    assert Without(w.server.privTx, 0) == w'.server.privTx;
    RetsOrderedPush(w.client.privTx, Forward(w), w.server, Backward(w), w.h.aim, w'.server, m);
    hide RetsOrdered;
  }

  lemma DoneNumber(w: World)
    requires Inv(w) && w.server.privTx != []
    ensures w.server.privTx[0].seqnum == w.server.privTx[0].urb
  {
    hide Bag, Counts, ClientTrue, RetsOk, CmdsOk, InitsOk, StubUnlinksOk;
  }

  lemma TargetQueuedMeans(w: World)
    requires w.server.unlinkTx != [] && w.server.unlinkTx[0].seqnum in w.h.aim
    ensures TargetQueued(w) <==> w.h.aim[w.server.unlinkTx[0].seqnum] in Bag(w.server.privTx, UrbNo)
  {
    hide Bag;
    var q := w.server.privTx;
    var t := w.h.aim[w.server.unlinkTx[0].seqnum];
    if t in Bag(q, UrbNo) {
      var k := BagFrom(q, UrbNo, t);
    }
    if TargetQueued(w) {
      var k :| 0 <= k < |q| && q[k].urb == t;
      BagHas(q, k, UrbNo);
    }
  }

  lemma StubTakeUnlinkOrder(w: World)
    requires w.phase.Up? && Enabled(w, StubTakeUnlinkEv) && InOrder(w, StubTakeUnlinkEv)
    requires Inv(w) && Order(w)
    ensures Order(Next(w, StubTakeUnlinkEv))
  {
    hide Bag, Truth, Counts, CmdsOrdered, Passed;
    var w' := Next(w, StubTakeUnlinkEv);
    var u := w.server.unlinkTx[0];
    var m := RetUnlink(u.seqnum, u.status);
    assert u.seqnum in w.h.aim by { AnswersAimedInv(w); }
    TargetQueuedMeans(w);
    hide TargetQueued;
    assert Backward(w') == Backward(w) + [m];
    BagPush(Backward(w), m, RetSubmitNo);
    RetsOrderedPush(w.client.privTx, Forward(w), w.server, Backward(w), w.h.aim, w'.server, m);
    hide RetsOrdered;
  }

  lemma AnswersAimedInv(w: World)
    requires Inv(w)
    ensures forall j :: 0 <= j < |w.server.unlinkTx| ==> w.server.unlinkTx[j].seqnum in w.h.aim
  {
    hide Counts;
    AnswersAimed(w);
  }

  lemma StubQuietOrder(w: World, e: Event)
    requires Enabled(w, e) && (e.StubSend? || e.StubEndSubmits? || e.StubEndUnlinks? || e.StubWake?)
    requires Inv(w) && Order(w)
    ensures Order(Next(w, e))
  {
    hide Bag, Truth, Counts, CmdsOrdered, AnswersOrdered, Passed;
    StagedNow(w);
    assert Backward(Next(w, e)) == Backward(w);
  }

  // ------------------------------------------------------------- whole runs

  /** While connected the order invariant holds; no TCP error was raised. */
  ghost predicate Sound(w: World) {
    !w.tcpError && (w.phase.Up? ==> Order(w))
  }

  lemma OrderStep(w: World, e: Event)
    requires Enabled(w, e) && InOrder(w, e)
    requires Inv(w) && w.phase.Up? && Order(w)
    ensures Sound(Next(w, e))
  {
    hide Inv, Order, InOrder;
    assert !w.tcpError by { NoError(w); }
    match e {
      case Enqueue(request) => EnqueueOrder(w, request);
      case Dequeue(n) => DequeueOrder(w, n);
      case TxTakeSubmit => TxTakeSubmitOrder(w);
      case TxTakeUnlink => TxTakeUnlinkOrder(w);
      case TxSend => TxQuietOrder(w, e);
      case TxEndSubmits => TxQuietOrder(w, e);
      case TxEndUnlinks => TxQuietOrder(w, e);
      case TxWake => TxQuietOrder(w, e);
      case RxReply => if w.s2c[0].RetSubmit? { RxSubmitOrder(w); } else { RxUnlinkOrder(w); }
        NoError(DoRxReply(w));
      case RxPickup => RxPickupOrder(w);
      case StubRx => if w.c2s[0].CmdSubmit? { StubRxSubmitOrder(w); } else { StubRxUnlinkOrder(w); }
      case DeviceDone(i, outcome) => DeviceDoneOrder(w, i, outcome);
      case StubTakeSubmitEv => StubTakeSubmitOrder(w);
      case StubTakeUnlinkEv => StubTakeUnlinkOrder(w);
      case StubSend => StubQuietOrder(w, e);
      case StubEndSubmits => StubQuietOrder(w, e);
      case StubEndUnlinks => StubQuietOrder(w, e);
      case StubWake => StubQuietOrder(w, e);
      case StopThreads =>
      case CloseSocket =>
      case CleanupBegin =>
      case CleanupTurn =>
      case CleanupEnd =>
    }
  }

  lemma NoError(w: World)
    requires Order(w)
    ensures !w.tcpError
  {
  }

  lemma SoundStep(w: World, e: Event)
    requires Enabled(w, e) && InOrder(w, e)
    requires Inv(w) && Sound(w)
    ensures Sound(Next(w, e))
  {
    hide Inv, Order, InOrder;
    if w.phase.Up? {
      OrderStep(w, e);
    }
  }

  lemma {:induction false} SoundRun(w: World, es: seq<Event>)
    requires Feasible(w, es) && Ordered(w, es)
    requires Inv(w) && Sound(w)
    ensures Inv(Run(w, es)) && Sound(Run(w, es))
    decreases |es|
  {
    hide Inv, Sound, Next, Enabled, InOrder;
    if es != [] {
      SoundStep(w, es[0]);
      StepKeepsInv(w, es[0]);
      SoundRun(Next(w, es[0]), es[1..]);
    }
  }

  lemma StartSound()
    ensures Inv(START) && Sound(START)
  {
    StartInv();
    hide Inv;
    assert Forward(START) == [] && Backward(START) == [];
  }

  /** On every run in which no unlink message overtakes the submit message of
      its target, the TCP error branch is never taken, and whenever a RET_SUBMIT
      is about to be received its URB is waiting in priv_rx. */
  lemma ReplyFindsItsUrb(es: seq<Event>)
    requires Feasible(START, es) && Ordered(START, es)
    ensures var w := Run(START, es);
      && !w.tcpError
      && (w.phase.Up? && w.s2c != [] && w.s2c[0].RetSubmit? ==> Waiting(w.client.privRx, w.s2c[0].seqnum))
  {
    hide Inv, Next, Enabled, InOrder, Bag, Waiting, Order, CmdsOrdered, AnswersOrdered, RetsOrdered;
    StartSound();
    SoundRun(START, es);
    var w := Run(START, es);
    if w.phase.Up? && w.s2c != [] && w.s2c[0].RetSubmit? {
      AwaitedHead(w);
    }
  }

  lemma AwaitedHead(w: World)
    requires w.s2c != [] && w.s2c[0].RetSubmit?
    requires Order(w)
    ensures Waiting(w.client.privRx, w.s2c[0].seqnum)
  {
    hide Bag, CmdsOrdered, AnswersOrdered, RetsOrdered;
    BackwardPopped(w);
    NotWaiting(w.client.privRx, w.s2c[0].seqnum);
  }

  /** The corollary for threads that take an unlink message only when their
      submit queue is empty. */
  lemma SubmitsFirstReplyFindsItsUrb(es: seq<Event>)
    requires Feasible(START, es) && SubmitsFirst(START, es)
    ensures !Run(START, es).tcpError
  {
    hide Next, Enabled;
    SubmitsFirstIsOrdered(START, es);
    ReplyFindsItsUrb(es);
  }
}
