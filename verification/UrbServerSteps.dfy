/** Events of the server and of the client's shutdown keep the invariant. */
module UrbServerSteps {
  import opened Bags
  import opened UrbProtocol
  import opened UrbInvariants

  // ---------------------------------------------- the server's receive thread

  /** The commands under way without the oldest one. */
  lemma ForwardPopped(w: World)
    requires w.c2s != []
    ensures var rest := w.c2s[1..] + Held(w.tx.hand);
      && Forward(w) == [w.c2s[0]] + rest
      && Bag(Forward(w), CmdSubmitNo) == Bag(rest, CmdSubmitNo) + CmdSubmitNo(w.c2s[0])
      && Bag(Forward(w), CmdUnlinkNo) == Bag(rest, CmdUnlinkNo) + CmdUnlinkNo(w.c2s[0])
  {
    hide Bag;
    var rest := w.c2s[1..] + Held(w.tx.hand);
    assert Forward(w) == [w.c2s[0]] + rest;
    BagAppend([w.c2s[0]], rest, CmdSubmitNo);
    BagAppend([w.c2s[0]], rest, CmdUnlinkNo);
    BagOne(w.c2s[0], CmdSubmitNo);
    BagOne(w.c2s[0], CmdUnlinkNo);
  }

  /** The oldest command leaves the channel and is logged. */
  function Received(w: World): World
    requires w.c2s != []
  {
    w.(c2s := w.c2s[1..], h := w.h.(cmds := w.h.cmds + [w.c2s[0]]))
  }

  lemma ReceivedTruth(w: World)
    requires w.c2s != []
    requires Truth(w)
    ensures Truth(Received(w)) && CmdOk(Received(w).h, w.c2s[0])
  {
    hide InitsOk, DonesOk, StubUnlinksOk, RetsOk, GivensOk;
    var f := Received(w).c2s + Held(w.tx.hand);
    ForwardPopped(w);
    assert CmdOk(w.h, Forward(w)[0]);
    assert forall i :: 0 <= i < |f| ==> f[i] == Forward(w)[i + 1];
    GrowKeepsTruth(w.h, Received(w).h, w.client, w.rx, w.server, f, Backward(w));
  }

  /** A URB received has not completed: it is sent only once. */
  lemma NotYetEnded(w: World)
    requires w.c2s != [] && w.c2s[0].CmdSubmit?
    requires Counts(w)
    ensures w.c2s[0].seqnum !in w.h.ended
  {
    hide Bag, UrbsConserved, SubmitsAnswered, UnlinksAnswered, Connected;
    ForwardPopped(w);
    assert multiset(w.h.submitted.Keys)[w.c2s[0].seqnum] <= 1;
  }

  /** An unlink request not answered yet has cancelled nothing. */
  predicate NotCancelledBy(h: History, u: nat) {
    forall i :: 0 <= i < |h.cancelled| ==> h.cancelled[i].seqnum != u
  }

  lemma NotYetCancelled(w: World)
    requires w.c2s != [] && w.c2s[0].CmdUnlink?
    requires Counts(w)
    ensures NotCancelledBy(w.h, w.c2s[0].seqnum)
  {
    hide Bag, UrbsConserved, SubmitsAnswered, Connected;
    ForwardPopped(w);
    assert multiset(w.h.aim.Keys)[w.c2s[0].seqnum] <= 1;
  }

  lemma StubRxTruth(w: World)
    requires w.c2s != []
    requires Inv(w)
    ensures Truth(DoStubRx(w))
  {
    hide Counts, RetsOk, CmdsOk, ClientTrue;
    ReceivedTruth(w);
    if w.c2s[0].CmdSubmit? {
      NotYetEnded(w);
      SubmitTruth(Received(w), w.c2s[0]);
    } else {
      NotYetCancelled(w);
      UnlinkTruth(Received(w), w.c2s[0]);
    }
  }

  lemma SubmitTruth(w: World, m: Cmd)
    requires Truth(w) && m.CmdSubmit? && CmdOk(w.h, m) && m.seqnum !in w.h.ended
    ensures Truth(w.(server := RecvCmdSubmit(w.server, m.seqnum, m.request)))
  {
    hide RetsOk, CmdsOk, ClientTrue, Numbered;
  }

  /** Renaming: the entry found carries its URB's own number, so its URB is the
      target; an entry already renamed cannot be found. */
  lemma FoundIsTarget(w: World, m: Cmd)
    requires Truth(w) && m.CmdUnlink? && CmdOk(w.h, m)
    ensures var i := First(w.server.privInit, StubPrivKey, m.target);
      i < |w.server.privInit| ==> w.server.privInit[i].urb == m.target && !w.server.privInit[i].unlinking
  {
    hide RetsOk, CmdsOk, ClientTrue, DonesOk, StubUnlinksOk;
    var i := First(w.server.privInit, StubPrivKey, m.target);
    if i < |w.server.privInit| {
      assert InitOk(w.h, w.server.privInit[i]);
    }
  }

  lemma UnlinkTruth(w: World, m: Cmd)
    requires Truth(w) && m.CmdUnlink? && CmdOk(w.h, m) && NotCancelledBy(w.h, m.seqnum)
    ensures Truth(w.(server := RecvCmdUnlink(w.server, m.seqnum, m.target)))
  {
    hide RetsOk, CmdsOk, ClientTrue, Numbered;
    FoundIsTarget(w, m);
  }

  lemma RenameBags(q: seq<StubPriv>, i: nat, u: nat)
    requires i < |q| && !q[i].unlinking
    ensures var q' := q[i := q[i].(unlinking := true, seqnum := u)];
      Bag(q', UrbNo) == Bag(q, UrbNo) && Bag(q', RenamedNo) == Bag(q, RenamedNo) + CmdUnlinkNo(CmdUnlink(u, 0))
  {
    hide Bag;
    var q' := q[i := q[i].(unlinking := true, seqnum := u)];
    assert Without(q', i) == Without(q, i);
    BagWithout(q, i, UrbNo);
    BagWithout(q', i, UrbNo);
    BagWithout(q, i, RenamedNo);
    BagWithout(q', i, RenamedNo);
  }

  lemma StubRxCounts(w: World)
    requires w.c2s != []
    requires Inv(w)
    ensures Counts(DoStubRx(w))
  {
    hide Staged;
    hide Bag, ClientTrue, ServerTrue, CmdsOk, RetsOk, Numbered;
    hide UrbsConserved, UnlinksAwaited, RepliesHeeded, CancelsHeeded, First;
    hide SubmitsAnswered, UnlinksAnswered, CancelsAnswered;
    ForwardPopped(w);
    BagPush(w.h.cmds, w.c2s[0], CmdSubmitNo);
    BagPush(w.h.cmds, w.c2s[0], CmdUnlinkNo);
    StubRxAnswers(w);
  }

  lemma StubRxAnswers(w: World)
    requires w.c2s != []
    requires Inv(w)
    ensures var w' := DoStubRx(w);
      && SubmitsAnswered(w'.server.privInit, w'.server.privTx, Backward(w'), w'.h.cmds, w'.h.rets, w'.h.cancelled)
      && UnlinksAnswered(w'.server.privInit, w'.server.unlinkTx, Backward(w'), w'.h.cmds, w'.h.rets)
      && CancelsAnswered(w'.server.unlinkTx, Backward(w'), w'.h.rets, w'.h.cancelled)
  {
    hide Bag, ClientTrue, RetsOk, Numbered, CmdsOk, ServerTrue;
    hide UrbsConserved, SentOnce, Connected;
    var m := w.c2s[0];
    BagPush(w.h.cmds, m, CmdSubmitNo);
    BagPush(w.h.cmds, m, CmdUnlinkNo);
    if m.CmdSubmit? {
      var p := StubPriv(m.seqnum, m.request, m.seqnum, false, NO_OUTCOME);
      BagPush(w.server.privInit, p, UrbNo);
      BagPush(w.server.privInit, p, RenamedNo);
    } else {
      ReceivedTruth(w);
      FoundIsTarget(Received(w), m);
      var i := First(w.server.privInit, StubPrivKey, m.target);
      if i < |w.server.privInit| {
        RenameBags(w.server.privInit, i, m.seqnum);
      } else {
        BagPush(w.server.unlinkTx, StubUnlink(m.seqnum, 0), StubUnlinkNo);
      }
    }
  }

  // ------------------------------------------------------------- the device

  /** Nothing refers yet to the end of URB p.urb; and when p is being
      cancelled, nothing refers yet to the answer of request p.seqnum. */
  predicate Unmentioned(w: World, i: nat)
    requires i < |w.server.privInit|
  {
    var p := w.server.privInit[i];
    && (forall j :: 0 <= j < |w.server.privInit| && j != i ==> w.server.privInit[j].urb != p.urb)
    && (p.unlinking ==>
          && (forall j :: 0 <= j < |w.server.unlinkTx| ==> w.server.unlinkTx[j].seqnum != p.seqnum)
          && (forall j :: 0 <= j < |Backward(w)| ==> Backward(w)[j].RetSubmit? || Backward(w)[j].seqnum != p.seqnum)
          && (forall j :: 0 <= j < |w.h.rets| ==> w.h.rets[j].RetSubmit? || w.h.rets[j].seqnum != p.seqnum))
  }

  lemma InProgressUnmentioned(w: World, i: nat)
    requires i < |w.server.privInit|
    requires Counts(w)
    ensures Unmentioned(w, i)
  {
    hide Bag, UrbsConserved, Connected, CancelsAnswered;
    var q := w.server.privInit;
    var p := q[i];
    assert multiset(w.h.submitted.Keys)[p.urb] <= 1;
    forall j | 0 <= j < |q| && j != i && q[j].urb == p.urb
      ensures false
    {
      BagTwice(q, if i < j then i else j, if i < j then j else i, UrbNo, p.urb);
    }
    if p.unlinking {
      RequestInProgress(w, i);
    }
  }

  lemma RequestInProgress(w: World, i: nat)
    requires i < |w.server.privInit| && w.server.privInit[i].unlinking
    requires Counts(w)
    ensures var u := w.server.privInit[i].seqnum;
      && (forall j :: 0 <= j < |w.server.unlinkTx| ==> w.server.unlinkTx[j].seqnum != u)
      && (forall j :: 0 <= j < |Backward(w)| ==> Backward(w)[j].RetSubmit? || Backward(w)[j].seqnum != u)
      && (forall j :: 0 <= j < |w.h.rets| ==> w.h.rets[j].RetSubmit? || w.h.rets[j].seqnum != u)
  {
    hide Bag, UrbsConserved, Connected, CancelsAnswered, SubmitsAnswered;
    var u := w.server.privInit[i].seqnum;
    BagHas(w.server.privInit, i, RenamedNo);
    assert multiset(w.h.aim.Keys)[u] <= 1;
    forall j | 0 <= j < |w.server.unlinkTx| ensures w.server.unlinkTx[j].seqnum != u {
      BagHas(w.server.unlinkTx, j, StubUnlinkNo);
    }
    forall j | 0 <= j < |Backward(w)| ensures Backward(w)[j].RetSubmit? || Backward(w)[j].seqnum != u {
      BagHas(Backward(w), j, RetUnlinkNo);
    }
    forall j | 0 <= j < |w.h.rets| ensures w.h.rets[j].RetSubmit? || w.h.rets[j].seqnum != u {
      BagHas(w.h.rets, j, RetUnlinkNo);
    }
  }

  /** History after the end of URB p.urb. */
  function Ended(h: History, p: StubPriv, outcome: Outcome): History {
    h.(ended := h.ended[p.urb := (p.request, outcome)],
       cancelled := if p.unlinking then h.cancelled + [Unlink(p.seqnum, p.urb)] else h.cancelled)
  }

  /** The end of a URB leaves every fact about other ends alone. */
  lemma EndKeepsEnds(h: History, p: StubPriv, outcome: Outcome)
    requires InitOk(h, p)
    ensures forall n, o :: EndOk(h, n, o) ==> EndOk(Ended(h, p, outcome), n, o)
  {
  }

  lemma EndKeepsAnswer(h: History, p: StubPriv, outcome: Outcome, u: nat, status: int)
    requires InitOk(h, p) && AnswerOk(h, u, status) && (p.unlinking ==> u != p.seqnum)
    ensures AnswerOk(Ended(h, p, outcome), u, status)
  {
  }

  lemma EndKeepsGivens(h: History, p: StubPriv, outcome: Outcome, q: seq<Given>)
    requires InitOk(h, p) && GivensOk(h, q)
    requires p.unlinking ==> forall j :: 0 <= j < |h.rets| ==> h.rets[j].RetSubmit? || h.rets[j].seqnum != p.seqnum
    ensures GivensOk(Ended(h, p, outcome), q)
  {
    var h' := Ended(h, p, outcome);
    EndKeepsEnds(h, p, outcome);
    forall i | 0 <= i < |q|
      ensures GivenOk(h', q[i])
    {
      assert GivenOk(h, q[i]);
      if q[i].how.ByRetUnlink? {
        var status := q[i].how.status;
        var u :| AimOk(h, u, q[i].seqnum) && RetOk(h, RetUnlink(u, status)) && RetUnlink(u, status) in h.rets;
        EndKeepsAnswer(h, p, outcome, u, status);
        assert AimOk(h', u, q[i].seqnum) && RetOk(h', RetUnlink(u, status)) && RetUnlink(u, status) in h'.rets;
      }
    }
  }

  lemma EndKeepsClient(h: History, p: StubPriv, outcome: Outcome, c: Client, rx: Receiver)
    requires InitOk(h, p) && ClientTrue(h, c, rx)
    requires p.unlinking ==> forall j :: 0 <= j < |h.rets| ==> h.rets[j].RetSubmit? || h.rets[j].seqnum != p.seqnum
    ensures ClientTrue(Ended(h, p, outcome), c, rx)
  {
    EndKeepsGivens(h, p, outcome, c.given);
    if rx.Answered? {
      EndKeepsAnswer(h, p, outcome, rx.unlink.seqnum, rx.status);
    }
  }

  lemma EndKeepsReplies(h: History, p: StubPriv, outcome: Outcome, q: seq<Ret>)
    requires InitOk(h, p) && RetsOk(h, q)
    requires p.unlinking ==> forall j :: 0 <= j < |q| ==> q[j].RetSubmit? || q[j].seqnum != p.seqnum
    ensures RetsOk(Ended(h, p, outcome), q)
  {
    EndKeepsEnds(h, p, outcome);
    forall i | 0 <= i < |q|
      ensures RetOk(Ended(h, p, outcome), q[i])
    {
      assert RetOk(h, q[i]);
      if q[i].RetUnlink? {
        EndKeepsAnswer(h, p, outcome, q[i].seqnum, q[i].status);
      }
    }
  }

  lemma EndKeepsServer(h: History, s: Server, i: nat, outcome: Outcome)
    requires i < |s.privInit| && ServerTrue(h, s)
    requires forall j :: 0 <= j < |s.privInit| && j != i ==> s.privInit[j].urb != s.privInit[i].urb
    requires s.privInit[i].unlinking ==>
      forall j :: 0 <= j < |s.unlinkTx| ==> s.unlinkTx[j].seqnum != s.privInit[i].seqnum
    ensures ServerTrue(Ended(h, s.privInit[i], outcome), Complete(s, i, outcome))
  {
    var p := s.privInit[i];
    assert InitOk(h, p);
    EndKeepsEnds(h, p, outcome);
    var h' := Ended(h, p, outcome);
    forall j | 0 <= j < |s.unlinkTx|
      ensures AnswerOk(h', s.unlinkTx[j].seqnum, s.unlinkTx[j].status)
    {
      EndKeepsAnswer(h, p, outcome, s.unlinkTx[j].seqnum, s.unlinkTx[j].status);
    }
    var q := Without(s.privInit, i);
    forall j | 0 <= j < |q|
      ensures InitOk(h', q[j])
    {
      assert q[j] == s.privInit[if j < i then j else j + 1];
    }
    if p.unlinking {
      assert h'.cancelled[|h.cancelled|] == Unlink(p.seqnum, p.urb);
      assert AnswerOk(h', p.seqnum, outcome.status);
    }
  }

  lemma DeviceDoneTruth(w: World, i: nat, outcome: Outcome)
    requires i < |w.server.privInit|
    requires Inv(w)
    ensures Truth(DoDeviceDone(w, i, outcome))
  {
    hide Counts;
    hide PrivsOk, UnlinksOk, GivensOk, RetsOk, DonesOk, StubUnlinksOk, Numbered;
    assert Unmentioned(w, i) by { InProgressUnmentionedInv(w, i); }
    var p := w.server.privInit[i];
    assert InitOk(w.h, p);
    EndKeepsClient(w.h, p, outcome, w.client, w.rx);
    EndKeepsServer(w.h, w.server, i, outcome);
    EndKeepsReplies(w.h, p, outcome, Backward(w));
  }

  lemma InProgressUnmentionedInv(w: World, i: nat)
    requires i < |w.server.privInit| && Inv(w)
    ensures Unmentioned(w, i)
  {
    hide Truth;
    InProgressUnmentioned(w, i);
  }

  lemma DeviceDoneAnswers(w: World, i: nat, outcome: Outcome)
    requires i < |w.server.privInit|
    requires Counts(w)
    ensures var w' := DoDeviceDone(w, i, outcome);
      && SubmitsAnswered(w'.server.privInit, w'.server.privTx, Backward(w'), w'.h.cmds, w'.h.rets, w'.h.cancelled)
      && UnlinksAnswered(w'.server.privInit, w'.server.unlinkTx, Backward(w'), w'.h.cmds, w'.h.rets)
      && CancelsAnswered(w'.server.unlinkTx, Backward(w'), w'.h.rets, w'.h.cancelled)
  {
    hide Bag, UrbsConserved, Connected, SentOnce;
    var p := w.server.privInit[i];
    BagWithout(w.server.privInit, i, UrbNo);
    BagWithout(w.server.privInit, i, RenamedNo);
    if p.unlinking {
      BagPush(w.server.unlinkTx, StubUnlink(p.seqnum, outcome.status), StubUnlinkNo);
      BagPush(w.h.cancelled, Unlink(p.seqnum, p.urb), TargetNo);
    } else {
      BagPush(w.server.privTx, p.(outcome := outcome), UrbNo);
    }
  }

  lemma DeviceDoneCounts(w: World, i: nat, outcome: Outcome)
    requires i < |w.server.privInit|
    requires Inv(w)
    ensures Counts(DoDeviceDone(w, i, outcome))
  {
    hide Bag, Truth, CancelsAnswered, UnlinksAnswered;
    hide UrbsConserved, SubmitsSent, UnlinksSent, UnlinksAwaited, RepliesHeeded, CancelsHeeded;
    DeviceDoneAnswers(w, i, outcome);
    BagHas(w.server.privInit, i, UrbNo);
    if w.server.privInit[i].unlinking && w.phase.Up? {
      CancelHeeded(w, i);
    }
  }

  lemma CancelHeeded(w: World, i: nat)
    requires i < |w.server.privInit| && w.server.privInit[i].unlinking
    requires Inv(w) && w.phase.Up?
    ensures var p := w.server.privInit[i];
      CancelsHeeded(w.client.privRx, w.rx, w.h.rets, w.h.cancelled + [Unlink(p.seqnum, p.urb)])
  {
    hide Bag, Truth;
    hide UrbsConserved, SubmitsSent, UnlinksSent, UnlinksAwaited, RepliesHeeded, SubmitsAnswered, CancelsAnswered;
    BagHas(w.server.privInit, i, RenamedNo);
    assert multiset(w.h.aim.Keys)[w.server.privInit[i].seqnum] <= 1;
  }

  // ---------------------------------------------- the server's transmit thread

  lemma StubTakeSubmitTruth(w: World)
    requires Enabled(w, StubTakeSubmitEv)
    requires Truth(w)
    ensures Truth(Next(w, StubTakeSubmitEv))
  {
    hide ClientTrue, CmdsOk, InitsOk, StubUnlinksOk, UnlinksOk, Numbered;
    var p := w.server.privTx[0];
    assert Backward(Next(w, StubTakeSubmitEv)) == Backward(w) + [RetSubmit(p.seqnum, p.outcome)];
    assert EndOk(w.h, p.urb, p.outcome);
  }

  lemma StubTakeSubmitCounts(w: World)
    requires Enabled(w, StubTakeSubmitEv)
    requires Inv(w)
    ensures Counts(Next(w, StubTakeSubmitEv))
  {
    hide Bag, ClientTrue, CmdsOk, InitsOk, StubUnlinksOk, UnlinksOk, Numbered, RetsOk;
    hide UrbsConserved, SentOnce;
    hide SubmitsSent, UnlinksSent, UnlinksAwaited, RepliesHeeded, CancelsHeeded;
    var w' := Next(w, StubTakeSubmitEv);
    var p := w.server.privTx[0];
    var m := RetSubmit(p.seqnum, p.outcome);
    assert p.seqnum == p.urb;
    assert Backward(w') == Backward(w) + [m];
    BagPush(Backward(w), m, RetSubmitNo);
    BagPush(Backward(w), m, RetUnlinkNo);
    BagWithout(w.server.privTx, 0, UrbNo);
    assert Without(w.server.privTx, 0) == w'.server.privTx;
  }

  lemma StubTakeUnlinkTruth(w: World)
    requires Enabled(w, StubTakeUnlinkEv)
    requires Truth(w)
    ensures Truth(Next(w, StubTakeUnlinkEv))
  {
    hide ClientTrue, CmdsOk, InitsOk, DonesOk, UnlinksOk, Numbered;
    var u := w.server.unlinkTx[0];
    assert Backward(Next(w, StubTakeUnlinkEv)) == Backward(w) + [RetUnlink(u.seqnum, u.status)];
    assert AnswerOk(w.h, u.seqnum, u.status);
  }

  lemma StubTakeUnlinkCounts(w: World)
    requires Enabled(w, StubTakeUnlinkEv)
    requires Counts(w)
    ensures Counts(Next(w, StubTakeUnlinkEv))
  {
    hide Bag, UrbsConserved, SentOnce;
    hide SubmitsSent, UnlinksSent, UnlinksAwaited, RepliesHeeded, CancelsHeeded;
    var w' := Next(w, StubTakeUnlinkEv);
    var u := w.server.unlinkTx[0];
    var m := RetUnlink(u.seqnum, u.status);
    assert Backward(w') == Backward(w) + [m];
    BagPush(Backward(w), m, RetSubmitNo);
    BagPush(Backward(w), m, RetUnlinkNo);
    BagWithout(w.server.unlinkTx, 0, StubUnlinkNo);
    assert Without(w.server.unlinkTx, 0) == w'.server.unlinkTx;
  }

  lemma StubQuietKeepsInv(w: World, e: Event)
    requires Enabled(w, e) && (e.StubSend? || e.StubEndSubmits? || e.StubEndUnlinks? || e.StubWake?)
    requires Inv(w)
    ensures Inv(Next(w, e))
  {
    hide Bag, Numbered, ClientTrue, CmdsOk, InitsOk, DonesOk, StubUnlinksOk, UnlinksOk, RetsOk;
    hide UrbsConserved, SubmitsAnswered, UnlinksAnswered, SentOnce, CancelsAnswered;
    hide SubmitsSent, UnlinksSent, UnlinksAwaited, RepliesHeeded, CancelsHeeded;
    assert Backward(Next(w, e)) == Backward(w);
  }

  // --------------------------------------------------- the client's shutdown

  lemma StopKeepsInv(w: World)
    requires Enabled(w, StopThreads)
    requires Inv(w)
    ensures Inv(Next(w, StopThreads))
  {
    hide Bag, Numbered, ClientTrue, ServerTrue, RetsOk;
    hide UrbsConserved, SubmitsAnswered, UnlinksAnswered, CancelsAnswered, Connected;
    var w' := Next(w, StopThreads);
    assert Forward(w) == Forward(w') + Held(w.tx.hand);
    BagAppend(Forward(w'), Held(w.tx.hand), CmdSubmitNo);
    BagAppend(Forward(w'), Held(w.tx.hand), CmdUnlinkNo);
    assert forall i :: 0 <= i < |Forward(w')| ==> Forward(w')[i] == Forward(w)[i];
  }

  lemma CloseKeepsInv(w: World, e: Event)
    requires Enabled(w, e) && (e.CloseSocket? || e.CleanupBegin? || e.CleanupEnd?)
    requires Inv(w)
    ensures Inv(Next(w, e))
  {
    hide Bag, Numbered, PrivsOk, GivensOk, ServerTrue, RetsOk, CmdsOk;
    hide UrbsConserved, SubmitsAnswered, UnlinksAnswered, SentOnce, CancelsAnswered, Connected;
  }

  lemma CleanupTurnTruth(w: World)
    requires w.client.unlinkRx != [] && w.phase.Cleaning?
    requires Truth(w)
    ensures Truth(w.(client := CleanupOne(w.client)))
  {
    hide Numbered, ServerTrue, RetsOk, CmdsOk, PrivsOk, UnlinksOk, GivensOk;
    var g := Given(w.client.unlinkRx[0].target, ByCleanup(ENODEV));
    assert GivenOk(w.h, g);
    GiveBackTruth(w, g);
    UnlinksTail(w.h, w.client.unlinkRx);
  }

  lemma UnlinksTail(h: History, q: seq<Unlink>)
    requires q != [] && UnlinksOk(h, q)
    ensures UnlinksOk(h, q[1..])
  {
  }

  lemma CleanupTurnCounts(w: World)
    requires w.phase.Cleaning? && w.client.unlinkRx != []
    requires Counts(w)
    ensures Counts(w.(client := CleanupOne(w.client)))
  {
    hide Bag, SubmitsAnswered, UnlinksAnswered, SentOnce, CancelsAnswered, Connected, UrbsConserved;
    GiveBackConserves(w, Given(w.client.unlinkRx[0].target, ByCleanup(ENODEV)));
  }
}
