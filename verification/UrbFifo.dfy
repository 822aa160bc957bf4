/** First in, first out: on every run the URBs reach the server in the order in which
    the drivers enqueued them, unlink requests in the order in which they were accepted,
    and the server's replies leave in the order in which they came about. */
module UrbFifo {
  import opened Bags
  import opened UrbProtocol
  import opened UrbInvariants
  import opened UrbRuns

  // ------------------------------------------------------------ what a queue holds

  /** Of each entry of a queue what f makes of it, in the order of the queue. */
  ghost function Picked<T, U>(q: seq<T>, f: T -> seq<U>): seq<U> {
    if q == [] then [] else f(q[0]) + Picked(q[1..], f)
  }

  lemma {:induction false} PickedAppend<T, U>(a: seq<T>, b: seq<T>, f: T -> seq<U>)
    ensures Picked(a + b, f) == Picked(a, f) + Picked(b, f)
  {
    if a == [] {
      assert a + b == b;
    } else {
      assert (a + b)[1..] == a[1..] + b;
      PickedAppend(a[1..], b, f);
    }
  }

  lemma PickedPush<T, U>(a: seq<T>, x: T, f: T -> seq<U>)
    ensures Picked(a + [x], f) == Picked(a, f) + f(x)
  {
    PickedAppend(a, [x], f);
    assert [x][1..] == [];
  }

  lemma PickedPop<T, U>(x: T, a: seq<T>, f: T -> seq<U>)
    ensures Picked([x] + a, f) == f(x) + Picked(a, f)
  {
    assert ([x] + a)[1..] == a;
  }

  function SubmitOf(m: Cmd): seq<Priv> { if m.CmdSubmit? then [Priv(m.seqnum, m.request)] else [] }
  function UnlinkOf(m: Cmd): seq<Unlink> { if m.CmdUnlink? then [Unlink(m.seqnum, m.target)] else [] }
  function RequestOf(p: Priv): seq<Request> { [p.request] }
  function TargetOf(u: Unlink): seq<nat> { [u.target] }

  /** A completed URB with what the device made of it. */
  datatype Result = Result(urb: nat, outcome: Outcome)

  function ResultOf(m: Ret): seq<Result> { if m.RetSubmit? then [Result(m.seqnum, m.outcome)] else [] }
  function AnswerOf(m: Ret): seq<StubUnlink> { if m.RetUnlink? then [StubUnlink(m.seqnum, m.status)] else [] }
  function DoneOf(p: StubPriv): seq<Result> { [Result(p.urb, p.outcome)] }

  // ------------------------------------------------------------ what a run asks for

  function EnqueuedBy(e: Event): seq<Request> { if e.Enqueue? then [e.request] else [] }

  /** The requests of a run's drivers, in order. */
  ghost function Enqueued(es: seq<Event>): seq<Request> { Picked(es, EnqueuedBy) }

  /** A dequeue that the USB core and the driver accept while connected. */
  function AcceptedBy(w: World, e: Event): seq<nat> {
    if e.Dequeue? && (Waiting(w.client.privTx, e.urb) || Waiting(w.client.privRx, e.urb))
       && e.urb !in w.client.marked && w.client.socket
    then [e.urb] else []
  }

  /** The URB completes with a result of its own. */
  function CompletedBy(w: World, e: Event): seq<Result> {
    if e.DeviceDone? && e.index < |w.server.privInit| && !w.server.privInit[e.index].unlinking
    then [Result(w.server.privInit[e.index].urb, e.outcome)] else []
  }

  /** An unlink request is answered: by the completion of the URB it cancelled, or at
      once when there is none. */
  function AnsweredBy(w: World, e: Event): seq<StubUnlink> {
    if e.DeviceDone? && e.index < |w.server.privInit| && w.server.privInit[e.index].unlinking then
      [StubUnlink(w.server.privInit[e.index].seqnum, e.outcome.status)]
    else if e.StubRx? && w.c2s != [] && w.c2s[0].CmdUnlink?
            && (forall p :: p in w.server.privInit ==> p.seqnum != w.c2s[0].target) then
      [StubUnlink(w.c2s[0].seqnum, 0)]
    else []
  }

  /** What the steps of a run add, in order. */
  ghost function Along<U>(w: World, es: seq<Event>, f: (World, Event) -> seq<U>): seq<U>
    requires Feasible(w, es)
    decreases |es|
  {
    if es == [] then [] else f(w, es[0]) + Along(Next(w, es[0]), es[1..], f)
  }

  // ------------------------------------------------------------ lines

  /** Every URB sent, then every URB still to be sent. */
  ghost function SubmitLine(w: World): seq<Priv> {
    Picked(w.h.cmds + Forward(w), SubmitOf) + w.client.privTx
  }

  ghost function UnlinkLine(w: World): seq<Unlink> {
    Picked(w.h.cmds + Forward(w), UnlinkOf) + w.client.unlinkTx
  }

  ghost function ResultLine(w: World): seq<Result> {
    Picked(w.h.rets + Backward(w), ResultOf) + Picked(w.server.privTx, DoneOf)
  }

  ghost function AnswerLine(w: World): seq<StubUnlink> {
    Picked(w.h.rets + Backward(w), AnswerOf) + w.server.unlinkTx
  }

  /** A command moves on, from the hand to the channel or from there to the server. */
  lemma CommandSent(w: World)
    requires Enabled(w, TxSend)
    ensures var w' := Next(w, TxSend); w'.h.cmds + Forward(w') == w.h.cmds + Forward(w) && w'.client == w.client
  {
    assert w.c2s + [w.tx.hand.value] + [] == w.c2s + [w.tx.hand.value];
  }

  lemma CommandReceived(w: World)
    requires w.c2s != []
    ensures var w' := DoStubRx(w); w'.h.cmds + Forward(w') == w.h.cmds + Forward(w) && w'.client == w.client
  {
    hide RecvCmdUnlink, RecvCmdSubmit;
    var f := Held(w.tx.hand);
    assert w.c2s + f == [w.c2s[0]] + (w.c2s[1..] + f);
    assert w.h.cmds + ([w.c2s[0]] + (w.c2s[1..] + f)) == (w.h.cmds + [w.c2s[0]]) + (w.c2s[1..] + f);
  }

  /** A command is taken into the hand. */
  lemma CommandTaken(w: World, m: Cmd)
    requires w.tx.hand.None?
    ensures var taken := w.h.cmds + (w.c2s + [m]);
      && Picked(taken, SubmitOf) == Picked(w.h.cmds + Forward(w), SubmitOf) + SubmitOf(m)
      && Picked(taken, UnlinkOf) == Picked(w.h.cmds + Forward(w), UnlinkOf) + UnlinkOf(m)
  {
    hide Picked;
    assert w.h.cmds + (w.c2s + [m]) == (w.h.cmds + Forward(w)) + [m];
    PickedPush(w.h.cmds + Forward(w), m, SubmitOf);
    PickedPush(w.h.cmds + Forward(w), m, UnlinkOf);
  }

  lemma RepliesReceived(w: World)
    requires w.s2c != []
    ensures var w' := DoRxReply(w);
      && w'.h.rets + Backward(w') == w.h.rets + Backward(w) && w'.server == w.server
      && w'.client.privTx == w.client.privTx && w'.client.unlinkTx == w.client.unlinkTx
      && w'.h.cmds == w.h.cmds && Forward(w') == Forward(w)
  {
    hide First, Waiting;
    var f := Held(w.stx.hand);
    assert w.s2c + f == [w.s2c[0]] + (w.s2c[1..] + f);
    assert w.h.rets + ([w.s2c[0]] + (w.s2c[1..] + f)) == (w.h.rets + [w.s2c[0]]) + (w.s2c[1..] + f);
  }

  lemma PickupLeavesQueues(w: World)
    requires w.rx.Answered?
    ensures var w' := DoRxPickup(w);
      w' == w.(rx := Idle, client := w.client.(privRx := w'.client.privRx, given := w'.client.given))
  {
    hide First;
  }

  // ------------------------------------------------------------ the client's lines

  /** What a step of a connected client adds: the request it enqueues; the target of the
      unlink it accepts. */
  lemma EnqueueLines(w: World, request: Request)
    ensures var w' := DoEnqueue(w, request);
      && SubmitLine(w') == SubmitLine(w) + [Priv(w.client.seqnum + 1, request)] && UnlinkLine(w') == UnlinkLine(w)
  {
    hide Picked;
  }

  lemma DequeueLines(w: World, n: nat)
    requires w.client.socket
    ensures var w', add := DoDequeue(w, n), AcceptedBy(w, Dequeue(n));
      && SubmitLine(w') == SubmitLine(w)
      && UnlinkLine(w') == UnlinkLine(w) + if add == [] then [] else [Unlink(w.client.seqnum + 1, n)]
  {
    hide Picked, Waiting, First;
  }

  lemma TakeSubmitLines(w: World)
    requires Enabled(w, TxTakeSubmit)
    ensures var w' := Next(w, TxTakeSubmit); SubmitLine(w') == SubmitLine(w) && UnlinkLine(w') == UnlinkLine(w)
  {
    hide Picked;
    var p := w.client.privTx[0];
    CommandTaken(w, CmdSubmit(p.seqnum, p.request));
    assert w.client.privTx == [p] + w.client.privTx[1..];
  }

  lemma TakeUnlinkLines(w: World)
    requires Enabled(w, TxTakeUnlink)
    ensures var w' := Next(w, TxTakeUnlink); SubmitLine(w') == SubmitLine(w) && UnlinkLine(w') == UnlinkLine(w)
  {
    hide Picked;
    var u := w.client.unlinkTx[0];
    CommandTaken(w, CmdUnlink(u.seqnum, u.target));
    assert w.client.unlinkTx == [u] + w.client.unlinkTx[1..];
  }

  /** Events of a connected client and of the server that touch no queue of the client's
      before its commands are sent. */
  lemma OthersLines(w: World, e: Event)
    requires Enabled(w, e) && Next(w, e).phase.Up?
    requires !e.Enqueue? && !e.Dequeue? && !e.TxTakeSubmit? && !e.TxTakeUnlink?
    ensures SubmitLine(Next(w, e)) == SubmitLine(w) && UnlinkLine(Next(w, e)) == UnlinkLine(w)
  {
    hide Picked, First, Waiting, RecvCmdUnlink, Complete, DoRxReply, DoRxPickup, DoStubRx, CleanupOne;
    match e {
      case TxSend => CommandSent(w);
      case StubRx => CommandReceived(w);
      case RxReply => RepliesReceived(w);
      case RxPickup => PickupLeavesQueues(w);
      case _ =>
    }
  }

  /** Each step of a connected client adds to the lines what it asks for. */
  lemma ClientLines(w: World, e: Event)
    requires Enabled(w, e) && Next(w, e).phase.Up? && w.client.socket
    ensures Picked(SubmitLine(Next(w, e)), RequestOf) == Picked(SubmitLine(w), RequestOf) + EnqueuedBy(e)
    ensures Picked(UnlinkLine(Next(w, e)), TargetOf) == Picked(UnlinkLine(w), TargetOf) + AcceptedBy(w, e)
  {
    hide Picked, SubmitLine, UnlinkLine, Waiting, Next;
    match e {
      case Enqueue(request) =>
        assert Next(w, e) == DoEnqueue(w, request) by { EnqueueIs(w, request); }
        EnqueueLines(w, request);
        PickedPush(SubmitLine(w), Priv(w.client.seqnum + 1, request), RequestOf);
      case Dequeue(n) =>
        assert Next(w, e) == DoDequeue(w, n) by { DequeueIs(w, n); }
        DequeueLines(w, n);
        PickedPush(UnlinkLine(w), Unlink(w.client.seqnum + 1, n), TargetOf);
      case TxTakeSubmit => TakeSubmitLines(w);
      case TxTakeUnlink => TakeUnlinkLines(w);
      case _ => OthersLines(w, e);
    }
  }

  lemma EnqueueIs(w: World, request: Request)
    ensures Next(w, Enqueue(request)) == DoEnqueue(w, request)
  {
  }

  lemma DequeueIs(w: World, n: nat)
    ensures Next(w, Dequeue(n)) == DoDequeue(w, n)
  {
  }

  // ------------------------------------------------------------ the server's lines

  lemma ReplyTaken(w: World, m: Ret)
    requires w.stx.hand.None?
    ensures var taken := w.h.rets + (w.s2c + [m]);
      && Picked(taken, ResultOf) == Picked(w.h.rets + Backward(w), ResultOf) + ResultOf(m)
      && Picked(taken, AnswerOf) == Picked(w.h.rets + Backward(w), AnswerOf) + AnswerOf(m)
  {
    hide Picked;
    assert w.h.rets + (w.s2c + [m]) == (w.h.rets + Backward(w)) + [m];
    PickedPush(w.h.rets + Backward(w), m, ResultOf);
    PickedPush(w.h.rets + Backward(w), m, AnswerOf);
  }

  lemma TakeResultLines(w: World)
    requires Enabled(w, StubTakeSubmitEv) && w.server.privTx[0].seqnum == w.server.privTx[0].urb
    ensures var w' := Next(w, StubTakeSubmitEv); ResultLine(w') == ResultLine(w) && AnswerLine(w') == AnswerLine(w)
  {
    var p := w.server.privTx[0];
    ReplyTaken(w, RetSubmit(p.seqnum, p.outcome));
    assert Picked(w.server.privTx, DoneOf) == DoneOf(p) + Picked(w.server.privTx[1..], DoneOf);
    hide Picked;
  }

  lemma TakeAnswerLines(w: World)
    requires Enabled(w, StubTakeUnlinkEv)
    ensures var w' := Next(w, StubTakeUnlinkEv); ResultLine(w') == ResultLine(w) && AnswerLine(w') == AnswerLine(w)
  {
    hide Picked;
    var u := w.server.unlinkTx[0];
    ReplyTaken(w, RetUnlink(u.seqnum, u.status));
    assert w.server.unlinkTx == [u] + w.server.unlinkTx[1..];
  }

  lemma DoneLines(w: World, i: nat, outcome: Outcome)
    requires i < |w.server.privInit|
    ensures var w', e := DoDeviceDone(w, i, outcome), DeviceDone(i, outcome);
      && ResultLine(w') == ResultLine(w) + CompletedBy(w, e) && AnswerLine(w') == AnswerLine(w) + AnsweredBy(w, e)
  {
    hide Picked;
    var p := w.server.privInit[i];
    PickedPush(w.server.privTx, p.(outcome := outcome), DoneOf);
  }

  lemma ReceivedLines(w: World)
    requires w.c2s != []
    ensures var w' := DoStubRx(w); ResultLine(w') == ResultLine(w) && AnswerLine(w') == AnswerLine(w) + AnsweredBy(w, StubRx)
  {
    hide Picked, First;
    var q, m := w.server.privInit, w.c2s[0];
    if m.CmdUnlink? {
      var i := First(q, StubPrivKey, m.target);
      if i < |q| {
        assert q[i] in q;
      } else {
        assert forall j :: 0 <= j < |q| ==> StubPrivKey(q[j]) != m.target;
      }
    }
  }

  lemma ServerOthers(w: World, e: Event)
    requires Enabled(w, e) && !e.StubRx? && !e.DeviceDone? && !e.StubTakeSubmitEv? && !e.StubTakeUnlinkEv?
    ensures ResultLine(Next(w, e)) == ResultLine(w) && AnswerLine(Next(w, e)) == AnswerLine(w)
  {
    hide Picked, First, Waiting, RecvCmdUnlink, Complete, DoRxReply, DoRxPickup, DoStubRx, CleanupOne, UrbDequeue;
    match e {
      case StubSend => assert w.s2c + [w.stx.hand.value] + [] == w.s2c + [w.stx.hand.value];
      case RxReply => RepliesReceived(w);
      case RxPickup => PickupLeavesQueues(w);
      case _ =>
    }
  }

  /** Each step adds to the server's lines what completes in it and what it answers. */
  lemma ServerLines(w: World, e: Event)
    requires Enabled(w, e) && Inv(w)
    ensures ResultLine(Next(w, e)) == ResultLine(w) + CompletedBy(w, e)
    ensures AnswerLine(Next(w, e)) == AnswerLine(w) + AnsweredBy(w, e)
  {
    hide Picked, ResultLine, AnswerLine, Inv, DoStubRx, DoDeviceDone;
    match e {
      case StubRx => ReceivedLines(w);
      case DeviceDone(i, outcome) => DoneLines(w, i, outcome);
      case StubTakeSubmitEv =>
        HeadIsUrb(w);
        TakeResultLines(w);
      case StubTakeUnlinkEv => TakeAnswerLines(w);
      case _ => ServerOthers(w, e);
    }
  }

  lemma HeadIsUrb(w: World)
    requires Inv(w) && w.server.privTx != []
    ensures w.server.privTx[0].seqnum == w.server.privTx[0].urb
  {
    hide Counts;
  }

  // ------------------------------------------------------------ runs

  lemma {:induction false} AlongMore<U>(w: World, es: seq<Event>, f: (World, Event) -> seq<U>, a: seq<U>)
    requires Feasible(w, es) && es != []
    ensures a + Along(w, es, f) == (a + f(w, es[0])) + Along(Next(w, es[0]), es[1..], f)
  {
  }

  lemma {:induction false} ClientRun(w: World, es: seq<Event>)
    requires Feasible(w, es) && Inv(w) && Run(w, es).phase.Up?
    ensures Picked(SubmitLine(Run(w, es)), RequestOf) == Picked(SubmitLine(w), RequestOf) + Enqueued(es)
    ensures Picked(UnlinkLine(Run(w, es)), TargetOf) == Picked(UnlinkLine(w), TargetOf) + Along(w, es, AcceptedBy)
    decreases |es|
  {
    hide Inv, Next, Enabled, SubmitLine, UnlinkLine;
    if es != [] {
      var w' := Next(w, es[0]);
      UpBefore(w', es[1..]);
      UpBefore(w, es);
      assert w.client.socket by { UpConnected(w); }
      ClientLines(w, es[0]);
      StepKeepsInv(w, es[0]);
      ClientRun(w', es[1..]);
      AlongMore(w, es, AcceptedBy, Picked(UnlinkLine(w), TargetOf));
    }
  }

  lemma UpConnected(w: World)
    requires Inv(w) && w.phase.Up?
    ensures w.client.socket
  {
    hide Counts;
  }

  lemma {:induction false} UpBefore(w: World, es: seq<Event>)
    requires Feasible(w, es) && Run(w, es).phase.Up?
    ensures w.phase.Up?
    decreases |es|
  {
    if es != [] {
      UpBefore(Next(w, es[0]), es[1..]);
      UpStep(w, es[0]);
    }
  }

  lemma UpStep(w: World, e: Event)
    requires Enabled(w, e) && Next(w, e).phase.Up?
    ensures w.phase.Up?
  {
  }

  lemma {:induction false} ServerRun(w: World, es: seq<Event>)
    requires Feasible(w, es) && Inv(w)
    ensures ResultLine(Run(w, es)) == ResultLine(w) + Along(w, es, CompletedBy)
    ensures AnswerLine(Run(w, es)) == AnswerLine(w) + Along(w, es, AnsweredBy)
    decreases |es|
  {
    hide Inv, Next, Enabled, ResultLine, AnswerLine;
    if es != [] {
      ServerLines(w, es[0]);
      StepKeepsInv(w, es[0]);
      ServerRun(Next(w, es[0]), es[1..]);
      AlongMore(w, es, CompletedBy, ResultLine(w));
      AlongMore(w, es, AnsweredBy, AnswerLine(w));
    }
  }

  lemma StartLines()
    ensures SubmitLine(START) == [] && UnlinkLine(START) == [] && ResultLine(START) == [] && AnswerLine(START) == []
  {
  }

  /** First in, first out, from the drivers to the server: on every run that leaves the
      connection up, the requests that the server has received, those on their way and
      those still in priv_tx are together the requests enqueued, in the order in which
      they were enqueued. */
  lemma SubmitsInOrder(es: seq<Event>)
    requires Feasible(START, es) && Run(START, es).phase.Up?
    ensures Picked(SubmitLine(Run(START, es)), RequestOf) == Enqueued(es)
  {
    hide Inv, Next, Enabled, SubmitLine, UnlinkLine;
    StartInv();
    StartLines();
    ClientRun(START, es);
  }

  /** Likewise the targets of the unlink requests are the URBs whose dequeue was
      accepted, in that order. */
  lemma UnlinksInOrder(es: seq<Event>)
    requires Feasible(START, es) && Run(START, es).phase.Up?
    ensures Picked(UnlinkLine(Run(START, es)), TargetOf) == Along(START, es, AcceptedBy)
  {
    hide Inv, Next, Enabled, SubmitLine, UnlinkLine;
    StartInv();
    StartLines();
    ClientRun(START, es);
  }

  /** From the device to the client: on every run, the results that the client has
      received, those on their way and those in priv_tx are together the completions of
      URBs that were not cancelled, each with its outcome, in the order of completion. */
  lemma ResultsInOrder(es: seq<Event>)
    requires Feasible(START, es)
    ensures ResultLine(Run(START, es)) == Along(START, es, CompletedBy)
  {
    hide Inv, Next, Enabled, ResultLine, AnswerLine;
    StartInv();
    StartLines();
    ServerRun(START, es);
  }

  /** And the answers of unlink requests come in the order in which they came about: with
      the completion of a cancelled URB, or at once where there was none to cancel. */
  lemma AnswersInOrder(es: seq<Event>)
    requires Feasible(START, es)
    ensures AnswerLine(Run(START, es)) == Along(START, es, AnsweredBy)
  {
    hide Inv, Next, Enabled, ResultLine, AnswerLine;
    StartInv();
    StartLines();
    ServerRun(START, es);
  }

  // ------------------------------------------------------------ what the server frees

  /** The entries whose replies a transmit thread took, freed when its loop ends. */
  function FreedBy(w: World, e: Event): seq<StubPriv> {
    if e.StubEndSubmits? then w.server.privFree else []
  }

  function FreedUnlinksBy(w: World, e: Event): seq<StubUnlink> {
    if e.StubEndUnlinks? then w.server.unlinkFree else []
  }

  ghost function Taken(w: World): seq<Result> { Picked(w.h.rets + Backward(w), ResultOf) }

  ghost function TakenUnlinks(w: World): seq<StubUnlink> { Picked(w.h.rets + Backward(w), AnswerOf) }

  /** Which replies a step makes. */
  function MadeBy(w: World, e: Event): seq<Result> {
    if e.StubTakeSubmitEv? && w.server.privTx != [] then DoneOf(w.server.privTx[0]) else []
  }

  function MadeUnlinksBy(w: World, e: Event): seq<StubUnlink> {
    if e.StubTakeUnlinkEv? && w.server.unlinkTx != [] then [w.server.unlinkTx[0]] else []
  }

  lemma Makes(w: World, e: Event)
    requires Enabled(w, e) && Inv(w)
    ensures Taken(Next(w, e)) == Taken(w) + MadeBy(w, e)
    ensures TakenUnlinks(Next(w, e)) == TakenUnlinks(w) + MadeUnlinksBy(w, e)
  {
    hide Picked, First, Waiting, RecvCmdUnlink, RecvCmdSubmit, Complete, DoRxReply, DoRxPickup, CleanupOne, UrbDequeue, Inv;
    match e {
      case StubTakeSubmitEv =>
        var p := w.server.privTx[0];
        HeadIsUrb(w);
        ReplyTaken(w, RetSubmit(p.seqnum, p.outcome));
      case StubTakeUnlinkEv => ReplyTaken(w, RetUnlink(w.server.unlinkTx[0].seqnum, w.server.unlinkTx[0].status));
      case StubSend => assert w.s2c + [w.stx.hand.value] + [] == w.s2c + [w.stx.hand.value];
      case RxReply => RepliesReceived(w);
      case RxPickup => PickupLeavesQueues(w);
      case _ =>
    }
  }

  lemma Frees(w: World, e: Event)
    requires Enabled(w, e)
    ensures var s, s' := w.server, Next(w, e).server;
      && FreedBy(w, e) + s'.privFree == s.privFree + (if e.StubTakeSubmitEv? then [s.privTx[0]] else [])
      && FreedUnlinksBy(w, e) + s'.unlinkFree == s.unlinkFree + MadeUnlinksBy(w, e)
  {
    hide First, Waiting, DoRxReply, DoRxPickup, CleanupOne, UrbDequeue;
    match e {
      case RxReply => RepliesReceived(w);
      case RxPickup => PickupLeavesQueues(w);
      case _ =>
    }
  }

  ghost function FreedResults(w: World, e: Event): seq<Result> { Picked(FreedBy(w, e), DoneOf) }

  lemma FreesResults(w: World, e: Event)
    requires Enabled(w, e)
    ensures FreedResults(w, e) + Picked(Next(w, e).server.privFree, DoneOf) == Picked(w.server.privFree, DoneOf) + MadeBy(w, e)
  {
    hide Picked, Next;
    Frees(w, e);
    var now, next := w.server.privFree, Next(w, e).server.privFree;
    PickedAppend(FreedBy(w, e), next, DoneOf);
    if e.StubTakeSubmitEv? {
      PickedPush(now, w.server.privTx[0], DoneOf);
    } else {
      assert now + [] == now;
    }
  }

  lemma {:induction false} FreeRun(w: World, es: seq<Event>, made: seq<Result>, madeUnlinks: seq<StubUnlink>)
    requires Feasible(w, es) && Inv(w)
    requires Taken(w) == made + Picked(w.server.privFree, DoneOf) && TakenUnlinks(w) == madeUnlinks + w.server.unlinkFree
    ensures var w' := Run(w, es);
      && Taken(w') == made + Along(w, es, FreedResults) + Picked(w'.server.privFree, DoneOf)
      && TakenUnlinks(w') == madeUnlinks + Along(w, es, FreedUnlinksBy) + w'.server.unlinkFree
    decreases |es|
  {
    hide Inv, Next, Enabled, Taken, TakenUnlinks, Picked, FreedResults, FreedUnlinksBy;
    if es == [] {
      assert made + [] == made && madeUnlinks + [] == madeUnlinks;
    } else {
      var e, w' := es[0], Next(w, es[0]);
      Makes(w, e);
      FreesResults(w, e);
      Frees(w, e);
      StepKeepsInv(w, e);
      Associate(made, FreedResults(w, e), Picked(w'.server.privFree, DoneOf), Picked(w.server.privFree, DoneOf), MadeBy(w, e));
      Associate(madeUnlinks, FreedUnlinksBy(w, e), w'.server.unlinkFree, w.server.unlinkFree, MadeUnlinksBy(w, e));
      FreeRun(w', es[1..], made + FreedResults(w, e), madeUnlinks + FreedUnlinksBy(w, e));
      AlongMore(w, es, FreedResults, made);
      AlongMore(w, es, FreedUnlinksBy, madeUnlinks);
    }
  }

  lemma Associate<T>(a: seq<T>, x: seq<T>, b: seq<T>, c: seq<T>, y: seq<T>)
    requires x + b == c + y
    ensures (a + c) + y == (a + x) + b
  {
    assert (a + c) + y == a + (c + y) && (a + x) + b == a + (x + b);
  }

  /** On every run, what the server's transmit thread has freed and what waits to be freed
      are together the entries whose replies it has made, in that order: none is freed
      before its reply is made, none twice, and none is forgotten. */
  lemma FreedAfterReply(es: seq<Event>)
    requires Feasible(START, es)
    ensures var w := Run(START, es);
      && Taken(w) == Along(START, es, FreedResults) + Picked(w.server.privFree, DoneOf)
      && TakenUnlinks(w) == Along(START, es, FreedUnlinksBy) + w.server.unlinkFree
  {
    hide Inv, Next, Enabled;
    StartInv();
    FreeRun(START, es, [], []);
    var w := Run(START, es);
    assert [] + Along(START, es, FreedResults) == Along(START, es, FreedResults);
    assert [] + Along(START, es, FreedUnlinksBy) == Along(START, es, FreedUnlinksBy);
  }
}
