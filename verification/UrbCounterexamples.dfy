/** Runs of the loops exactly as written in which something goes wrong. */
module UrbCounterexamples {
  import opened Bags
  import opened UrbProtocol

  lemma {:induction false} Append(w: World, es: seq<Event>, e: Event)
    requires Feasible(w, es) && Enabled(Run(w, es), e)
    ensures Feasible(w, es + [e]) && Run(w, es + [e]) == Next(Run(w, es), e)
    decreases |es|
  {
    hide Next, Enabled;
    if es == [] {
      assert es + [e] == [e];
      assert [e][1..] == [];
    } else {
      assert (es + [e])[1..] == es[1..] + [e];
      Append(Next(w, es[0]), es[1..], e);
    }
  }

  /** One more event of a run from the start. */
  lemma Then(es: seq<Event>, w: World, e: Event) returns (es': seq<Event>, w': World)
    requires Feasible(START, es) && w == Run(START, es) && Enabled(w, e)
    ensures w' == Next(w, e)
    ensures Feasible(START, es') && w' == Run(START, es')
  {
    hide Next, Enabled;
    Append(START, es, e);
    es', w' := es + [e], Next(w, e);
  }

  const REQUEST := Request(1, [], [])
  const SUCCESS := Outcome(0, 0, [])
  const PRIV := Priv(1, REQUEST)
  const STUB_PRIV := StubPriv(1, REQUEST, 1, false, NO_OUTCOME)

  lemma StartFeasible()
    ensures Feasible(START, []) && Run(START, []) == START
  {
  }

  // ------------------------------------------------ the server's unlink loop

  /** URB 1 is at the device. */
  const AT_DEVICE := World(
    Client(1, [], [PRIV], [], [], {}, [], true), Sender(Submits, None), [],
    Server([STUB_PRIV], [], [], [], []), Sender(Submits, None), [],
    Idle, Up, false, History(map[1 := REQUEST], map[], map[], [], [CmdSubmit(1, REQUEST)], []))

  /** The driver has unlinked URB 1 and the request is on its way; the server's
      thread has found priv_tx empty and is about to look at unlink_tx. */
  const UNLINKING := World(
    Client(2, [], [PRIV], [], [Unlink(2, 1)], {1}, [], true), Sender(Unlinks, None), [CmdUnlink(2, 1)],
    Server([STUB_PRIV], [], [], [], []), Sender(Unlinks, None), [],
    Idle, Up, false, History(map[1 := REQUEST], map[2 := 1], map[], [], [CmdSubmit(1, REQUEST)], []))

  /** URB 1 completed, then its unlink request was received. */
  const BOTH_QUEUED := World(
    Client(2, [], [PRIV], [], [Unlink(2, 1)], {1}, [], true), Sender(Unlinks, None), [],
    Server([], [STUB_PRIV.(outcome := SUCCESS)], [], [StubUnlink(2, 0)], []), Sender(Unlinks, None), [],
    Idle, Up, false,
    History(map[1 := REQUEST], map[2 := 1], map[1 := (REQUEST, SUCCESS)], [], [CmdSubmit(1, REQUEST), CmdUnlink(2, 1)], []))

  /** The RET_UNLINK went first and gave URB 1 back. */
  const GIVEN_BACK := World(
    Client(2, [], [], [], [], {1}, [Given(1, ByRetUnlink(0))], true), Sender(Unlinks, None), [],
    Server([], [STUB_PRIV.(outcome := SUCCESS)], [], [], [StubUnlink(2, 0)]), Sender(Unlinks, None), [],
    Idle, Up, false,
    History(map[1 := REQUEST], map[2 := 1], map[1 := (REQUEST, SUCCESS)], [],
            [CmdSubmit(1, REQUEST), CmdUnlink(2, 1)], [RetUnlink(2, 0)]))

  lemma ReachAtDevice() returns (es: seq<Event>)
    ensures Feasible(START, es) && Run(START, es) == AT_DEVICE
  {
    hide Feasible, Run;
    StartFeasible();
    var w;
    es, w := Then([], START, Enqueue(REQUEST));
    es, w := Then(es, w, TxTakeSubmit);
    es, w := Then(es, w, TxSend);
    es, w := Then(es, w, StubRx);
  }

  lemma ReachUnlinking() returns (es: seq<Event>)
    ensures Feasible(START, es) && Run(START, es) == UNLINKING
  {
    hide Feasible, Run;
    es := ReachAtDevice();
    var w;
    es, w := Then(es, AT_DEVICE, Dequeue(1));
    es, w := Then(es, w, TxEndSubmits);
    es, w := Then(es, w, TxTakeUnlink);
    es, w := Then(es, w, TxSend);
    es, w := Then(es, w, StubEndSubmits);
  }

  lemma ReachBothQueued() returns (es: seq<Event>)
    ensures Feasible(START, es) && Run(START, es) == BOTH_QUEUED
  {
    hide Feasible, Run;
    es := ReachUnlinking();
    var w;
    es, w := Then(es, UNLINKING, DeviceDone(0, SUCCESS));
    es, w := Then(es, w, StubRx);
  }

  lemma ReachGivenBack() returns (es: seq<Event>)
    ensures Feasible(START, es) && Run(START, es) == GIVEN_BACK
  {
    hide Feasible, Run;
    es := ReachBothQueued();
    var w;
    es, w := Then(es, BOTH_QUEUED, StubTakeUnlinkEv);
    es, w := Then(es, w, StubSend);
    es, w := Then(es, w, RxReply);
    es, w := Then(es, w, RxPickup);
  }

  /** The server's inner unlink loop does not look at priv_tx again: a URB that
      completes while the loop runs is overtaken by the answer of its unlink
      request, is given back by RET_UNLINK, and its RET_SUBMIT then raises the
      TCP error. The client's thread took its messages in order. */
  lemma ServerLoopOvertakes() returns (es: seq<Event>)
    ensures Feasible(START, es) && Run(START, es).tcpError
  {
    hide Feasible, Run;
    es := ReachGivenBack();
    var w;
    es, w := Then(es, GIVEN_BACK, StubEndUnlinks);
    es, w := Then(es, w, StubWake);
    es, w := Then(es, w, StubTakeSubmitEv);
    es, w := Then(es, w, StubSend);
    es, w := Then(es, w, RxReply);
  }

  // ------------------------------------------------ the client's unlink loop

  /** The client's thread has found priv_tx empty; then URB 1 was enqueued and
      unlinked at once, and the unlink request was taken first. */
  const REQUEST_FIRST := World(
    Client(2, [PRIV], [], [], [Unlink(2, 1)], {1}, [], true), Sender(Unlinks, None), [CmdUnlink(2, 1)],
    Server([], [], [], [], []), Sender(Submits, None), [],
    Idle, Up, false, History(map[1 := REQUEST], map[2 := 1], map[], [], [], []))

  /** The server has answered a request whose target it has not seen. */
  const ANSWERING := World(
    Client(2, [PRIV], [], [], [Unlink(2, 1)], {1}, [], true), Sender(Unlinks, None), [],
    Server([], [], [], [], [StubUnlink(2, 0)]), Sender(Unlinks, None), [RetUnlink(2, 0)],
    Idle, Up, false, History(map[1 := REQUEST], map[2 := 1], map[], [], [CmdUnlink(2, 1)], []))

  /** URB 1 was sent, then given back by the RET_UNLINK. */
  const GIVEN_TOO_SOON := World(
    Client(2, [], [], [], [], {1}, [Given(1, ByRetUnlink(0))], true), Sender(Submits, None), [CmdSubmit(1, REQUEST)],
    Server([], [], [], [], [StubUnlink(2, 0)]), Sender(Unlinks, None), [],
    Idle, Up, false, History(map[1 := REQUEST], map[2 := 1], map[], [], [CmdUnlink(2, 1)], [RetUnlink(2, 0)]))

  const SUBMIT_QUEUED := World(
    Client(2, [], [], [], [], {1}, [Given(1, ByRetUnlink(0))], true), Sender(Submits, None), [],
    Server([], [STUB_PRIV.(outcome := SUCCESS)], [], [], []), Sender(Asleep, None), [],
    Idle, Up, false,
    History(map[1 := REQUEST], map[2 := 1], map[1 := (REQUEST, SUCCESS)], [], [CmdUnlink(2, 1), CmdSubmit(1, REQUEST)], [RetUnlink(2, 0)]))

  lemma ReachRequestFirst() returns (es: seq<Event>)
    ensures Feasible(START, es) && Run(START, es) == REQUEST_FIRST
  {
    hide Feasible, Run;
    StartFeasible();
    var w;
    es, w := Then([], START, TxEndSubmits);
    es, w := Then(es, w, Enqueue(REQUEST));
    es, w := Then(es, w, Dequeue(1));
    es, w := Then(es, w, TxTakeUnlink);
    es, w := Then(es, w, TxSend);
  }

  lemma ReachAnswering() returns (es: seq<Event>)
    ensures Feasible(START, es) && Run(START, es) == ANSWERING
  {
    hide Feasible, Run;
    es := ReachRequestFirst();
    var w;
    es, w := Then(es, REQUEST_FIRST, StubRx);
    es, w := Then(es, w, StubEndSubmits);
    es, w := Then(es, w, StubTakeUnlinkEv);
    es, w := Then(es, w, StubSend);
  }

  lemma ReachGivenTooSoon() returns (es: seq<Event>)
    ensures Feasible(START, es) && Run(START, es) == GIVEN_TOO_SOON
  {
    hide Feasible, Run;
    es := ReachAnswering();
    var w;
    es, w := Then(es, ANSWERING, TxEndUnlinks);
    es, w := Then(es, w, TxWake);
    es, w := Then(es, w, TxTakeSubmit);
    es, w := Then(es, w, TxSend);
    es, w := Then(es, w, RxReply);
    es, w := Then(es, w, RxPickup);
  }

  lemma ReachSubmitQueued() returns (es: seq<Event>)
    ensures Feasible(START, es) && Run(START, es) == SUBMIT_QUEUED
  {
    hide Feasible, Run;
    es := ReachGivenTooSoon();
    var w;
    es, w := Then(es, GIVEN_TOO_SOON, StubRx);
    es, w := Then(es, w, StubEndUnlinks);
    es, w := Then(es, w, DeviceDone(0, SUCCESS));
  }

  /** The client's inner unlink loop does not look at priv_tx again either: here
      the server's thread took its messages in order. */
  lemma ClientLoopOvertakes() returns (es: seq<Event>)
    ensures Feasible(START, es) && Run(START, es).tcpError
  {
    hide Feasible, Run;
    es := ReachSubmitQueued();
    var w;
    es, w := Then(es, SUBMIT_QUEUED, StubWake);
    es, w := Then(es, w, StubTakeSubmitEv);
    es, w := Then(es, w, StubSend);
    es, w := Then(es, w, RxReply);
  }
}
