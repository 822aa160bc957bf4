/** But for the ids nobody notices the filter: the camera gets the client's transfers
    unchanged and in order, the client gets what it was answered or served unchanged and
    in order, and the filter's own commands are the client's first preview command. */
module PtpTransparent {
  import opened Bags
  import opened Bytes
  import opened PtpReading
  import opened PtpFilter
  import opened PtpStreams
  import opened PtpSpeech
  import opened PtpFilterSafety
  import opened PtpProgress
  import opened PtpServing
  import P = PtpParser

  // ------------------------------------------------------------ what was passed on

  /** The transfers of the client's that the camera got. */
  function OfClient(tape: seq<Passed>): seq<seq<Byte>> {
    if tape == [] then []
    else OfClient(tape[..|tape| - 1]) + if tape[|tape| - 1].owner == Client then [tape[|tape| - 1].bytes] else []
  }

  lemma OneMorePassed(tape: seq<Passed>, p: Passed)
    ensures OfClient(tape + [p]) == OfClient(tape) + if p.owner == Client then [p.bytes] else []
  {
    assert (tape + [p])[..|tape|] == tape;
  }

  /** A command of the client's that waits, but for its id. */
  function Delayed(w: World): seq<seq<Byte>> {
    if Waits(w) then [Blank(Outside, w.streams.urb)] else []
  }

  /** The camera has got, and is still to get, exactly what was sent; and of the filter's
      own exactly this one command, which is also what its URBs hold. */
  predicate Straight(w: World, sent: seq<seq<Byte>>, own: seq<Byte>) {
    && OfClient(w.camera.tape) + Delayed(w) == sent
    && (forall p :: p in w.camera.tape && p.owner == Own ==> p.bytes == own)
    && (w.filter.built ==> Blank(Outside, w.streams.trigger) == own)
  }

  /** The filter sends its own command. */
  lemma OwnStraight(w: World, v: World, sent: seq<seq<Byte>>, own: seq<Byte>)
    requires Straight(w, sent, own) && w.filter.built && v.filter.built
    requires v.camera.tape == w.camera.tape + [Passed(Own, Blank(Outside, w.streams.trigger))]
    requires Blank(Outside, v.streams.trigger) == Blank(Outside, w.streams.trigger)
    requires Waits(v) == Waits(w) && v.streams.urb == w.streams.urb
    ensures Straight(v, sent, own)
  {
    hide Blank;
    OneMorePassed(w.camera.tape, Passed(Own, Blank(Outside, w.streams.trigger)));
  }

  /** Something of the client's reaches the camera. */
  lemma ClientStraight(w: World, v: World, sent: seq<seq<Byte>>, own: seq<Byte>, bytes: seq<Byte>)
    requires Straight(w, sent, own) && v.filter.built == w.filter.built && v.streams.trigger == w.streams.trigger
    requires v.camera.tape == w.camera.tape + [Passed(Client, bytes)] && !Waits(v)
    ensures var waited := Waits(w) && bytes == Blank(Outside, w.streams.urb);
      Straight(v, if waited then sent else OfClient(w.camera.tape) + [bytes], own)
  {
    hide Blank;
    OneMorePassed(w.camera.tape, Passed(Client, bytes));
    assert OfClient(v.camera.tape) + [] == OfClient(v.camera.tape);
  }

  lemma SameStraight(w: World, v: World, sent: seq<seq<Byte>>, own: seq<Byte>)
    requires Straight(w, sent, own) && v.camera.tape == w.camera.tape && Delayed(v) == Delayed(w)
    requires v.filter.built == w.filter.built && v.streams.trigger == w.streams.trigger
    ensures Straight(v, sent, own)
  {
    hide Blank;
  }

  // ------------------------------------------------------------ producing

  lemma OwnCommandStraight(w: World, env: Env, sent: seq<seq<Byte>>, own: seq<Byte>)
    requires Inv(w) && Straight(w, sent, own) && w.filter.queue != [] && w.filter.queue[0] == OwnCommand
    ensures var v := ProduceItem(w, OwnCommand, true, env); Straight(v, sent, own) && v.read == w.read
  {
    hide Spoken, Others, SendOwn, SendClient, ClientHeld, Straight;
    HeadCounted(w.filter.queue);
    var s := w.filter.state;
    if s == Sleep || (s == Active && env.room) {
      var v := Enter(Taken(w, true), Busy);
      assert Enter(Enter(Taken(w, true), Active), Busy) == v;
      FilterFree(w, v);
      SendOwnSpoken(v);
      assert w.filter.queue == [OwnCommand] + w.filter.queue[1..];
      OwnStraight(w, SendOwn(v), sent, own);
    }
  }

  lemma ClientCommandStraight(w: World, env: Env, sent: seq<seq<Byte>>, own: seq<Byte>)
    requires Inv(w) && Straight(w, sent, own) && w.filter.queue != [] && w.filter.queue[0] == ClientCommand
    ensures var v := ProduceItem(w, ClientCommand, true, env); Straight(v, sent, own) && v.read == w.read
  {
    hide Spoken, Others, SendOwn, SendClient, UrbsHeld, Straight;
    HeadCounted(w.filter.queue);
    var s := w.filter.state;
    if s in {Idle, Sleep, Active} {
      var v := Enter(Taken(w, true), if s == Idle then CommandSent else if s == Sleep then SleepWait else Waiting);
      FilterFree(w, v);
      SendClientSpoken(v);
      assert ClientCommand !in multiset(v.filter.queue);
      ClientStraight(w, SendClient(v), sent, own, Blank(Outside, w.streams.urb));
    }
  }

  lemma OwnDataStraight(w: World, pending: bool, env: Env, sent: seq<seq<Byte>>, own: seq<Byte>)
    requires Inv(w) && Straight(w, sent, own) && w.camera.own != Absent
    requires pending ==> w.filter.queue != [] && w.filter.queue[0] == OwnData
    ensures var v := ProduceItem(w, OwnData, pending, env); Straight(v, sent, own) && v.read == w.read
  {
    hide Spoken, Others, SendOwn, SendClient, UrbsHeld, Straight, ClientHeld;
    if pending {
      assert w.filter.queue == [OwnData] + w.filter.queue[1..];
    }
    SameStraight(w, ProduceItem(w, OwnData, pending, env), sent, own);
  }

  lemma ProduceStraight(w: World, env: Env, sent: seq<seq<Byte>>, own: seq<Byte>)
    requires Inv(w) && Straight(w, sent, own)
    ensures var v := Produce(w, env); Straight(v, sent, own) && v.read == w.read
  {
    hide ProduceItem, Turns, UrbsHeld, Spoken, Straight;
    if w.filter.queue != [] {
      HeadCounted(w.filter.queue);
      match w.filter.queue[0]
      case OwnCommand => OwnCommandStraight(w, env, sent, own);
      case ClientCommand => ClientCommandStraight(w, env, sent, own);
      case OwnData =>
        DataStalled(w);
        OwnDataStraight(w, true, env, sent, own);
      case ClientRead => assert false;
    }
  }

  lemma TimerStraight(w: World, env: Env, sent: seq<seq<Byte>>, own: seq<Byte>)
    requires Inv(w) && Straight(w, sent, own)
    ensures var v := TimerStep(w, env); Straight(v, sent, own) && v.read == w.read
  {
    hide Spoken, Others, SendOwn, SendClient, ClientHeld, Straight;
    var f := w.filter;
    if f.state == Active && f.free > 0 && env.room {
      var v := Enter(w.(filter := f.(free := f.free - 1)), Busy);
      FilterFree(w, v);
      SendOwnSpoken(v);
      OwnStraight(w, SendOwn(v), sent, own);
    } else {
      SameStraight(w, TimerStep(w, env), sent, own);
    }
  }

  // ------------------------------------------------------------ what a step sends and gives

  /** What the client sends in a step, but for its ids; preview commands the filter
      answers itself. */
  function Sends(w: World, e: Event): seq<seq<Byte>>
    requires Parsers(w.streams)
  {
    if e.Out? && !Wakes(w, e) then [Blank(ReaderOf(w.streams.rx), e.bytes)] else []
  }

  /** What the camera answers the client, or the filter serves it. */
  function Gives(w: World, e: Event): seq<seq<Byte>>
    requires Parsers(w.streams)
  {
    if e.Answered? || e.Served? then [Blank(ReaderOf(w.streams.tx), e.data)] else []
  }

  /** The command that the filter's own URBs are made for. */
  function OwnAfter(w: World, e: Event, own: seq<Byte>): seq<Byte> {
    if Wakes(w, e) && !w.filter.built then Blank(Outside, e.bytes) else own
  }

  /** A step keeps things straight. */
  predicate StepsStraight(w: World, e: Event, v: World, sent: seq<seq<Byte>>, own: seq<Byte>)
    requires Parsers(w.streams)
  {
    Straight(v, sent + Sends(w, e), OwnAfter(w, e, own)) && v.read == w.read + Gives(w, e)
  }

  lemma NothingYet(w: World)
    requires Inv(w) && !w.filter.built
    ensures w.camera.own == Absent && OwnCommand !in w.filter.queue
  {
    hide Spoken;
  }

  /** Waking touches neither what was passed on nor what waits. */
  lemma WokenStraight(v: World, early: bool, env: Env, sent: seq<seq<Byte>>, own: seq<Byte>, bytes: seq<Byte>)
    requires Received(v) && v.client.preview && Straight(v, sent, own)
    requires Made(v.filter) && v.filter.state in {Idle, Sleep}
    requires v.filter.built || (forall p :: p in v.camera.tape ==> p.owner == Client)
    requires Blank(Outside, v.streams.urb) == Blank(Outside, bytes)
    ensures var u := OnPreview(v, early, env);
      Straight(u, sent, if v.filter.built then own else Blank(Outside, bytes)) && u.read == v.read
  {
    hide Others, TimerStep, Spoken, Arrived, UrbsHeld, ClientHeld, Completed, Parsers, Turns, Blank;
    ReceivedUnserved(v);
    ReceivedNone(v);
    var f := v.filter;
    var soon := f.state == Sleep && f.frames > 0 && early;
    var frames := if f.state == Idle then 0 else f.frames;
    var x := v.(filter := f.(frames := frames, serving := true, state := Active, armed := f.armed || soon));
    WokenKeeps(v, frames, f.armed || soon);
    ArrivedFree(v, x);
    PreviewCompleted(x);
    if f.state == Idle {
      assert v.streams.front.(left := 0) == v.streams.front by { FrontEmpty(v); }
      assert x == v.(filter := x.filter, streams := v.streams.(front := v.streams.front.(left := 0)));
    }
    if !soon {
      TimerStraight(WithUrbs(Completed(x, true)), env, sent, if f.built then own else Blank(Outside, bytes));
    }
  }

  lemma PreviewStraight(v: World, early: bool, env: Env, sent: seq<seq<Byte>>, own: seq<Byte>, bytes: seq<Byte>)
    requires Received(v) && v.client.preview && Straight(v, sent, own) && Made(v.filter)
    requires v.filter.built || (forall p :: p in v.camera.tape ==> p.owner == Client)
    requires Blank(Outside, v.streams.urb) == Blank(Outside, bytes)
    ensures var u := OnPreview(v, early, env);
      Straight(u, sent, if v.filter.built then own else Blank(Outside, bytes)) && u.read == v.read
  {
    hide Others, TimerStep, Spoken, Arrived, UrbsHeld, ClientHeld, Completed, Blank;
    ReceivedUnserved(v);
    ReceivedNone(v);
    PendingKinds(v.camera.pending);
    if v.filter.state in {Idle, Sleep} {
      WokenStraight(v, early, env, sent, own, bytes);
    } else {
      var x := v.(filter := v.filter.(serving := true));
      ArrivedFree(v, x);
      PreviewCompleted(x);
    }
  }

  lemma ReceivedNone(v: World)
    requires Received(v)
    ensures ClientCommand !in v.filter.queue
  {
    hide Arrived, UrbsHeld, Turns;
  }

  lemma CommandStraight(v: World, sent: seq<seq<Byte>>, own: seq<Byte>, bytes: seq<Byte>)
    requires Received(v) && !v.client.preview && Straight(v, sent, own)
    requires Blank(Outside, v.streams.urb) == Blank(Outside, bytes)
    ensures var u := OnCommand(v); Straight(u, sent + [Blank(Outside, bytes)], own) && u.read == v.read
  {
    hide Others, Spoken, Arrived, Forward, UrbsHeld, ClientHeld, Blank;
    var s := v.filter.state;
    ReceivedNone(v);
    ReceivedUnserved(v);
    PendingKinds(v.camera.pending);
    assert OfClient(v.camera.tape) + [] == OfClient(v.camera.tape);
    if s in {Idle, Sleep, Active} {
      var u := Enter(v, if s == Idle then CommandSent else if s == Sleep then SleepWait else Waiting);
      ArrivedFree(v, u);
      ForwardSpoken(u);
      assert ClientCommand !in u.filter.queue by { StillNone(v.filter, u.filter.state); }
      ClientStraight(v, Forward(u), sent, own, Blank(Outside, bytes));
    }
  }

  lemma StillNone(f: Filter, s: State)
    requires ClientCommand !in f.queue && s != Sleep
    ensures ClientCommand !in ChangeState(f, s).queue
  {
  }

  lemma ParsedStraight(w: World, bytes: seq<Byte>, sent: seq<seq<Byte>>, own: seq<Byte>)
    requires Inv(w) && w.client.Resting? && IsCommand(bytes) && Straight(w, sent, own)
    ensures var v := Parsed(w, bytes).(client := Asked(bytes));
      && Straight(v, sent, own) && v.read == w.read && Blank(Outside, v.streams.urb) == Blank(Outside, bytes)
      && v.filter.built == w.filter.built && v.camera == w.camera
  {
    hide Spoken, UrbsHeld, ClientHeld, Parsed, IsCommand, ChangesSession, IsPreview, Arrived, Blank, Turns;
    assert !Waits(w) && w.camera.pending != Some(Client) by { RestingNone(w); }
    CommandParsed(w, bytes);
  }

  lemma RestingNone(w: World)
    requires Inv(w) && w.client.Resting?
    ensures ClientCommand !in w.filter.queue && w.camera.pending != Some(Client) && ReaderOf(w.streams.rx) == Outside
  {
    hide UrbsHeld;
  }

  lemma OutStraight(w: World, bytes: seq<Byte>, early: bool, env: Env, sent: seq<seq<Byte>>, own: seq<Byte>)
    requires Inv(w) && Made(w.filter) && Buffer(w.filter) && Straight(w, sent, own)
    requires w.filter.built || (forall p :: p in w.camera.tape ==> p.owner == Client)
    requires Enabled(w, Out(bytes, early, env)) && Orderly(w, Out(bytes, early, env))
    ensures StepsStraight(w, Out(bytes, early, env), Step(w, Out(bytes, early, env)), sent, own)
  {
    hide Turns, ClientHeld, UrbsHeld, Spoken, Parsed, Received, OnPreview, OnCommand, SendsData, IsCommand, ChangesSession;
    hide Straight, Blank, IsPreview, Buffer;
    assert w.read + [] == w.read && sent + [] == sent;
    if w.client.Resting? {
      RestingNone(w);
      ParsedKeeps(w, bytes);
      ParsedBuffer(w, bytes);
      ParsedStraight(w, bytes, sent, own);
      var v := Parsed(w, bytes).(client := Asked(bytes));
      assert Made(v.filter);
      assert v.client.Asking? && v.client.preview == IsPreview(v.streams.urb) && |v.streams.urb| >= CODE_END by {
        KindKnown(v);
      }
      if v.client.preview {
        PreviewStraight(v, early, env, sent, own, bytes);
      } else {
        CommandStraight(v, sent, own, bytes);
      }
    } else {
      ClientTurn(w);
      DataSpoken(w, bytes);
      assert !Waits(w) && !Waits(Step(w, Out(bytes, early, env))) by { SentNone(w); }
      ClientStraight(w, Step(w, Out(bytes, early, env)), sent, own, Blank(ReaderOf(w.streams.rx), bytes));
      assert OfClient(w.camera.tape) == sent by { NoneDelayed(w, sent, own); }
    }
  }

  lemma NoneDelayed(w: World, sent: seq<seq<Byte>>, own: seq<Byte>)
    requires Straight(w, sent, own) && !Waits(w)
    ensures OfClient(w.camera.tape) == sent
  {
  }

  lemma SentNone(w: World)
    requires Inv(w) && w.camera.pending == Some(Client)
    ensures ClientCommand !in w.filter.queue
  {
    hide Spoken, UrbsHeld;
  }

  // ------------------------------------------------------------ the other handlers

  /** Nothing is lost from the queue when a preview ends. */
  lemma StillWaits(f: Filter, asleep: bool)
    ensures ClientCommand in AfterPreview(f, asleep).queue <==> ClientCommand in f.queue
    ensures AfterPreview(f, asleep).built == f.built
  {
    hide Others;
    OthersCount(f.queue);
    assert ClientCommand in f.queue <==> ClientCommand in multiset(f.queue);
    assert ClientCommand in Others(f.queue) <==> ClientCommand in multiset(Others(f.queue));
  }

  lemma DataDoneStraight(w: World, data: seq<Byte>, env: Env, sent: seq<seq<Byte>>, own: seq<Byte>)
    requires Inv(w) && Straight(w, sent, own) && Enabled(w, DataDone(data, env))
    ensures var v := OnDataDone(w, data, env); Straight(v, sent, own) && v.read == w.read
  {
    hide Turns, ClientHeld, UrbsHeld, Spoken, Produce, ProduceItem, SelfParsed, Malformed, Track, Piece, OnDataDone, Straight;
    hide AfterPreview, FallsAsleep;
    var u := DataDoneStep(w, data, env);
    OwnMeansBusy(w);
    StillWaits(w.filter, FallsAsleep(w, data));
    SameStraight(w, u, sent, own);
    if Complete(Track(w.streams.back, data)) {
      ProduceStraight(u, env, sent, own);
    } else {
      OwnDataStraight(u, false, env, sent, own);
    }
  }

  lemma EnterStraight(w: World, s: State, sent: seq<seq<Byte>>, own: seq<Byte>)
    requires Straight(w, sent, own)
    ensures Straight(Enter(w, s), sent, own)
  {
    hide Others, Straight;
    OthersCount(w.filter.queue);
    assert ClientCommand in w.filter.queue <==> ClientCommand in multiset(w.filter.queue);
    assert ClientCommand in Others(w.filter.queue) <==> ClientCommand in multiset(Others(w.filter.queue));
    SameStraight(w, Enter(w, s), sent, own);
  }

  lemma AnsweredStraight(w: World, data: seq<Byte>, env: Env, sent: seq<seq<Byte>>, own: seq<Byte>)
    requires Inv(w) && Straight(w, sent, own) && Enabled(w, Answered(data, env))
    ensures var v := OnAnswered(w, data, env);
      Straight(v, sent, own) && v.read == w.read + [Blank(ReaderOf(w.streams.tx), data)]
  {
    hide Turns, ClientHeld, UrbsHeld, Spoken, Produce, TxParsed, Finishes, AnswersClient, ChangeState, Straight, Blank;
    ClientTurn(w);
    AnsweredSpoken(w, data);
    var x := TxParsed(w, false, data);
    var n := Hear(ReaderOf(w.streams.tx), data).ended;
    var u := x.(camera := Speaks(x.camera, n));
    SameStraight(w, u, sent, own);
    if n > 0 {
      var s := w.filter.state;
      var next := if s == Waiting then Active else if s == SleepWait then Sleep else Idle;
      FinishedKeeps(u, next);
      EnterStraight(u, next, sent, own);
      ProduceStraight(Enter(u, next), env, sent, own);
    }
  }

  lemma ServedStraight(w: World, data: seq<Byte>, env: Env, sent: seq<seq<Byte>>, own: seq<Byte>)
    requires Inv(w) && Straight(w, sent, own) && Enabled(w, Served(data, env))
    ensures var v := OnServed(w, data, env);
      Straight(v, sent, own) && v.read == w.read + [Blank(ReaderOf(w.streams.tx), data)]
  {
    hide Turns, ClientHeld, UrbsHeld, Spoken, Produce, OnDone, OnServed, Straight, Piece, Hear, Blank;
    var v := ServedStep(w, data, env);
    SameStraight(w, v, sent, own);
    ProduceStraight(v, env, sent, own);
    if EndsFrame(w, data) {
      ProduceKeeps(v, env);
      ProduceStraight(Produce(v, env), env, sent, own);
    }
  }

  lemma CommandDoneStraight(w: World, sent: seq<seq<Byte>>, own: seq<Byte>)
    requires Inv(w) && Straight(w, sent, own) && Enabled(w, CommandDone)
    ensures var v := OnCommandDone(w); Straight(v, sent, own) && v.read == w.read
  {
    hide Spoken, UrbsHeld, ClientHeld, Straight, Blank;
    SameStraight(w, OnCommandDone(w), sent, own);
  }

  // ------------------------------------------------------------ whole runs

  /** As long as the filter has no URBs of its own the camera hears only the client. */
  predicate OnlyClient(tape: seq<Passed>) {
    forall p :: p in tape ==> p.owner == Client
  }

  predicate Fair(w: World, sent: seq<seq<Byte>>, own: seq<Byte>) {
    && Straight(w, sent, own) && Buffer(w.filter) && Made(w.filter)
    && (w.filter.built || OnlyClient(w.camera.tape))
  }

  /** A filter without URBs may take anything for its command. */
  lemma AnyOwn(w: World, sent: seq<seq<Byte>>, own: seq<Byte>, other: seq<Byte>)
    requires Straight(w, sent, own) && !w.filter.built && OnlyClient(w.camera.tape)
    ensures Straight(w, sent, other)
  {
    hide Blank, Delayed;
  }

  lemma NoOwn(w: World, sent: seq<seq<Byte>>, own: seq<Byte>)
    requires Straight(w, sent, own) && Straight(w, sent, own + [0])
    ensures OnlyClient(w.camera.tape)
  {
    hide Blank, Delayed;
    assert own != own + [0];
  }

  lemma StepStraight(w: World, e: Event, sent: seq<seq<Byte>>, own: seq<Byte>)
    requires Inv(w) && Fair(w, sent, own) && Enabled(w, e) && Orderly(w, e)
    ensures StepsStraight(w, e, Step(w, e), sent, own)
  {
    hide Turns, ClientHeld, UrbsHeld, Spoken, Buffer, Orderly, OnOut, Parsed, OnRead, Straight, Blank;
    hide OnDataDone, OnAnswered, OnServed, TimerStep, OnCommandDone;
    assert w.read + [] == w.read && sent + [] == sent;
    match e
    case Out(bytes, early, env) => OutStraight(w, bytes, early, env, sent, own);
    case Read(env) => ReadKeeps(w, env);
    case Timer(env) =>
      TimerSet(w, false);
      SameStraight(w, Disarmed(w), sent, own);
      TimerStraight(Disarmed(w), env, sent, own);
    case CommandDone => CommandDoneStraight(w, sent, own);
    case DataDone(data, env) => DataDoneStraight(w, data, env, sent, own);
    case Answered(data, env) => AnsweredStraight(w, data, env, sent, own);
    case Served(data, env) => ServedStraight(w, data, env, sent, own);
  }

  lemma StepFair(w: World, e: Event, sent: seq<seq<Byte>>, own: seq<Byte>)
    requires Inv(w) && Fair(w, sent, own) && Enabled(w, e) && Orderly(w, e)
    ensures var v := Step(w, e);
      && Fair(v, sent + Sends(w, e), OwnAfter(w, e, own)) && v.read == w.read + Gives(w, e)
      && (v.filter.built <==> w.filter.built || Wakes(w, e))
  {
    hide Turns, ClientHeld, UrbsHeld, Spoken, Buffer, Enabled, Orderly, Step, Straight, Sends, Gives, OnlyClient;
    StepStraight(w, e, sent, own);
    StepBuffer(w, e);
    var v := Step(w, e);
    if !v.filter.built {
      AnyOwn(w, sent, own, own + [0]);
      StepStraight(w, e, sent, own + [0]);
      NoOwn(v, sent + Sends(w, e), own);
    }
  }

  /** What the client sends and gets over a run, and its first preview command. */
  function Sent(w: World, es: seq<Event>): seq<seq<Byte>>
    requires Parsers(w.streams) && Feasible(w, es)
    decreases |es|
  {
    if es == [] then [] else Sends(w, es[0]) + Sent(Step(w, es[0]), es[1..])
  }

  function Given(w: World, es: seq<Event>): seq<seq<Byte>>
    requires Parsers(w.streams) && Feasible(w, es)
    decreases |es|
  {
    if es == [] then [] else Gives(w, es[0]) + Given(Step(w, es[0]), es[1..])
  }

  function FirstPreview(w: World, es: seq<Event>): seq<Byte>
    requires Parsers(w.streams) && Feasible(w, es)
    decreases |es|
  {
    if es == [] then []
    else if Wakes(w, es[0]) then Blank(Outside, es[0].bytes)
    else FirstPreview(Step(w, es[0]), es[1..])
  }

  lemma {:induction false} RunStraight(w: World, es: seq<Event>, sent: seq<seq<Byte>>, own: seq<Byte>)
    requires Inv(w) && Fair(w, sent, own) && Feasible(w, es)
    requires w.filter.built || own == FirstPreview(w, es)
    ensures var v := Run(w, es);
      && Straight(v, sent + Sent(w, es), own) && v.read == w.read + Given(w, es)
    decreases |es|
  {
    hide Turns, ClientHeld, UrbsHeld, Spoken, Buffer, Made, Enabled, Orderly, Step;
    hide Straight, Sends, Gives, OnlyClient, Wakes, Blank;
    if es == [] {
      assert sent + [] == sent && w.read + [] == w.read;
    } else {
      var v := Step(w, es[0]);
      StepKeeps(w, es[0]);
      StepFair(w, es[0], sent, own);
      RunStraight(v, es[1..], sent + Sends(w, es[0]), own);
      assert sent + Sent(w, es) == sent + Sends(w, es[0]) + Sent(v, es[1..]);
      assert w.read + Given(w, es) == w.read + Gives(w, es[0]) + Given(v, es[1..]);
    }
  }

  /** Transparency: on every run, and but for the ids, the camera has got the transfers
      the client sent, unchanged, in order and once each, except that a command may still
      wait; the client has got what the camera answered or the filter served, likewise;
      and whatever else the camera got is the client's first preview command. */
  lemma FilterUnnoticed(limit: nat, es: seq<Event>)
    requires Feasible(Start(limit), es)
    ensures var s, w := Start(limit), Run(Start(limit), es);
      && OfClient(w.camera.tape) + Delayed(w) == Sent(s, es)
      && w.read == Given(s, es)
      && (forall p :: p in w.camera.tape && p.owner == Own ==> p.bytes == FirstPreview(s, es))
  {
    hide Inv, Buffer, Made, Enabled, Orderly, Step, Sends, Gives, Wakes, Blank;
    StartSafe(limit);
    StartBuffer(limit);
    var s := Start(limit);
    StartFair(limit, FirstPreview(s, es));
    RunStraight(s, es, [], FirstPreview(s, es));
    assert [] + Sent(s, es) == Sent(s, es) && [] + Given(s, es) == Given(s, es);
  }

  lemma StartFair(limit: nat, own: seq<Byte>)
    ensures Fair(Start(limit), [], own) && Start(limit).read == []
  {
    StartBuffer(limit);
  }
}
