/** The timer is set only when a preview has ended well, or by a client that is served
    early. So while the filter is awake exactly one preview of its own is ahead, and a
    client's command that has to wait goes as soon as the preview under way ends: on every
    run whose session changes find no preview in the queue. */
module PtpPrompt {
  import opened Bags
  import opened Bytes
  import opened PtpReading
  import opened PtpFilter
  import opened PtpStreams
  import opened PtpSpeech
  import opened PtpFilterSafety
  import opened PtpProgress
  import P = PtpParser

  /** Previews of the filter's own that are under way, queued or to be started by the
      timer. */
  function Ahead(f: Filter, own: OwnPhase): nat {
    (if f.armed then 1 else 0) + multiset(f.queue)[OwnCommand] + (if own == Absent then 0 else 1)
  }

  /** Intercepting, and not because of a full buffer asleep. */
  predicate Awake(s: State) {
    s in {Active, Busy, Waiting, Drop}
  }

  /** Exactly one is ahead while the filter is awake, and none otherwise. */
  predicate OneAhead(f: Filter, own: OwnPhase) {
    && Ahead(f, own) == (if Awake(f.state) then 1 else 0)
    && (f.state.Intercepting() ==> f.built)
  }

  /** A client's command waits only for a preview that is under way. */
  predicate Prompt(w: World) {
    OneAhead(w.filter, w.camera.own) && (Waits(w) ==> w.camera.pending == Some(Own))
  }

  /** A session change that finds no preview of the filter's own in the queue. */
  predicate Clean(w: World, e: Event) {
    e.Out? && w.client.Resting? && ChangesSession(e.bytes) ==> OwnCommand !in w.filter.queue
  }

  // ------------------------------------------------------------ producing

  lemma OwnCommandAhead(w: World, env: Env)
    requires Inv(w) && OneAhead(w.filter, w.camera.own) && w.filter.queue != [] && w.filter.queue[0] == OwnCommand
    ensures var v := ProduceItem(w, OwnCommand, true, env); OneAhead(v.filter, v.camera.own) && v.client == w.client
  {
    hide Spoken, Others, SendOwn, SendClient, ClientHeld;
    HeadCounted(w.filter.queue);
    var s := w.filter.state;
    if s == Active && env.room {
      var v := Enter(Taken(w, true), Busy);
      FilterFree(w, v);
      SendOwnSpoken(v);
    }
  }

  lemma ClientCommandAhead(w: World, env: Env)
    requires Inv(w) && OneAhead(w.filter, w.camera.own) && w.filter.queue != [] && w.filter.queue[0] == ClientCommand
    ensures var v := ProduceItem(w, ClientCommand, true, env); OneAhead(v.filter, v.camera.own) && v.client == w.client
  {
    hide Spoken, Others, SendOwn, SendClient, UrbsHeld;
    HeadCounted(w.filter.queue);
    var s := w.filter.state;
    if s in {Idle, Sleep, Active} {
      var v := Enter(Taken(w, true), if s == Idle then CommandSent else if s == Sleep then SleepWait else Waiting);
      FilterFree(w, v);
      SendClientSpoken(v);
    }
  }

  lemma OwnDataAhead(w: World, env: Env)
    requires Inv(w) && OneAhead(w.filter, w.camera.own) && w.filter.queue != [] && w.filter.queue[0] == OwnData
    ensures var v := ProduceItem(w, OwnData, true, env); OneAhead(v.filter, v.camera.own) && v.client == w.client
  {
    hide Spoken, Others, SendOwn, SendClient, ClientHeld;
    HeadCounted(w.filter.queue);
  }

  lemma ProduceAhead(w: World, env: Env)
    requires Inv(w) && OneAhead(w.filter, w.camera.own)
    ensures var v := Produce(w, env); OneAhead(v.filter, v.camera.own) && v.client == w.client
  {
    hide ProduceItem, Turns, UrbsHeld, Spoken, OneAhead;
    if w.filter.queue != [] {
      HeadCounted(w.filter.queue);
      match w.filter.queue[0]
      case OwnCommand => OwnCommandAhead(w, env);
      case ClientCommand => ClientCommandAhead(w, env);
      case OwnData => OwnDataAhead(w, env);
      case ClientRead => assert false;
    }
  }

  /** Nothing being ahead, the timer adds one. */
  lemma TimerAhead(w: World, env: Env)
    requires Inv(w) && Ahead(w.filter, w.camera.own) == 0 && w.filter.built && w.filter.state in {Active, Waiting}
    ensures var v := TimerStep(w, env);
      && OneAhead(v.filter, v.camera.own) && v.client == w.client
      && (w.camera.pending == Some(Client) ==> v.camera.pending == Some(Client))
  {
    hide Spoken, Others, SendOwn, SendClient;
    var f := w.filter;
    TailCounted(f.queue, OwnCommand);
    if f.state == Active && f.free > 0 && env.room {
      var v := Enter(w.(filter := f.(free := f.free - 1)), Busy);
      FilterFree(w, v);
      SendOwnSpoken(v);
    }
  }

  // ------------------------------------------------------------ each handler

  lemma PreviewAhead(v: World, early: bool, env: Env)
    requires Received(v) && v.client.preview && OneAhead(v.filter, v.camera.own)
    ensures var u := OnPreview(v, early, env); OneAhead(u.filter, u.camera.own) && u.client == v.client
  {
    hide Others, TimerStep, Spoken, Arrived, UrbsHeld, Completed, Parsers;
    var f := v.filter;
    PendingKinds(v.camera.pending);
    if f.state in {Idle, Sleep} {
      var soon := f.state == Sleep && f.frames > 0 && early;
      var frames := if f.state == Idle then 0 else f.frames;
      var x := v.(filter := f.(frames := frames, serving := true, state := Active, armed := f.armed || soon));
      WokenKeeps(v, frames, f.armed || soon);
      ArrivedFree(v, x);
      PreviewCompleted(x);
      if f.state == Idle {
        assert v.streams.front.(left := 0) == v.streams.front by { FrontEmpty(v); }
        assert x == v.(filter := x.filter, streams := v.streams.(front := v.streams.front.(left := 0)));
      }
      if !soon {
        TimerAhead(WithUrbs(Completed(x, true)), env);
      }
    } else {
      var x := v.(filter := f.(serving := true));
      ArrivedFree(v, x);
      PreviewCompleted(x);
    }
  }

  lemma CommandAhead(v: World)
    requires Received(v) && !v.client.preview && OneAhead(v.filter, v.camera.own)
    ensures var u := OnCommand(v);
      OneAhead(u.filter, u.camera.own) && (Waits(u) ==> u.camera.pending == Some(Own))
  {
    hide Others, Spoken, Arrived, Forward, UrbsHeld;
    var s := v.filter.state;
    PendingKinds(v.camera.pending);
    if s in {Idle, Sleep, Active} {
      var u := Enter(v, if s == Idle then CommandSent else if s == Sleep then SleepWait else Waiting);
      ArrivedFree(v, u);
      ForwardSpoken(u);
    } else {
      TailCounted(v.filter.queue, ClientCommand);
    }
  }

  /** A new session stops the timer, and finds nothing else ahead. */
  lemma ParsedAhead(w: World, bytes: seq<Byte>)
    requires Inv(w) && w.client.Resting? && IsCommand(bytes) && OneAhead(w.filter, w.camera.own)
    requires ChangesSession(bytes) ==> w.camera.pending != Some(Own) && OwnCommand !in w.filter.queue
    ensures var v := Parsed(w, bytes); OneAhead(v.filter, v.camera.own)
  {
    hide Spoken, UrbsHeld, Parsed, IsCommand, ChangesSession, IsPreview, Arrived;
    PendingKinds(w.camera.pending);
    CommandParsed(w, bytes);
  }

  lemma OutAhead(w: World, bytes: seq<Byte>, early: bool, env: Env)
    requires Inv(w) && Prompt(w) && Enabled(w, Out(bytes, early, env)) && Orderly(w, Out(bytes, early, env))
    requires Clean(w, Out(bytes, early, env))
    ensures Prompt(Step(w, Out(bytes, early, env)))
  {
    hide Turns, ClientHeld, UrbsHeld, Spoken, Parsed, Received, OnPreview, OnCommand, SendsData, IsCommand, ChangesSession;
    hide OneAhead;
    var next := Step(w, Out(bytes, early, env));
    OutKeeps(w, bytes, early, env);
    WaitsMeans(next);
    if w.client.Resting? {
      ParsedKeeps(w, bytes);
      ParsedAhead(w, bytes);
      var v := Parsed(w, bytes).(client := Asked(bytes));
      assert v.client.Asking? && v.client.preview == IsPreview(v.streams.urb) && |v.streams.urb| >= CODE_END by {
        KindKnown(v);
      }
      if v.client.preview {
        PreviewAhead(v, early, env);
      } else {
        CommandAhead(v);
      }
    } else {
      ClientTurn(w);
      DataSpoken(w, bytes);
      WaitsMeans(w);
    }
  }

  /** The timer fires once for each time it was set. */
  lemma FiredAhead(w: World, env: Env)
    requires Inv(w) && Prompt(w) && w.filter.armed
    ensures Prompt(TimerStep(Disarmed(w), env))
  {
    hide Spoken, TimerStep, ClientHeld, UrbsHeld;
    TimerSet(w, false);
    TimerKeeps(Disarmed(w), env);
    TimerAhead(Disarmed(w), env);
    WaitsMeans(w);
    WaitsMeans(TimerStep(Disarmed(w), env));
    OnlyClientsOwn(w);
    if w.camera.pending == Some(Own) {
      TimerLeavesOwn(Disarmed(w), env);
    }
  }

  lemma OnlyClientsOwn(w: World)
    requires Inv(w) && Prompt(w)
    ensures !Waits(w) ==> w.client.Resting? || w.client.preview || w.camera.pending == Some(Client)
  {
    hide Spoken, UrbsHeld, OneAhead;
    WaitsMeans(w);
  }

  lemma TimerLeavesOwn(w: World, env: Env)
    requires Parsers(w.streams) && Turns(w.filter.state, w.camera.pending, w.camera.own) && w.camera.pending == Some(Own)
    ensures TimerStep(w, env).camera == w.camera
  {
  }

  /** The last of a preview: the timer takes its place, or the filter sleeps. */
  lemma FinishedAhead(f: Filter, asleep: bool, own: OwnPhase)
    requires OneAhead(f, own) && own != Absent
    ensures OneAhead(AfterPreview(f, asleep), Absent)
  {
    hide Others;
    OthersCount(f.queue);
  }

  lemma MoreAhead(w: World, env: Env)
    requires Inv(w) && OneAhead(w.filter, w.camera.own) && w.camera.own == Reading
    ensures var v := ProduceItem(w, OwnData, false, env);
      OneAhead(v.filter, v.camera.own) && v.client == w.client && v.camera.pending == Some(Own)
  {
    hide Spoken, Others, SendOwn, SendClient, ClientHeld;
    TailCounted(w.filter.queue, OwnData);
  }

  /** While a preview is under way nothing but a client's command waits. */
  lemma ClientsAtHead(w: World)
    requires Inv(w) && Prompt(w) && Waits(w) && w.camera.own == Reading
    ensures w.filter.queue[0] == ClientCommand
  {
    hide Spoken;
    HeadCounted(w.filter.queue);
  }

  lemma DataDoneAhead(w: World, data: seq<Byte>, env: Env)
    requires Inv(w) && Prompt(w) && Enabled(w, DataDone(data, env))
    ensures Prompt(OnDataDone(w, data, env))
  {
    hide Turns, ClientHeld, UrbsHeld, Spoken, Produce, ProduceItem, SelfParsed, Malformed, Track, Piece, OnDataDone;
    hide FallsAsleep, OneAhead, AfterPreview;
    var u := DataDoneStep(w, data, env);
    var next := OnDataDone(w, data, env);
    OwnMeansBusy(w);
    DataDoneKeeps(w, data, env);
    WaitsMeans(w);
    WaitsMeans(next);
    if Complete(Track(w.streams.back, data)) {
      FinishedAhead(w.filter, FallsAsleep(w, data), w.camera.own);
      NothingOwn(u);
      ProduceAhead(u, env);
      if Waits(w) {
        ClientsAtHead(w);
        DataDoneTurn(w, data, env);
      }
    } else {
      assert OneAhead(u.filter, u.camera.own);
      MoreAhead(u, env);
    }
  }

  lemma NothingOwn(w: World)
    requires Inv(w) && w.camera.pending == None
    ensures w.camera.own == Absent
  {
    hide Spoken;
  }

  lemma EnterAhead(f: Filter, s: State)
    requires OneAhead(f, Absent) && s in {Idle, Active, Sleep}
    requires f.state == (if s == Idle then CommandSent else if s == Active then Waiting else SleepWait)
    ensures OneAhead(ChangeState(f, s), Absent)
  {
    hide Others;
    OthersCount(f.queue);
  }

  lemma AnsweredAhead(w: World, data: seq<Byte>, env: Env)
    requires Inv(w) && Prompt(w) && Enabled(w, Answered(data, env))
    ensures Prompt(OnAnswered(w, data, env))
  {
    hide Turns, ClientHeld, UrbsHeld, Spoken, Produce, TxParsed, Finishes, AnswersClient, ChangeState, OneAhead;
    ClientTurn(w);
    AnsweredSpoken(w, data);
    AnsweredKeeps(w, data, env);
    WaitsMeans(w);
    WaitsMeans(OnAnswered(w, data, env));
    var x := TxParsed(w, false, data);
    var n := Hear(ReaderOf(w.streams.tx), data).ended;
    var u := x.(camera := Speaks(x.camera, n));
    if n > 0 {
      var s := w.filter.state;
      var next := if s == Waiting then Active else if s == SleepWait then Sleep else Idle;
      FinishedKeeps(u, next);
      EnterAhead(u.filter, next);
      ProduceAhead(Enter(u, next), env);
    }
  }

  lemma ServedAhead(w: World, data: seq<Byte>, env: Env)
    requires Inv(w) && Prompt(w) && Enabled(w, Served(data, env))
    ensures Prompt(OnServed(w, data, env))
  {
    hide Turns, ClientHeld, UrbsHeld, Spoken, Produce, TxParsed, Finishes, Malformed, Track, Piece, ChangeState, OneAhead;
    ServingTurn(w);
    ServedSpoken(w, data);
    ServedKeeps(w, data, env);
    WaitsMeans(OnServed(w, data, env));
    var t := Track(w.streams.front, data);
    var f := if Complete(t) then w.filter.(serving := false, frames := w.filter.frames - 1) else w.filter;
    var x := w.(filter := f);
    FilterFree(w, x);
    ServedSpoken(x, data);
    var v := TxParsed(x.(streams := w.streams.(front := t)), true, data);
    ServedHeld(w, v, Complete(t));
    assert OneAhead(v.filter, v.camera.own) by { AheadIs(w.filter, v.filter, w.camera.own); }
    ProduceAhead(v, env);
    ProduceKeeps(v, env);
    if Complete(t) {
      ProduceAhead(Produce(v, env), env);
    }
  }

  lemma AheadIs(f: Filter, g: Filter, own: OwnPhase)
    requires OneAhead(f, own) && g == f.(serving := g.serving, frames := g.frames)
    ensures OneAhead(g, own)
  {
  }

  // ------------------------------------------------------------ runs

  lemma StepPrompt(w: World, e: Event)
    requires Inv(w) && Prompt(w) && Enabled(w, e) && Orderly(w, e) && Clean(w, e)
    ensures Prompt(Step(w, e))
  {
    hide Turns, ClientHeld, UrbsHeld, Spoken, Prompt, Orderly, Clean, OnOut, Parsed, OnRead;
    hide OnDataDone, OnAnswered, OnServed, TimerStep;
    match e
    case Out(bytes, early, env) => OutAhead(w, bytes, early, env);
    case Read(env) => ReadKeeps(w, env);
    case Timer(env) => FiredAhead(w, env);
    case CommandDone => CommandDonePrompt(w);
    case DataDone(data, env) => DataDoneAhead(w, data, env);
    case Answered(data, env) => AnsweredAhead(w, data, env);
    case Served(data, env) => ServedAhead(w, data, env);
  }

  lemma CommandDonePrompt(w: World)
    requires Inv(w) && Prompt(w) && w.camera.own == Commanding
    ensures Prompt(OnCommandDone(w))
  {
    hide Spoken;
  }

  predicate CleanRun(w: World, es: seq<Event>)
    requires Parsers(w.streams) && Feasible(w, es)
    decreases |es|
  {
    es == [] || (Clean(w, es[0]) && CleanRun(Step(w, es[0]), es[1..]))
  }

  lemma {:induction false} RunPrompt(w: World, es: seq<Event>)
    requires Inv(w) && Prompt(w) && Feasible(w, es) && CleanRun(w, es)
    ensures Inv(Run(w, es)) && Prompt(Run(w, es))
    decreases |es|
  {
    hide Turns, ClientHeld, UrbsHeld, Spoken, Prompt, Step, Enabled, Orderly, Clean;
    if es != [] {
      StepKeeps(w, es[0]);
      StepPrompt(w, es[0]);
      RunPrompt(Step(w, es[0]), es[1..]);
    }
  }

  lemma StartPrompt(limit: nat)
    ensures Inv(Start(limit)) && Prompt(Start(limit))
  {
    StartSafe(limit);
  }

  /** On every run without a session change, or whose session changes find no preview of
      the filter's own in the queue: exactly one of them is under way, queued or to be
      started by the timer while the filter is awake, and none otherwise; and a client's
      command waits only while one is under way. */
  lemma OneAheadWhileAwake(limit: nat, es: seq<Event>)
    requires Feasible(Start(limit), es) && CleanRun(Start(limit), es)
    ensures var w := Run(Start(limit), es);
      && Ahead(w.filter, w.camera.own) == (if Awake(w.filter.state) then 1 else 0)
      && (Waits(w) ==> w.filter.state in {Busy, Drop}) && !Blocked(w)
  {
    hide Spoken, ClientHeld, UrbsHeld, CleanRun;
    StartPrompt(limit);
    RunPrompt(Start(limit), es);
  }

  /** So on such a run a command that waits is sent by exactly the step that ends the
      preview under way. */
  lemma ClientSentAtPreviewEnd(limit: nat, es: seq<Event>, e: Event)
    requires Feasible(Start(limit), es) && CleanRun(Start(limit), es)
    requires var w := Run(Start(limit), es); Waits(w) && Enabled(w, e) && Orderly(w, e)
    ensures var w := Run(Start(limit), es);
      Step(w, e).camera.pending == Some(Client) <==> EndsPreview(w, e)
  {
    hide Turns, ClientHeld, UrbsHeld, Spoken, Step, Orderly, CleanRun, Prompt, FallsAsleep, Piece;
    StartPrompt(limit);
    RunPrompt(Start(limit), es);
    var w := Run(Start(limit), es);
    ClientSentIff(w, e);
    if EndsPreview(w, e) {
      ClientsAtHead(w);
    }
  }
}
