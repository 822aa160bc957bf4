/** Whose turn it is: on every run, what each step does to the queue and to the timer,
    and what it sends to the camera. */
module PtpTurns {
  import opened Bags
  import opened Bytes
  import opened PtpReading
  import opened PtpFilter
  import opened PtpStreams
  import opened PtpSpeech
  import opened PtpFilterSafety
  import opened PtpProgress
  import opened PtpPrompt
  import opened PtpServing
  import P = PtpParser

  // ------------------------------------------------------------ a look at the queue

  /** What is at the head may go: the filter's own command while nothing is under way and
      there is room, the client's while nothing is under way, data when they fit or
      nobody waits for them. */
  predicate HeadGoes(q: seq<Item>, s: State, env: Env) {
    q != [] && match q[0]
      case OwnCommand => s == Active && env.room
      case ClientCommand => s in {Idle, Active, Sleep}
      case OwnData => env.space != Full
      case ClientRead => false
  }

  function Gone(q: seq<Item>, s: State, env: Env): seq<Item> {
    if HeadGoes(q, s, env) then q[1..] else q
  }

  function Goer(q: seq<Item>, s: State, env: Env): Option<Owner> {
    if !HeadGoes(q, s, env) then None
    else if q[0] == OwnCommand then Some(Own)
    else if q[0] == ClientCommand then Some(Client)
    else None
  }

  /** The camera has got one more transfer of that owner's, or none. */
  predicate Passes(tape: seq<Passed>, next: seq<Passed>, o: Option<Owner>) {
    match o
    case None => next == tape
    case Some(x) => |next| == |tape| + 1 && next[..|tape|] == tape && next[|tape|].owner == x
  }

  predicate Looked(f: Filter, g: Filter, tape: seq<Passed>, next: seq<Passed>, env: Env) {
    && g.queue == Gone(f.queue, f.state, env) && g.armed == f.armed
    && Passes(tape, next, Goer(f.queue, f.state, env))
  }

  lemma OwnCommandLooked(w: World, env: Env)
    requires Inv(w) && Buffer(w.filter) && w.filter.queue != [] && w.filter.queue[0] == OwnCommand
    ensures var v := ProduceItem(w, OwnCommand, true, env);
      Looked(w.filter, v.filter, w.camera.tape, v.camera.tape, env)
  {
    hide Spoken, Others, SendOwn, SendClient, ClientHeld, Blank;
    HeadCounted(w.filter.queue);
    var s := w.filter.state;
    if s == Active && env.room {
      var v := Enter(Taken(w, true), Busy);
      FilterFree(w, v);
      SendOwnSpoken(v);
    }
  }

  lemma ClientCommandLooked(w: World, env: Env)
    requires Inv(w) && Buffer(w.filter) && w.filter.queue != [] && w.filter.queue[0] == ClientCommand
    ensures var v := ProduceItem(w, ClientCommand, true, env);
      Looked(w.filter, v.filter, w.camera.tape, v.camera.tape, env)
  {
    hide Spoken, Others, SendOwn, SendClient, UrbsHeld, Blank;
    HeadCounted(w.filter.queue);
    var s := w.filter.state;
    if s in {Idle, Sleep, Active} {
      var v := Enter(Taken(w, true), if s == Idle then CommandSent else if s == Sleep then SleepWait else Waiting);
      FilterFree(w, v);
      SendClientSpoken(v);
    }
  }

  lemma OwnDataLooked(w: World, env: Env)
    requires Inv(w) && w.filter.queue != [] && w.filter.queue[0] == OwnData
    ensures var v := ProduceItem(w, OwnData, true, env);
      Looked(w.filter, v.filter, w.camera.tape, v.camera.tape, env)
  {
    hide Spoken, Others, SendOwn, SendClient, ClientHeld, UrbsHeld;
    OwnMeansBusy(w) by { DataStalled(w); }
  }

  lemma ProduceLooked(w: World, env: Env)
    requires Inv(w) && Buffer(w.filter)
    ensures var v := Produce(w, env); Looked(w.filter, v.filter, w.camera.tape, v.camera.tape, env)
  {
    hide ProduceItem, Turns, UrbsHeld, Spoken, Buffer;
    if w.filter.queue != [] {
      HeadCounted(w.filter.queue);
      match w.filter.queue[0]
      case OwnCommand => OwnCommandLooked(w, env);
      case ClientCommand => ClientCommandLooked(w, env);
      case OwnData => OwnDataLooked(w, env);
      case ClientRead => assert false;
    }
  }

  /** The timer's own command is sent, or else queued. */
  predicate Tried(f: Filter, g: Filter, tape: seq<Passed>, next: seq<Passed>, env: Env) {
    var sent := f.state == Active && env.room;
    && g.queue == (if sent then f.queue else f.queue + [OwnCommand]) && g.armed == f.armed
    && Passes(tape, next, if sent then Some(Own) else None)
  }

  lemma TimerTried(w: World, env: Env)
    requires Inv(w)
    ensures var v := TimerStep(w, env);
      if w.filter.free > 0 && w.filter.state in {Active, Busy, Waiting} then
        Tried(w.filter, v.filter, w.camera.tape, v.camera.tape, env)
      else v == w
  {
    hide Spoken, Others, SendOwn, TimerStep, ClientHeld, UrbsHeld, Blank;
    var f := w.filter;
    FreeMeansBuilt(w);
    TimerDoes(w, env);
    if f.state == Active && f.free > 0 && env.room {
      var v := Enter(w.(filter := f.(free := f.free - 1)), Busy);
      FilterFree(w, v);
      SendOwnSpoken(v);
    }
  }

  // ------------------------------------------------------------ what a step does

  /** The client is answered in full. */
  predicate EndsAnswer(w: World, e: Event)
    requires Parsers(w.streams)
  {
    e.Answered? && Hear(ReaderOf(w.streams.tx), e.data).ended > 0
  }

  /** The steps that look at the queue. */
  predicate Looks(w: World, e: Event)
    requires Parsers(w.streams) && Enabled(w, e)
  {
    EndsPreview(w, e) || EndsAnswer(w, e) || e.Served?
  }

  /** The state and the queue once the transaction that ends is over. */
  function StateThen(w: World, e: Event): State
    requires Parsers(w.streams) && Enabled(w, e)
  {
    var s := w.filter.state;
    if EndsPreview(w, e) then if GoesOn(w, e.data) then Active else Sleep
    else if !EndsAnswer(w, e) then s
    else if s == Waiting then Active
    else if s == SleepWait then Sleep
    else Idle
  }

  function QueueThen(w: World, e: Event): seq<Item>
    requires Parsers(w.streams) && Enabled(w, e)
  {
    if EndsPreview(w, e) && !GoesOn(w, e.data) then if Waits(w) then [ClientCommand] else []
    else w.filter.queue
  }

  /** A preview command that comes early after a frame still buffered only sets the timer. */
  predicate Soon(w: World, e: Event) {
    Wakes(w, e) && w.filter.state == Sleep && w.filter.frames > 0 && e.early
  }

  /** The filter tries to send its own command: woken, or by the timer; it can while it
      has a URB. */
  predicate Tries(w: World, e: Event) {
    && (w.filter.free > 0 || !w.filter.built)
    && ((Wakes(w, e) && w.filter.state in {Idle, Sleep} && !Soon(w, e))
        || (e.Timer? && w.filter.built && w.filter.state in {Active, Busy, Waiting}))
  }

  predicate Manages(w: World, e: Event) {
    Tries(w, e) && e.env.room && w.filter.state !in {Busy, Waiting}
  }

  /** Another command of the client's. */
  predicate Commands(w: World, e: Event) {
    e.Out? && w.client.Resting? && !IsPreview(e.bytes)
  }

  function QueueAfter(w: World, e: Event): seq<Item>
    requires Parsers(w.streams) && Enabled(w, e)
  {
    var q := w.filter.queue;
    if Looks(w, e) then Gone(QueueThen(w, e), StateThen(w, e), e.env)
    else if Tries(w, e) && !Manages(w, e) then q + [OwnCommand]
    else if Commands(w, e) && w.camera.pending == Some(Own) then q + [ClientCommand]
    else if e.DataDone? && e.env.space == Full then q + [OwnData]
    else q
  }

  function GoerOf(w: World, e: Event): Option<Owner>
    requires Parsers(w.streams) && Enabled(w, e)
  {
    if Looks(w, e) then Goer(QueueThen(w, e), StateThen(w, e), e.env)
    else if Manages(w, e) then Some(Own)
    else if e.Out? && w.client.Asking? then Some(Client)
    else if Commands(w, e) && w.camera.pending != Some(Own) then Some(Client)
    else None
  }

  predicate ArmedAfter(w: World, e: Event)
    requires Parsers(w.streams) && Enabled(w, e)
  {
    || Soon(w, e) || (EndsPreview(w, e) && GoesOn(w, e.data))
    || (w.filter.armed && !e.Timer? && !EndsPreview(w, e) && !(EndsAnswer(w, e) && w.filter.state == SleepWait)
        && !(Resets(w, e) && w.filter.state.Intercepting()))
  }

  predicate TurnTaken(w: World, e: Event, v: World)
    requires Parsers(w.streams) && Enabled(w, e)
  {
    && v.filter.queue == QueueAfter(w, e) && (v.filter.armed <==> ArmedAfter(w, e))
    && Passes(w.camera.tape, v.camera.tape, GoerOf(w, e))
  }

  // ------------------------------------------------------------ each handler

  lemma DataDoneTaken(w: World, data: seq<Byte>, env: Env)
    requires Inv(w) && Buffer(w.filter) && Enabled(w, DataDone(data, env))
    ensures TurnTaken(w, DataDone(data, env), OnDataDone(w, data, env))
  {
    hide Turns, ClientHeld, UrbsHeld, Spoken, Produce, ProduceItem, SelfParsed, Malformed, Track, Piece, OnDataDone;
    hide Buffer, AfterPreview, HeadGoes, FallsAsleep, GoesOn;
    var u := DataDoneStep(w, data, env);
    OwnMeansBusy(w);
    if Complete(Track(w.streams.back, data)) {
      WhetherItGoesOn(w, data);
      AfterPreviewBuffer(w.filter, FallsAsleep(w, data)) by { AsleepMeans(w, data); }
      AfterQueue(w, data);
      ProduceLooked(u, env);
    } else {
      MoreTaken(u, env);
    }
  }

  lemma AsleepMeans(w: World, data: seq<Byte>)
    requires Parsers(w.streams)
    ensures FallsAsleep(w, data) <== w.filter.state == Drop || w.filter.frames + 1 >= w.filter.limit
  {
    hide SelfParsed;
  }

  lemma AfterQueue(w: World, data: seq<Byte>)
    requires Inv(w) && w.camera.own == Reading
    ensures var g := AfterPreview(w.filter, FallsAsleep(w, data));
      && g.queue == (if FallsAsleep(w, data) then if Waits(w) then [ClientCommand] else [] else w.filter.queue)
      && g.armed == !FallsAsleep(w, data) && g.state == if FallsAsleep(w, data) then Sleep else Active
  {
    hide Spoken, FallsAsleep, Others;
    if FallsAsleep(w, data) {
      if Waits(w) {
        OnlyClients(w.filter.queue);
      } else {
        NoneLeft(w.filter.queue);
      }
    }
  }

  lemma MoreTaken(w: World, env: Env)
    requires Inv(w) && w.camera.own == Reading
    ensures var v := ProduceItem(w, OwnData, false, env);
      && v.filter.queue == w.filter.queue + (if env.space == Full then [OwnData] else [])
      && v.filter.armed == w.filter.armed && v.camera.tape == w.camera.tape
  {
    hide Spoken, Others, SendOwn, SendClient, ClientHeld, UrbsHeld;
    OwnMeansBusy(w);
  }

  lemma AnsweredTaken(w: World, data: seq<Byte>, env: Env)
    requires Inv(w) && Buffer(w.filter) && Enabled(w, Answered(data, env))
    ensures TurnTaken(w, Answered(data, env), OnAnswered(w, data, env))
  {
    hide Turns, ClientHeld, UrbsHeld, Spoken, Produce, TxParsed, Finishes, AnswersClient, Buffer, HeadGoes, ChangeState;
    ClientTurn(w);
    NotServed(w);
    AnsweredSpoken(w, data);
    var x := TxParsed(w, false, data);
    var n := Hear(ReaderOf(w.streams.tx), data).ended;
    var u := x.(camera := Speaks(x.camera, n));
    if n > 0 {
      var s := w.filter.state;
      var next := if s == Waiting then Active else if s == SleepWait then Sleep else Idle;
      FinishedKeeps(u, next);
      EnterBuffer(u.filter, next);
      ProduceLooked(Enter(u, next), env);
      EnterQueue(w, next);
    }
  }

  lemma EnterQueue(w: World, s: State)
    requires Inv(w) && Buffer(w.filter) && s in {Idle, Active, Sleep}
    requires w.filter.state == (if s == Idle then CommandSent else if s == Active then Waiting else SleepWait)
    ensures var g := ChangeState(w.filter, s); g.queue == w.filter.queue && g.armed == (w.filter.armed && s != Sleep)
  {
    hide Others, Spoken, UrbsHeld, ClientHeld;
    if s == Sleep {
      SleepersQueue(w);
      assert Others([]) == [] by { NothingElse(); }
    }
  }

  lemma NothingElse()
    ensures Others([]) == []
  {
  }

  /** A filter that sleeps has nothing in its queue while the client's transaction runs. */
  lemma SleepersQueue(w: World)
    requires Inv(w) && Buffer(w.filter) && w.filter.state == SleepWait
    ensures w.filter.queue == []
  {
    hide Spoken;
    if w.filter.queue != [] {
      HeadCounted(w.filter.queue);
      match w.filter.queue[0] {
        case OwnCommand =>
        case OwnData =>
        case ClientCommand =>
        case ClientRead =>
      }
    }
  }

  lemma ServedTaken(w: World, data: seq<Byte>, env: Env)
    requires Inv(w) && Buffer(w.filter) && Enabled(w, Served(data, env))
    ensures TurnTaken(w, Served(data, env), OnServed(w, data, env))
  {
    hide Turns, ClientHeld, UrbsHeld, Spoken, Produce, OnDone, OnServed, Buffer, Piece, Hear, Blank, HeadGoes;
    var v := ServedStep(w, data, env);
    FrameTaken(w.filter, v.filter, EndsFrame(w, data));
    ProduceLooked(v, env);
    if EndsFrame(w, data) {
      NobodyWaits(v);
      LookedTwice(v, env);
    }
  }

  /** The second look finds nothing that may go. */
  lemma LookedTwice(v: World, env: Env)
    requires Inv(v) && Buffer(v.filter) && ClientCommand !in v.filter.queue
    ensures var u := Produce(v, env); var x := Produce(u, env);
      x.filter.queue == u.filter.queue && x.filter.armed == u.filter.armed && x.camera.tape == u.camera.tape
  {
    hide Turns, ClientHeld, UrbsHeld, Spoken, Produce, Buffer, HeadGoes;
    var u := Produce(v, env);
    ProduceLooked(v, env);
    ProduceKeeps(v, env);
    ProduceBuffer(v, env);
    ProduceLooked(u, env);
    assert !HeadGoes(u.filter.queue, u.filter.state, env) by { NothingMore(v, env); }
  }

  lemma NothingMore(v: World, env: Env)
    requires Inv(v) && Buffer(v.filter) && ClientCommand !in v.filter.queue
    ensures var u := Produce(v, env); !HeadGoes(u.filter.queue, u.filter.state, env)
  {
    hide Spoken, Others, SendOwn, SendClient, ClientHeld;
    var q := v.filter.queue;
    if q != [] {
      HeadCounted(q);
      NoReads(v);
      if q[0] == OwnCommand && v.filter.state == Active && env.room {
        var u := Enter(Taken(v, true), Busy);
        FilterFree(v, u);
        SendOwnSpoken(u);
        assert OwnData !in q[1..] && ClientCommand !in q[1..];
      }
    }
  }

  // ------------------------------------------------------------ what the client sends

  lemma WokenTaken(v: World, early: bool, env: Env)
    requires Received(v) && v.client.preview && Buffer(v.filter) && Made(v.filter) && v.filter.state in {Idle, Sleep}
    ensures var f, u := v.filter, OnPreview(v, early, env);
      var soon := f.state == Sleep && f.frames > 0 && early;
      var tries := !soon && (f.free > 0 || !f.built);
      && u.filter.armed == (f.armed || soon)
      && u.filter.queue == f.queue + (if tries && !env.room then [OwnCommand] else [])
      && Passes(v.camera.tape, u.camera.tape, if tries && env.room then Some(Own) else None)
  {
    hide Others, TimerStep, Spoken, Arrived, UrbsHeld, Completed, Parsers, ClientHeld, Buffer, Turns;
    ReceivedUnserved(v);
    var f := v.filter;
    var soon := f.state == Sleep && f.frames > 0 && early;
    var frames := if f.state == Idle then 0 else f.frames;
    var x := v.(filter := f.(frames := frames, serving := true, state := Active, armed := f.armed || soon));
    WokenKeeps(v, frames, f.armed || soon);
    ArrivedFree(v, x);
    PreviewCompleted(x);
    if f.state == Idle {
      assert v.streams.front.(left := 0) == v.streams.front by { FrontEmpty(v); }
      assert x == v.(filter := x.filter, streams := v.streams.(front := v.streams.front.(left := 0)));
    }
    if !soon {
      TimerTried(WithUrbs(Completed(x, true)), env);
    }
  }

  lemma PreviewTaken(v: World, early: bool, env: Env)
    requires Received(v) && v.client.preview && Buffer(v.filter) && Made(v.filter)
    ensures var f, u := v.filter, OnPreview(v, early, env);
      var soon := f.state == Sleep && f.frames > 0 && early;
      var tries := f.state in {Idle, Sleep} && !soon && (f.free > 0 || !f.built);
      && u.filter.armed == (f.armed || soon)
      && u.filter.queue == f.queue + (if tries && !env.room then [OwnCommand] else [])
      && Passes(v.camera.tape, u.camera.tape, if tries && env.room then Some(Own) else None)
  {
    hide Others, TimerStep, Spoken, Arrived, UrbsHeld, Completed, Parsers, ClientHeld;
    ReceivedUnserved(v);
    PendingKinds(v.camera.pending);
    if v.filter.state in {Idle, Sleep} {
      WokenTaken(v, early, env);
    } else {
      var x := v.(filter := v.filter.(serving := true));
      ArrivedFree(v, x);
      PreviewCompleted(x);
    }
  }

  lemma CommandTaken(v: World)
    requires Received(v) && !v.client.preview
    ensures var f, u := v.filter, OnCommand(v);
      var waits := v.camera.pending == Some(Own);
      && u.filter.armed == f.armed && u.filter.queue == f.queue + (if waits then [ClientCommand] else [])
      && Passes(v.camera.tape, u.camera.tape, if waits then None else Some(Client))
  {
    hide Others, Spoken, Arrived, Forward, UrbsHeld, Blank;
    var s := v.filter.state;
    PendingKinds(v.camera.pending);
    ReceivedUnserved(v);
    if s in {Idle, Sleep, Active} {
      var u := Enter(v, if s == Idle then CommandSent else if s == Sleep then SleepWait else Waiting);
      ArrivedFree(v, u);
      ForwardSpoken(u);
    }
  }

  lemma ParsedTaken(w: World, bytes: seq<Byte>)
    requires Inv(w) && w.client.Resting? && IsCommand(bytes)
    ensures var f, v := w.filter, Parsed(w, bytes).(client := Asked(bytes));
      && v.camera == w.camera && v.filter.queue == f.queue && v.filter.free == f.free && v.filter.built == f.built
      && v.filter.frames == f.frames && v.filter.state == (if ChangesSession(bytes) then Idle else f.state)
      && v.filter.armed == (f.armed && !(ChangesSession(bytes) && f.state.Intercepting()))
      && v.client.preview == IsPreview(bytes)
  {
    hide Spoken, UrbsHeld, Parsed, IsCommand, ChangesSession, IsPreview, Arrived;
    PendingKinds(w.camera.pending);
    CommandParsed(w, bytes);
  }

  /** What the handler is given when a command arrives. */
  lemma CommandArrives(w: World, bytes: seq<Byte>, early: bool, env: Env) returns (v: World)
    requires Inv(w) && Buffer(w.filter) && Made(w.filter) && w.client.Resting? && IsCommand(bytes)
    requires ChangesSession(bytes) ==> w.camera.pending != Some(Own)
    ensures Received(v) && Buffer(v.filter) && Made(v.filter)
    ensures v.client.Asking? && v.client.preview == IsPreview(bytes)
    ensures Step(w, Out(bytes, early, env)) == if v.client.preview then OnPreview(v, early, env) else OnCommand(v)
    ensures var f, g := w.filter, v.filter;
      && v.camera == w.camera && g.queue == f.queue && g.free == f.free && g.built == f.built && g.frames == f.frames
      && g.state == (if ChangesSession(bytes) then Idle else f.state)
      && g.armed == (f.armed && !(ChangesSession(bytes) && f.state.Intercepting()))
  {
    hide Turns, ClientHeld, UrbsHeld, Spoken, Parsed, Received, OnPreview, OnCommand, IsCommand, ChangesSession;
    hide Buffer, IsPreview, Blank;
    ParsedKeeps(w, bytes);
    ParsedBuffer(w, bytes);
    ParsedTaken(w, bytes);
    v := Parsed(w, bytes).(client := Asked(bytes));
    assert v.client.Asking? && v.client.preview == IsPreview(v.streams.urb) && |v.streams.urb| >= CODE_END by {
      KindKnown(v);
    }
  }

  lemma FirstTaken(w: World, bytes: seq<Byte>, early: bool, env: Env)
    requires Inv(w) && Buffer(w.filter) && Made(w.filter) && w.client.Resting? && IsCommand(bytes)
    requires ChangesSession(bytes) ==> w.camera.pending != Some(Own)
    ensures TurnTaken(w, Out(bytes, early, env), Step(w, Out(bytes, early, env)))
  {
    hide Turns, ClientHeld, UrbsHeld, Spoken, Parsed, Received, OnPreview, OnCommand, IsCommand, ChangesSession;
    hide Buffer, IsPreview, Step;
    NoPreviewIsSession(bytes);
    var v := CommandArrives(w, bytes, early, env);
    if v.client.preview {
      PreviewTaken(v, early, env);
    } else {
      CommandTaken(v);
    }
  }

  lemma MoreSentTaken(w: World, bytes: seq<Byte>, early: bool, env: Env)
    requires Inv(w) && w.client.Asking?
    requires Enabled(w, Out(bytes, early, env)) && Orderly(w, Out(bytes, early, env))
    ensures TurnTaken(w, Out(bytes, early, env), Step(w, Out(bytes, early, env)))
  {
    hide Turns, ClientHeld, UrbsHeld, Spoken, Parsed, Forward, SendsData, IsCommand, ChangesSession, IsPreview, Blank;
    ClientTurn(w);
    DataSpoken(w, bytes);
  }

  lemma OutTaken(w: World, bytes: seq<Byte>, early: bool, env: Env)
    requires Inv(w) && Buffer(w.filter) && Made(w.filter)
    requires Enabled(w, Out(bytes, early, env)) && Orderly(w, Out(bytes, early, env))
    ensures TurnTaken(w, Out(bytes, early, env), Step(w, Out(bytes, early, env)))
  {
    hide Inv, Buffer, Made, TurnTaken, Step, IsCommand, ChangesSession;
    if w.client.Resting? {
      FirstTaken(w, bytes, early, env);
    } else {
      MoreSentTaken(w, bytes, early, env);
    }
  }

  // ------------------------------------------------------------ every step

  lemma CommandDoneTaken(w: World)
    requires Inv(w) && w.camera.own == Commanding
    ensures var v := OnCommandDone(w); v.filter == w.filter && v.camera.tape == w.camera.tape
  {
    hide Spoken;
  }

  lemma StepTaken(w: World, e: Event)
    requires Inv(w) && Buffer(w.filter) && Made(w.filter) && Enabled(w, e) && Orderly(w, e)
    ensures TurnTaken(w, e, Step(w, e))
  {
    hide Turns, ClientHeld, UrbsHeld, Spoken, Buffer, Orderly, OnOut, Parsed, OnRead, Malformed, Track;
    hide OnDataDone, OnAnswered, OnServed, TimerStep;
    match e
    case Out(bytes, early, env) => OutTaken(w, bytes, early, env);
    case Read(env) => ReadKeeps(w, env);
    case Timer(env) =>
      TimerSet(w, false);
      FreeMeansBuilt(w);
      TimerTried(Disarmed(w), env);
    case CommandDone => CommandDoneTaken(w);
    case DataDone(data, env) => DataDoneTaken(w, data, env);
    case Answered(data, env) => AnsweredTaken(w, data, env);
    case Served(data, env) => ServedTaken(w, data, env);
  }

  /** On every run the next step takes from the queue, joins to it, sets the timer and
      sends to the camera exactly what is said above. */
  lemma TurnsTaken(limit: nat, es: seq<Event>, e: Event)
    requires Feasible(Start(limit), es) && Enabled(Run(Start(limit), es), e) && Orderly(Run(Start(limit), es), e)
    ensures var w := Run(Start(limit), es); TurnTaken(w, e, Step(w, e))
  {
    hide Turns, ClientHeld, UrbsHeld, Spoken, Buffer, Step, Enabled, Orderly, TurnTaken, Made;
    StartSafe(limit);
    StartBuffer(limit);
    RunBuffer(Start(limit), es);
    StepTaken(Run(Start(limit), es), e);
  }
}
