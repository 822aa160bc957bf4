/** How many frames the filter buffers, and when a client that is being served waits for
    a frame that never comes. */
module PtpServing {
  import opened Bags
  import opened Bytes
  import opened PtpReading
  import opened PtpFilter
  import opened PtpStreams
  import opened PtpSpeech
  import opened PtpFilterSafety
  import opened PtpProgress
  import opened PtpPrompt
  import P = PtpParser

  /** One frame more than the limit may be there only while a client is being served, and
      then the filter is asleep. */
  predicate Bounded(f: Filter) {
    var limit := f.limit + if f.serving then 1 else 0;
    if Awake(f.state) then f.frames < limit else f.frames <= limit
  }

  /** Frames are bounded, nobody is served by a filter that does not intercept, and a
      filter asleep has no preview of its own in the queue. */
  predicate Buffer(f: Filter) {
    && Bounded(f)
    && (f.serving ==> f.state in {Active, Busy, Drop, Sleep})
    && (f.state in {Sleep, SleepWait} ==> OwnCommand !in f.queue)
  }

  /** The filter intercepts only with URBs of its own. */
  predicate Made(f: Filter) {
    f.state.Intercepting() ==> f.built
  }

  /** What producing leaves alone: it turns a frame into one to be dropped exactly when
      its data finds no room and nobody reads it. */
  predicate Produces(f: Filter, g: Filter, overrun: bool) {
    && g.frames == f.frames && g.serving == f.serving && g.limit == f.limit && g.built == f.built
    && (Awake(g.state) <==> Awake(f.state)) && (f.state == Sleep && f.serving ==> g.state == Sleep)
    && (g.state.Intercepting() <==> f.state.Intercepting()) && (g.state == Drop <==> f.state == Drop || overrun)
    && Buffer(g)
  }

  /** Data of the filter's own is next, and finds no room and nobody who reads its frame. */
  predicate Overruns(f: Filter, env: Env) {
    f.queue != [] && f.queue[0] == OwnData && env.space == Overrun
  }

  lemma OwnCommandBuffer(w: World, env: Env)
    requires Inv(w) && Buffer(w.filter) && w.filter.queue != [] && w.filter.queue[0] == OwnCommand
    ensures Produces(w.filter, ProduceItem(w, OwnCommand, true, env).filter, false)
  {
    hide Spoken, Others, SendOwn, SendClient, ClientHeld;
    HeadCounted(w.filter.queue);
    var s := w.filter.state;
    if s == Active && env.room {
      var v := Enter(Taken(w, true), Busy);
      FilterFree(w, v);
      SendOwnSpoken(v);
    }
  }

  lemma ClientCommandBuffer(w: World, env: Env)
    requires Inv(w) && Buffer(w.filter) && w.filter.queue != [] && w.filter.queue[0] == ClientCommand
    ensures Produces(w.filter, ProduceItem(w, ClientCommand, true, env).filter, false)
  {
    hide Spoken, Others, SendOwn, SendClient, UrbsHeld;
    HeadCounted(w.filter.queue);
    var s := w.filter.state;
    if s in {Idle, Sleep, Active} {
      var v := Enter(Taken(w, true), if s == Idle then CommandSent else if s == Sleep then SleepWait else Waiting);
      FilterFree(w, v);
      SendClientSpoken(v);
    }
  }

  lemma OwnDataBuffer(w: World, pending: bool, env: Env)
    requires Inv(w) && Buffer(w.filter) && w.camera.own != Absent
    requires pending ==> w.filter.queue != [] && w.filter.queue[0] == OwnData
    ensures Produces(w.filter, ProduceItem(w, OwnData, pending, env).filter, env.space == Overrun)
  {
    hide Spoken, Others, SendOwn, SendClient, ClientHeld, UrbsHeld;
  }

  lemma ProduceBuffer(w: World, env: Env)
    requires Inv(w) && Buffer(w.filter)
    ensures Produces(w.filter, Produce(w, env).filter, Overruns(w.filter, env))
  {
    hide ProduceItem, Turns, UrbsHeld, Spoken;
    if w.filter.queue != [] {
      HeadCounted(w.filter.queue);
      match w.filter.queue[0]
      case OwnCommand => OwnCommandBuffer(w, env);
      case ClientCommand => ClientCommandBuffer(w, env);
      case OwnData =>
        DataStalled(w);
        OwnDataBuffer(w, true, env);
      case ClientRead => assert false;
    }
  }

  lemma DataStalled(w: World)
    requires Inv(w) && OwnData in w.filter.queue
    ensures w.camera.own == Stalled
  {
    hide Spoken;
  }

  lemma TimerBuffer(w: World, env: Env)
    requires Inv(w) && Buffer(w.filter)
    ensures Produces(w.filter, TimerStep(w, env).filter, false)
  {
    hide Spoken, Others, SendOwn, TimerStep, ClientHeld, UrbsHeld;
    var f := w.filter;
    FreeMeansBuilt(w);
    TimerDoes(w, env);
    if f.state == Active && f.free > 0 && env.room {
      var v := Enter(w.(filter := f.(free := f.free - 1)), Busy);
      FilterFree(w, v);
      SendOwnSpoken(v);
    }
  }

  // ------------------------------------------------------------ each handler

  lemma ReceivedUnserved(v: World)
    requires Received(v)
    ensures !v.filter.serving && v.camera.pending != Some(Client)
  {
    hide Arrived, UrbsHeld;
  }

  /** The filter wakes: one more frame is wanted. */
  lemma WakingBuffer(f: Filter, g: Filter)
    requires Buffer(f) && !f.serving && f.state in {Idle, Sleep}
    requires g == f.(frames := if f.state == Idle then 0 else f.frames, serving := true, state := Active,
                     armed := g.armed)
    ensures Buffer(g)
  {
  }

  lemma BuiltBuffer(w: World)
    requires Buffer(w.filter)
    ensures var g := WithUrbs(w).filter;
      Buffer(g) && g.built && g.state == w.filter.state && g.limit == w.filter.limit && g.frames == w.filter.frames
  {
  }

  lemma WokenBuffer(v: World, early: bool, env: Env)
    requires Received(v) && v.client.preview && Buffer(v.filter) && Made(v.filter) && v.filter.state in {Idle, Sleep}
    ensures var f, g := v.filter, OnPreview(v, early, env).filter;
      && Buffer(g) && g.limit == f.limit && Awake(g.state) && g.state != Drop && g.built
      && g.frames == (if f.state == Idle then 0 else f.frames)
  {
    hide Others, TimerStep, Spoken, Arrived, UrbsHeld, Completed, Parsers, ClientHeld, Buffer, WithUrbs, Turns;
    ReceivedUnserved(v);
    var f := v.filter;
    var soon := f.state == Sleep && f.frames > 0 && early;
    var frames := if f.state == Idle then 0 else f.frames;
    var x := v.(filter := f.(frames := frames, serving := true, state := Active, armed := f.armed || soon));
    WakingBuffer(f, x.filter);
    WokenKeeps(v, frames, f.armed || soon);
    ArrivedFree(v, x);
    PreviewCompleted(x);
    if f.state == Idle {
      assert v.streams.front.(left := 0) == v.streams.front by { FrontEmpty(v); }
      assert x == v.(filter := x.filter, streams := v.streams.(front := v.streams.front.(left := 0)));
    }
    if !soon {
      var u := Completed(x, true);
      BuiltBuffer(u);
      TimerBuffer(WithUrbs(u), env);
    }
  }

  lemma PreviewBuffer(v: World, early: bool, env: Env)
    requires Received(v) && v.client.preview && Buffer(v.filter) && Made(v.filter)
    ensures var f, g := v.filter, OnPreview(v, early, env).filter;
      && Buffer(g) && g.limit == f.limit && g.state != Sleep && g.built
      && Awake(g.state) && (g.state == Drop <==> f.state == Drop)
      && g.frames == (if f.state == Idle then 0 else f.frames)
  {
    hide Others, TimerStep, Spoken, Arrived, UrbsHeld, Completed, Parsers, ClientHeld;
    ReceivedUnserved(v);
    PendingKinds(v.camera.pending);
    if v.filter.state in {Idle, Sleep} {
      WokenBuffer(v, early, env);
    } else {
      var x := v.(filter := v.filter.(serving := true));
      ArrivedFree(v, x);
      PreviewCompleted(x);
    }
  }

  lemma CommandBuffer(v: World)
    requires Received(v) && !v.client.preview && Buffer(v.filter)
    ensures var f, g := v.filter, OnCommand(v).filter;
      && Buffer(g) && g.limit == f.limit && !g.serving && g.frames == f.frames && g.built == f.built
      && (Awake(g.state) <==> Awake(f.state)) && (g.state.Intercepting() <==> f.state.Intercepting())
      && (g.state == Drop <==> f.state == Drop)
  {
    hide Others, Spoken, Arrived, Forward, UrbsHeld;
    var s := v.filter.state;
    PendingKinds(v.camera.pending);
    if s in {Idle, Sleep, Active} {
      var u := Enter(v, if s == Idle then CommandSent else if s == Sleep then SleepWait else Waiting);
      ArrivedFree(v, u);
      ForwardSpoken(u);
    }
  }

  lemma ParsedBuffer(w: World, bytes: seq<Byte>)
    requires Inv(w) && w.client.Resting? && IsCommand(bytes) && Buffer(w.filter)
    ensures var f, g := w.filter, Parsed(w, bytes).filter;
      && Buffer(g) && g.limit == f.limit && g.frames == f.frames && g.built == f.built
      && g.state == (if ChangesSession(bytes) then Idle else f.state)
  {
    hide Spoken, UrbsHeld, Parsed, IsCommand, ChangesSession, IsPreview, Arrived;
    PendingKinds(w.camera.pending);
    CommandParsed(w, bytes);
  }

  /** A client served with no frame there, by a filter that is asleep. */
  predicate Starved(f: Filter) {
    f.serving && f.frames == 0 && f.state == Sleep
  }

  /** Whether a read of the client's takes the last of a frame. */
  predicate EndsFrame(w: World, data: seq<Byte>)
    requires Parsers(w.streams)
  {
    Hear(ReaderOf(w.streams.tx), data).ended > 0
  }

  /** A preview command. */
  predicate Wakes(w: World, e: Event) {
    e.Out? && w.client.Resting? && IsPreview(e.bytes)
  }

  /** A session is opened or closed. */
  predicate Resets(w: World, e: Event) {
    e.Out? && w.client.Resting? && ChangesSession(e.bytes)
  }

  /** The frame that ends is kept and there is room for another. */
  predicate GoesOn(w: World, data: seq<Byte>)
    requires Parsers(w.streams)
  {
    && w.filter.state == Busy && w.filter.frames + 1 < w.filter.limit
    && P.Scan(P.Self, false, w.streams.ids, w.streams.self, data).m.pdu.code == 0x2001
  }

  /** A read of the client's takes the last of a frame. */
  predicate TakesFrame(w: World, e: Event)
    requires Parsers(w.streams)
  {
    e.Served? && EndsFrame(w, e.data)
  }

  /** Whether a step finds no room for data that nobody waits for. */
  predicate FindsNoRoom(w: World, e: Event)
    requires Parsers(w.streams) && Enabled(w, e)
  {
    || (e.DataDone? && !EndsPreview(w, e) && e.env.space == Overrun)
    || (e.Served? && Overruns(w.filter, e.env))
  }

  /** All that a step can do to the filter's state, beside whose turn it is: a preview
      command wakes it, a session change stops it, the end of a preview puts it to sleep
      or not; frames are dropped exactly for want of room; and frames are counted. */
  predicate Changed(w: World, e: Event, g: Filter)
    requires Parsers(w.streams) && Enabled(w, e)
  {
    var f := w.filter;
    && (g.state.Intercepting() <==> Wakes(w, e) || (f.state.Intercepting() && !Resets(w, e)))
    && (Awake(g.state) <==>
          Wakes(w, e) || (Awake(f.state) && !Resets(w, e) && (EndsPreview(w, e) ==> GoesOn(w, e.data))))
    && (g.state == Drop <==> (f.state == Drop && !EndsPreview(w, e)) || FindsNoRoom(w, e))
    && (g.built <==> f.built || Wakes(w, e))
    && g.frames ==
       if Wakes(w, e) && f.state == Idle then 0
       else if EndsPreview(w, e) && f.state == Busy then f.frames + 1
       else if TakesFrame(w, e) then f.frames - 1
       else f.frames
  }

  lemma OutBuffer(w: World, bytes: seq<Byte>, early: bool, env: Env)
    requires Inv(w) && Buffer(w.filter) && Made(w.filter)
    requires Enabled(w, Out(bytes, early, env)) && Orderly(w, Out(bytes, early, env))
    ensures var f, g := w.filter, Step(w, Out(bytes, early, env)).filter;
      && Buffer(g) && g.limit == f.limit && !Starved(g) && Changed(w, Out(bytes, early, env), g)
  {
    hide Turns, ClientHeld, UrbsHeld, Spoken, Parsed, Received, OnPreview, OnCommand, SendsData, IsCommand, ChangesSession;
    hide Buffer, IsPreview;
    DropPending(w);
    NoPreviewIsSession(bytes);
    if w.client.Resting? {
      ParsedKeeps(w, bytes);
      ParsedBuffer(w, bytes);
      var v := Parsed(w, bytes).(client := Asked(bytes));
      assert Made(v.filter);
      assert v.client.Asking? && v.client.preview == IsPreview(v.streams.urb) && |v.streams.urb| >= CODE_END by {
        KindKnown(v);
      }
      if v.client.preview {
        PreviewBuffer(v, early, env);
      } else {
        CommandBuffer(v);
      }
    } else {
      ClientTurn(w);
      NotServed(w);
      DataSpoken(w, bytes);
    }
  }

  lemma DropPending(w: World)
    requires Inv(w)
    ensures w.filter.state == Drop ==> w.camera.pending == Some(Own)
  {
    hide Spoken;
  }

  lemma NotServed(w: World)
    requires Inv(w) && w.client.Asking? && !w.client.preview
    ensures !w.filter.serving
  {
    hide Spoken;
  }

  /** The frame of a finished preview counts, unless it was dropped. */
  lemma AfterPreviewBuffer(f: Filter, asleep: bool)
    requires Buffer(f) && f.state in {Busy, Drop}
    requires asleep <== f.state == Drop || f.frames + 1 >= f.limit
    ensures var g := AfterPreview(f, asleep);
      && Buffer(g) && g.limit == f.limit && g.serving == f.serving
      && (Starved(g) <==> f.state == Drop && f.serving && f.frames == 0)
      && g.state == (if asleep then Sleep else Active) && g.built == f.built
      && g.frames == f.frames + (if f.state == Drop then 0 else 1)
  {
    hide Others;
    OthersCount(f.queue);
    assert OwnCommand !in multiset(Others(f.queue));
  }

  lemma DataDoneBuffer(w: World, data: seq<Byte>, env: Env)
    requires Inv(w) && Buffer(w.filter) && Enabled(w, DataDone(data, env))
    ensures var f, g := w.filter, OnDataDone(w, data, env).filter;
      && Buffer(g) && g.limit == f.limit
      && (Starved(g) <==> EndsPreview(w, DataDone(data, env)) && f.state == Drop && f.serving && f.frames == 0)
      && Changed(w, DataDone(data, env), g)
  {
    hide Turns, ClientHeld, UrbsHeld, Spoken, Produce, ProduceItem, SelfParsed, Malformed, Track, Piece, OnDataDone;
    hide Buffer, AfterPreview;
    var u := DataDoneStep(w, data, env);
    OwnMeansBusy(w);
    if Complete(Track(w.streams.back, data)) {
      AfterPreviewBuffer(w.filter, FallsAsleep(w, data));
      WhetherItGoesOn(w, data);
      assert !Overruns(u.filter, env) by { NoDataLeft(w, u); }
      ProduceBuffer(u, env);
      Asleep(u.filter, Produce(u, env).filter, Overruns(u.filter, env));
    } else {
      OwnDataBuffer(u, false, env);
    }
  }

  lemma WhetherItGoesOn(w: World, data: seq<Byte>)
    requires Inv(w) && w.camera.own == Reading && Piece(ReaderOf(w.streams.self), data)
    ensures FallsAsleep(w, data) <==> !GoesOn(w, data)
  {
    hide P.Scan, Hear, Piece, ClientHeld, UrbsHeld, Spoken;
    OwnMeansBusy(w);
    PieceCountable(w.streams.self, data);
    assert Hear(ReaderOf(w.streams.self), data).ok by { PieceOk(ReaderOf(w.streams.self), data); }
    ScanHears(P.Self, false, w.streams.ids, w.streams.self, data);
  }

  /** Once the preview is over none of its data waits. */
  lemma NoDataLeft(w: World, u: World)
    requires Inv(u) && u.camera.pending == None
    ensures u.filter.queue != [] ==> u.filter.queue[0] != OwnData
  {
    hide Spoken;
    if u.filter.queue != [] {
      HeadCounted(u.filter.queue);
    }
  }

  /** Producing neither starves a client nor feeds one. */
  lemma Asleep(f: Filter, g: Filter, overrun: bool)
    requires Buffer(f) && Produces(f, g, overrun)
    ensures Starved(f) <==> Starved(g)
  {
  }

  lemma EnterBuffer(f: Filter, s: State)
    requires Buffer(f) && !f.serving
    requires
      || (f.state == CommandSent && s == Idle) || (f.state == Waiting && s == Active)
      || (f.state == SleepWait && s == Sleep)
    ensures var g := ChangeState(f, s);
      && Buffer(g) && g.limit == f.limit && !g.serving && g.state == s && g.frames == f.frames && g.built == f.built
      && (Awake(s) <==> Awake(f.state)) && (s.Intercepting() <==> f.state.Intercepting())
  {
    hide Others;
    OthersCount(f.queue);
    assert OwnCommand !in multiset(Others(f.queue));
  }

  lemma AnsweredBuffer(w: World, data: seq<Byte>, env: Env)
    requires Inv(w) && Buffer(w.filter) && Enabled(w, Answered(data, env))
    ensures var g := OnAnswered(w, data, env).filter;
      Buffer(g) && g.limit == w.filter.limit && !g.serving && Changed(w, Answered(data, env), g)
  {
    hide Turns, ClientHeld, UrbsHeld, Spoken, Produce, TxParsed, Finishes, AnswersClient, ChangeState, Buffer;
    ClientTurn(w);
    NotServed(w);
    AnsweredSpoken(w, data);
    var x := TxParsed(w, false, data);
    var n := Hear(ReaderOf(w.streams.tx), data).ended;
    var u := x.(camera := Speaks(x.camera, n));
    if n > 0 {
      var s := w.filter.state;
      var next := if s == Waiting then Active else if s == SleepWait then Sleep else Idle;
      FinishedKeeps(u, next);
      EnterBuffer(u.filter, next);
      ProduceBuffer(Enter(u, next), env);
      assert !Overruns(Enter(u, next).filter, env) by { NoDataLeft(w, Enter(u, next)); }
    }
  }

  /** What serving a piece does before the queue is looked at. */
  lemma ServedStep(w: World, data: seq<Byte>, env: Env) returns (v: World)
    requires Inv(w) && Enabled(w, Served(data, env))
    ensures Inv(v)
    ensures v == w.(filter := v.filter, streams := v.streams, client := v.client, answers := v.answers, read := v.read)
    ensures v.read == w.read + [Blank(ReaderOf(w.streams.tx), data)]
    ensures v.streams == w.streams.(ids := v.streams.ids, tx := v.streams.tx, front := v.streams.front)
    ensures w.filter.serving && (EndsFrame(w, data) ==> w.filter.frames > 0)
    ensures v.filter ==
      if EndsFrame(w, data) then w.filter.(serving := false, frames := w.filter.frames - 1) else w.filter
    ensures v.client == if EndsFrame(w, data) then Resting else w.client
    ensures OnServed(w, data, env) == if EndsFrame(w, data) then Produce(OnDone(v, env), env) else Produce(v, env)
    ensures EndsFrame(w, data) ==> OnDone(v, env) == Produce(v, env)
  {
    hide Turns, ClientHeld, UrbsHeld, Spoken, Produce, TxParsed, Finishes, Malformed, Track, Piece, ChangeState, Blank;
    ServingTurn(w);
    ServedSpoken(w, data);
    var t := Track(w.streams.front, data);
    var f := if Complete(t) then w.filter.(serving := false, frames := w.filter.frames - 1) else w.filter;
    var x := w.(filter := f);
    FilterFree(w, x);
    ServedSpoken(x, data);
    v := TxParsed(x.(streams := w.streams.(front := t)), true, data);
    ServedHeld(w, v, Complete(t));
  }

  lemma ServedBuffer(w: World, data: seq<Byte>, env: Env)
    requires Inv(w) && Buffer(w.filter) && Enabled(w, Served(data, env))
    ensures var f, g := w.filter, OnServed(w, data, env).filter;
      && Buffer(g) && g.limit == f.limit
      && g.serving == !EndsFrame(w, data) && g.frames == f.frames - (if EndsFrame(w, data) then 1 else 0)
      && (Starved(g) <==> Starved(f)) && Changed(w, Served(data, env), g)
  {
    hide Turns, ClientHeld, UrbsHeld, Spoken, Produce, OnDone, OnServed, Buffer, Piece, Hear, Blank;
    var v := ServedStep(w, data, env);
    FrameTaken(w.filter, v.filter, EndsFrame(w, data));
    if EndsFrame(w, data) {
      NobodyWaits(v);
      TwiceBuffer(v, env);
    } else {
      ProduceBuffer(v, env);
      Asleep(v.filter, Produce(v, env).filter, Overruns(v.filter, env));
    }
  }

  lemma NobodyWaits(v: World)
    requires Inv(v) && v.client.Resting?
    ensures ClientCommand !in v.filter.queue
  {
    hide Spoken, UrbsHeld;
  }

  /** At a frame's end the queue is looked at twice; the second look finds no data that
      the first did not. */
  lemma TwiceBuffer(v: World, env: Env)
    requires Inv(v) && Buffer(v.filter) && ClientCommand !in v.filter.queue
    ensures var f, g := v.filter, Produce(Produce(v, env), env).filter;
      && Produces(f, g, Overruns(f, env)) && (Starved(g) <==> Starved(f))
  {
    hide Turns, ClientHeld, UrbsHeld, Spoken, Produce, Buffer, Overruns;
    var u := Produce(v, env);
    ProduceBuffer(v, env);
    ProduceKeeps(v, env);
    ProduceBuffer(u, env);
    Asleep(v.filter, u.filter, Overruns(v.filter, env));
    Asleep(u.filter, Produce(u, env).filter, Overruns(u.filter, env));
    SecondLook(v, env);
  }

  lemma SecondLook(v: World, env: Env)
    requires Inv(v) && Buffer(v.filter) && ClientCommand !in v.filter.queue
    ensures Overruns(Produce(v, env).filter, env) ==> Overruns(v.filter, env)
  {
    hide Spoken, Others, SendOwn, SendClient, ClientHeld;
    var q := v.filter.queue;
    if q != [] {
      HeadCounted(q);
      NoReads(v);
      if q[0] == OwnCommand && v.filter.state == Active && env.room {
        var u := Enter(Taken(v, true), Busy);
        FilterFree(v, u);
        SendOwnSpoken(u);
        assert OwnData !in q[1..];
      }
    }
  }

  lemma NoReads(v: World)
    requires Inv(v)
    ensures ClientRead !in v.filter.queue
  {
    hide Spoken;
  }

  lemma FrameTaken(f: Filter, g: Filter, final: bool)
    requires Buffer(f) && f.serving && (final ==> f.frames > 0)
    requires g == if final then f.(serving := false, frames := f.frames - 1) else f
    ensures Buffer(g) && (Starved(g) <==> Starved(f))
  {
  }

  // ------------------------------------------------------------ every step

  /** What starves a client, if it was not starved before: the end of a preview that is
      dropped, while no other frame is buffered and the client is being served. */
  predicate Starves(w: World, e: Event)
    requires Parsers(w.streams) && Enabled(w, e)
  {
    EndsPreview(w, e) && w.filter.state == Drop && w.filter.serving && w.filter.frames == 0
  }

  lemma StepBuffer(w: World, e: Event)
    requires Inv(w) && Buffer(w.filter) && Made(w.filter) && Enabled(w, e) && Orderly(w, e)
    ensures var g := Step(w, e).filter;
      && Buffer(g) && Made(g) && g.limit == w.filter.limit && (Starved(g) <==> Starved(w.filter) || Starves(w, e))
      && Changed(w, e, g)
  {
    hide Turns, ClientHeld, UrbsHeld, Spoken, Buffer, Orderly, OnOut, Parsed, OnRead, Malformed, Track;
    hide OnDataDone, OnAnswered, OnServed, TimerStep;
    match e
    case Out(bytes, early, env) =>
      OutBuffer(w, bytes, early, env);
      SenderNotStarved(w);
    case Read(env) => ReadKeeps(w, env);
    case Timer(env) =>
      TimerSet(w, false);
      assert Buffer(Disarmed(w).filter) by { BufferUnarmed(w); }
      TimerBuffer(Disarmed(w), env);
      Asleep(Disarmed(w).filter, TimerStep(Disarmed(w), env).filter, false);
    case CommandDone => CommandDoneBuffer(w);
    case DataDone(data, env) =>
      OwnMeansBusy(w);
      DataDoneBuffer(w, data, env);
    case Answered(data, env) =>
      AnsweredBuffer(w, data, env);
      SenderNotStarved(w);
    case Served(data, env) => ServedBuffer(w, data, env);
  }

  lemma BufferUnarmed(w: World)
    requires Buffer(w.filter)
    ensures Buffer(Disarmed(w).filter)
  {
  }

  lemma CommandDoneBuffer(w: World)
    requires Inv(w) && w.camera.own == Commanding
    ensures OnCommandDone(w).filter == w.filter && w.filter.state != Sleep
  {
    hide Spoken;
  }

  /** Who sends is not being served. */
  lemma SenderNotStarved(w: World)
    requires Inv(w) && (w.client.Resting? || w.camera.pending == Some(Client))
    ensures !w.filter.serving
  {
    hide Spoken;
  }

  lemma {:induction false} RunBuffer(w: World, es: seq<Event>)
    requires Inv(w) && Buffer(w.filter) && Made(w.filter) && Feasible(w, es)
    ensures var v := Run(w, es); Inv(v) && Buffer(v.filter) && Made(v.filter) && v.filter.limit == w.filter.limit
    decreases |es|
  {
    hide Turns, ClientHeld, UrbsHeld, Spoken, Buffer, Step, Enabled, Orderly, Starves;
    if es != [] {
      StepKeeps(w, es[0]);
      StepBuffer(w, es[0]);
      RunBuffer(Step(w, es[0]), es[1..]);
    }
  }

  /** On every run: no more frames are buffered than the limit says, and one more only
      while the client is being served; while the filter is awake there is room for
      another. */
  lemma FramesBounded(limit: nat, es: seq<Event>)
    requires Feasible(Start(limit), es)
    ensures var f := Run(Start(limit), es).filter;
      && f.frames <= limit + (if f.serving then 1 else 0)
      && (Awake(f.state) ==> f.frames < limit + if f.serving then 1 else 0)
  {
    hide Turns, ClientHeld, UrbsHeld, Spoken;
    StartSafe(limit);
    RunBuffer(Start(limit), es);
  }

  /** A client that is being served has a frame in the buffer or a preview ahead, on every
      run whose session changes are clean, unless the filter is asleep with nothing
      buffered: */
  lemma ServedUnlessStarved(limit: nat, es: seq<Event>)
    requires Feasible(Start(limit), es) && CleanRun(Start(limit), es)
    ensures var w := Run(Start(limit), es);
      w.filter.serving && !Starved(w.filter) ==> w.filter.frames > 0 || Ahead(w.filter, w.camera.own) == 1
  {
    hide Inv, CleanRun;
    StartPrompt(limit);
    RunPrompt(Start(limit), es);
    RunBuffer(Start(limit), es);
  }

  /** and it comes to that at exactly one kind of step. */
  lemma StarvedIff(limit: nat, es: seq<Event>, e: Event)
    requires Feasible(Start(limit), es)
    requires var w := Run(Start(limit), es); Enabled(w, e) && Orderly(w, e) && !Starved(w.filter)
    ensures var w := Run(Start(limit), es); Starved(Step(w, e).filter) <==> Starves(w, e)
  {
    hide Turns, ClientHeld, UrbsHeld, Spoken, Buffer, Step, Enabled, Orderly, Starves;
    StartSafe(limit);
    StartBuffer(limit);
    RunBuffer(Start(limit), es);
    StepBuffer(Run(Start(limit), es), e);
  }

  lemma StartBuffer(limit: nat)
    ensures Buffer(Start(limit).filter) && Made(Start(limit).filter)
  {
  }

  /** Then nothing that can happen changes it: the client waits for ever. */
  lemma {:induction false} StarvedForGood(w: World, es: seq<Event>)
    requires Inv(w) && Buffer(w.filter) && Made(w.filter) && Starved(w.filter) && Feasible(w, es)
    ensures Starved(Run(w, es).filter) && Run(w, es).client.Asking?
    decreases |es|
  {
    hide Turns, ClientHeld, UrbsHeld, Spoken, Buffer, Step, Enabled, Orderly, Starves;
    if es == [] {
      ServingTurn(w);
    } else {
      StepKeeps(w, es[0]);
      StepBuffer(w, es[0]);
      StarvedForGood(Step(w, es[0]), es[1..]);
    }
  }

  /** All that any step can do to the filter's state, on every run. */
  lemma StateChanges(limit: nat, es: seq<Event>, e: Event)
    requires Feasible(Start(limit), es) && Enabled(Run(Start(limit), es), e) && Orderly(Run(Start(limit), es), e)
    ensures var w := Run(Start(limit), es); Changed(w, e, Step(w, e).filter)
  {
    hide Turns, ClientHeld, UrbsHeld, Spoken, Buffer, Step, Enabled, Orderly, Starves, Changed, Made;
    StartSafe(limit);
    StartBuffer(limit);
    RunBuffer(Start(limit), es);
    StepBuffer(Run(Start(limit), es), e);
  }
}
