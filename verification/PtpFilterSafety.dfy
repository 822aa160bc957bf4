/** Over every run of the filter's handlers: one transaction at a time reaches the
    camera, in exactly five of the states one is under way, and every header carries
    the id its reader expects. */
module PtpFilterSafety {
  import opened Bags
  import opened Bytes
  import opened PtpReading
  import opened PtpFilter
  import opened PtpStreams
  import opened PtpSpeech
  import P = PtpParser

  // ------------------------------------------------------------ the invariant

  /** Whose transaction the camera works on, told from the state. */
  predicate Turns(s: State, pending: Option<Owner>, own: OwnPhase) {
    && (pending == None <==> s in {Idle, Active, Sleep})
    && (pending == Some(Own) <==> s in {Busy, Drop})
    && (pending == Some(Client) <==> s in {CommandSent, Waiting, SleepWait})
    && (own != Absent <==> pending == Some(Own))
  }

  /** A client's command is at the camera, or in the queue exactly once; it is served
      from the buffer exactly when it asked for a preview. */
  predicate ClientHeld(q: seq<Item>, serving: bool, pending: Option<Owner>, client: ClientPhase) {
    && multiset(q)[ClientCommand] == (if client.Asking? && !client.preview && pending != Some(Client) then 1 else 0)
    && (pending == Some(Client) ==> client.Asking? && !client.preview)
    && (serving <==> client.Asking? && client.preview)
    && multiset(q)[ClientRead] == 0
  }

  /** The filter's own URBs: free, queued, or carrying its transaction. */
  predicate UrbsHeld(q: seq<Item>, free: nat, built: bool, own: OwnPhase) {
    && multiset(q)[OwnData] == (if own == Stalled then 1 else 0)
    && free + multiset(q)[OwnCommand] + (if own == Absent then 0 else 1) == (if built then 2 else 0)
  }

  predicate Inv(w: World) {
    && Parsers(w.streams)
    && Turns(w.filter.state, w.camera.pending, w.camera.own)
    && ClientHeld(w.filter.queue, w.filter.serving, w.camera.pending, w.client)
    && UrbsHeld(w.filter.queue, w.filter.free, w.filter.built, w.camera.own)
    && Spoken(w)
  }

  /** What the camera, the client and the parsers hold does not depend on the state, the
      queue or the buffer. */
  lemma FilterFree(w: World, v: World)
    requires Spoken(w) && v == w.(filter := v.filter) && v.filter.built == w.filter.built
    ensures Spoken(v)
  {
  }

  // ------------------------------------------------------------ the queue

  lemma {:induction false} OthersCount(q: seq<Item>)
    ensures multiset(Others(q)) == multiset(q)[OwnCommand := 0]
    ensures |Others(q)| == |q| - multiset(q)[OwnCommand]
  {
    if q != [] {
      assert q == [q[0]] + q[1..];
      OthersCount(q[1..]);
    }
  }

  lemma HeadCounted(q: seq<Item>)
    requires q != []
    ensures multiset(q) == multiset(q[1..])[q[0] := multiset(q[1..])[q[0]] + 1]
  {
    assert q == [q[0]] + q[1..];
  }

  lemma TailCounted(q: seq<Item>, x: Item)
    ensures multiset(q + [x]) == multiset(q)[x := multiset(q)[x] + 1]
  {
  }

  /** Falling asleep: the filter's own commands become free URBs. */
  lemma AsleepKeepsUrbs(q: seq<Item>, free: nat, built: bool, own: OwnPhase, serving: bool, pending: Option<Owner>,
                        client: ClientPhase)
    requires UrbsHeld(q, free, built, own) && ClientHeld(q, serving, pending, client)
    ensures UrbsHeld(Others(q), free + |q| - |Others(q)|, built, own)
    ensures ClientHeld(Others(q), serving, pending, client)
  {
    OthersCount(q);
  }

  lemma PendingKinds(p: Option<Owner>)
    ensures p == None || p == Some(Own) || p == Some(Client)
  {
    match p {
      case None =>
      case Some(o) =>
        match o {
          case Own =>
          case Client =>
        }
    }
  }

  // ------------------------------------------------------------ producing

  /** The filter's own command, sent while no transaction is under way. */
  lemma SendOwnKeeps(w: World)
    requires Parsers(w.streams) && Spoken(w) && w.filter.built
    requires w.camera.pending == None && w.camera.own == Absent && w.filter.state == Busy
    requires ClientHeld(w.filter.queue, w.filter.serving, None, w.client)
    requires UrbsHeld(w.filter.queue, w.filter.free, true, Commanding)
    ensures Inv(SendOwn(w))
  {
    hide Spoken, SendOwn;
    SendOwnSpoken(w);
  }

  /** A client's command that had to wait, likewise. */
  lemma SendClientKeeps(w: World)
    requires Parsers(w.streams) && Spoken(w) && w.client.Asking? && !w.client.preview && !w.filter.serving
    requires w.camera.pending == None && w.camera.own == Absent
    requires w.filter.state in {CommandSent, SleepWait, Waiting}
    requires multiset(w.filter.queue)[ClientCommand] == 0 && multiset(w.filter.queue)[ClientRead] == 0
    requires UrbsHeld(w.filter.queue, w.filter.free, w.filter.built, Absent)
    ensures Inv(SendClient(w))
  {
    hide Spoken, SendClient, UrbsHeld;
    SendClientSpoken(w);
  }

  lemma ProduceOwnCommandKeeps(w: World, env: Env)
    requires Inv(w) && w.filter.queue != [] && w.filter.queue[0] == OwnCommand
    ensures Inv(ProduceItem(w, OwnCommand, true, env))
  {
    hide Others, Spoken, SendOwn, SendClient;
    HeadCounted(w.filter.queue);
    if w.filter.state == Sleep || (w.filter.state == Active && env.room) {
      var v := Enter(Taken(w, true), Busy);
      FilterFree(w, v);
      SendOwnKeeps(v);
      assert Enter(Enter(Taken(w, true), Active), Busy) == v;
    }
  }

  lemma ProduceClientCommandKeeps(w: World, env: Env)
    requires Inv(w) && w.filter.queue != [] && w.filter.queue[0] == ClientCommand
    ensures Inv(ProduceItem(w, ClientCommand, true, env))
  {
    hide Others, Spoken, SendOwn, SendClient;
    var s := w.filter.state;
    HeadCounted(w.filter.queue);
    if s == Idle || s == Sleep || s == Active {
      var v := Enter(Taken(w, true), if s == Idle then CommandSent else if s == Sleep then SleepWait else Waiting);
      FilterFree(w, v);
      SendClientKeeps(v);
    }
  }

  /** Reading on changes only where the filter's own transaction is. */
  lemma ReadingOn(w: World, v: World)
    requires Spoken(w) && v == w.(filter := v.filter, camera := w.camera.(own := v.camera.own))
    requires v.filter.built == w.filter.built && w.camera.own in {Reading, Stalled} && v.camera.own in {Reading, Stalled}
    ensures Spoken(v)
  {
  }

  lemma ProduceOwnDataKeeps(w: World, env: Env)
    requires Inv(w) && w.filter.queue != [] && w.filter.queue[0] == OwnData
    ensures Inv(ProduceItem(w, OwnData, true, env))
  {
    hide Others, Spoken, SendOwn, SendClient, ClientHeld, UrbsHeld;
    DataTaken(w.filter.queue, w.filter.free, w.filter.built, w.camera.own, w.filter.serving, w.camera.pending, w.client);
    ReadingOn(w, ProduceItem(w, OwnData, true, env));
  }

  lemma DataTaken(q: seq<Item>, free: nat, built: bool, own: OwnPhase, serving: bool, pending: Option<Owner>,
                  client: ClientPhase)
    requires UrbsHeld(q, free, built, own) && ClientHeld(q, serving, pending, client) && q != [] && q[0] == OwnData
    ensures own == Stalled && UrbsHeld(q[1..], free, built, Reading) && ClientHeld(q[1..], serving, pending, client)
  {
    HeadCounted(q);
  }

  lemma ProduceKeeps(w: World, env: Env)
    requires Inv(w)
    ensures Inv(Produce(w, env))
  {
    hide ProduceItem, Turns, UrbsHeld, Spoken;
    if w.filter.queue != [] {
      HeadCounted(w.filter.queue);
      match w.filter.queue[0]
      case OwnCommand => ProduceOwnCommandKeeps(w, env);
      case ClientCommand => ProduceClientCommandKeeps(w, env);
      case OwnData => ProduceOwnDataKeeps(w, env);
      case ClientRead => assert false;
    }
  }

  /** The timer sends the filter's own command, queues it, or does nothing. */
  lemma TimerDoes(w: World, env: Env)
    requires Parsers(w.streams)
    ensures var f := w.filter;
      var taken := w.(filter := f.(free := if f.free > 0 then f.free - 1 else 0));
      TimerStep(w, env) == if f.free == 0 || f.state !in {Active, Busy, Waiting} then w
                           else if f.state == Active && env.room then SendOwn(Enter(taken, Busy))
                           else Queued(taken, OwnCommand)
  {
    hide SendOwn, Others, Parsers;
  }

  lemma FreeMeansBuilt(w: World)
    requires Inv(w)
    ensures w.filter.free > 0 || OwnCommand in w.filter.queue ==> w.filter.built
  {
    hide Spoken, ClientHeld;
  }

  lemma TimerKeeps(w: World, env: Env)
    requires Inv(w)
    ensures Inv(TimerStep(w, env))
  {
    hide Others, Spoken, SendOwn, SendClient;
    var f := w.filter;
    TailCounted(f.queue, OwnCommand);
    if f.state == Active && f.free > 0 && env.room {
      var v := Enter(w.(filter := f.(free := f.free - 1)), Busy);
      FilterFree(w, v);
      SendOwnKeeps(v);
    } else {
      FilterFree(w, TimerStep(w, env));
    }
  }

  lemma TimerSet(w: World, armed: bool)
    requires Inv(w)
    ensures Inv(w.(filter := w.filter.(armed := armed)))
  {
    hide Spoken;
    FilterFree(w, w.(filter := w.filter.(armed := armed)));
  }

  lemma ReadKeeps(w: World, env: Env)
    requires Inv(w) && Enabled(w, Read(env))
    ensures OnRead(w, env) == w
  {
    hide Spoken;
  }

  // ------------------------------------------------------------ what the client sends

  /** After its parsing a command waits to be sent, queued or served. */
  predicate Received(v: World) {
    && Parsers(v.streams) && Arrived(v) && v.client.Asking?
    && Turns(v.filter.state, v.camera.pending, v.camera.own)
    && ClientHeld(v.filter.queue, v.filter.serving, v.camera.pending, Resting)
    && UrbsHeld(v.filter.queue, v.filter.free, v.filter.built, v.camera.own)
    && v.client.preview == IsPreview(v.streams.urb)
    && (ChangesSession(v.streams.urb) ==> v.camera.pending == None)
  }

  lemma ArrivedFree(w: World, v: World)
    requires Arrived(w) && v == w.(filter := v.filter) && v.filter.built == w.filter.built
    ensures Arrived(v)
  {
  }

  lemma ParsedKeeps(w: World, bytes: seq<Byte>)
    requires Inv(w) && w.client.Resting? && IsCommand(bytes)
    requires ChangesSession(bytes) ==> w.camera.pending != Some(Own)
    ensures var v := Parsed(w, bytes).(client := Asked(bytes));
      Received(v) && v.streams.rx.phase == P.WaitResponse && v.streams.rx.pdu.kind == P.CONTAINER_COMMAND
  {
    hide Spoken, UrbsHeld, Arrived, Parsed, IsCommand, ChangesSession, IsPreview;
    PendingKinds(w.camera.pending);
    CommandParsed(w, bytes);
  }

  lemma CommandQueued(q: seq<Item>, free: nat, built: bool, own: OwnPhase)
    requires UrbsHeld(q, free, built, own)
    ensures UrbsHeld(q + [ClientCommand], free, built, own)
  {
    TailCounted(q, ClientCommand);
  }

  lemma NoPreviewIsSession(b: seq<Byte>)
    ensures !(IsPreview(b) && ChangesSession(b))
  {
  }

  lemma CommandKeeps(v: World)
    requires Received(v) && !v.client.preview
    ensures Inv(OnCommand(v))
  {
    hide Others, Spoken, Arrived, Forward, UrbsHeld;
    var s := v.filter.state;
    PendingKinds(v.camera.pending);
    if s in {Idle, Sleep, Active} {
      var u := Enter(v, if s == Idle then CommandSent else if s == Sleep then SleepWait else Waiting);
      ArrivedFree(v, u);
      ForwardSpoken(u);
    } else {
      TailCounted(v.filter.queue, ClientCommand);
      WaitingSpoken(v);
      FilterFree(v, OnCommand(v));
      assert UrbsHeld(OnCommand(v).filter.queue, v.filter.free, v.filter.built, v.camera.own) by { CommandQueued(v.filter.queue, v.filter.free, v.filter.built, v.camera.own); }
    }
  }

  /** The first preview builds the filter's URBs, for the client's own command. */
  lemma BuiltSpoken(w: World)
    requires Spoken(w) && IsCommand(w.streams.urb) && IsPreview(w.streams.urb)
    ensures Spoken(WithUrbs(w))
  {
  }

  lemma BuiltUrbs(w: World)
    requires UrbsHeld(w.filter.queue, w.filter.free, w.filter.built, w.camera.own) && w.camera.own == Absent
    ensures var v := WithUrbs(w); UrbsHeld(v.filter.queue, v.filter.free, v.filter.built, w.camera.own)
  {
  }

  /** A preview that wakes the filter. */
  lemma WokenKeeps(v: World, frames: nat, armed: bool)
    requires Received(v) && v.client.preview && v.filter.state in {Idle, Sleep}
    ensures var f := v.filter.(frames := frames, serving := true, state := Active, armed := armed);
      var u := Completed(v.(filter := f), true);
      Inv(u) && Inv(WithUrbs(u))
  {
    hide Spoken, Arrived, UrbsHeld, Completed, IsPreview, WithUrbs;
    var x := v.(filter := v.filter.(frames := frames, serving := true, state := Active, armed := armed));
    var u := Completed(x, true);
    ArrivedFree(v, x);
    PreviewCompleted(x);
    BuiltSpoken(u);
    BuiltUrbs(u);
    assert WithUrbs(u) == u.(filter := WithUrbs(u).filter, streams := WithUrbs(u).streams) && Parsers(WithUrbs(u).streams)
      && WithUrbs(u).filter.(free := 0, built := false) == u.filter.(free := 0, built := false) by { BuiltOnly(u); }
  }

  lemma BuiltOnly(w: World)
    requires Parsers(w.streams)
    ensures var v := WithUrbs(w);
      && v == w.(filter := v.filter, streams := v.streams) && Parsers(v.streams)
      && v.filter.(free := 0, built := false) == w.filter.(free := 0, built := false)
  {
  }

  lemma PreviewKeeps(v: World, early: bool, env: Env)
    requires Received(v) && v.client.preview
    ensures Inv(OnPreview(v, early, env))
  {
    hide Others, TimerStep, Spoken, Arrived, UrbsHeld, Completed, WithUrbs;
    var f := v.filter;
    PendingKinds(v.camera.pending);
    if f.state == Idle {
      WokenKeeps(v, 0, f.armed);
      assert v.streams.front.(left := 0) == v.streams.front by { FrontEmpty(v); }
      var x := v.(filter := f.(frames := 0, serving := true, state := Active));
      assert x == x.(streams := v.streams.(front := v.streams.front.(left := 0)));
      TimerKeeps(WithUrbs(Completed(x, true)), env);
    } else if f.state == Sleep {
      var soon := f.frames > 0 && early;
      WokenKeeps(v, f.frames, f.armed || soon);
      var x := v.(filter := f.(serving := true, state := Active, armed := f.armed || soon));
      assert x == v.(filter := f.(frames := f.frames, serving := true, state := Active, armed := f.armed || soon));
      TimerKeeps(WithUrbs(Completed(x, true)), env);
    } else {
      var x := v.(filter := f.(serving := true));
      ArrivedFree(v, x);
      PreviewCompleted(x);
    }
  }

  lemma FrontEmpty(v: World)
    requires Arrived(v)
    ensures v.streams.front.left == 0
  {
  }

  lemma DataKeeps(w: World, bytes: seq<Byte>, early: bool, env: Env)
    requires Inv(w) && w.client.Asking? && w.camera.pending == Some(Client) && SendsData(w.streams, bytes, w.client.id)
    requires bytes == [] ==> !JustCommanded(w.streams.rx)
    ensures Inv(OnOut(Parsed(w, bytes), early, env))
  {
    hide Spoken, Parsed, Forward, SendsData, UrbsHeld;
    DataSpoken(w, bytes);
  }

  lemma KindKnown(v: World)
    requires Received(v)
    ensures v.client.Asking? && v.client.preview == IsPreview(v.streams.urb) && |v.streams.urb| >= CODE_END
  {
    CommandRead(v.streams.urb);
  }

  lemma OutKeeps(w: World, bytes: seq<Byte>, early: bool, env: Env)
    requires Inv(w) && Enabled(w, Out(bytes, early, env)) && Orderly(w, Out(bytes, early, env))
    ensures Inv(Step(w, Out(bytes, early, env)))
  {
    hide Turns, ClientHeld, UrbsHeld, Spoken, Parsed, Received, OnPreview, OnCommand, SendsData, IsCommand, ChangesSession;
    if w.client.Resting? {
      ParsedKeeps(w, bytes);
      var v := Parsed(w, bytes).(client := Asked(bytes));
      assert v.client.Asking? && v.client.preview == IsPreview(v.streams.urb) && |v.streams.urb| >= CODE_END by {
        KindKnown(v);
      }
      if v.client.preview {
        PreviewKeeps(v, early, env);
      } else {
        CommandKeeps(v);
      }
    } else {
      DataKeeps(w, bytes, early, env);
    }
  }

  // ------------------------------------------------------------ what the camera sends

  lemma CommandDoneKeeps(w: World)
    requires Inv(w) && Enabled(w, CommandDone)
    ensures Inv(OnCommandDone(w))
  {
    hide Others, IsCommand, IsPreview, ChangesSession, Seen, ClientHeld;
  }

  /** A transaction is over: the filter sleeps, goes on or stands idle. */
  lemma FinishedKeeps(w: World, s: State)
    requires Parsers(w.streams) && Spoken(w) && w.camera.pending == None && w.camera.own == Absent
    requires s in {Sleep, Active, Idle}
    requires ClientHeld(w.filter.queue, w.filter.serving, None, w.client)
    requires UrbsHeld(w.filter.queue, w.filter.free, w.filter.built, Absent)
    ensures Inv(Enter(w, s))
  {
    hide Others, Spoken, UrbsHeld, ClientHeld;
    var f := w.filter;
    AsleepKeepsUrbs(f.queue, f.free, f.built, Absent, f.serving, None, w.client);
    FilterFree(w, Enter(w, s));
  }

  lemma MoreDataKeeps(w: World, env: Env)
    requires Inv(w) && w.camera.own == Reading
    ensures ProduceItem(w, OwnData, false, env).camera.pending == Some(Own)
    ensures Inv(ProduceItem(w, OwnData, false, env))
  {
    hide Others, Spoken, SendOwn, SendClient, ClientHeld, UrbsHeld;
    DataPut(w.filter.queue, w.filter.free, w.filter.built, w.filter.serving, w.camera.pending, w.client);
    ReadingOn(w, ProduceItem(w, OwnData, false, env));
  }

  lemma DataPut(q: seq<Item>, free: nat, built: bool, serving: bool, pending: Option<Owner>, client: ClientPhase)
    requires UrbsHeld(q, free, built, Reading) && ClientHeld(q, serving, pending, client)
    ensures UrbsHeld(q + [OwnData], free, built, Stalled) && ClientHeld(q + [OwnData], serving, pending, client)
  {
    TailCounted(q, OwnData);
  }

  lemma OwnMeansBusy(w: World)
    requires Inv(w) && w.camera.own != Absent
    ensures w.filter.state in {Busy, Drop} && w.camera.pending == Some(Own) && Spoken(w) && Parsers(w.streams)
  {
    hide Spoken;
  }

  /** The URB of a finished preview goes back. */
  lemma FreedKeeps(w: World, u: World)
    requires Inv(w) && w.camera.own == Reading && Parsers(u.streams)
    requires u == w.(streams := u.streams, camera := Speaks(w.camera, 1))
    ensures var v := UrbFreed(u);
      && ClientHeld(v.filter.queue, v.filter.serving, None, v.client)
      && UrbsHeld(v.filter.queue, v.filter.free, v.filter.built, Absent)
  {
    hide Spoken;
  }

  /** A finished preview puts the filter to sleep. */
  predicate FallsAsleep(w: World, data: seq<Byte>)
    requires Parsers(w.streams)
  {
    || w.filter.state == Drop || w.filter.frames + 1 >= w.filter.limit
    || SelfParsed(w, data).streams.self.pdu.code != RESULT_OK
  }

  /** Its URB is free; the frame counts, unless it was dropped; and the timer is set. */
  function AfterPreview(f: Filter, asleep: bool): Filter {
    var g := ChangeState(f.(free := f.free + 1, frames := if f.state == Drop then f.frames else f.frames + 1),
                         if asleep then Sleep else Active);
    if asleep then g else g.(armed := true)
  }

  /** What a piece of the filter's own data does: more is read, or the preview is
      finished and the queue goes on. */
  lemma DataDoneStep(w: World, data: seq<Byte>, env: Env) returns (u: World)
    requires Inv(w) && Enabled(w, DataDone(data, env))
    ensures !Malformed(w.streams.back, data) && Inv(u) && u.client == w.client
    ensures !Complete(Track(w.streams.back, data)) ==>
      OnDataDone(w, data, env) == ProduceItem(u, OwnData, false, env) && u == w.(streams := u.streams)
    ensures Complete(Track(w.streams.back, data)) ==>
      && OnDataDone(w, data, env) == Produce(u, env) && u.camera.pending == None
      && u.filter == AfterPreview(w.filter, FallsAsleep(w, data))
    ensures u.camera.tape == w.camera.tape && u.read == w.read
    ensures u.streams == w.streams.(ids := u.streams.ids, self := u.streams.self, back := u.streams.back)
  {
    hide Inv, Produce, ProduceItem, SelfParsed, Spoken, Malformed, Track, Piece, ClientHeld, UrbsHeld, Others;
    OwnMeansBusy(w);
    OwnDataSpoken(w, data);
    var t := Track(w.streams.back, data);
    var v := SelfParsed(w, data);
    u := v.(streams := v.streams.(back := t));
    if !Complete(t) {
      assert u.camera == w.camera;
      StreamsOnly(w, u);
    } else {
      FreedKeeps(w, u);
      u := UrbFreed(u);
      if w.filter.state == Drop {
        FinishedKeeps(u, Sleep);
        u := Enter(u, Sleep);
      } else {
        var counted := u.(filter := u.filter.(frames := w.filter.frames + 1));
        FilterFree(u, counted);
        var next := if FallsAsleep(w, data) then Sleep else Active;
        FinishedKeeps(counted, next);
        u := Enter(counted, next);
        if next == Active {
          TimerSet(u, true);
          u := Armed(u);
        }
      }
    }
  }

  lemma DataDoneKeeps(w: World, data: seq<Byte>, env: Env)
    requires Inv(w) && Enabled(w, DataDone(data, env))
    ensures Inv(OnDataDone(w, data, env))
  {
    hide Inv, Produce, ProduceItem, SelfParsed, Spoken, Malformed, Track, Piece, ClientHeld, UrbsHeld, Others, OnDataDone;
    hide FallsAsleep;
    var u := DataDoneStep(w, data, env);
    if Complete(Track(w.streams.back, data)) {
      ProduceKeeps(u, env);
    } else {
      MoreDataKeeps(u, env);
    }
  }

  lemma StreamsOnly(w: World, u: World)
    requires Inv(w) && u == w.(streams := u.streams) && Parsers(u.streams) && Spoken(u)
    ensures Inv(u)
  {
    hide Spoken;
  }

  lemma ClientTurn(w: World)
    requires Inv(w) && w.camera.pending == Some(Client)
    ensures w.filter.state in {CommandSent, Waiting, SleepWait} && w.camera.own == Absent && Spoken(w) && Parsers(w.streams)
    ensures w.client.Asking? && !w.client.preview
    ensures ClientHeld(w.filter.queue, w.filter.serving, None, Resting)
    ensures UrbsHeld(w.filter.queue, w.filter.free, w.filter.built, Absent)
  {
    hide Spoken;
  }

  lemma AnsweredKeeps(w: World, data: seq<Byte>, env: Env)
    requires Inv(w) && Enabled(w, Answered(data, env))
    ensures Inv(OnAnswered(w, data, env))
  {
    hide Inv, Produce, Spoken, TxParsed, Finishes, ClientHeld, UrbsHeld, AnswersClient, ChangeState;
    ClientTurn(w);
    AnsweredSpoken(w, data);
    var x := TxParsed(w, false, data);
    var n := Hear(ReaderOf(w.streams.tx), data).ended;
    var u := x.(camera := Speaks(x.camera, n));
    if n > 0 {
      var s := w.filter.state;
      var next := if s == Waiting then Active else if s == SleepWait then Sleep else Idle;
      FinishedKeeps(u, next);
      ProduceKeeps(Enter(u, next), env);
    } else {
      assert u.camera == w.camera;
      AnswersOnly(w, u);
    }
  }

  lemma AnswersOnly(w: World, u: World)
    requires Inv(w) && u == w.(streams := u.streams, answers := u.answers, read := u.read) && Parsers(u.streams) && Spoken(u)
    ensures Inv(u)
  {
    hide Spoken;
  }

  lemma ServedKeeps(w: World, data: seq<Byte>, env: Env)
    requires Inv(w) && Enabled(w, Served(data, env))
    ensures Inv(OnServed(w, data, env))
  {
    hide Inv, Produce, Spoken, TxParsed, Finishes, ClientHeld, UrbsHeld, Malformed, Track, Piece, ChangeState;
    ServingTurn(w);
    ServedSpoken(w, data);
    var t := Track(w.streams.front, data);
    var f := if Complete(t) then w.filter.(serving := false, frames := w.filter.frames - 1) else w.filter;
    var x := w.(filter := f);
    FilterFree(w, x);
    ServedSpoken(x, data);
    var v := TxParsed(x.(streams := w.streams.(front := t)), true, data);
    ServedHeld(w, v, Complete(t));
    ProduceKeeps(v, env);
    if Complete(t) {
      ProduceKeeps(Produce(v, env), env);
    }
  }

  lemma ServingTurn(w: World)
    requires Inv(w) && w.filter.serving
    ensures w.client.Asking? && w.client.preview && w.camera.pending != Some(Client) && Spoken(w) && Parsers(w.streams)
    ensures w.filter.state !in {CommandSent, Waiting, SleepWait}
  {
    hide Spoken;
  }

  lemma ServedHeld(w: World, v: World, final: bool)
    requires Inv(w) && w.filter.serving && Parsers(v.streams) && Spoken(v)
    requires v == w.(filter := v.filter, streams := v.streams, client := v.client, answers := v.answers, read := v.read)
    requires v.filter == w.filter.(serving := !final, frames := v.filter.frames)
    requires v.client == if final then Resting else w.client
    ensures Inv(v)
  {
    hide Spoken;
  }

  lemma StepKeeps(w: World, e: Event)
    requires Inv(w) && Enabled(w, e) && Orderly(w, e)
    ensures Inv(Step(w, e))
  {
    hide Inv, Enabled, Orderly, OnOut, Parsed, OnRead, OnCommandDone;
    hide OnDataDone, OnAnswered, OnServed, TimerStep;
    match e
    case Out(bytes, early, env) => OutKeeps(w, bytes, early, env);
    case Read(env) => ReadKeeps(w, env);
    case Timer(env) =>
      TimerSet(w, false);
      TimerKeeps(Disarmed(w), env);
    case CommandDone => CommandDoneKeeps(w);
    case DataDone(data, env) => DataDoneKeeps(w, data, env);
    case Answered(data, env) => AnsweredKeeps(w, data, env);
    case Served(data, env) => ServedKeeps(w, data, env);
  }

  lemma {:induction false} RunKeeps(w: World, es: seq<Event>)
    requires Inv(w) && Feasible(w, es)
    ensures Inv(Run(w, es))
    decreases |es|
  {
    hide Turns, ClientHeld, UrbsHeld, Spoken, Step, Enabled, Orderly;
    if es != [] {
      StepKeeps(w, es[0]);
      RunKeeps(Step(w, es[0]), es[1..]);
    }
  }

  lemma StartSafe(limit: nat)
    ensures Inv(Start(limit))
  {
  }

  // ------------------------------------------------------------ what runs guarantee

  /** Whether a transaction awaits its response, told from the state alone. */
  predicate UnderWay(s: State) {
    s in {CommandSent, Busy, Waiting, Drop, SleepWait}
  }

  /** Serialization: on every run, no command ever reached the camera while another
      transaction awaited its response; one is under way exactly in five of the states;
      and no command of such a client makes the filter give up. */
  lemma OneTransactionAtATime(limit: nat, es: seq<Event>)
    requires Feasible(Start(limit), es)
    ensures var w := Run(Start(limit), es);
      && (forall h :: h in w.camera.log ==> h.inTurn)
      && (UnderWay(w.filter.state) <==> w.camera.pending != None)
      && w.filter.state !in {Bypassed, Faulted}
  {
    hide Followed, Numbered;
    StartSafe(limit);
    RunKeeps(Start(limit), es);
    PendingKinds(Run(Start(limit), es).camera.pending);
  }

  /** Transaction ids: on every run, the running id is the number of responses since the
      session was opened, every header reached the camera whole and under it, and every
      header reached the client under the id it had asked with. */
  lemma IdsAreConsistent(limit: nat, es: seq<Event>)
    requires Feasible(Start(limit), es)
    ensures var w := Run(Start(limit), es);
      && w.streams.ids.transId == w.camera.since % P.WRAP
      && (forall h :: h in w.camera.log ==> h.id == h.since % P.WRAP) && !w.camera.astray
      && (forall a :: a in w.answers ==> a.id == a.asked)
  {
    hide Followed;
    StartSafe(limit);
    RunKeeps(Start(limit), es);
  }

  /** The filter never loses one of its URBs, and never forgets a client's command. */
  lemma NothingIsLost(limit: nat, es: seq<Event>)
    requires Feasible(Start(limit), es)
    ensures var w := Run(Start(limit), es);
      && UrbsHeld(w.filter.queue, w.filter.free, w.filter.built, w.camera.own)
      && ClientHeld(w.filter.queue, w.filter.serving, w.camera.pending, w.client)
  {
    hide Spoken;
    StartSafe(limit);
    RunKeeps(Start(limit), es);
  }

  /** Why runs are orderly: from any state a run can reach, a command that changes the
      session overlaps another transaction if and only if a preview of the filter's own
      is under way. */
  lemma SessionOverlapsIff(w: World, bytes: seq<Byte>, early: bool, env: Env)
    requires Inv(w) && w.client.Resting? && IsCommand(bytes) && ChangesSession(bytes)
    ensures var v := Step(w, Out(bytes, early, env));
      && |v.camera.log| == |w.camera.log| + 1
      && (!v.camera.log[|w.camera.log|].inTurn <==> w.filter.state in {Busy, Drop})
  {
    hide Hears, IsCommand, Hear, ChangesSession, IsPreview, Spoken, UrbsHeld, P.PduAt, Parsed, OwnFollowed, Seen, Completed;
    PendingKinds(w.camera.pending);
    CommandParsed(w, bytes);
    var v := Parsed(w, bytes).(client := Asked(bytes));
    NoPreviewIsSession(v.streams.urb);
    CommandRead(v.streams.urb);
    HearsCommand(w.camera, Client, v.streams.urb);
    CompletedCamera(Enter(v, CommandSent).(camera := Hears(w.camera, Client, v.streams.urb)));
  }

  lemma CompletedCamera(w: World)
    requires Parsers(w.streams)
    ensures Completed(w, false).camera == w.camera
  {
    hide P.Scan;
  }

  // ------------------------------------------------------------ transfers too short to test

  /** What a transfer shorter than a header does to a parser. */
  lemma {:induction false} ShortScanned(ids: P.Ids, m: P.Machine, bytes: seq<Byte>)
    requires m.Valid() && P.Countable(m, |bytes|) && |bytes| < P.CONTAINER_HEADER
    ensures var s := P.Scan(P.Rx, false, ids, m, bytes);
      s.m == if m.Between() then m
             else if m.size + |bytes| >= m.pdu.length then P.Closed(m)
             else m.(size := m.size + |bytes|)
    decreases |bytes|, if m.Between() then 0 else 1
  {
    if !m.Between() {
      P.PendingIff(m, |bytes|);
      if m.size + |bytes| >= m.pdu.length {
        var rest := bytes[P.BodyEnd(m)..];
        ShortScanned(P.Finished(P.Rx, false, ids, m.phase), P.Closed(m), rest);
      }
    }
  }

  lemma ParsedShort(w: World, bytes: seq<Byte>)
    requires Parsers(w.streams) && w.filter.state != Faulted
    ensures var v := Parsed(w, bytes);
      && v.filter.state != Faulted && |v.streams.urb| == |bytes|
      && v.streams.rx == MachineAfter(P.Scan(P.Rx, false, w.streams.ids, w.streams.rx, bytes), w.streams.rx)
  {
    hide P.Scan;
  }

  lemma OnOutFaults(v: World, early: bool, env: Env)
    requires Parsers(v.streams) && v.filter.state != Faulted && |v.streams.urb| < CODE_END
    ensures OnOut(v, early, env).filter.state == Faulted <==> JustCommanded(v.streams.rx)
  {
    hide P.Scan, Hears;
  }

  /** The preview test reads the code from the transfer, also where the transfer is too
      short to hold it; an empty one has no buffer at all. For every state of the parser,
      that happens exactly when a command is the latest container: finished before, or
      finished by this transfer. */
  lemma ShortTransferFaultsIff(w: World, bytes: seq<Byte>, early: bool, env: Env)
    requires Parsers(w.streams) && w.filter.state != Faulted
    requires |bytes| < CODE_END && P.Countable(w.streams.rx, |bytes|)
    ensures var m := w.streams.rx;
      OnOut(Parsed(w, bytes), early, env).filter.state == Faulted <==>
      && m.pdu.kind == P.CONTAINER_COMMAND
      && (m.phase == P.WaitResponse
          || (!m.Between() && m.phase != P.Response && m.size + |bytes| >= m.pdu.length))
  {
    hide P.Scan, Parsed, OnOut;
    ShortScanned(w.streams.ids, w.streams.rx, bytes);
    ParsedShort(w, bytes);
    OnOutFaults(Parsed(w, bytes), early, env);
  }

  /** Among the steps that can happen after a run, exactly the empty transfers between a
      command and its data fault: why runs are orderly. */
  lemma StepFaultsIff(w: World, e: Event)
    requires Inv(w) && Enabled(w, e)
    ensures Step(w, e).filter.state == Faulted <==> e.Out? && e.bytes == [] && JustCommanded(w.streams.rx)
  {
    hide Enabled, Spoken, Step, ClientHeld, UrbsHeld, ChangesSession;
    if Orderly(w, e) {
      StepKeeps(w, e);
      PendingKinds(Step(w, e).camera.pending);
    } else if e.bytes == [] && JustCommanded(w.streams.rx) {
      EmptyFaults(w, e.early, e.env);
    } else {
      SessionNoFault(w, e.bytes, e.early, e.env);
    }
  }

  lemma EmptyFaults(w: World, early: bool, env: Env)
    requires Inv(w) && Enabled(w, Out([], early, env)) && JustCommanded(w.streams.rx)
    ensures Step(w, Out([], early, env)).filter.state == Faulted
  {
    hide Spoken, UrbsHeld, ClientHeld, Parsed, OnOut;
    PendingKinds(w.camera.pending);
    ShortTransferFaultsIff(w, [], early, env);
  }

  lemma SessionNoFault(w: World, bytes: seq<Byte>, early: bool, env: Env)
    requires Inv(w) && Enabled(w, Out(bytes, early, env)) && w.client.Resting? && ChangesSession(bytes)
    requires w.camera.pending == Some(Own)
    ensures Step(w, Out(bytes, early, env)).filter.state != Faulted && bytes != []
  {
    hide Hears, Hear, ChangesSession, IsPreview, IsCommand, Spoken, UrbsHeld, P.PduAt, P.Scan, Parsed, Seen;
    CommandRead(bytes);
    CommandParsed(w, bytes);
    var v := Parsed(w, bytes).(client := Asked(bytes));
    NoPreviewIsSession(v.streams.urb);
    CommandRead(v.streams.urb);
  }
}
