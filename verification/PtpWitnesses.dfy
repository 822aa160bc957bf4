/** Runs of the filter that lead to the states the safety results warn of. */
module PtpWitnesses {
  import opened Bags
  import opened Bytes
  import opened Wire
  import opened PtpReading
  import opened PtpFilter
  import opened PtpStreams
  import opened PtpSpeech
  import opened PtpFilterSafety
  import opened PtpProgress
  import opened PtpServing
  import P = PtpParser

  // ------------------------------------------------------------ five transfers

  const PREVIEW_BYTES: seq<Byte> := [12, 0, 0, 0, 1, 0, 0x53, 0x91, 0, 0, 0, 0]
  const INFO_BYTES: seq<Byte> := [12, 0, 0, 0, 1, 0, 1, 0x10, 0, 0, 0, 0]
  const OPEN_BYTES: seq<Byte> := [12, 0, 0, 0, 1, 0, 2, 0x10, 0, 0, 0, 0]
  const DONE_BYTES: seq<Byte> := [12, 0, 0, 0, 3, 0, 1, 0x20, 0, 0, 0, 0]

  const DATA_BYTES: seq<Byte> := [12, 0, 0, 0, 2, 0, 1, 0x10, 0, 0, 0, 0]

  const ROOM := Env(true, Fits)
  const FULL := Env(false, Fits)
  const NO_ROOM := Env(false, Overrun)

  lemma HeaderOf(lo: Byte, hi: Byte, kind: Byte)
    ensures P.PduAt([12, 0, 0, 0, kind, 0, lo, hi, 0, 0, 0, 0]) == P.Pdu(12, kind as int, lo as int + hi as int * 0x100, 0)
  {
    var b: seq<Byte> := [12, 0, 0, 0, kind, 0, lo, hi, 0, 0, 0, 0];
    assert b[0..4] == [12, 0, 0, 0] && b[8..12] == [0, 0, 0, 0];
  }

  lemma CommandBytes()
    ensures IsCommand(PREVIEW_BYTES) && IsPreview(PREVIEW_BYTES)
    ensures IsCommand(INFO_BYTES) && !IsPreview(INFO_BYTES) && !ChangesSession(INFO_BYTES)
    ensures IsCommand(OPEN_BYTES) && ChangesSession(OPEN_BYTES)
  {
    hide P.PduAt, IsCommand;
    HeaderOf(0x53, 0x91, 1);
    HeaderOf(1, 0x10, 1);
    HeaderOf(2, 0x10, 1);
    CommandMade(PREVIEW_BYTES);
    CommandMade(INFO_BYTES);
    CommandMade(OPEN_BYTES);
  }

  lemma DoneBytes()
    ensures P.PduAt(DONE_BYTES) == P.Pdu(12, 3, RESULT_OK, 0)
    ensures Hear(Outside, DONE_BYTES) == Account([P.PduAt(DONE_BYTES)], 1, Outside, true) && Piece(Outside, DONE_BYTES)
    ensures !Malformed(Tracker(0, false), DONE_BYTES) && forall t: Tracker :: t.left == 0 ==> Complete(Track(t, DONE_BYTES))
  {
    hide P.PduAt;
    HeaderOf(1, 0x20, 3);
    assert DONE_BYTES[12..] == [];
    HearsInside(0, true, DONE_BYTES[12..]);
    assert DONE_BYTES[12..][0..] == [];
    assert Hear(Outside, []) == Account([], 0, Outside, true);
  }

  /** The filter's own parser, having read a response. */
  lemma DoneScanned(ids: P.Ids, m: P.Machine)
    requires m.Between()
    ensures var s := P.Scan(P.Self, false, ids, m, DONE_BYTES); s.ending == P.Fine && s.m.pdu == P.PduAt(DONE_BYTES)
  {
    hide P.PduAt;
    DoneBytes();
    var started := P.Started(P.PduAt(DONE_BYTES));
    assert DONE_BYTES[12..] == [] && DONE_BYTES[12..][0..] == [];
    P.StartedInside(P.PduAt(DONE_BYTES));
    var ended := P.Finished(P.Self, false, ids, P.Response);
    assert P.ScanBody(P.Self, false, ids, started, []).m == P.Closed(started) by {
      P.OnlyNothing(P.Self, false, ended, P.Closed(started));
    }
  }

  // ------------------------------------------------------------ single steps

  /** The timer starts a preview of the filter's own. */
  lemma TimerSends(w: World)
    requires Inv(w) && w.filter.state == Active && w.filter.free > 0
    ensures var v := TimerStep(w, ROOM);
      && Inv(v) && v.filter == w.filter.(free := w.filter.free - 1, state := Busy) && v.client == w.client
      && v.camera.own == Commanding && v.streams.tx == w.streams.tx
  {
    hide Spoken, SendOwn, Others, ClientHeld;
    TimerKeeps(w, ROOM);
    var v := Enter(w.(filter := w.filter.(free := w.filter.free - 1)), Busy);
    FilterFree(w, v);
    SendOwnSpoken(v);
    OwnLeavesTx(v);
  }

  lemma OwnLeavesTx(w: World)
    requires Parsers(w.streams)
    ensures SendOwn(w).streams.tx == w.streams.tx
  {
    hide P.Scan;
  }

  lemma CommandTaken(w: World)
    requires Inv(w) && w.camera.own == Commanding
    ensures Enabled(w, CommandDone) && Orderly(w, CommandDone)
    ensures var v := Step(w, CommandDone);
      && Inv(v) && v.filter == w.filter && v.client == w.client && v.camera.own == Reading
      && v.streams == w.streams.(back := v.streams.back) && v.streams.self.Between()
  {
    hide ClientHeld, Buffered, InFollowed, OutFollowed, Seen;
    CommandDoneKeeps(w);
  }

  lemma ResultKnown(w: World)
    requires Parsers(w.streams) && w.streams.self.Between()
    ensures SelfParsed(w, DONE_BYTES).streams.self.pdu.code == RESULT_OK
  {
    hide P.Scan, P.PduAt;
    DoneBytes();
    DoneScanned(w.streams.ids, w.streams.self);
  }

  lemma BackEmpty(w: World)
    requires Spoken(w) && w.camera.own == Reading && w.streams.self.Between()
    ensures w.streams.back.left == 0
  {
  }

  lemma DonePiece(w: World, env: Env)
    requires Parsers(w.streams) && w.camera.own == Reading && w.streams.self.Between()
    ensures Enabled(w, DataDone(DONE_BYTES, env)) && Orderly(w, DataDone(DONE_BYTES, env))
  {
    hide DONE_BYTES, Hear, Piece, P.Scan;
    DoneBytes();
  }

  lemma DoneServed(w: World, env: Env)
    requires Parsers(w.streams) && w.client.Asking? && w.filter.serving && w.filter.frames > 0
    requires w.filter.state in {Active, Busy, Drop} && ReaderOf(w.streams.tx) == Outside
    ensures Enabled(w, Served(DONE_BYTES, env)) && Orderly(w, Served(DONE_BYTES, env))
  {
    hide DONE_BYTES, Hear, Piece, P.Scan;
    DoneBytes();
  }

  lemma NothingProduced(w: World, env: Env)
    requires Parsers(w.streams) && w.filter.state == Active
    requires w.filter.queue == [] || (w.filter.queue[0] == OwnCommand && !env.room)
    ensures Produce(w, env) == w
  {
  }

  /** The filter's own preview ends well. */
  lemma PreviewEnds(w: World, env: Env)
    requires Inv(w) && w.filter.state == Busy && w.camera.own == Reading && w.streams.self.Between()
    requires w.filter.frames + 1 < w.filter.limit
    requires w.filter.queue == [] || (w.filter.queue[0] == OwnCommand && !env.room)
    requires Enabled(w, DataDone(DONE_BYTES, env))
    ensures var v := OnDataDone(w, DONE_BYTES, env);
      && Inv(v) && v.client == w.client && v.streams.tx == w.streams.tx
      && v.filter == w.filter.(free := w.filter.free + 1, frames := w.filter.frames + 1, state := Active, armed := true)
  {
    hide P.Scan, Hear, Piece, Malformed, Track, Turns, ClientHeld, UrbsHeld, Spoken, OnDataDone, Others, Produce, SelfParsed;
    hide DONE_BYTES;
    assert Spoken(w);
    DoneBytes();
    ResultKnown(w);
    BackEmpty(w);
    DataDoneKeeps(w, DONE_BYTES, env);
    var u := DataDoneStep(w, DONE_BYTES, env);
    NothingProduced(u, env);
  }

  lemma FrameServed(w: World)
    requires Inv(w) && w.filter.serving && w.filter.frames > 0 && w.filter.state in {Active, Busy, Drop}
    requires w.filter.queue == [] && ReaderOf(w.streams.tx) == Outside && Enabled(w, Served(DONE_BYTES, ROOM))
    ensures var v := OnServed(w, DONE_BYTES, ROOM);
      && Inv(v) && v.client == Resting && v.camera == w.camera
      && v.filter == w.filter.(serving := false, frames := w.filter.frames - 1)
  {
    hide P.Scan, Hear, Piece, Malformed, Track, Turns, ClientHeld, UrbsHeld, Spoken, TxParsed, Finishes, ProduceItem;
    hide DONE_BYTES, Enabled;
    DoneBytes();
    ServingTurn(w);
    ServedKeeps(w, DONE_BYTES, ROOM);
    ServedSpoken(w, DONE_BYTES);
    var f := w.filter.(serving := false, frames := w.filter.frames - 1);
    FilterFree(w, w.(filter := f));
    ServedSpoken(w.(filter := f), DONE_BYTES);
  }

  /** A frame is served, and the preview that waited for room is sent. */
  lemma ServedStarts(w: World)
    requires Inv(w) && w.filter.serving && w.filter.frames > 0 && w.filter.state == Active
    requires w.filter.queue == [OwnCommand] && ReaderOf(w.streams.tx) == Outside && Enabled(w, Served(DONE_BYTES, ROOM))
    ensures var v := OnServed(w, DONE_BYTES, ROOM);
      && Inv(v) && v.client == Resting && v.camera.own == Commanding
      && v.filter == w.filter.(serving := false, frames := w.filter.frames - 1, queue := [], state := Busy)
  {
    hide P.Scan, Hear, Piece, Malformed, Track, Turns, ClientHeld, UrbsHeld, Spoken, TxParsed, Finishes, SendOwn, DONE_BYTES;
    hide Enabled;
    DoneBytes();
    ServingTurn(w);
    ServedKeeps(w, DONE_BYTES, ROOM);
    ServedSpoken(w, DONE_BYTES);
    var f := w.filter.(serving := false, frames := w.filter.frames - 1);
    FilterFree(w, w.(filter := f));
    ServedSpoken(w.(filter := f), DONE_BYTES);
    var v := TxParsed(w.(filter := f, streams := w.streams.(front := Track(w.streams.front, DONE_BYTES))), true, DONE_BYTES);
    ServedHeld(w, v, true);
    QueuedSends(v);
  }

  lemma QueuedSends(v: World)
    requires Inv(v) && v.filter.state == Active && v.filter.queue == [OwnCommand]
    ensures var u := Produce(v, ROOM);
      && u.filter == v.filter.(queue := [], state := Busy) && u.camera.own == Commanding && u.client == v.client
  {
    hide Spoken, SendOwn, ClientHeld;
    var u := Enter(Taken(v, true), Busy);
    FilterFree(v, u);
    SendOwnSpoken(u);
  }

  /** A preview command wakes the idle filter. */
  lemma PreviewStarts(w: World)
    requires Inv(w) && w.client.Resting? && w.filter.state == Idle && (w.filter.built ==> w.filter.free > 0)
    ensures Enabled(w, Out(PREVIEW_BYTES, false, ROOM)) && Orderly(w, Out(PREVIEW_BYTES, false, ROOM))
    ensures var v := Step(w, Out(PREVIEW_BYTES, false, ROOM));
      && Inv(v) && v.filter == Woken(w.filter) && v.camera.own == Commanding
      && ReaderOf(v.streams.tx) == Outside
  {
    hide PREVIEW_BYTES, IsCommand, IsPreview, ChangesSession, Hear, P.Scan, P.PduAt, Parsed, Completed, TimerStep;
    hide OnPreview, UrbsHeld, ClientHeld, Turns;
    CommandBytes();
    CommandRead(PREVIEW_BYTES);
    NoPreviewIsSession(PREVIEW_BYTES);
    assert Spoken(w) && w.camera.pending == None by { IdleTurn(w); }
    CommandParsed(w, PREVIEW_BYTES);
    ParsedKeeps(w, PREVIEW_BYTES);
    var v := Parsed(w, PREVIEW_BYTES).(client := Asked(PREVIEW_BYTES));
    CommandRead(v.streams.urb);
    WokenBy(v);
  }

  lemma IdleTurn(w: World)
    requires Inv(w) && w.filter.state in {Idle, Active}
    ensures Spoken(w) && w.camera.pending == None && w.camera.own == Absent
  {
    hide Spoken;
  }

  /** What is left of the filter's state when it wakes and starts a preview. */
  function Woken(f: Filter): Filter
    requires f.built ==> f.free > 0
  {
    f.(state := Busy, free := (if f.built then f.free else FREE_URBS) - 1, built := true, serving := true, frames := 0)
  }

  lemma WokenBy(v: World)
    requires Received(v) && v.client.preview && v.filter.state == Idle && (v.filter.built ==> v.filter.free > 0)
    ensures var u := OnPreview(v, false, ROOM);
      && Inv(u) && u.filter == Woken(v.filter)
      && u.camera.own == Commanding && u.client == v.client && ReaderOf(u.streams.tx) == Outside
  {
    hide Completed, TimerStep, Spoken, IsCommand, IsPreview, Hear, UrbsHeld, ClientHeld, Seen, OwnFollowed, Stamped;
    var f := v.filter;
    var x := v.(filter := f.(frames := 0, serving := true, state := Active));
    assert x == x.(streams := v.streams.(front := v.streams.front.(left := 0)));
    WokenKeeps(v, 0, f.armed);
    ArrivedFree(v, x);
    PreviewCompleted(x);
    TimerSends(WithUrbs(Completed(x, true)));
  }

  /** A command goes to the camera at once. */
  lemma CommandGoes(w: World, bytes: seq<Byte>)
    requires Inv(w) && w.client.Resting? && IsCommand(bytes) && !IsPreview(bytes)
    requires w.filter.state == Idle || (w.filter.state == Active && ChangesSession(bytes))
    ensures Enabled(w, Out(bytes, false, ROOM)) && Orderly(w, Out(bytes, false, ROOM))
    ensures var v := Step(w, Out(bytes, false, ROOM));
      && Inv(v) && v.filter == w.filter.(state := CommandSent, armed := w.filter.armed && w.filter.state == Idle)
      && v.camera.pending == Some(Client) && v.client.Asking?
      && JustCommanded(v.streams.rx) && v.streams.tx.Between()
  {
    hide IsCommand, IsPreview, ChangesSession, Hear, P.Scan, P.PduAt, Parsed, Forward, UrbsHeld, ClientHeld, Turns, Seen;
    CommandRead(bytes);
    IdleTurn(w);
    CommandParsed(w, bytes);
    ParsedKeeps(w, bytes);
    var v := Parsed(w, bytes).(client := Asked(bytes));
    CommandRead(v.streams.urb);
    NotPreview(bytes);
    OutKeeps(w, bytes, false, ROOM);
    var u := Enter(v, CommandSent);
    ArrivedFree(v, u);
    ForwardSpoken(u);
  }

  lemma NotPreview(bytes: seq<Byte>)
    requires IsCommand(bytes)
    ensures Asked(bytes).preview == IsPreview(bytes) && bytes != []
  {
    hide IsPreview;
  }

  /** The camera's answer leaves the filter idle, whatever waits for interception. */
  lemma AnswerEnds(w: World)
    requires Inv(w) && w.camera.pending == Some(Client) && w.filter.state == CommandSent
    requires w.streams.rx.Between() && w.streams.tx.Between()
    requires w.filter.queue == [] || w.filter.queue[0] == OwnCommand
    ensures Enabled(w, Answered(DONE_BYTES, ROOM)) && Orderly(w, Answered(DONE_BYTES, ROOM))
    ensures var v := Step(w, Answered(DONE_BYTES, ROOM));
      Inv(v) && v.filter == w.filter.(state := Idle) && v.client.Resting?
  {
    hide DONE_BYTES, P.Scan, Hear, Turns, ClientHeld, UrbsHeld, Spoken, TxParsed, Finishes, SendOwn;
    DoneBytes();
    ClientTurn(w);
    assert AnswersClient(w.streams, DONE_BYTES);
    AnsweredSpoken(w, DONE_BYTES);
    AnsweredKeeps(w, DONE_BYTES, ROOM);
  }

  /** Another command of the client's has to wait for the filter's own preview. */
  lemma CommandWaits(w: World)
    requires Inv(w) && w.filter.state == Busy && w.client.Resting?
    ensures Enabled(w, Out(INFO_BYTES, false, ROOM)) && Orderly(w, Out(INFO_BYTES, false, ROOM))
    ensures var v := Step(w, Out(INFO_BYTES, false, ROOM));
      && Inv(v) && v.filter == w.filter.(queue := w.filter.queue + [ClientCommand]) && v.camera == w.camera
  {
    hide INFO_BYTES, IsCommand, IsPreview, ChangesSession, Hear, P.Scan, P.PduAt, Parsed, Received, Spoken;
    CommandBytes();
    CommandRead(INFO_BYTES);
    CommandParsed(w, INFO_BYTES);
    OutKeeps(w, INFO_BYTES, false, ROOM);
  }

  // ------------------------------------------------------------ runs

  lemma {:induction false} RunOneMore(w: World, es: seq<Event>, e: Event)
    requires Parsers(w.streams) && Feasible(w, es) && Enabled(Run(w, es), e) && Orderly(Run(w, es), e)
    ensures Feasible(w, es + [e]) && Run(w, es + [e]) == Step(Run(w, es), e)
    decreases |es|
  {
    hide Step, Enabled, Orderly;
    if es == [] {
      assert [] + [e] == [e];
    } else {
      assert (es + [e])[0] == es[0] && (es + [e])[1..] == es[1..] + [e];
      RunOneMore(Step(w, es[0]), es[1..], e);
    }
  }

  /** Some run from the start ends here. */
  ghost predicate Reached(limit: nat, w: World) {
    exists es :: Feasible(Start(limit), es) && Run(Start(limit), es) == w
  }

  lemma ReachedStart(limit: nat)
    ensures Reached(limit, Start(limit))
  {
    var es: seq<Event> := [];
    assert Feasible(Start(limit), es) && Run(Start(limit), es) == Start(limit);
  }

  lemma ReachedNext(limit: nat, w: World, e: Event)
    requires Reached(limit, w) && Parsers(w.streams) && Enabled(w, e) && Orderly(w, e)
    ensures Reached(limit, Step(w, e))
  {
    hide Step, Enabled, Orderly;
    var es :| Feasible(Start(limit), es) && Run(Start(limit), es) == w;
    RunOneMore(Start(limit), es, e);
  }

  /** A frame has been fetched and waits for the client. */
  lemma FrameFetched(limit: nat) returns (w: World)
    requires limit >= 2
    ensures Reached(limit, w) && Inv(w)
    ensures w.filter == Filter(Active, [], 2, true, true, 1, limit, true) && ReaderOf(w.streams.tx) == Outside
  {
    hide Turns, ClientHeld, UrbsHeld, Spoken, Step, Enabled, Orderly, ReaderOf, PREVIEW_BYTES, DONE_BYTES, Reached;
    ReachedStart(limit);
    StartSafe(limit);
    w := Start(limit);
    PreviewStarts(w);
    ReachedNext(limit, w, Out(PREVIEW_BYTES, false, ROOM));
    w := Step(w, Out(PREVIEW_BYTES, false, ROOM));
    w := PreviewRuns(limit, w, ROOM);
  }

  /** The filter's own preview is accepted, and its response comes. */
  lemma PreviewRuns(limit: nat, w: World, env: Env) returns (v: World)
    requires Reached(limit, w) && Inv(w) && w.filter.state == Busy && w.camera.own == Commanding
    requires w.filter.frames + 1 < w.filter.limit
    requires w.filter.queue == [] || (w.filter.queue[0] == OwnCommand && !env.room)
    ensures Reached(limit, v) && Inv(v) && v.client == w.client && v.streams.tx == w.streams.tx
    ensures v.filter == w.filter.(free := w.filter.free + 1, frames := w.filter.frames + 1, state := Active, armed := true)
  {
    hide Turns, ClientHeld, UrbsHeld, Spoken, Step, Enabled, Orderly, DONE_BYTES, Reached, OnDataDone;
    CommandTaken(w);
    ReachedNext(limit, w, CommandDone);
    v := Step(w, CommandDone);
    DonePiece(v, env);
    PreviewEnds(v, env);
    DataDoneIs(v, DONE_BYTES, env);
    ReachedNext(limit, v, DataDone(DONE_BYTES, env));
    v := Step(v, DataDone(DONE_BYTES, env));
  }

  lemma DataDoneIs(w: World, data: seq<Byte>, env: Env)
    requires Parsers(w.streams) && Enabled(w, DataDone(data, env))
    ensures Step(w, DataDone(data, env)) == OnDataDone(w, data, env)
  {
  }

  lemma TimerIs(w: World, env: Env)
    requires Parsers(w.streams) && w.filter.armed
    ensures Enabled(w, Timer(env)) && Orderly(w, Timer(env)) && Step(w, Timer(env)) == TimerStep(Disarmed(w), env)
  {
  }

  lemma ServedIs(w: World, data: seq<Byte>, env: Env)
    requires Parsers(w.streams) && Enabled(w, Served(data, env))
    ensures Step(w, Served(data, env)) == OnServed(w, data, env)
  {
  }

  /** The timer wants a preview for which there is no turn, or no room. */
  lemma TimerQueues(limit: nat, w: World, env: Env) returns (v: World)
    requires Reached(limit, w) && Inv(w) && w.filter.armed && w.filter.free > 0
    requires w.filter.state == Busy || (w.filter.state == Active && !env.room)
    ensures Reached(limit, v) && Inv(v)
    ensures v == w.(filter := w.filter.(free := w.filter.free - 1, queue := w.filter.queue + [OwnCommand], armed := false))
  {
    hide Turns, ClientHeld, UrbsHeld, Spoken, Step, Enabled, Orderly, Reached;
    TimerIs(w, env);
    StepKeeps(w, Timer(env));
    ReachedNext(limit, w, Timer(env));
    v := Step(w, Timer(env));
  }

  /** The client has been served and rests, while the filter fetches the next frame. */
  lemma Prefetching(limit: nat) returns (w: World)
    requires limit >= 2
    ensures Reached(limit, w) && Inv(w) && w.client.Resting? && w.camera.own == Commanding
    ensures w.filter == Filter(Busy, [], 1, true, false, 0, limit, false)
  {
    hide Turns, ClientHeld, UrbsHeld, Spoken, Step, Enabled, Orderly, ReaderOf, DONE_BYTES, Reached, OnServed, TimerStep;
    w := FrameFetched(limit);
    TimerSet(w, false);
    TimerSends(Disarmed(w));
    TimerIs(w, ROOM);
    ReachedNext(limit, w, Timer(ROOM));
    w := Step(w, Timer(ROOM));
    ServingTurn(w);
    DoneServed(w, ROOM);
    FrameServed(w);
    ServedIs(w, DONE_BYTES, ROOM);
    ReachedNext(limit, w, Served(DONE_BYTES, ROOM));
    w := Step(w, Served(DONE_BYTES, ROOM));
  }

  /** A session opened now overlaps another transaction. */
  predicate OpensInside(w: World)
    requires Inv(w) && w.client.Resting?
  {
    Enabled(w, Out(OPEN_BYTES, false, ROOM)) &&
    var log := Step(w, Out(OPEN_BYTES, false, ROOM)).camera.log;
    log != [] && !log[|log| - 1].inTurn
  }

  /** With a buffer for two frames a client at rest can open a session in the middle of
      the filter's own preview: what SessionOverlapsIff warns of does happen. */
  lemma OverlapReached(limit: nat)
    requires limit >= 2
    ensures exists w :: (Reached(limit, w) && Inv(w) && w.client.Resting? && OpensInside(w))
  {
    hide Turns, ClientHeld, UrbsHeld, Spoken, Step, Reached, OPEN_BYTES, IsCommand, ChangesSession;
    var w := Prefetching(limit);
    CommandBytes();
    assert Enabled(w, Out(OPEN_BYTES, false, ROOM));
    SessionOverlapsIff(w, OPEN_BYTES, false, ROOM);
    assert OpensInside(w);
  }

  /** The filter's second frame finds no room for a third: the preview the timer wants
      is queued, and a new session keeps it there. */
  lemma LeftOver(limit: nat) returns (w: World)
    requires limit >= 2
    ensures Reached(limit, w) && Inv(w) && w.client.Resting?
    ensures w.filter == Filter(Idle, [OwnCommand], 1, true, false, 1, limit, false)
  {
    hide Turns, ClientHeld, UrbsHeld, Spoken, Step, Enabled, Orderly, Reached, DONE_BYTES, OPEN_BYTES, IsCommand, IsPreview;
    w := Prefetching(limit);
    w := PreviewRuns(limit, w, ROOM);
    w := TimerQueues(limit, w, FULL);
    CommandBytes();
    NoPreviewIsSession(OPEN_BYTES);
    CommandGoes(w, OPEN_BYTES);
    ReachedNext(limit, w, Out(OPEN_BYTES, false, ROOM));
    w := Step(w, Out(OPEN_BYTES, false, ROOM));
    AnswerEnds(w);
    ReachedNext(limit, w, Answered(DONE_BYTES, ROOM));
    w := Step(w, Answered(DONE_BYTES, ROOM));
  }

  /** The next stream starts a second preview beside the one left over: two are ahead. */
  lemma TwoAhead(limit: nat) returns (w: World)
    requires limit >= 2
    ensures Reached(limit, w) && Inv(w) && w.client.Resting? && w.camera.own == Commanding
    ensures w.filter == Filter(Busy, [], 1, true, false, 0, limit, true)
  {
    hide Turns, ClientHeld, UrbsHeld, Spoken, Step, Enabled, Orderly, Reached, ReaderOf, DONE_BYTES, PREVIEW_BYTES, OnServed;
    w := LeftOver(limit);
    PreviewStarts(w);
    ReachedNext(limit, w, Out(PREVIEW_BYTES, false, ROOM));
    w := Step(w, Out(PREVIEW_BYTES, false, ROOM));
    w := PreviewRuns(limit, w, FULL);
    ServingTurn(w);
    DoneServed(w, ROOM);
    ServedStarts(w);
    ServedIs(w, DONE_BYTES, ROOM);
    ReachedNext(limit, w, Served(DONE_BYTES, ROOM));
    w := Step(w, Served(DONE_BYTES, ROOM));
  }

  /** Then a client's command comes to wait behind a preview that finds no room: after
      a session change a state is reached that BlockedForGood is about. Room is lacking
      only while the buffer holds a frame. */
  lemma BlockedReached(limit: nat)
    requires limit >= 2
    ensures exists w :: Reached(limit, w) && Inv(w) && Blocked(w)
  {
    hide Turns, ClientHeld, UrbsHeld, Spoken, Step, Enabled, Orderly, Reached, INFO_BYTES;
    var w := TwoAhead(limit);
    w := TimerQueues(limit, w, ROOM);
    CommandWaits(w);
    ReachedNext(limit, w, Out(INFO_BYTES, false, ROOM));
    w := Step(w, Out(INFO_BYTES, false, ROOM));
    assert w.filter.queue == [OwnCommand, ClientCommand];
    w := PreviewRuns(limit, w, FULL);
    assert Blocked(w);
  }

  /** An empty transfer right after the first command of all faults. */
  lemma FaultReached(limit: nat)
    ensures exists w :: (Reached(limit, w) && Inv(w) && Enabled(w, Out([], false, ROOM))
      && Step(w, Out([], false, ROOM)).filter.state == Faulted)
  {
    hide Turns, ClientHeld, UrbsHeld, Spoken, Step, Orderly, Reached, INFO_BYTES, IsCommand, IsPreview, OnOut;
    StartSafe(limit);
    ReachedStart(limit);
    var w := Start(limit);
    CommandBytes();
    CommandGoes(w, INFO_BYTES);
    ReachedNext(limit, w, Out(INFO_BYTES, false, ROOM));
    w := Step(w, Out(INFO_BYTES, false, ROOM));
    assert Enabled(w, Out([], false, ROOM));
    StepFaultsIff(w, Out([], false, ROOM));
  }

  // ------------------------------------------------------------ a client that starves

  lemma DataBytes()
    ensures Hear(Outside, DATA_BYTES) == Account([P.PduAt(DATA_BYTES)], 0, Outside, true) && Piece(Outside, DATA_BYTES)
    ensures !Malformed(Tracker(0, false), DATA_BYTES)
    ensures forall t: Tracker :: t.left == 0 ==> Track(t, DATA_BYTES) == Tracker(0, false)
  {
    hide P.PduAt;
    HeaderOf(1, 0x10, 2);
    assert DATA_BYTES[12..] == [];
    HearsInside(0, false, DATA_BYTES[12..]);
    assert DATA_BYTES[12..][0..] == [];
    assert Hear(Outside, []) == Account([], 0, Outside, true);
  }

  /** Data that finds no room, and nobody who reads its frame: the frame is to be dropped. */
  lemma DataDropped(w: World)
    requires Inv(w) && w.filter.state == Busy && w.camera.own == Reading && w.streams.self.Between()
    ensures Enabled(w, DataDone(DATA_BYTES, NO_ROOM)) && Orderly(w, DataDone(DATA_BYTES, NO_ROOM))
    ensures var v := OnDataDone(w, DATA_BYTES, NO_ROOM);
      && Inv(v) && v.filter == w.filter.(state := Drop) && v.client == w.client && v.streams.tx == w.streams.tx
      && v.camera.own == Reading && v.streams.self.Between()
  {
    hide P.Scan, Hear, Piece, Malformed, Track, Turns, ClientHeld, UrbsHeld, Spoken, SelfParsed, DATA_BYTES;
    assert Spoken(w);
    DataBytes();
    BackEmpty(w);
    OwnMeansBusy(w);
    OwnDataSpoken(w, DATA_BYTES);
    DataDoneKeeps(w, DATA_BYTES, NO_ROOM);
    var t := Track(w.streams.back, DATA_BYTES);
    var v := SelfParsed(w, DATA_BYTES);
    var u := v.(streams := v.streams.(back := t));
    assert u.streams.self.Between() by { SelfOutside(u); }
  }

  lemma SelfOutside(w: World)
    requires Spoken(w) && w.camera.own == Reading && w.streams.back.left == 0
    ensures w.streams.self.Between()
  {
  }

  /** A preview command during that: the client is told that it is served. */
  lemma PreviewDuringDrop(w: World)
    requires Inv(w) && w.filter.state == Drop && w.client.Resting?
    ensures Enabled(w, Out(PREVIEW_BYTES, false, ROOM)) && Orderly(w, Out(PREVIEW_BYTES, false, ROOM))
    ensures var v := Step(w, Out(PREVIEW_BYTES, false, ROOM));
      && Inv(v) && v.filter == w.filter.(serving := true) && v.camera == w.camera && v.streams.self == w.streams.self
  {
    hide PREVIEW_BYTES, IsCommand, IsPreview, ChangesSession, Hear, P.Scan, P.PduAt, Parsed, Completed, TimerStep;
    hide UrbsHeld, ClientHeld;
    CommandBytes();
    CommandRead(PREVIEW_BYTES);
    NoPreviewIsSession(PREVIEW_BYTES);
    assert Spoken(w) && w.camera.pending == Some(Own) by { DropTurn(w); }
    SenderNotStarved(w);
    CommandParsed(w, PREVIEW_BYTES);
    OutKeeps(w, PREVIEW_BYTES, false, ROOM);
    var v := Parsed(w, PREVIEW_BYTES).(client := Asked(PREVIEW_BYTES));
    CommandRead(v.streams.urb);
    var x := v.(filter := v.filter.(serving := true));
    ArrivedFree(v, x);
    PreviewCompleted(x);
    ParsedLeavesSelf(w, PREVIEW_BYTES);
    CompletedLeavesSelf(x);
  }

  lemma DropTurn(w: World)
    requires Inv(w) && w.filter.state == Drop
    ensures Spoken(w) && w.camera.pending == Some(Own)
  {
    hide Spoken;
  }

  lemma ParsedLeavesSelf(w: World, bytes: seq<Byte>)
    requires Parsers(w.streams)
    ensures Parsed(w, bytes).streams.self == w.streams.self
  {
    hide P.Scan;
  }

  lemma CompletedLeavesSelf(w: World)
    requires Parsers(w.streams)
    ensures Completed(w, true).streams.self == w.streams.self
  {
    hide P.Scan;
  }

  lemma ServedLeaves(w: World, data: seq<Byte>, env: Env)
    requires Parsers(w.streams) && w.client.Asking? && w.filter.queue == []
    ensures OnServed(w, data, env).streams.self == w.streams.self
  {
    hide P.Scan, Hear, Malformed, Track;
  }

  lemma ReachedBuffer(limit: nat, w: World)
    requires Reached(limit, w)
    ensures Buffer(w.filter) && Made(w.filter)
  {
    hide Turns, ClientHeld, UrbsHeld, Spoken, Buffer;
    var es :| Feasible(Start(limit), es) && Run(Start(limit), es) == w;
    StartSafe(limit);
    StartBuffer(limit);
    RunBuffer(Start(limit), es);
  }

  /** The one buffered frame is served while the next is being dropped, and the client
      asks for another: it is told that it is served, and nothing is ahead. */
  lemma StarvedReached(limit: nat)
    requires limit >= 2
    ensures exists w :: Reached(limit, w) && Inv(w) && Starved(w.filter)
  {
    hide Turns, ClientHeld, UrbsHeld, Spoken, Step, Orderly, ReaderOf, DONE_BYTES, DATA_BYTES, PREVIEW_BYTES, Reached, Buffer;
    hide OnServed, TimerStep, OnDataDone, Enabled;
    var w := FrameFetched(limit);
    TimerSet(w, false);
    TimerSends(Disarmed(w));
    TimerIs(w, ROOM);
    ReachedNext(limit, w, Timer(ROOM));
    w := Step(w, Timer(ROOM));
    CommandTaken(w);
    ReachedNext(limit, w, CommandDone);
    w := Step(w, CommandDone);
    DataDropped(w);
    DataDoneIs(w, DATA_BYTES, NO_ROOM);
    ReachedNext(limit, w, DataDone(DATA_BYTES, NO_ROOM));
    w := Step(w, DataDone(DATA_BYTES, NO_ROOM));
    ServingTurn(w);
    DoneServed(w, ROOM);
    FrameServed(w);
    ServedLeaves(w, DONE_BYTES, ROOM);
    ServedIs(w, DONE_BYTES, ROOM);
    ReachedNext(limit, w, Served(DONE_BYTES, ROOM));
    w := Step(w, Served(DONE_BYTES, ROOM));
    PreviewDuringDrop(w);
    ReachedNext(limit, w, Out(PREVIEW_BYTES, false, ROOM));
    w := Step(w, Out(PREVIEW_BYTES, false, ROOM));
    w := DropEnds(limit, w);
  }

  lemma DropEnds(limit: nat, w: World) returns (v: World)
    requires Reached(limit, w) && Inv(w) && w.filter.state == Drop && w.filter.serving && w.filter.frames == 0
    requires w.camera.own == Reading && w.streams.self.Between()
    ensures Reached(limit, v) && Inv(v) && Starved(v.filter)
  {
    hide Turns, ClientHeld, UrbsHeld, Spoken, Step, DONE_BYTES, Reached, Buffer, Malformed, Track, Piece, Hear;
    var e := DataDone(DONE_BYTES, ROOM);
    DonePiece(w, ROOM);
    DoneBytes();
    assert w.streams.back.left == 0 by { OwnMeansBusy(w); BackEmpty(w); }
    TrackedDone(w);
    ReachedBuffer(limit, w);
    StepBuffer(w, e);
    StepKeeps(w, e);
    ReachedNext(limit, w, e);
    v := Step(w, e);
  }

  lemma TrackedDone(w: World)
    requires Inv(w) && w.camera.own == Reading && w.streams.self.Between()
    ensures !Malformed(w.streams.back, DONE_BYTES) && Complete(Track(w.streams.back, DONE_BYTES))
  {
    hide Turns, ClientHeld, UrbsHeld, Spoken, DONE_BYTES, Malformed, Track, Piece, Hear, SelfParsed;
    DoneBytes();
    OwnMeansBusy(w);
    BackEmpty(w);
    OwnDataSpoken(w, DONE_BYTES);
  }
}
