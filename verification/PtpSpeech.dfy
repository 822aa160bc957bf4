/** What the filter's parsers keep while transfers pass: the running id counts the
    camera's responses, the client's id is remembered, and every parser stands where
    its reader does. */
module PtpSpeech {
  import opened Bags
  import opened Bytes
  import opened PtpReading
  import opened PtpFilter
  import opened PtpStreams
  import P = PtpParser
  import C = PtpContainers

  // ------------------------------------------------------------ the invariant

  /** The running id counts the camera's responses, and the client's is remembered. */
  predicate Numbered(ids: P.Ids, since: nat, client: ClientPhase) {
    && ids.transId == since % P.WRAP && !ids.sessionChanged
    && (client.Asking? ==> ids.rxTransId == client.id)
  }

  /** The camera is where the client's parser is: between containers, or in the client's
      data within its own transaction. */
  predicate OutFollowed(rx: P.Machine, hearing: Reader, pending: Option<Owner>) {
    && rx.Valid() && hearing == ReaderOf(rx)
    && (pending != Some(Client) ==> rx.Between())
    && (!rx.Between() ==> rx.phase == P.Data && rx.pdu.kind == P.CONTAINER_DATA)
  }

  /** Towards the client a container is under way only within a transaction of its own;
      what is served to it is tracked rightly. */
  predicate InFollowed(tx: P.Machine, front: Tracker, client: ClientPhase, pending: Option<Owner>) {
    && tx.Valid()
    && (client.Resting? || (!client.preview && pending != Some(Client)) ==> tx.Between())
    && (if client.Asking? && client.preview then Agree(front, ReaderOf(tx)) else front.left == 0)
  }

  /** The data of the filter's own transactions are tracked rightly. */
  predicate OwnFollowed(self: P.Machine, back: Tracker, own: OwnPhase) {
    && self.Valid()
    && (own in {Absent, Commanding} ==> self.Between())
    && (own in {Reading, Stalled} ==> Agree(back, ReaderOf(self)))
  }

  /** What waits to be sent is a command: the client's, and the filter's own preview. */
  predicate Buffered(s: Streams, built: bool, client: ClientPhase, pending: Option<Owner>) {
    && s.send.Between()
    && (client.Asking? && !client.preview && pending != Some(Client) ==> IsCommand(s.urb) && !ChangesSession(s.urb))
    && (built ==> IsCommand(s.trigger) && IsPreview(s.trigger))
  }

  /** What the camera and the client have seen so far. */
  predicate Seen(log: seq<Heard>, answers: seq<Answer>) {
    && (forall h :: h in log ==> h.inTurn && h.id == h.since % P.WRAP)
    && (forall a :: a in answers ==> a.id == a.asked)
  }

  /** All but the ids. */
  predicate Followed(s: Streams, c: Camera, client: ClientPhase, built: bool) {
    && OutFollowed(s.rx, c.hearing, c.pending)
    && InFollowed(s.tx, s.front, client, c.pending)
    && OwnFollowed(s.self, s.back, c.own)
    && Buffered(s, built, client, c.pending)
  }

  predicate Spoken(w: World) {
    && Followed(w.streams, w.camera, w.client, w.filter.built)
    && Numbered(w.streams.ids, w.camera.since, w.client)
    && Seen(w.camera.log, w.answers) && !w.camera.astray
  }

  /** The ids while a command is on its way to the camera: one that opens a session has
      reset the running id before the camera knows. */
  predicate Stamped(s: Streams, since: nat, client: ClientPhase) {
    && IsCommand(s.urb) && P.PduAt(s.urb).transId == s.ids.transId && !s.ids.sessionChanged
    && s.ids.transId == (if P.PduAt(s.urb).code == P.OPEN_SESSION then 0 else since % P.WRAP)
    && client.Asking? && s.ids.rxTransId == client.id
  }

  /** A command of the client's, parsed and not yet sent. */
  predicate Arrived(w: World) {
    && w.streams.rx.Valid() && w.streams.rx.Between() && w.camera.hearing == Outside
    && w.streams.tx.Valid() && w.streams.tx.Between() && w.streams.front.left == 0
    && OwnFollowed(w.streams.self, w.streams.back, w.camera.own)
    && w.streams.send.Between()
    && (w.filter.built ==> IsCommand(w.streams.trigger) && IsPreview(w.streams.trigger))
    && IsCommand(w.streams.urb) && Stamped(w.streams, w.camera.since, w.client)
    && Seen(w.camera.log, w.answers) && !w.camera.astray
  }

  // ------------------------------------------------------------ commands

  lemma HearsCommand(c: Camera, owner: Owner, b: seq<Byte>)
    requires IsCommand(b) && c.hearing == Outside
    ensures Hears(c, owner, b) == HearHead(c, owner, P.PduAt(b)).(tape := c.tape + [Passed(owner, Blank(Outside, b))])
  {
    hide P.PduAt, HearHead, Hear, IsCommand, Blank;
    CommandRead(b);
    var h := P.PduAt(b);
    assert [h][1..] == [];
    var d := c.(tape := c.tape + [Passed(owner, Blank(Outside, b))]);
    HearsNothing(HearHead(d, owner, h), owner);
    TapeApart(c, owner, h, d.tape);
  }

  lemma TapeApart(c: Camera, owner: Owner, h: P.Pdu, tape: seq<Passed>)
    ensures HearHead(c.(tape := tape), owner, h) == HearHead(c, owner, h).(tape := tape)
  {
  }

  lemma HearsNothing(c: Camera, owner: Owner)
    ensures HearHeads(c, owner, []) == c
  {
  }

  lemma SeenOneMore(log: seq<Heard>, answers: seq<Answer>, h: Heard)
    requires Seen(log, answers) && h.inTurn && h.id == h.since % P.WRAP
    ensures Seen(log + [h], answers)
  {
  }

  /** The filter's own command reaches the camera under the running id. */
  lemma SendOwnSpoken(w: World)
    requires Spoken(w) && w.camera.pending == None && w.camera.own == Absent && w.filter.built
    ensures var v := SendOwn(w);
      && v == w.(streams := v.streams, camera := v.camera)
      && v.camera.pending == Some(Own) && v.camera.own == Commanding && Spoken(v)
      && v.camera.tape == w.camera.tape + [Passed(Own, Blank(Outside, w.streams.trigger))]
      && v.streams == w.streams.(ids := v.streams.ids, send := v.streams.send, trigger := v.streams.trigger)
      && Blank(Outside, v.streams.trigger) == Blank(Outside, w.streams.trigger)
  {
    hide P.Scan, IsCommand, Hear, P.PduAt, Seen, Hears, Blank;
    var s := w.streams;
    CommandRead(s.trigger);
    ScanBlank(P.Send, false, w.streams.ids, w.streams.send, w.streams.trigger);
    CommandScanned(P.Send, false, s.ids, s.send, s.trigger);
    CameraSeesRunningId(s.ids, s.send, s.trigger);
    var b := P.Scan(P.Send, false, s.ids, s.send, s.trigger).data;
    CommandRead(b);
    HearsCommand(w.camera, Own, b);
    SeenOneMore(w.camera.log, w.answers, Heard(Own, s.ids.transId, w.camera.since, true));
  }

  /** A client's command reaches the camera as it was stamped. */
  lemma ForwardSpoken(w: World)
    requires Arrived(w) && w.camera.pending == None && w.camera.own == Absent && !w.client.preview
    requires w.filter.state != Bypassed
    ensures var v := Forward(w);
      && v == w.(streams := v.streams, camera := v.camera)
      && v.camera.pending == Some(Client) && v.camera.own == Absent && Spoken(v)
      && v.streams.tx.Between() && v.streams.rx == w.streams.rx && v.streams.trigger == w.streams.trigger
      && v.camera.tape == w.camera.tape + [Passed(Client, Blank(Outside, w.streams.urb))]
  {
    hide P.Scan, IsCommand, Hear, P.PduAt, Seen, Hears, Blank;
    var s := w.streams;
    CommandRead(s.urb);
    var pdu := P.PduAt(s.urb);
    HearsCommand(w.camera, Client, s.urb);
    CommandScanned(P.Tx, false, s.ids, s.tx, s.urb);
    var since := if pdu.code == P.OPEN_SESSION then 0 else w.camera.since;
    SeenOneMore(w.camera.log, w.answers, Heard(Client, s.ids.transId, since, true));
  }

  /** A command that had to wait is stamped anew and reaches the camera. */
  lemma SendClientSpoken(w: World)
    requires Spoken(w) && w.camera.pending == None && w.camera.own == Absent && w.filter.state != Bypassed
    requires w.client.Asking? && !w.client.preview
    ensures var v := SendClient(w);
      && v == w.(streams := v.streams, camera := v.camera)
      && v.camera.pending == Some(Client) && v.camera.own == Absent && Spoken(v)
      && v.camera.tape == w.camera.tape + [Passed(Client, Blank(Outside, w.streams.urb))]
      && v.streams.trigger == w.streams.trigger
  {
    hide P.Scan, IsCommand, Hear, P.PduAt, Seen, Hears, Forward, Blank;
    var s := w.streams;
    CommandRead(s.urb);
    ScanBlank(P.Send, false, w.streams.ids, w.streams.send, w.streams.urb);
    CommandScanned(P.Send, false, s.ids, s.send, s.urb);
    CameraSeesRunningId(s.ids, s.send, s.urb);
    var r := P.Scan(P.Send, false, s.ids, s.send, s.urb);
    CommandRead(r.data);
    ForwardSpoken(w.(streams := s.(ids := r.ids, send := r.m, urb := r.data)));
  }

  /** A client's command is parsed: its id is noted, it is stamped with the running id,
      and a new session resets both. */
  lemma CommandParsed(w: World, bytes: seq<Byte>)
    requires Spoken(w) && w.client.Resting? && IsCommand(bytes) && w.camera.pending != Some(Client)
    ensures var v := Parsed(w, bytes).(client := Asked(bytes));
      && Arrived(v) && v == w.(filter := v.filter, streams := v.streams, client := v.client)
      && v.filter == (if ChangesSession(bytes) then ChangeState(w.filter, Idle) else w.filter)
      && v.streams.rx.phase == P.WaitResponse && v.streams.rx.pdu.kind == P.CONTAINER_COMMAND
      && v.client.preview == IsPreview(v.streams.urb) && ChangesSession(v.streams.urb) == ChangesSession(bytes)
      && Blank(Outside, v.streams.urb) == Blank(Outside, bytes) && v.streams.trigger == w.streams.trigger
  {
    hide P.Scan, IsCommand, Hear, P.PduAt, Seen, Blank;
    var s := w.streams;
    CommandRead(bytes);
    ScanBlank(P.Rx, false, w.streams.ids, w.streams.rx, bytes);
    CommandScanned(P.Rx, false, s.ids, s.rx, bytes);
    var r := P.Scan(P.Rx, false, s.ids, s.rx, bytes);
    CommandRead(r.data);
  }

  /** A command that changes no session leaves the ids counting: it may wait. */
  lemma WaitingSpoken(w: World)
    requires Arrived(w) && !w.client.preview && !ChangesSession(w.streams.urb) && w.camera.pending != Some(Client)
    ensures Spoken(w)
  {
    hide IsCommand, Hear, P.PduAt, Seen;
    CommandRead(w.streams.urb);
  }

  /** A preview is accepted at once; its completion leaves the ids alone. */
  lemma PreviewCompleted(w: World)
    requires Arrived(w) && w.client.preview && IsPreview(w.streams.urb) && w.camera.pending != Some(Client)
    requires w.filter.state != Bypassed
    ensures var v := Completed(w, true);
      v == w.(streams := v.streams) && Spoken(v) && IsCommand(v.streams.urb) && IsPreview(v.streams.urb)
      && v.streams.tx.Between()
      && Blank(Outside, v.streams.urb) == Blank(Outside, w.streams.urb) && v.streams.trigger == w.streams.trigger
  {
    hide P.Scan, IsCommand, Hear, P.PduAt, Seen, Blank;
    var s := w.streams;
    CommandRead(s.urb);
    ScanBlank(P.Tx, true, s.ids, s.tx, s.urb);
    CommandScanned(P.Tx, true, s.ids, s.tx, s.urb);
    var r := P.Scan(P.Tx, true, s.ids, s.tx, s.urb);
    CommandRead(r.data);
  }

  // ------------------------------------------------------------ the client's data

  lemma {:induction false} DataHeard(c: Camera, heads: seq<P.Pdu>, answers: seq<Answer>)
    requires Seen(c.log, answers) && c.pending == Some(Client)
    requires forall h :: h in heads ==> h.kind == P.CONTAINER_DATA && h.transId == c.since % P.WRAP
    ensures var d := HearHeads(c, Client, heads); d == c.(log := d.log) && Seen(d.log, answers)
    decreases |heads|
  {
    hide Seen;
    if heads != [] {
      assert heads[0] in heads;
      SeenOneMore(c.log, answers, Heard(Client, heads[0].transId, c.since, true));
      DataHeard(HearHead(c, Client, heads[0]), heads[1..], answers);
    }
  }

  /** The client's data reach the camera under the running id, within its transaction. */
  lemma DataSpoken(w: World, bytes: seq<Byte>)
    requires Spoken(w) && Parsers(w.streams) && w.client.Asking? && w.camera.pending == Some(Client)
    requires SendsData(w.streams, bytes, w.client.id) && w.filter.state != Bypassed && !w.client.preview
    requires bytes == [] ==> !JustCommanded(w.streams.rx)
    ensures var v := Parsed(w, bytes);
      && !JustCommanded(v.streams.rx)
      && var u := Forward(v);
      && u == w.(streams := u.streams, camera := u.camera)
      && u.camera.pending == w.camera.pending && u.camera.own == w.camera.own && Spoken(u)
      && u.camera.tape == w.camera.tape + [Passed(Client, Blank(ReaderOf(w.streams.rx), bytes))]
      && u.streams.trigger == w.streams.trigger
  {
    hide P.Scan, Hear, HearHeads, Seen, Forward, Parsed, SendsData;
    if bytes == [] {
      NothingSpoken(w);
    } else {
      MoreDataSpoken(w, bytes);
    }
  }

  /** An empty transfer changes nothing but the URB, where it is no command's. */
  lemma NothingSpoken(w: World)
    requires Spoken(w) && Parsers(w.streams) && w.camera.pending == Some(Client)
    requires w.filter.state != Bypassed && !JustCommanded(w.streams.rx)
    ensures Parsed(w, []).streams.rx == w.streams.rx
    ensures Forward(Parsed(w, [])) ==
      w.(streams := w.streams.(urb := []), camera := w.camera.(tape := w.camera.tape + [Passed(Client, [])]))
    ensures Spoken(Forward(Parsed(w, [])))
  {
    hide P.Scan, Seen, IsCommand;
    var s := w.streams;
    P.OnlyNothing(P.Rx, false, s.ids, s.rx);
    P.OnlyNothing(P.Tx, false, s.ids, s.tx);
    HearsNothing(w.camera.(tape := w.camera.tape + [Passed(Client, [])]), Client);
  }

  lemma MoreDataSpoken(w: World, bytes: seq<Byte>)
    requires Spoken(w) && Parsers(w.streams) && w.client.Asking? && w.camera.pending == Some(Client)
    requires SendsData(w.streams, bytes, w.client.id) && w.filter.state != Bypassed && !w.client.preview
    requires bytes != []
    ensures var v := Parsed(w, bytes);
      && v.streams.rx.pdu.kind == P.CONTAINER_DATA
      && var u := Forward(v);
      && u == w.(streams := u.streams, camera := u.camera)
      && u.camera.pending == w.camera.pending && u.camera.own == w.camera.own && Spoken(u)
      && u.camera.tape == w.camera.tape + [Passed(Client, Blank(ReaderOf(w.streams.rx), bytes))]
      && u.streams.trigger == w.streams.trigger
  {
    hide P.Scan, Hear, P.PduAt, Seen, StampAll, Blank, P.Countable, ReaderOf, OwnFollowed, SendsData;
    var s := w.streams;
    var a, r := Hear(ReaderOf(s.rx), bytes), P.Scan(P.Rx, false, s.ids, s.rx, bytes);
    DataParsed(w, bytes);
    var c := w.camera.(hearing := a.reader, tape := w.camera.tape + [Passed(Client, Blank(ReaderOf(s.rx), bytes))]);
    DataHeard(c, StampAll(a.heads, s.ids.transId), w.answers);
    OutsideBetween(r.m);
  }

  /** What both parsers make of the client's data. */
  lemma DataParsed(w: World, bytes: seq<Byte>)
    requires Spoken(w) && Parsers(w.streams) && w.client.Asking? && w.camera.pending == Some(Client)
    requires SendsData(w.streams, bytes, w.client.id) && bytes != []
    ensures var s, r, a := w.streams, P.Scan(P.Rx, false, w.streams.ids, w.streams.rx, bytes), Hear(ReaderOf(w.streams.rx), bytes);
      && r.ending == P.Fine && r.ids == s.ids && r.m.Valid() && ReaderOf(r.m) == a.reader
      && r.m.pdu.kind == P.CONTAINER_DATA && (!r.m.Between() ==> r.m.phase == P.Data)
      && Hear(ReaderOf(s.rx), r.data) == a.(heads := StampAll(a.heads, s.ids.transId)) && a.ok
      && (forall h :: h in StampAll(a.heads, s.ids.transId) ==> h.kind == P.CONTAINER_DATA)
      && Blank(ReaderOf(s.rx), r.data) == Blank(ReaderOf(s.rx), bytes)
      && var x := P.Scan(P.Tx, false, s.ids, s.tx, r.data);
      && x.ending == P.Fine && x.ids == s.ids && x.m.Valid()
  {
    hide P.Scan, Hear, P.PduAt, Seen, StampAll, Blank, Buffered, InFollowed, OwnFollowed;
    var s := w.streams;
    var a, r := Hear(ReaderOf(s.rx), bytes), P.Scan(P.Rx, false, s.ids, s.rx, bytes);
    assert s.tx.Valid();
    DataScanned(s.ids, s.rx, bytes);
    ScanHears(P.Rx, false, s.ids, s.rx, bytes);
    OneIdThroughout(P.Rx, false, s.ids, s.rx, bytes, s.ids.transId);
    DataEndsNothing(ReaderOf(s.rx), bytes);
    StampKeepsKind(a.heads, s.ids.transId);
    ScanBlank(P.Rx, false, s.ids, s.rx, bytes);
    DataCompleted(s.ids, s.tx, r.data);
  }

  lemma {:induction false} StampKeepsKind(heads: seq<P.Pdu>, id: U32)
    requires forall h :: h in heads ==> h.kind == P.CONTAINER_DATA
    ensures forall h :: h in StampAll(heads, id) ==> h.kind == P.CONTAINER_DATA
  {
    if heads != [] {
      assert heads[0] in heads;
      StampKeepsKind(heads[1..], id);
    }
  }

  lemma DataCompleted(ids: P.Ids, tx: P.Machine, data: seq<Byte>)
    requires tx.Valid() && P.Countable(tx, |data|)
    requires Hear(ReaderOf(tx), data).ok && Hear(ReaderOf(tx), data).ended == 0
    ensures var s := P.Scan(P.Tx, false, ids, tx, data);
      && s.ending == P.Fine && s.m.Valid() && ReaderOf(s.m) == Hear(ReaderOf(tx), data).reader
      && s.ids == ids.(transId := ids.transId % P.WRAP)
  {
    hide P.Scan, Hear;
    ScanHears(P.Tx, false, ids, tx, data);
    C.RunningIdCounts(P.Tx, ids, tx, data);
  }

  // ------------------------------------------------------------ what the camera says

  /** A piece of a container is short enough for the parser's counter. */
  lemma PieceCountable(m: P.Machine, data: seq<Byte>)
    requires m.Valid() && Piece(ReaderOf(m), data)
    ensures P.Countable(m, |data|)
  {
  }

  /** The next piece of the filter's own data: the tracker sees the response end when
      the parser does, and the running id moves with it. */
  lemma OwnDataSpoken(w: World, data: seq<Byte>)
    requires Spoken(w) && Parsers(w.streams) && w.camera.own == Reading && w.camera.pending == Some(Own)
    requires Piece(ReaderOf(w.streams.self), data)
    ensures !Malformed(w.streams.back, data)
    ensures var v := SelfParsed(w, data);
      var t := Track(w.streams.back, data);
      var u := v.(streams := v.streams.(back := t));
      && v.streams == w.streams.(ids := v.streams.ids, self := v.streams.self) && u == w.(streams := u.streams, camera := u.camera)
      && u.camera == Speaks(w.camera, if Complete(t) then 1 else 0)
      && Spoken(if Complete(t) then UrbFreed(u) else u)
  {
    hide P.Scan, Hear, Piece, Malformed, Track, Seen, IsCommand;
    var s := w.streams;
    PieceCountable(s.self, data);
    TrackerFollows(s.back, ReaderOf(s.self), data);
    assert Hear(ReaderOf(s.self), data).ok by { PieceOk(ReaderOf(s.self), data); }
    ScanHears(P.Self, false, s.ids, s.self, data);
    C.RunningIdCounts(P.Self, s.ids, s.self, data);
    if Complete(Track(s.back, data)) {
      CountedOn(w.camera.since);
    }
  }

  lemma PieceOk(r: Reader, data: seq<Byte>)
    requires Piece(r, data)
    ensures Hear(r, data).ok
  {
  }

  lemma CountedOn(n: nat)
    ensures (n % P.WRAP + 1) % P.WRAP == (n + 1) % P.WRAP
  {
    C.WrappedSum(n, 0, 1);
  }

  lemma {:induction false} AnsweredRightly(log: seq<Heard>, answers: seq<Answer>, heads: seq<P.Pdu>, asked: U32)
    requires Seen(log, answers) && forall h :: h in heads ==> h.transId == asked
    ensures Seen(log, answers + AnswersIn(heads, asked))
    decreases |heads|
  {
    if heads == [] {
      assert answers + [] == answers;
    } else {
      assert heads[0] in heads;
      var more := answers + [Answer(heads[0].transId, asked)];
      AnsweredRightly(log, more, heads[1..], asked);
      assert answers + AnswersIn(heads, asked) == more + AnswersIn(heads[1..], asked);
    }
  }

  /** The camera's answer: every header reaches the client under its own id, and the
      running id moves when a response ends. */
  lemma AnsweredSpoken(w: World, data: seq<Byte>)
    requires Spoken(w) && Parsers(w.streams) && w.client.Asking? && !w.client.preview
    requires w.camera.pending == Some(Client) && w.camera.own == Absent && AnswersClient(w.streams, data)
    ensures var v := TxParsed(w, false, data);
      var n := Hear(ReaderOf(w.streams.tx), data).ended;
      var u := v.(camera := Speaks(v.camera, n));
      && u == w.(streams := u.streams, camera := Speaks(w.camera, n), client := if n > 0 then Resting else w.client,
                 answers := u.answers, read := u.read)
      && (Finishes(w, false, data) <==> n > 0) && Spoken(u)
      && u.read == w.read + [Blank(ReaderOf(w.streams.tx), data)]
      && u.streams == w.streams.(ids := u.streams.ids, tx := u.streams.tx)
  {
    hide P.Scan, Hear, Seen, IsCommand, AnswersIn, OwnFollowed, P.Countable, ReaderOf, Blank;
    var s := w.streams;
    var a, r := Hear(ReaderOf(s.tx), data), P.Scan(P.Tx, false, s.ids, s.tx, data);
    AnswerParsed(s.ids, s.tx, data);
    ScanBlank(P.Tx, false, s.ids, s.tx, data);
    var heads := Hear(ReaderOf(s.tx), r.data).heads;
    AnsweredRightly(w.camera.log, w.answers, heads, w.client.id);
    if a.ended > 0 {
      OutsideBetween(r.m);
      CountedOn(w.camera.since);
    }
  }

  lemma OutsideBetween(m: P.Machine)
    requires m.Valid()
    ensures ReaderOf(m) == Outside <==> m.Between()
  {
  }

  lemma AnswerParsed(ids: P.Ids, tx: P.Machine, data: seq<Byte>)
    requires tx.Valid() && P.Countable(tx, |data|) && Hear(ReaderOf(tx), data).ok
    ensures var s, a := P.Scan(P.Tx, false, ids, tx, data), Hear(ReaderOf(tx), data);
      && s.ending == P.Fine && s.responses == a.ended && s.m.Valid() && ReaderOf(s.m) == a.reader
      && s.ids == ids.(transId := (ids.transId + a.ended) % P.WRAP)
      && Hear(ReaderOf(tx), s.data).ended == a.ended
      && forall h :: h in Hear(ReaderOf(tx), s.data).heads ==> h.transId == ids.rxTransId
  {
    hide P.Scan, Hear, P.Countable, ReaderOf;
    ScanHears(P.Tx, false, ids, tx, data);
    C.RunningIdCounts(P.Tx, ids, tx, data);
    ClientSeesItsOwnId(false, ids, tx, data);
  }

  /** A piece of a buffered frame: the client reads it under its own id, and the running
      id stays. */
  lemma ServedSpoken(w: World, data: seq<Byte>)
    requires Spoken(w) && Parsers(w.streams) && w.client.Asking? && w.client.preview && w.camera.pending != Some(Client)
    requires Piece(ReaderOf(w.streams.tx), data)
    ensures !Malformed(w.streams.front, data)
    ensures var t := Track(w.streams.front, data);
      var v := TxParsed(w.(streams := w.streams.(front := t)), true, data);
      && v == w.(streams := v.streams, client := if Complete(t) then Resting else w.client, answers := v.answers, read := v.read)
      && (Finishes(w, true, data) <==> Complete(t)) && (Hear(ReaderOf(w.streams.tx), data).ended > 0 <==> Complete(t))
      && Spoken(v)
      && v.read == w.read + [Blank(ReaderOf(w.streams.tx), data)]
      && v.streams == w.streams.(ids := v.streams.ids, tx := v.streams.tx, front := v.streams.front)
  {
    hide P.Scan, Hear, Piece, Malformed, Track, Seen, IsCommand, AnswersIn, Blank;
    PieceCountable(w.streams.tx, data);
    assert Hear(ReaderOf(w.streams.tx), data).ok by { PieceOk(ReaderOf(w.streams.tx), data); }
    ScanBlank(P.Tx, true, w.streams.ids, w.streams.tx, data);
    var s := w.streams;
    PieceCountable(s.tx, data);
    TrackerFollows(s.front, ReaderOf(s.tx), data);
    assert Hear(ReaderOf(s.tx), data).ok by { PieceOk(ReaderOf(s.tx), data); }
    ScanHears(P.Tx, true, s.ids, s.tx, data);
    C.ServingKeepsId(P.Tx, s.ids, s.tx, data);
    ClientSeesItsOwnId(true, s.ids, s.tx, data);
    var heads := Hear(ReaderOf(s.tx), P.Scan(P.Tx, true, s.ids, s.tx, data).data).heads;
    AnsweredRightly(w.camera.log, w.answers, heads, w.client.id);
  }
}
