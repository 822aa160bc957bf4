/** The filter's ten-state machine: it slips preview transactions of its own between
    the client's, one transaction at a time, and renumbers every transaction so that
    neither side notices the other's. Every transfer is parsed by the incremental
    parser; every handler is one atomic step; how much room the frame buffer has, and
    what the camera does, is left open. */
module PtpFilter {
  import opened Bags
  import opened Bytes
  import opened PtpReading
  import P = PtpParser

  const FREE_URBS: nat := 2
  const PREVIEW: U16 := 0x9153
  const RESULT_OK: U16 := 0x2001
  const CODE_END: nat := 8

  datatype State =
    | Bypassed      // the filter has given up
    | Idle          // no interception
    | CommandSent   // a client's transaction, not intercepting
    | Active        // intercepting, nothing under way
    | Busy          // a preview of the filter's own
    | Waiting       // a client's transaction, intercepting
    | Drop          // a preview of the filter's own, to be dropped
    | Sleep         // intercepting, the buffer is full
    | SleepWait     // a client's transaction, the buffer is full
    | Faulted       // none of the source's: a transfer was read beyond its end
  {
    /** Numbered from ptpfs_active on. */
    predicate Intercepting() {
      this in {Active, Busy, Waiting, Drop, Sleep, SleepWait}
    }
  }

  /** What request_queue can hold. */
  datatype Item = OwnCommand | OwnData | ClientCommand | ClientRead

  datatype Owner = Own | Client

  /** Where the filter's own transaction is: its command at the camera, its data being
      read, or its data waiting in the queue for room. */
  datatype OwnPhase = Absent | Commanding | Reading | Stalled

  /** The state machine's part of the filter; limit is usbip_ptp_buffer_count, and armed
      tells whether the timer is to fire. */
  datatype Filter = Filter(state: State, queue: seq<Item>, free: nat, built: bool, serving: bool, frames: nat,
                           limit: nat, armed: bool)

  /** How much of a container has been received into the frame buffer, or is to be
      served from it, and whether that container is a response. */
  datatype Tracker = Tracker(left: U32, ends: bool)

  /** What passes through the filter: its parsers and ids, the client's latest transfer,
      the command of the filter's own URBs, and the trackers of the frame buffer's two
      ends. */
  datatype Streams = Streams(ids: P.Ids, rx: P.Machine, tx: P.Machine, self: P.Machine, send: P.Machine,
                             urb: seq<Byte>, trigger: seq<Byte>, back: Tracker, front: Tracker)

  /** A header as the camera got it: for whom, under which id, after how many responses
      since the session was opened, and in turn: a command while no transaction awaits
      its response, anything else within its own transaction. */
  datatype Heard = Heard(owner: Owner, id: U32, since: nat, inTurn: bool)

  /** A transfer as the camera got it, but for its ids. */
  datatype Passed = Passed(owner: Owner, bytes: seq<Byte>)

  /** The camera; hearing is where it stands in the stream of what it is sent, astray
      whether it ever met a header that made no sense. */
  datatype Camera = Camera(pending: Option<Owner>, own: OwnPhase, since: nat, hearing: Reader, astray: bool,
                           log: seq<Heard>, tape: seq<Passed>)

  datatype ClientPhase = Resting | Asking(preview: bool, id: U32)

  /** A header as the client got it: under which id, and the id it had asked with. */
  datatype Answer = Answer(id: U32, asked: U32)

  /** answers and read are what the client got: its headers, and its transfers but for
      their ids. */
  datatype World = World(filter: Filter, streams: Streams, camera: Camera, client: ClientPhase, answers: seq<Answer>,
                         read: seq<seq<Byte>>)

  /** How the buffer stands: room for a frame; and for data of a frame under way, room,
      no room while somebody reads that frame, or no room and nobody does. */
  datatype Space = Fits | Full | Overrun

  datatype Env = Env(room: bool, space: Space)

  /** Transfers carry their bytes: what the client sends, what the filter reads for
      itself, what the camera answers the client, and what is served from the buffer. */
  datatype Event =
    | Out(bytes: seq<Byte>, early: bool, env: Env)
    | Read(env: Env)
    | Timer(env: Env)
    | CommandDone
    | DataDone(data: seq<Byte>, env: Env)
    | Answered(data: seq<Byte>, env: Env)
    | Served(data: seq<Byte>, env: Env)

  const NEW_MACHINE := P.Machine(P.None, 0, P.Pdu(0, 0, 0, 0))

  function Start(limit: nat): (w: World)
    ensures Parsers(w.streams)
  {
    World(Filter(Idle, [], 0, false, false, 0, limit, false),
          Streams(P.Ids(0, 0, false), NEW_MACHINE, NEW_MACHINE, NEW_MACHINE, NEW_MACHINE, [], [],
                  Tracker(0, false), Tracker(0, false)),
          Camera(None, Absent, 0, Outside, false, [], []), Resting, [], [])
  }

  // ------------------------------------------------------------ transfers

  /** A whole command in one transfer. */
  predicate IsCommand(b: seq<Byte>) {
    var a := Hear(Outside, b);
    |b| < P.WRAP && a.ok && |a.heads| == 1 && a.heads[0].kind == P.CONTAINER_COMMAND && a.reader == Outside
  }

  /** ptp_check_preview, on a transfer that holds the code it looks at. */
  predicate IsPreview(b: seq<Byte>)
    ensures |b| >= P.CONTAINER_HEADER ==> (IsPreview(b) <==> P.PduAt(b).code == PREVIEW)
  {
    |b| >= CODE_END && P.Half(b, CODE_END - 2) == PREVIEW
  }

  predicate ChangesSession(b: seq<Byte>) {
    |b| >= P.CONTAINER_HEADER && P.PduAt(b).code in {P.OPEN_SESSION, P.CLOSE_SESSION}
  }

  /** A transfer that holds one container or a part of one. */
  predicate Piece(r: Reader, data: seq<Byte>) {
    && Hear(r, data).ok
    && match r
       case Outside => P.CONTAINER_HEADER <= |data| <= P.PduAt(data).length
       case Inside(left, _) => |data| <= left
  }

  /** A header too short to be tracked. */
  predicate Malformed(t: Tracker, data: seq<Byte>) {
    t.left == 0 && (|data| < P.CONTAINER_HEADER || P.PduAt(data).length < P.CONTAINER_HEADER)
  }

  function Track(t: Tracker, data: seq<Byte>): Tracker
    requires !Malformed(t, data)
  {
    var u := if t.left != 0 then t else Tracker(P.PduAt(data).length, P.PduAt(data).kind == P.CONTAINER_RESPONSE);
    u.(left := (u.left - |data|) % P.WRAP)
  }

  /** The last bytes of a response. */
  predicate Complete(t: Tracker) {
    t.left == 0 && t.ends
  }

  // ------------------------------------------------------------ what the camera hears

  function HearHead(c: Camera, owner: Owner, h: P.Pdu): Camera {
    if h.kind == P.CONTAINER_COMMAND then
      var since := if h.code == P.OPEN_SESSION then 0 else c.since;
      c.(pending := Some(owner), own := if owner == Own then Commanding else c.own, since := since,
         log := c.log + [Heard(owner, h.transId, since, c.pending == None)])
    else c.(log := c.log + [Heard(owner, h.transId, c.since, c.pending == Some(owner))])
  }

  function HearHeads(c: Camera, owner: Owner, heads: seq<P.Pdu>): Camera
    decreases |heads|
  {
    if heads == [] then c else HearHeads(HearHead(c, owner, heads[0]), owner, heads[1..])
  }

  function Hears(c: Camera, owner: Owner, bytes: seq<Byte>): Camera {
    var a := Hear(c.hearing, bytes);
    HearHeads(c.(hearing := a.reader, astray := c.astray || !a.ok, tape := c.tape + [Passed(owner, Blank(c.hearing, bytes))]),
              owner, a.heads)
  }

  /** Responses in what the camera has sent: each ends the transaction under way. */
  function Speaks(c: Camera, responses: nat): Camera {
    c.(pending := if responses > 0 then None else c.pending, since := c.since + responses)
  }

  /** The headers of a transfer that reached the client. */
  function AnswersIn(heads: seq<P.Pdu>, asked: U32): (r: seq<Answer>) {
    if heads == [] then [] else [Answer(heads[0].transId, asked)] + AnswersIn(heads[1..], asked)
  }

  /** The client reads a transfer; a response ends what it had asked for. */
  function Reads(w: World, data: seq<Byte>): World
    requires w.client.Asking? && w.streams.tx.Valid()
  {
    var a := Hear(ReaderOf(w.streams.tx), data);
    w.(answers := w.answers + AnswersIn(a.heads, w.client.id), read := w.read + [Blank(ReaderOf(w.streams.tx), data)],
       client := if a.ended > 0 then Resting else w.client)
  }

  // ------------------------------------------------------------ the parts of a handler

  function Others(q: seq<Item>): (r: seq<Item>)
    ensures |r| <= |q|
  {
    if q == [] then []
    else if q[0] == OwnCommand then Others(q[1..])
    else [q[0]] + Others(q[1..])
  }

  /** ptp_change_state: falling asleep takes the filter's own commands off the queue;
      that, and leaving interception, stops the timer. */
  function ChangeState(f: Filter, s: State): Filter {
    var g := f.(state := s, armed := f.armed && s != Sleep && (s.Intercepting() || !f.state.Intercepting()));
    if s == Sleep then g.(free := f.free + |f.queue| - |Others(f.queue)|, queue := Others(f.queue)) else g
  }

  function Enter(w: World, s: State): World {
    w.(filter := ChangeState(w.filter, s))
  }

  /** The filter gives up when a transfer cannot be parsed. */
  function Unless(w: World, ending: P.Ending): World {
    if ending == P.Fine then w else Enter(w, Bypassed)
  }

  function Queued(w: World, item: Item): World {
    w.(filter := w.filter.(queue := w.filter.queue + [item]))
  }

  /** The queue without its first entry, when that is what is being produced. */
  function Taken(w: World, pending: bool): World
    requires pending ==> w.filter.queue != []
  {
    if pending then w.(filter := w.filter.(queue := w.filter.queue[1..])) else w
  }

  predicate Parsers(s: Streams) {
    s.rx.Valid() && s.tx.Valid() && s.self.Valid() && s.send.Valid()
  }

  /** A parser keeps its state where it gives up, unless it has just met a header it
      does not know. */
  function MachineAfter(s: P.Scanned, before: P.Machine): (m: P.Machine)
    ensures before.Valid() ==> m.Valid()
    ensures s.m.Valid() ==> m == s.m
  {
    if s.m.Valid() then s.m else before
  }

  /** One of the filter's own URBs carries the preview command, under the running id. */
  function SendOwn(w: World): (r: World)
    requires Parsers(w.streams)
    ensures Parsers(r.streams)
  {
    var s := P.Scan(P.Send, false, w.streams.ids, w.streams.send, w.streams.trigger);
    Unless(w.(streams := w.streams.(ids := s.ids, send := MachineAfter(s, w.streams.send), trigger := s.data),
              camera := Hears(w.camera, Own, s.data)), s.ending)
  }

  /** A client's URB is finished: the way to the client is parsed for it, too. */
  function Completed(w: World, served: bool): (r: World)
    requires Parsers(w.streams)
    ensures Parsers(r.streams)
  {
    var s := P.Scan(P.Tx, served, w.streams.ids, w.streams.tx, w.streams.urb);
    if w.filter.state == Bypassed then w
    else Unless(w.(streams := w.streams.(ids := s.ids, tx := MachineAfter(s, w.streams.tx), urb := s.data)), s.ending)
  }

  /** A client's transfer goes to the camera as it is. */
  function Forward(w: World): (r: World)
    requires Parsers(w.streams)
    ensures Parsers(r.streams)
  {
    Completed(w.(camera := Hears(w.camera, Client, w.streams.urb)), false)
  }

  /** A client's transfer that had to wait goes to the camera under the running id. */
  function SendClient(w: World): (r: World)
    requires Parsers(w.streams)
    ensures Parsers(r.streams)
  {
    var s := P.Scan(P.Send, false, w.streams.ids, w.streams.send, w.streams.urb);
    Forward(Unless(w.(streams := w.streams.(ids := s.ids, send := MachineAfter(s, w.streams.send), urb := s.data)), s.ending))
  }

  /** ptp_produce on one request: from the head of the queue, or new. */
  function ProduceItem(w: World, item: Item, pending: bool, env: Env): (r: World)
    requires Parsers(w.streams)
    requires pending ==> w.filter.queue != [] && w.filter.queue[0] == item
    ensures Parsers(r.streams)
  {
    var s := w.filter.state;
    match item
    case OwnCommand =>
      if s == Sleep then SendOwn(Enter(Enter(Taken(w, pending), Active), Busy))
      else if s != Active || !env.room then if pending then w else Queued(w, item)
      else SendOwn(Enter(Taken(w, pending), Busy))
    case ClientCommand =>
      if s == Idle then SendClient(Enter(Taken(w, pending), CommandSent))
      else if s == Sleep then SendClient(Enter(Taken(w, pending), SleepWait))
      else if s == Active then SendClient(Enter(Taken(w, pending), Waiting))
      else if pending then w else Queued(w, item)
    case ClientRead =>
      if s != Busy && s != Drop then Taken(w, pending)
      else if pending then w else Queued(w, item)
    case OwnData =>
      if env.space == Full then
        if pending then w else Queued(w.(camera := w.camera.(own := Stalled)), item)
      else
        var v := if env.space == Overrun then Enter(w, Drop) else w;
        Taken(v, pending).(camera := v.camera.(own := Reading))
  }

  function Produce(w: World, env: Env): (r: World)
    requires Parsers(w.streams)
    ensures Parsers(r.streams)
  {
    if w.filter.queue == [] then w else ProduceItem(w, w.filter.queue[0], true, env)
  }

  /** ptp_timer. */
  function TimerStep(w: World, env: Env): (r: World)
    requires Parsers(w.streams)
    ensures Parsers(r.streams)
  {
    var f := w.filter;
    if !f.state.Intercepting() || f.state in {Drop, Sleep, SleepWait} || f.free == 0 then w
    else ProduceItem(w.(filter := f.(free := f.free - 1)), OwnCommand, false, env)
  }

  // ------------------------------------------------------------ the handlers

  /** The parsing of what a client sends; a new session resets the state. */
  function Parsed(w: World, bytes: seq<Byte>): (r: World)
    requires Parsers(w.streams)
    ensures Parsers(r.streams)
  {
    var s := P.Scan(P.Rx, false, w.streams.ids, w.streams.rx, bytes);
    var v := w.(streams := w.streams.(ids := s.ids.(sessionChanged := false), rx := MachineAfter(s, w.streams.rx), urb := s.data));
    Unless(if s.ids.sessionChanged then Enter(v, Idle) else v, s.ending)
  }

  /** The filter's URBs are made when the first stream starts, for the client's command. */
  function WithUrbs(w: World): World {
    if w.filter.built then w
    else w.(filter := w.filter.(free := FREE_URBS, built := true), streams := w.streams.(trigger := w.streams.urb))
  }

  /** ptp_on_rx for a preview command: the client is told at once that it was accepted,
      and is served from the buffer. */
  function OnPreview(w: World, early: bool, env: Env): (r: World)
    requires Parsers(w.streams)
    ensures Parsers(r.streams)
  {
    var f := w.filter;
    if f.state == Idle then
      var v := w.(filter := f.(frames := 0, serving := true, state := Active),
                  streams := w.streams.(front := w.streams.front.(left := 0)));
      TimerStep(WithUrbs(Completed(v, true)), env)
    else if f.state == Sleep then
      var soon := f.frames > 0 && early;
      var v := Completed(w.(filter := f.(serving := true, state := Active, armed := f.armed || soon)), true);
      if soon then v else TimerStep(WithUrbs(v), env)
    else if f.state.Intercepting() && !f.serving then Completed(w.(filter := f.(serving := true)), true)
    else Forward(Enter(w, Bypassed))
  }

  /** ptp_on_rx for any other command. */
  function OnCommand(w: World): (r: World)
    requires Parsers(w.streams)
    ensures Parsers(r.streams)
  {
    var s := w.filter.state;
    if s == Active then Forward(Enter(w, Waiting))
    else if s == Sleep then Forward(Enter(w, SleepWait))
    else if s == Idle then Forward(Enter(w, CommandSent))
    else if s == Drop || s == Busy then Queued(w, ClientCommand)
    else Forward(Enter(w, Bypassed))
  }

  /** ptp_on_rx for what the client sends, already parsed. */
  function OnOut(w: World, early: bool, env: Env): (r: World)
    requires Parsers(w.streams)
    ensures Parsers(r.streams)
  {
    if !JustCommanded(w.streams.rx) then Forward(w)
    else if |w.streams.urb| < CODE_END then w.(filter := w.filter.(state := Faulted))
    else if IsPreview(w.streams.urb) then OnPreview(w, early, env)
    else OnCommand(w)
  }

  function OnRead(w: World, env: Env): (r: World)
    requires Parsers(w.streams)
    ensures Parsers(r.streams)
  {
    if w.filter.serving || !w.filter.state.Intercepting() then w else ProduceItem(w, ClientRead, false, env)
  }

  /** ptp_cmd_complete. */
  function OnCommandDone(w: World): World {
    if !w.filter.state.Intercepting() then
      Enter(w.(filter := w.filter.(free := w.filter.free + 1), camera := w.camera.(own := Absent)), Bypassed)
    else w.(camera := w.camera.(own := Reading), streams := w.streams.(back := w.streams.back.(left := 0)))
  }

  /** The parsing of what the filter has read for itself. */
  function SelfParsed(w: World, data: seq<Byte>): (r: World)
    requires Parsers(w.streams)
    ensures Parsers(r.streams)
  {
    var s := P.Scan(P.Self, false, w.streams.ids, w.streams.self, data);
    Unless(w.(streams := w.streams.(ids := s.ids, self := MachineAfter(s, w.streams.self)),
              camera := Speaks(w.camera, Hear(ReaderOf(w.streams.self), data).ended)), s.ending)
  }

  /** A preview transaction is over: its URB is free. */
  function UrbFreed(w: World): World {
    w.(filter := w.filter.(free := w.filter.free + 1), camera := w.camera.(own := Absent))
  }

  function Armed(w: World): World {
    w.(filter := w.filter.(armed := true))
  }

  function Disarmed(w: World): World {
    w.(filter := w.filter.(armed := false))
  }

  /** Where its response has ended: the frame is counted, unless it was dropped, and the
      filter sleeps or sets the timer. */
  function Finished(w: World): World {
    var freed, f := UrbFreed(w), w.filter;
    if f.state == Drop then Enter(freed, Sleep)
    else
      var counted := freed.(filter := freed.filter.(frames := f.frames + 1));
      var asleep := f.frames + 1 >= f.limit || w.streams.self.pdu.code != RESULT_OK;
      if asleep then Enter(counted, Sleep) else Armed(Enter(counted, Active))
  }

  /** ptp_data_complete. */
  function OnDataDone(w: World, data: seq<Byte>, env: Env): (r: World)
    requires Parsers(w.streams)
    ensures Parsers(r.streams)
  {
    var v := SelfParsed(w, data);
    var f := v.filter;
    if (f.state != Busy && f.state != Drop) || Malformed(v.streams.back, data) then Enter(UrbFreed(v), Bypassed)
    else
      var t := Track(v.streams.back, data);
      var u := v.(streams := v.streams.(back := t));
      if !Complete(t) then ProduceItem(u, OwnData, false, env) else Produce(Finished(u), env)
  }

  /** The parsing of what goes to the client. */
  function TxParsed(w: World, served: bool, data: seq<Byte>): (r: World)
    requires Parsers(w.streams) && w.client.Asking?
    ensures Parsers(r.streams)
  {
    var s := P.Scan(P.Tx, served, w.streams.ids, w.streams.tx, data);
    Unless(Reads(w, s.data).(streams := w.streams.(ids := s.ids, tx := MachineAfter(s, w.streams.tx))), s.ending)
  }

  /** Whether that parsing finishes a response. */
  predicate Finishes(w: World, served: bool, data: seq<Byte>)
    requires Parsers(w.streams)
  {
    var s := P.Scan(P.Tx, served, w.streams.ids, w.streams.tx, data);
    s.ending == P.Fine && s.responses > 0
  }

  /** ptp_on_tx for a finished response, whoever read it from where. */
  function OnDone(w: World, env: Env): (r: World)
    requires Parsers(w.streams)
    ensures Parsers(r.streams)
  {
    var s := w.filter.state;
    var v := if s == Waiting then Enter(w, Active)
             else if s == SleepWait then Enter(w, Sleep)
             else if s == CommandSent then Enter(w, Idle)
             else w;
    Produce(v, env)
  }

  /** ptp_on_tx for what the camera has answered the client. */
  function OnAnswered(w: World, data: seq<Byte>, env: Env): (r: World)
    requires Parsers(w.streams) && w.client.Asking?
    ensures Parsers(r.streams)
  {
    var x := TxParsed(w, false, data);
    var u := x.(camera := Speaks(x.camera, Hear(ReaderOf(w.streams.tx), data).ended));
    if Finishes(w, false, data) then OnDone(u, env) else u
  }

  /** ptp_consume: some bytes, or the last, of a buffered frame go to the client. */
  function OnServed(w: World, data: seq<Byte>, env: Env): (r: World)
    requires Parsers(w.streams) && w.client.Asking?
    ensures Parsers(r.streams)
  {
    if Malformed(w.streams.front, data) then Enter(w, Bypassed)
    else
      var t := Track(w.streams.front, data);
      var f := if Complete(t) then w.filter.(serving := false, frames := if w.filter.frames > 0 then w.filter.frames - 1 else 0)
               else w.filter;
      var v := TxParsed(w.(filter := f, streams := w.streams.(front := t)), true, data);
      Produce(if Finishes(w, true, data) then OnDone(v, env) else v, env)
  }

  /** What can happen: the client runs one transaction at a time, reads only within one,
      and sends commands whole; the camera answers when it has heard everything. */
  predicate Enabled(w: World, e: Event)
    requires Parsers(w.streams)
  {
    var s := w.streams;
    match e
    case Out(bytes, _, _) =>
      if w.client.Resting? then IsCommand(bytes)
      else w.camera.pending == Some(Client) && SendsData(s, bytes, w.client.id)
    case Read(_) => w.client.Asking? && (w.filter.serving || w.camera.pending == Some(Client))
    case Timer(_) => w.filter.armed
    case CommandDone => w.camera.own == Commanding
    case DataDone(data, _) => w.camera.own == Reading && Piece(ReaderOf(s.self), data)
    case Answered(data, _) => w.camera.pending == Some(Client) && w.client.Asking? && AnswersClient(s, data)
    case Served(data, _) =>
      && w.filter.serving && w.client.Asking? && w.filter.state.Intercepting() && Piece(ReaderOf(s.tx), data)
      && (Hear(ReaderOf(s.tx), data).ended > 0 ==> w.filter.frames > 0)
  }

  /** Data of the client's for the camera, cut anywhere except inside a header, even into
      empty transfers, while the camera has not begun to answer. */
  predicate SendsData(s: Streams, bytes: seq<Byte>, id: U32)
    requires Parsers(s)
  {
    var a := Hear(ReaderOf(s.rx), bytes);
    && P.Countable(s.rx, |bytes|) && P.Countable(s.tx, |bytes|) && ReaderOf(s.tx) == ReaderOf(s.rx)
    && a.ok && forall h :: h in a.heads ==> h.kind == P.CONTAINER_DATA && h.transId == id
  }

  /** Any data of the camera's, with a response as the last thing in it. */
  predicate AnswersClient(s: Streams, data: seq<Byte>)
    requires Parsers(s)
  {
    var a := Hear(ReaderOf(s.tx), data);
    && s.rx.Between() && P.Countable(s.tx, |data|) && a.ok
    && (a.ended > 0 ==> a.ended == 1 && a.reader == Outside)
  }

  function Step(w: World, e: Event): (r: World)
    requires Parsers(w.streams) && Enabled(w, e)
    ensures Parsers(r.streams)
  {
    match e
    case Out(bytes, early, env) =>
      var v := Parsed(w, bytes);
      OnOut(if w.client.Resting? then v.(client := Asked(bytes)) else v, early, env)
    case Read(env) => OnRead(w, env)
    case Timer(env) => TimerStep(Disarmed(w), env)
    case CommandDone => OnCommandDone(w)
    case DataDone(data, env) => OnDataDone(w, data, env)
    case Answered(data, env) => OnAnswered(w, data, env)
    case Served(data, env) => OnServed(w, data, env)
  }

  /** The client has begun a transaction with this command. */
  function Asked(bytes: seq<Byte>): ClientPhase
    requires IsCommand(bytes)
  {
    Asking(IsPreview(bytes), Hear(Outside, bytes).heads[0].transId)
  }

  /** The latest container of the client's was a command. */
  predicate JustCommanded(m: P.Machine) {
    m.phase == P.WaitResponse && m.pdu.kind == P.CONTAINER_COMMAND
  }

  /** The client does not open or close a session while a preview of the filter's own
      is under way, and sends no empty transfer between a command and its data. */
  predicate Orderly(w: World, e: Event) {
    && (e.Out? && w.client.Resting? && ChangesSession(e.bytes) ==> w.camera.pending != Some(Own))
    && (e.Out? && e.bytes == [] ==> !JustCommanded(w.streams.rx))
  }

  /** A run of handlers. */
  predicate Feasible(w: World, es: seq<Event>)
    requires Parsers(w.streams)
    decreases |es|
  {
    es == [] ||
    (Enabled(w, es[0]) && Orderly(w, es[0]) && Feasible(Step(w, es[0]), es[1..]))
  }

  function Run(w: World, es: seq<Event>): (r: World)
    requires Parsers(w.streams) && Feasible(w, es)
    ensures Parsers(r.streams)
    decreases |es|
  {
    if es == [] then w else Run(Step(w, es[0]), es[1..])
  }
}
