/** The URB submit/unlink protocol between the virtual host controller (client)
    and the stub (server).

    Every section of code run under a spinlock is one atomic event; the two
    directions of the TCP connection are FIFO sequences of messages. A URB is
    identified by the sequence number its enqueue was given. Sequence numbers
    are unbounded. */
module UrbProtocol {
  import opened Bags

  // ---------------------------------------------------------------- messages

  type Data = seq<nat>

  datatype Request = Request(pipe: nat, setup: Data, data: Data)
  datatype Outcome = Outcome(status: int, actualLength: int, data: Data)

  datatype Cmd =
    | CmdSubmit(seqnum: nat, request: Request)
    | CmdUnlink(seqnum: nat, target: nat)

  datatype Ret =
    | RetSubmit(seqnum: nat, outcome: Outcome)
    | RetUnlink(seqnum: nat, status: int)

  const ENOENT := -2
  const ENODEV := -19

  // ------------------------------------------------------------------ client

  /** struct vhci_priv: a URB the client has taken from the USB core. */
  datatype Priv = Priv(seqnum: nat, request: Request)

  /** struct vhci_unlink: an unlink request and the URB it is aimed at. */
  datatype Unlink = Unlink(seqnum: nat, target: nat)

  /** How a URB went back to the driver that enqueued it. */
  datatype Giveback =
    | ByRetSubmit(outcome: Outcome)
    | ByRetUnlink(status: int)
    | ByDequeue
    | ByCleanup(status: int)

  datatype Given = Given(seqnum: nat, how: Giveback)

  /** struct vhci_device with the controller's counter. marked holds the URBs for
      which the USB core's unlink check has already succeeded once; given logs
      the givebacks in order. */
  datatype Client = Client(
    seqnum: nat,
    privTx: seq<Priv>,
    privRx: seq<Priv>,
    unlinkTx: seq<Unlink>,
    unlinkRx: seq<Unlink>,
    marked: set<nat>,
    given: seq<Given>,
    socket: bool)

  function PrivKey(p: Priv): nat { p.seqnum }
  function UnlinkKey(u: Unlink): nat { u.seqnum }

  /** Position of the URB numbered n, or the length of the list. */
  function PrivAt(q: seq<Priv>, n: nat): nat { First(q, PrivKey, n) }

  predicate Waiting(q: seq<Priv>, n: nat) {
    PrivAt(q, n) < |q|
  }

  /** vhci_tx_urb: number the URB and queue it for transmission. */
  function TxUrb(c: Client, request: Request): Client {
    var n := c.seqnum + 1;
    c.(seqnum := n, privTx := c.privTx + [Priv(n, request)])
  }

  /** vhci_urb_dequeue: nothing when the URB is no longer ours or is already
      being unlinked; an unlink request while connected; otherwise the URB
      leaves whichever list it is on and goes back to its driver. */
  function UrbDequeue(c: Client, n: nat): Client {
    if !(Waiting(c.privTx, n) || Waiting(c.privRx, n)) || n in c.marked then c
    else if c.socket then
      c.(marked := c.marked + {n}, seqnum := c.seqnum + 1,
         unlinkTx := c.unlinkTx + [Unlink(c.seqnum + 1, n)])
    else
      var c := c.(marked := c.marked + {n}, given := c.given + [Given(n, ByDequeue)]);
      if Waiting(c.privTx, n) then c.(privTx := Without(c.privTx, PrivAt(c.privTx, n)))
      else c.(privRx := Without(c.privRx, PrivAt(c.privRx, n)))
  }

  /** pickup_urb_and_free_priv followed by the giveback of the URB found. */
  function PickupAndGiveBack(c: Client, n: nat, how: Giveback): Client {
    var i := PrivAt(c.privRx, n);
    if i < |c.privRx| then
      c.(privRx := Without(c.privRx, i), given := c.given + [Given(n, how)])
    else c
  }

  /** dequeue_from_priv_tx: the oldest URB moves on to priv_rx. */
  function TakeSubmit(c: Client): Client
    requires c.privTx != []
  {
    c.(privTx := c.privTx[1..], privRx := c.privRx + [c.privTx[0]])
  }

  /** dequeue_from_unlink_tx: the oldest unlink request moves on to unlink_rx. */
  function TakeUnlink(c: Client): Client
    requires c.unlinkTx != []
  {
    c.(unlinkTx := c.unlinkTx[1..], unlinkRx := c.unlinkRx + [c.unlinkTx[0]])
  }

  /** dequeue_pending_unlink: take the answered request off unlink_rx. */
  function DropUnlink(c: Client, i: nat): Client
    requires i < |c.unlinkRx|
  {
    c.(unlinkRx := Without(c.unlinkRx, i))
  }

  /** One turn of the loop in vhci_device_unlink_cleanup. */
  function CleanupOne(c: Client): Client
    requires c.unlinkRx != []
  {
    PickupAndGiveBack(c, c.unlinkRx[0].target, ByCleanup(ENODEV)).(unlinkRx := c.unlinkRx[1..])
  }

  // ------------------------------------------------------------------ server

  /** struct stub_priv. urb is the URB itself, named after the CMD_SUBMIT that
      built it; seqnum is the field the code renames when it cancels the URB. */
  datatype StubPriv = StubPriv(urb: nat, request: Request, seqnum: nat, unlinking: bool, outcome: Outcome)

  datatype StubUnlink = StubUnlink(seqnum: nat, status: int)

  datatype Server = Server(
    privInit: seq<StubPriv>,
    privTx: seq<StubPriv>,
    privFree: seq<StubPriv>,
    unlinkTx: seq<StubUnlink>,
    unlinkFree: seq<StubUnlink>)

  const NO_OUTCOME := Outcome(0, 0, [])

  function StubPrivKey(p: StubPriv): nat { p.seqnum }

  /** stub_recv_cmd_submit: a new URB enters priv_init. */
  function RecvCmdSubmit(s: Server, n: nat, request: Request): Server {
    s.(privInit := s.privInit + [StubPriv(n, request, n, false, NO_OUTCOME)])
  }

  /** stub_recv_cmd_unlink: cancel and rename the URB if it is still in
      priv_init, otherwise only queue the answer. */
  function RecvCmdUnlink(s: Server, n: nat, target: nat): Server {
    var i := First(s.privInit, StubPrivKey, target);
    if i < |s.privInit| then
      s.(privInit := s.privInit[i := s.privInit[i].(unlinking := true, seqnum := n)])
    else
      s.(unlinkTx := s.unlinkTx + [StubUnlink(n, 0)])
  }

  /** stub_complete: a cancelled URB turns into the answer of its unlink
      request, any other moves to priv_tx with its result. */
  function Complete(s: Server, i: nat, outcome: Outcome): Server
    requires i < |s.privInit|
  {
    var p := s.privInit[i];
    if p.unlinking then
      s.(privInit := Without(s.privInit, i), unlinkTx := s.unlinkTx + [StubUnlink(p.seqnum, outcome.status)])
    else
      s.(privInit := Without(s.privInit, i), privTx := s.privTx + [p.(outcome := outcome)])
  }

  function StubTakeSubmit(s: Server): Server
    requires s.privTx != []
  {
    s.(privTx := s.privTx[1..], privFree := s.privFree + [s.privTx[0]])
  }

  function StubTakeUnlink(s: Server): Server
    requires s.unlinkTx != []
  {
    s.(unlinkTx := s.unlinkTx[1..], unlinkFree := s.unlinkFree + [s.unlinkTx[0]])
  }

  // ----------------------------------------------------------- whole system

  /** Where a transmit thread stands: draining the submit queue, draining the
      unlink queue, or asleep until one of them is not empty. */
  datatype Loop = Submits | Unlinks | Asleep

  /** A transmit thread and the message it has dequeued but not yet sent. */
  datatype Sender<M> = Sender(loop: Loop, hand: Option<M>)

  /** The client's receive thread between the two locked sections of
      vhci_recv_ret_unlink. */
  datatype Receiver = Idle | Answered(unlink: Unlink, status: int)

  /** The stages of vhci_shutdown_connection. */
  datatype Phase = Up | Stopped | Closed | Cleaning | Cleaned

  /** What happened so far; no event reads it. submitted maps each URB to its
      request, aim each unlink request to its target, ended each completed URB
      to the request the device saw and the outcome it produced. cancelled lists
      the unlink requests answered by cancelling their target. */
  datatype History = History(
    submitted: map<nat, Request>,
    aim: map<nat, nat>,
    ended: map<nat, (Request, Outcome)>,
    cancelled: seq<Unlink>,
    cmds: seq<Cmd>,
    rets: seq<Ret>)

  datatype World = World(
    client: Client,
    tx: Sender<Cmd>,
    c2s: seq<Cmd>,
    server: Server,
    stx: Sender<Ret>,
    s2c: seq<Ret>,
    rx: Receiver,
    phase: Phase,
    tcpError: bool,
    h: History)

  const START := World(
    Client(0, [], [], [], [], {}, [], true), Sender(Submits, None), [],
    Server([], [], [], [], []), Sender(Submits, None), [],
    Idle, Up, false, History(map[], map[], map[], [], [], []))

  datatype Event =
    // the USB core and its drivers, on the client
    | Enqueue(request: Request)
    | Dequeue(urb: nat)
    // the client's transmit thread
    | TxTakeSubmit | TxEndSubmits | TxTakeUnlink | TxEndUnlinks | TxWake | TxSend
    // the client's receive thread
    | RxReply | RxPickup
    // the server's receive thread and the device
    | StubRx | DeviceDone(index: nat, outcome: Outcome)
    // the server's transmit thread
    | StubTakeSubmitEv | StubEndSubmits | StubTakeUnlinkEv | StubEndUnlinks | StubWake | StubSend
    // the client's shutdown
    | StopThreads | CloseSocket | CleanupBegin | CleanupTurn | CleanupEnd

  predicate Enabled(w: World, e: Event) {
    match e
    case Enqueue(_) => true
    case Dequeue(_) => true
    case TxTakeSubmit => w.phase.Up? && w.tx == Sender(Submits, None) && w.client.privTx != []
    case TxEndSubmits => w.phase.Up? && w.tx == Sender(Submits, None) && w.client.privTx == []
    case TxTakeUnlink => w.phase.Up? && w.tx == Sender(Unlinks, None) && w.client.unlinkTx != []
    case TxEndUnlinks => w.phase.Up? && w.tx == Sender(Unlinks, None) && w.client.unlinkTx == []
    case TxWake => w.phase.Up? && w.tx.loop.Asleep? && (w.client.privTx != [] || w.client.unlinkTx != [])
    case TxSend => w.phase.Up? && w.tx.hand.Some?
    case RxReply => w.phase.Up? && w.rx.Idle? && !w.tcpError && w.s2c != []
    case RxPickup => w.phase.Up? && w.rx.Answered?
    case StubRx => w.c2s != []
    case DeviceDone(i, outcome) => i < |w.server.privInit| && outcome.status != ENOENT
    case StubTakeSubmitEv => w.stx == Sender(Submits, None) && w.server.privTx != []
    case StubEndSubmits => w.stx == Sender(Submits, None) && w.server.privTx == []
    case StubTakeUnlinkEv => w.stx == Sender(Unlinks, None) && w.server.unlinkTx != []
    case StubEndUnlinks => w.stx == Sender(Unlinks, None) && w.server.unlinkTx == []
    case StubWake => w.stx.loop.Asleep? && (w.server.privTx != [] || w.server.unlinkTx != [])
    case StubSend => w.stx.hand.Some?
    case StopThreads => w.phase.Up? && w.rx.Idle?
    case CloseSocket => w.phase.Stopped?
    case CleanupBegin => w.phase.Closed?
    case CleanupTurn => w.phase.Cleaning? && w.client.unlinkRx != []
    case CleanupEnd => w.phase.Cleaning? && w.client.unlinkRx == []
  }

  function DoEnqueue(w: World, request: Request): World {
    var c := TxUrb(w.client, request);
    w.(client := c, h := w.h.(submitted := w.h.submitted[c.seqnum := request]))
  }

  function DoDequeue(w: World, n: nat): World {
    var c := UrbDequeue(w.client, n);
    w.(client := c,
       h := if c.seqnum == w.client.seqnum then w.h else w.h.(aim := w.h.aim[c.seqnum := n]))
  }

  /** vhci_rx_pdu on the oldest reply. A RET_SUBMIT whose URB is not in priv_rx
      is the TCP error branch: the receive thread handles no further reply. */
  function DoRxReply(w: World): World
    requires w.s2c != []
  {
    var m := w.s2c[0];
    var w := w.(s2c := w.s2c[1..], h := w.h.(rets := w.h.rets + [m]));
    match m
    case RetSubmit(n, outcome) =>
      if Waiting(w.client.privRx, n)
      then w.(client := PickupAndGiveBack(w.client, n, ByRetSubmit(outcome)))
      else w.(tcpError := true)
    case RetUnlink(n, status) =>
      var i := First(w.client.unlinkRx, UnlinkKey, n);
      if i < |w.client.unlinkRx|
      then w.(client := DropUnlink(w.client, i), rx := Answered(w.client.unlinkRx[i], status))
      else w
  }

  function DoRxPickup(w: World): World
    requires w.rx.Answered?
  {
    w.(rx := Idle,
       client := PickupAndGiveBack(w.client, w.rx.unlink.target, ByRetUnlink(w.rx.status)))
  }

  function DoStubRx(w: World): World
    requires w.c2s != []
  {
    var m := w.c2s[0];
    var w := w.(c2s := w.c2s[1..], h := w.h.(cmds := w.h.cmds + [m]));
    match m
    case CmdSubmit(n, request) => w.(server := RecvCmdSubmit(w.server, n, request))
    case CmdUnlink(n, target) => w.(server := RecvCmdUnlink(w.server, n, target))
  }

  function DoDeviceDone(w: World, i: nat, outcome: Outcome): World
    requires i < |w.server.privInit|
  {
    var p := w.server.privInit[i];
    w.(server := Complete(w.server, i, outcome),
       h := w.h.(ended := w.h.ended[p.urb := (p.request, outcome)],
                 cancelled := if p.unlinking then w.h.cancelled + [Unlink(p.seqnum, p.urb)] else w.h.cancelled))
  }

  function Next(w: World, e: Event): World
    requires Enabled(w, e)
  {
    match e
    case Enqueue(request) => DoEnqueue(w, request)
    case Dequeue(n) => DoDequeue(w, n)
    case TxTakeSubmit =>
      var p := w.client.privTx[0];
      w.(client := TakeSubmit(w.client), tx := Sender(Submits, Some(CmdSubmit(p.seqnum, p.request))))
    case TxEndSubmits => w.(tx := Sender(Unlinks, None))
    case TxTakeUnlink =>
      var u := w.client.unlinkTx[0];
      w.(client := TakeUnlink(w.client), tx := Sender(Unlinks, Some(CmdUnlink(u.seqnum, u.target))))
    case TxEndUnlinks => w.(tx := Sender(Asleep, None))
    case TxWake => w.(tx := w.tx.(loop := Submits))
    case TxSend => w.(tx := w.tx.(hand := None), c2s := w.c2s + [w.tx.hand.value])
    case RxReply => DoRxReply(w)
    case RxPickup => DoRxPickup(w)
    case StubRx => DoStubRx(w)
    case DeviceDone(i, outcome) => DoDeviceDone(w, i, outcome)
    case StubTakeSubmitEv =>
      var p := w.server.privTx[0];
      w.(server := StubTakeSubmit(w.server), stx := Sender(Submits, Some(RetSubmit(p.seqnum, p.outcome))))
    case StubEndSubmits => w.(server := w.server.(privFree := []), stx := Sender(Unlinks, None))
    case StubTakeUnlinkEv =>
      var u := w.server.unlinkTx[0];
      w.(server := StubTakeUnlink(w.server), stx := Sender(Unlinks, Some(RetUnlink(u.seqnum, u.status))))
    case StubEndUnlinks => w.(server := w.server.(unlinkFree := []), stx := Sender(Asleep, None))
    case StubWake => w.(stx := w.stx.(loop := Submits))
    case StubSend => w.(stx := w.stx.(hand := None), s2c := w.s2c + [w.stx.hand.value])
    case StopThreads => w.(phase := Stopped, tx := Sender(Asleep, None))
    case CloseSocket => w.(phase := Closed, client := w.client.(socket := false))
    case CleanupBegin => w.(phase := Cleaning, client := w.client.(unlinkTx := []))
    case CleanupTurn => w.(client := CleanupOne(w.client))
    case CleanupEnd => w.(phase := Cleaned)
  }

  // -------------------------------------------------------------------- runs

  ghost predicate Feasible(w: World, es: seq<Event>)
    decreases |es|
  {
    es != [] ==> Enabled(w, es[0]) && Feasible(Next(w, es[0]), es[1..])
  }

  ghost function Run(w: World, es: seq<Event>): World
    requires Feasible(w, es)
    decreases |es|
  {
    if es == [] then w else Run(Next(w, es[0]), es[1..])
  }
}
