/** What holds in every reachable state, whatever order the threads run in. */
module UrbInvariants {
  import opened Bags
  import opened UrbProtocol

  // -------------------------------------------- numbers an entry stands for

  function PrivNo(p: Priv): multiset<nat> { multiset{p.seqnum} }
  function UnlinkNo(u: Unlink): multiset<nat> { multiset{u.seqnum} }
  function TargetNo(u: Unlink): multiset<nat> { multiset{u.target} }
  function GivenNo(g: Given): multiset<nat> { multiset{g.seqnum} }
  function CmdSubmitNo(m: Cmd): multiset<nat> { if m.CmdSubmit? then multiset{m.seqnum} else multiset{} }
  function CmdUnlinkNo(m: Cmd): multiset<nat> { if m.CmdUnlink? then multiset{m.seqnum} else multiset{} }
  function RetSubmitNo(m: Ret): multiset<nat> { if m.RetSubmit? then multiset{m.seqnum} else multiset{} }
  function RetUnlinkNo(m: Ret): multiset<nat> { if m.RetUnlink? then multiset{m.seqnum} else multiset{} }
  function UrbNo(p: StubPriv): multiset<nat> { multiset{p.urb} }
  function RenamedNo(p: StubPriv): multiset<nat> { if p.unlinking then multiset{p.seqnum} else multiset{} }
  function StubUnlinkNo(u: StubUnlink): multiset<nat> { multiset{u.seqnum} }

  /** Commands on their way to the server, oldest first. */
  function Forward(w: World): seq<Cmd> { w.c2s + Held(w.tx.hand) }

  /** Replies on their way to the client, oldest first. */
  function Backward(w: World): seq<Ret> { w.s2c + Held(w.stx.hand) }

  // ------------------------------------------------------------- invariants

  /** URBs and unlink requests draw their numbers from one counter, an unlink
      request is aimed at a URB, and no URB is the target of two requests. */
  ghost predicate Numbered(seqnum: nat, marked: set<nat>, submitted: map<nat, Request>, aim: map<nat, nat>) {
    && (forall n :: n in submitted ==> 0 < n <= seqnum)
    && (forall n :: n in aim ==> 0 < n <= seqnum && n !in submitted)
    && (forall u :: u in aim ==> aim[u] in submitted && aim[u] in marked)
    && (forall u, v :: u in aim && v in aim && aim[u] == aim[v] ==> u == v)
  }

  /** The socket is open until it is closed, and until then only replies give
      URBs back; the cleanup does once it has begun; a sleeping thread holds nothing. */
  predicate Staged(w: World) {
    && (w.client.socket <==> w.phase.Up? || w.phase.Stopped?)
    && (w.client.socket ==> ByReplies(w.client.given))
    && (w.phase.Cleaning? || w.phase.Cleaned? || NotByCleanup(w.client.given))
    && (w.tx.loop.Asleep? ==> w.tx.hand.None?)
    && (w.stx.loop.Asleep? ==> w.stx.hand.None?)
  }

  predicate ByReplies(given: seq<Given>) {
    forall i :: 0 <= i < |given| ==> given[i].how.ByRetSubmit? || given[i].how.ByRetUnlink?
  }

  predicate NotByCleanup(given: seq<Given>) {
    forall i :: 0 <= i < |given| ==> !given[i].how.ByCleanup?
  }

  predicate UrbOk(h: History, n: nat, request: Request) {
    n in h.submitted && h.submitted[n] == request
  }

  predicate AimOk(h: History, u: nat, target: nat) {
    u in h.aim && h.aim[u] == target
  }

  /** The outcome is what the device produced for the very request of URB n. */
  predicate EndOk(h: History, n: nat, outcome: Outcome) {
    n in h.ended && n in h.submitted && h.ended[n] == (h.submitted[n], outcome)
  }

  /** A RET_UNLINK status is either how the cancelled target ended, or zero. */
  predicate AnswerOk(h: History, u: nat, status: int) {
    u in h.aim &&
    if Unlink(u, h.aim[u]) in h.cancelled
    then h.aim[u] in h.ended && h.ended[h.aim[u]].1.status == status
    else status == 0
  }

  // Every entry and message says what history says.

  predicate PrivsOk(h: History, q: seq<Priv>) {
    forall i :: 0 <= i < |q| ==> UrbOk(h, q[i].seqnum, q[i].request)
  }

  predicate UnlinksOk(h: History, q: seq<Unlink>) {
    forall i :: 0 <= i < |q| ==> AimOk(h, q[i].seqnum, q[i].target)
  }

  predicate CmdOk(h: History, m: Cmd) {
    match m
    case CmdSubmit(n, request) => UrbOk(h, n, request)
    case CmdUnlink(u, target) => AimOk(h, u, target)
  }

  predicate CmdsOk(h: History, q: seq<Cmd>) {
    forall i :: 0 <= i < |q| ==> CmdOk(h, q[i])
  }

  predicate RetOk(h: History, m: Ret) {
    match m
    case RetSubmit(n, outcome) => EndOk(h, n, outcome)
    case RetUnlink(u, status) => AnswerOk(h, u, status)
  }

  predicate RetsOk(h: History, q: seq<Ret>) {
    forall i :: 0 <= i < |q| ==> RetOk(h, q[i])
  }

  /** An entry of priv_init carries the number of its URB until it is renamed,
      then that of the unlink request aimed at it; it has not completed. */
  predicate InitOk(h: History, p: StubPriv) {
    && UrbOk(h, p.urb, p.request)
    && (if p.unlinking then AimOk(h, p.seqnum, p.urb) else p.seqnum == p.urb)
    && p.urb !in h.ended
  }

  predicate InitsOk(h: History, q: seq<StubPriv>) {
    forall i :: 0 <= i < |q| ==> InitOk(h, q[i])
  }

  predicate DonesOk(h: History, q: seq<StubPriv>) {
    forall i :: 0 <= i < |q| ==> q[i].seqnum == q[i].urb && EndOk(h, q[i].urb, q[i].outcome)
  }

  predicate StubUnlinksOk(h: History, q: seq<StubUnlink>) {
    forall i :: 0 <= i < |q| ==> AnswerOk(h, q[i].seqnum, q[i].status)
  }

  ghost predicate GivenOk(h: History, g: Given) {
    match g.how
    case ByRetSubmit(outcome) => EndOk(h, g.seqnum, outcome) && RetSubmit(g.seqnum, outcome) in h.rets
    case ByRetUnlink(status) =>
      exists u :: AimOk(h, u, g.seqnum) && RetOk(h, RetUnlink(u, status)) && RetUnlink(u, status) in h.rets
    case ByDequeue => true
    case ByCleanup(status) => status == ENODEV
  }

  ghost predicate GivensOk(h: History, q: seq<Given>) {
    forall i :: 0 <= i < |q| ==> GivenOk(h, q[i])
  }

  predicate ReceiverOk(h: History, rx: Receiver) {
    rx.Answered? ==>
      && AimOk(h, rx.unlink.seqnum, rx.unlink.target)
      && AnswerOk(h, rx.unlink.seqnum, rx.status)
      && RetUnlink(rx.unlink.seqnum, rx.status) in h.rets
  }

  ghost predicate ClientTrue(h: History, c: Client, rx: Receiver) {
    && PrivsOk(h, c.privTx) && PrivsOk(h, c.privRx)
    && UnlinksOk(h, c.unlinkTx) && UnlinksOk(h, c.unlinkRx)
    && GivensOk(h, c.given) && ReceiverOk(h, rx)
  }

  predicate ServerTrue(h: History, s: Server) {
    InitsOk(h, s.privInit) && DonesOk(h, s.privTx) && StubUnlinksOk(h, s.unlinkTx) && UnlinksOk(h, h.cancelled)
  }

  /** Client conservation: each URB ever enqueued is in exactly one of priv_tx,
      priv_rx and the giveback log, exactly once. */
  ghost predicate UrbsConserved(privTx: seq<Priv>, privRx: seq<Priv>, given: seq<Given>, submitted: set<nat>) {
    Bag(privTx, PrivNo) + Bag(privRx, PrivNo) + Bag(given, GivenNo) == multiset(submitted)
  }

  /** While connected, each URB is still in priv_tx or was sent exactly once. */
  ghost predicate SubmitsSent(privTx: seq<Priv>, forward: seq<Cmd>, cmds: seq<Cmd>, submitted: set<nat>) {
    Bag(privTx, PrivNo) + Bag(forward, CmdSubmitNo) + Bag(cmds, CmdSubmitNo) == multiset(submitted)
  }

  /** While connected, each unlink request is still in unlink_tx or was sent
      exactly once. */
  ghost predicate UnlinksSent(unlinkTx: seq<Unlink>, forward: seq<Cmd>, cmds: seq<Cmd>, aim: set<nat>) {
    Bag(unlinkTx, UnlinkNo) + Bag(forward, CmdUnlinkNo) + Bag(cmds, CmdUnlinkNo) == multiset(aim)
  }

  /** While connected, unlink_rx holds exactly the unlink requests sent and not
      yet answered. */
  ghost predicate UnlinksAwaited(unlinkTx: seq<Unlink>, unlinkRx: seq<Unlink>, rets: seq<Ret>, aim: set<nat>) {
    Bag(unlinkTx, UnlinkNo) + Bag(unlinkRx, UnlinkNo) + Bag(rets, RetUnlinkNo) == multiset(aim)
  }

  /** Server conservation: each CMD_SUBMIT received is in progress, answered by
      one RET_SUBMIT, or cancelled by an unlink request. */
  ghost predicate SubmitsAnswered(
    privInit: seq<StubPriv>, privTx: seq<StubPriv>, backward: seq<Ret>,
    cmds: seq<Cmd>, rets: seq<Ret>, cancelled: seq<Unlink>)
  {
    Bag(cmds, CmdSubmitNo)
    == Bag(privInit, UrbNo) + Bag(privTx, UrbNo)
       + Bag(backward, RetSubmitNo) + Bag(rets, RetSubmitNo) + Bag(cancelled, TargetNo)
  }

  /** Server conservation: each CMD_UNLINK received renames a URB in progress,
      waits in unlink_tx, or was answered by one RET_UNLINK. */
  ghost predicate UnlinksAnswered(
    privInit: seq<StubPriv>, unlinkTx: seq<StubUnlink>, backward: seq<Ret>,
    cmds: seq<Cmd>, rets: seq<Ret>)
  {
    Bag(cmds, CmdUnlinkNo)
    == Bag(privInit, RenamedNo) + Bag(unlinkTx, StubUnlinkNo)
       + Bag(backward, RetUnlinkNo) + Bag(rets, RetUnlinkNo)
  }

  /** Nothing is sent twice, and only what was received completes. */
  ghost predicate SentOnce(forward: seq<Cmd>, cmds: seq<Cmd>, submitted: set<nat>, aim: set<nat>, ended: set<nat>) {
    && Bag(forward, CmdSubmitNo) + Bag(cmds, CmdSubmitNo) <= multiset(submitted)
    && Bag(forward, CmdUnlinkNo) + Bag(cmds, CmdUnlinkNo) <= multiset(aim)
    && (forall n :: n in ended ==> n in Bag(cmds, CmdSubmitNo))
  }

  /** A URB still waiting in priv_rx has not had its own RET_SUBMIT consumed. */
  ghost predicate RepliesHeeded(privRx: seq<Priv>, rets: seq<Ret>) {
    forall n :: n in Bag(privRx, PrivNo) ==> n !in Bag(rets, RetSubmitNo)
  }

  /** A request that cancelled its target is answered. */
  ghost predicate CancelsAnswered(unlinkTx: seq<StubUnlink>, backward: seq<Ret>, rets: seq<Ret>, cancelled: seq<Unlink>) {
    forall i :: 0 <= i < |cancelled| ==>
      cancelled[i].seqnum in Bag(unlinkTx, StubUnlinkNo) + Bag(backward, RetUnlinkNo) + Bag(rets, RetUnlinkNo)
  }

  /** Once that answer is consumed the target has left priv_rx, except between
      the two locked sections that consume it. */
  ghost predicate CancelsHeeded(privRx: seq<Priv>, rx: Receiver, rets: seq<Ret>, cancelled: seq<Unlink>) {
    forall i :: 0 <= i < |cancelled| ==>
      (cancelled[i].seqnum in Bag(rets, RetUnlinkNo) && cancelled[i].target in Bag(privRx, PrivNo)
       ==> rx.Answered? && rx.unlink == cancelled[i])
  }

  ghost predicate Connected(w: World) {
    && SubmitsSent(w.client.privTx, Forward(w), w.h.cmds, w.h.submitted.Keys)
    && UnlinksSent(w.client.unlinkTx, Forward(w), w.h.cmds, w.h.aim.Keys)
    && UnlinksAwaited(w.client.unlinkTx, w.client.unlinkRx, w.h.rets, w.h.aim.Keys)
    && RepliesHeeded(w.client.privRx, w.h.rets)
    && CancelsHeeded(w.client.privRx, w.rx, w.h.rets, w.h.cancelled)
  }

  /** Every entry and every message in the system is true to history. */
  ghost predicate Truth(w: World) {
    && Numbered(w.client.seqnum, w.client.marked, w.h.submitted, w.h.aim)
    && Staged(w)
    && ClientTrue(w.h, w.client, w.rx)
    && CmdsOk(w.h, Forward(w))
    && ServerTrue(w.h, w.server)
    && RetsOk(w.h, Backward(w))
  }

  /** Nothing is lost, duplicated or invented. */
  ghost predicate Counts(w: World) {
    && UrbsConserved(w.client.privTx, w.client.privRx, w.client.given, w.h.submitted.Keys)
    && SubmitsAnswered(w.server.privInit, w.server.privTx, Backward(w), w.h.cmds, w.h.rets, w.h.cancelled)
    && UnlinksAnswered(w.server.privInit, w.server.unlinkTx, Backward(w), w.h.cmds, w.h.rets)
    && SentOnce(Forward(w), w.h.cmds, w.h.submitted.Keys, w.h.aim.Keys, w.h.ended.Keys)
    && CancelsAnswered(w.server.unlinkTx, Backward(w), w.h.rets, w.h.cancelled)
    && (w.phase.Up? ==> Connected(w))
  }

  ghost predicate Inv(w: World) {
    Truth(w) && Counts(w)
  }

  // ------------------------------------------------------ history only grows

  predicate Grows(h: History, h': History) {
    && h.submitted.Keys <= h'.submitted.Keys && (forall n :: n in h.submitted ==> h'.submitted[n] == h.submitted[n])
    && h.aim.Keys <= h'.aim.Keys && (forall n :: n in h.aim ==> h'.aim[n] == h.aim[n])
    && h.ended == h'.ended && h.cancelled == h'.cancelled && h.rets <= h'.rets
  }

  lemma GrowKeepsGivens(h: History, h': History, q: seq<Given>)
    requires Grows(h, h') && GivensOk(h, q)
    ensures GivensOk(h', q)
  {
    forall i | 0 <= i < |q|
      ensures GivenOk(h', q[i])
    {
      assert GivenOk(h, q[i]);
      if q[i].how.ByRetUnlink? {
        var status := q[i].how.status;
        var u :| AimOk(h, u, q[i].seqnum) && RetOk(h, RetUnlink(u, status)) && RetUnlink(u, status) in h.rets;
        assert AimOk(h', u, q[i].seqnum) && RetOk(h', RetUnlink(u, status)) && RetUnlink(u, status) in h'.rets;
      }
    }
  }

  lemma GrowKeepsTruth(h: History, h': History, c: Client, rx: Receiver, s: Server, f: seq<Cmd>, b: seq<Ret>)
    requires Grows(h, h')
    requires ClientTrue(h, c, rx) && CmdsOk(h, f) && ServerTrue(h, s) && RetsOk(h, b)
    ensures ClientTrue(h', c, rx) && CmdsOk(h', f) && ServerTrue(h', s) && RetsOk(h', b)
  {
    GrowKeepsGivens(h, h', c.given);
  }

  lemma KeyAdded<V>(m: map<nat, V>, n: nat, v: V)
    requires n !in m
    ensures multiset(m[n := v].Keys) == multiset(m.Keys) + PrivNo(Priv(n, Request(0, [], [])))
  {
    assert m[n := v].Keys == m.Keys + {n};
  }

  // --------------------------------------------------------- Enqueue, Dequeue

  lemma EnqueueTruth(w: World, request: Request)
    requires Truth(w)
    ensures Truth(DoEnqueue(w, request))
  {
    var w' := DoEnqueue(w, request);
    GrowKeepsTruth(w.h, w'.h, w.client, w.rx, w.server, Forward(w), Backward(w));
  }

  lemma EnqueueCounts(w: World, request: Request)
    requires Counts(w) && w.client.seqnum + 1 !in w.h.submitted
    ensures Counts(DoEnqueue(w, request))
  {
    hide Bag, SubmitsAnswered, UnlinksAnswered, UnlinksSent, UnlinksAwaited, RepliesHeeded, CancelsHeeded, CancelsAnswered;
    var n := w.client.seqnum + 1;
    BagPush(w.client.privTx, Priv(n, request), PrivNo);
    KeyAdded(w.h.submitted, n, request);
  }

  lemma DequeueTruth(w: World, n: nat)
    requires Truth(w)
    ensures Truth(DoDequeue(w, n))
  {
    hide CmdsOk, InitsOk, DonesOk, StubUnlinksOk, RetsOk, ReceiverOk, UnlinksOk;
    var w' := DoDequeue(w, n);
    if w'.client.seqnum != w.client.seqnum {
      DequeueTruthConnected(w, n);
    }
  }

  lemma WaitingSubmitted(h: History, q: seq<Priv>, n: nat)
    requires PrivsOk(h, q) && Waiting(q, n)
    ensures n in h.submitted
  {
    assert UrbOk(h, q[PrivAt(q, n)].seqnum, q[PrivAt(q, n)].request);
  }

  lemma DequeueTruthConnected(w: World, n: nat)
    requires Truth(w) && w.client.socket && n !in w.client.marked
    requires Waiting(w.client.privTx, n) || Waiting(w.client.privRx, n)
    ensures Truth(DoDequeue(w, n))
  {
    var w' := DoDequeue(w, n);
    hide PrivsOk, GivensOk, CmdsOk, InitsOk, DonesOk, StubUnlinksOk, RetsOk, ReceiverOk, ByReplies, Waiting;
    if Waiting(w.client.privTx, n) {
      WaitingSubmitted(w.h, w.client.privTx, n);
    } else {
      WaitingSubmitted(w.h, w.client.privRx, n);
    }
    GrowKeepsTruth(w.h, w'.h, w.client, w.rx, w.server, Forward(w), Backward(w));
  }

  lemma DequeueCounts(w: World, n: nat)
    requires Counts(w) && w.client.seqnum + 1 !in w.h.aim && Staged(w)
    ensures Counts(DoDequeue(w, n))
  {
    if !(Waiting(w.client.privTx, n) || Waiting(w.client.privRx, n)) || n in w.client.marked {
    } else if w.client.socket {
      DequeueCountsConnected(w, n);
    } else {
      DequeueCountsClosed(w, n);
    }
  }

  lemma DequeueCountsConnected(w: World, n: nat)
    requires Counts(w) && w.client.seqnum + 1 !in w.h.aim
    requires Waiting(w.client.privTx, n) || Waiting(w.client.privRx, n)
    requires n !in w.client.marked && w.client.socket
    ensures Counts(DoDequeue(w, n))
  {
    hide Bag, Waiting, SubmitsAnswered, UnlinksAnswered, SubmitsSent, RepliesHeeded, CancelsHeeded, CancelsAnswered;
    var u := w.client.seqnum + 1;
    BagPush(w.client.unlinkTx, Unlink(u, n), UnlinkNo);
    KeyAdded(w.h.aim, u, n);
  }

  lemma DequeueCountsClosed(w: World, n: nat)
    requires Counts(w) && !w.phase.Up? && !w.client.socket
    requires Waiting(w.client.privTx, n) || Waiting(w.client.privRx, n)
    requires n !in w.client.marked
    ensures Counts(DoDequeue(w, n))
  {
    hide Bag, SubmitsAnswered, UnlinksAnswered, SentOnce, Connected, CancelsAnswered;
    BagPush(w.client.given, Given(n, ByDequeue), GivenNo);
    if Waiting(w.client.privTx, n) {
      BagWithout(w.client.privTx, PrivAt(w.client.privTx, n), PrivNo);
    } else {
      BagWithout(w.client.privRx, PrivAt(w.client.privRx, n), PrivNo);
    }
  }

  // ------------------------------------------------ the client's transmit thread

  lemma TxTakeSubmitTruth(w: World)
    requires Truth(w) && Enabled(w, TxTakeSubmit)
    ensures Truth(Next(w, TxTakeSubmit))
  {
    var p := w.client.privTx[0];
    assert Forward(Next(w, TxTakeSubmit)) == Forward(w) + [CmdSubmit(p.seqnum, p.request)];
    assert UrbOk(w.h, p.seqnum, p.request);
  }

  lemma TakenSubmitCounts(privTx: seq<Priv>, privRx: seq<Priv>, given: seq<Given>, forward: seq<Cmd>, m: Cmd,
                          cmds: seq<Cmd>, submitted: set<nat>, aim: set<nat>, ended: set<nat>)
    requires privTx != [] && m.CmdSubmit? && m.seqnum == privTx[0].seqnum
    requires UrbsConserved(privTx, privRx, given, submitted) && SubmitsSent(privTx, forward, cmds, submitted)
    requires SentOnce(forward, cmds, submitted, aim, ended)
    ensures UrbsConserved(privTx[1..], privRx + [privTx[0]], given, submitted)
    ensures SubmitsSent(privTx[1..], forward + [m], cmds, submitted)
    ensures SentOnce(forward + [m], cmds, submitted, aim, ended)
  {
    hide Bag;
    BagPush(forward, m, CmdSubmitNo);
    BagPush(forward, m, CmdUnlinkNo);
    BagWithout(privTx, 0, PrivNo);
    assert Without(privTx, 0) == privTx[1..];
    BagPush(privRx, privTx[0], PrivNo);
  }

  lemma UnlinksSentKept(unlinkTx: seq<Unlink>, forward: seq<Cmd>, m: Cmd, cmds: seq<Cmd>, aim: set<nat>)
    requires m.CmdSubmit? && UnlinksSent(unlinkTx, forward, cmds, aim)
    ensures UnlinksSent(unlinkTx, forward + [m], cmds, aim)
  {
    hide Bag;
    BagPush(forward, m, CmdUnlinkNo);
  }

  lemma TxTakeSubmitCounts(w: World)
    requires Counts(w) && Enabled(w, TxTakeSubmit)
    ensures Counts(Next(w, TxTakeSubmit))
  {
    hide Bag, SubmitsAnswered, UnlinksAnswered, RepliesHeeded, CancelsHeeded, CancelsAnswered;
    hide UnlinksAwaited, UnlinksSent, UrbsConserved, SubmitsSent, SentOnce;
    var w', p := Next(w, TxTakeSubmit), w.client.privTx[0];
    var m := CmdSubmit(p.seqnum, p.request);
    assert Forward(w') == Forward(w) + [m];
    TakenSubmitCounts(w.client.privTx, w.client.privRx, w.client.given, Forward(w), m, w.h.cmds,
                      w.h.submitted.Keys, w.h.aim.Keys, w.h.ended.Keys);
    UnlinksSentKept(w.client.unlinkTx, Forward(w), m, w.h.cmds, w.h.aim.Keys);
    TxTakeSubmitHeeded(w);
  }

  lemma TxTakeSubmitHeeded(w: World)
    requires Counts(w) && Enabled(w, TxTakeSubmit)
    ensures var w' := Next(w, TxTakeSubmit);
      && RepliesHeeded(w'.client.privRx, w'.h.rets)
      && CancelsHeeded(w'.client.privRx, w'.rx, w'.h.rets, w'.h.cancelled)
  {
    hide Bag, UrbsConserved, UnlinksAnswered, UnlinksSent, UnlinksAwaited;
    var p := w.client.privTx[0];
    BagWithout(w.client.privTx, 0, PrivNo);
    BagPush(w.client.privRx, p, PrivNo);
    assert multiset(w.h.submitted.Keys)[p.seqnum] <= 1;
    assert p.seqnum !in Bag(w.h.cmds, CmdSubmitNo);
    forall i | 0 <= i < |w.h.cancelled| && w.h.cancelled[i].target == p.seqnum
      ensures false
    {
      BagHas(w.h.cancelled, i, TargetNo);
    }
  }

  lemma TxTakeUnlinkTruth(w: World)
    requires Truth(w) && Enabled(w, TxTakeUnlink)
    ensures Truth(Next(w, TxTakeUnlink))
  {
    var u := w.client.unlinkTx[0];
    assert Forward(Next(w, TxTakeUnlink)) == Forward(w) + [CmdUnlink(u.seqnum, u.target)];
    assert AimOk(w.h, u.seqnum, u.target);
  }

  lemma TakenUnlinkCounts(unlinkTx: seq<Unlink>, unlinkRx: seq<Unlink>, forward: seq<Cmd>, m: Cmd, cmds: seq<Cmd>,
                          rets: seq<Ret>, submitted: set<nat>, aim: set<nat>, ended: set<nat>)
    requires unlinkTx != [] && m.CmdUnlink? && m.seqnum == unlinkTx[0].seqnum
    requires UnlinksSent(unlinkTx, forward, cmds, aim) && UnlinksAwaited(unlinkTx, unlinkRx, rets, aim)
    requires SentOnce(forward, cmds, submitted, aim, ended)
    ensures UnlinksSent(unlinkTx[1..], forward + [m], cmds, aim)
    ensures UnlinksAwaited(unlinkTx[1..], unlinkRx + [unlinkTx[0]], rets, aim)
    ensures SentOnce(forward + [m], cmds, submitted, aim, ended)
  {
    hide Bag;
    BagPush(forward, m, CmdSubmitNo);
    BagPush(forward, m, CmdUnlinkNo);
    BagWithout(unlinkTx, 0, UnlinkNo);
    assert Without(unlinkTx, 0) == unlinkTx[1..];
    BagPush(unlinkRx, unlinkTx[0], UnlinkNo);
  }

  lemma SubmitsSentKept(privTx: seq<Priv>, forward: seq<Cmd>, m: Cmd, cmds: seq<Cmd>, submitted: set<nat>)
    requires m.CmdUnlink? && SubmitsSent(privTx, forward, cmds, submitted)
    ensures SubmitsSent(privTx, forward + [m], cmds, submitted)
  {
    hide Bag;
    BagPush(forward, m, CmdSubmitNo);
  }

  lemma TxTakeUnlinkCounts(w: World)
    requires Counts(w) && Enabled(w, TxTakeUnlink)
    ensures Counts(Next(w, TxTakeUnlink))
  {
    hide Bag, SubmitsAnswered, UnlinksAnswered, RepliesHeeded, CancelsHeeded, CancelsAnswered;
    hide UnlinksAwaited, UnlinksSent, UrbsConserved, SubmitsSent, SentOnce;
    var w', u := Next(w, TxTakeUnlink), w.client.unlinkTx[0];
    var m := CmdUnlink(u.seqnum, u.target);
    assert Forward(w') == Forward(w) + [m];
    TakenUnlinkCounts(w.client.unlinkTx, w.client.unlinkRx, Forward(w), m, w.h.cmds, w.h.rets,
                      w.h.submitted.Keys, w.h.aim.Keys, w.h.ended.Keys);
    SubmitsSentKept(w.client.privTx, Forward(w), m, w.h.cmds, w.h.submitted.Keys);
  }

  /** Sending, falling asleep and waking up move no entry to another place. */
  lemma TxQuietKeepsInv(w: World, e: Event)
    requires Inv(w) && Enabled(w, e) && (e.TxSend? || e.TxEndSubmits? || e.TxEndUnlinks? || e.TxWake?)
    ensures Inv(Next(w, e))
  {
    hide Bag, Numbered, ClientTrue, CmdsOk, ServerTrue, RetsOk;
    hide UrbsConserved, SubmitsAnswered, UnlinksAnswered, SentOnce;
    hide SubmitsSent, UnlinksSent, UnlinksAwaited, RepliesHeeded, CancelsHeeded, CancelsAnswered;
    assert Forward(Next(w, e)) == Forward(w);
  }

  // ------------------------------------------------- the client's receive thread

  /** The replies under way without the oldest one. */
  lemma BackwardPopped(w: World)
    requires w.s2c != []
    ensures var rest := w.s2c[1..] + Held(w.stx.hand);
      && Backward(w) == [w.s2c[0]] + rest
      && Bag(Backward(w), RetSubmitNo) == Bag(rest, RetSubmitNo) + RetSubmitNo(w.s2c[0])
      && Bag(Backward(w), RetUnlinkNo) == Bag(rest, RetUnlinkNo) + RetUnlinkNo(w.s2c[0])
  {
    hide Bag;
    var rest := w.s2c[1..] + Held(w.stx.hand);
    assert Backward(w) == [w.s2c[0]] + rest;
    BagAppend([w.s2c[0]], rest, RetSubmitNo);
    BagAppend([w.s2c[0]], rest, RetUnlinkNo);
    BagOne(w.s2c[0], RetSubmitNo);
    BagOne(w.s2c[0], RetUnlinkNo);
  }

  /** The oldest reply leaves the channel and is logged. */
  function Popped(w: World): World
    requires w.s2c != []
  {
    w.(s2c := w.s2c[1..], h := w.h.(rets := w.h.rets + [w.s2c[0]]))
  }

  lemma PoppedTruth(w: World)
    requires w.s2c != [] && w.rx.Idle?
    requires Truth(w)
    ensures Truth(Popped(w)) && RetOk(Popped(w).h, w.s2c[0]) && w.s2c[0] in Popped(w).h.rets
  {
    hide InitsOk, DonesOk, StubUnlinksOk;
    var b := Popped(w).s2c + Held(w.stx.hand);
    BackwardPopped(w);
    assert RetOk(w.h, Backward(w)[0]);
    assert forall i :: 0 <= i < |b| ==> b[i] == Backward(w)[i + 1];
    GrowKeepsTruth(w.h, Popped(w).h, w.client, Idle, w.server, Forward(w), b);
  }

  lemma RxReplyTruth(w: World)
    requires w.s2c != [] && w.rx.Idle?
    requires Truth(w)
    ensures Truth(DoRxReply(w))
  {
    PoppedTruth(w);
    if w.s2c[0].RetSubmit? {
      GiveBackTruth(Popped(w), Given(w.s2c[0].seqnum, ByRetSubmit(w.s2c[0].outcome)));
    } else {
      DropUnlinkTruth(Popped(w), w.s2c[0]);
    }
  }

  lemma GiveBackTruth(w: World, g: Given)
    requires Truth(w) && GivenOk(w.h, g)
    requires w.client.socket ==> g.how.ByRetSubmit? || g.how.ByRetUnlink?
    requires g.how.ByCleanup? ==> w.phase.Cleaning?
    ensures Truth(w.(client := PickupAndGiveBack(w.client, g.seqnum, g.how)))
  {
    hide CmdsOk, ServerTrue, RetsOk, Numbered;
  }

  lemma DropUnlinkTruth(w: World, m: Ret)
    requires Truth(w) && m.RetUnlink? && RetOk(w.h, m) && m in w.h.rets
    ensures var i := First(w.client.unlinkRx, UnlinkKey, m.seqnum);
      i < |w.client.unlinkRx| ==>
        Truth(w.(client := DropUnlink(w.client, i), rx := Answered(w.client.unlinkRx[i], m.status)))
  {
    hide CmdsOk, ServerTrue, RetsOk, Numbered, PrivsOk, GivensOk;
  }

  lemma RxSubmitCounts(w: World)
    requires w.s2c != [] && w.s2c[0].RetSubmit? && w.phase.Up? && w.rx.Idle?
    requires Counts(w)
    ensures Counts(DoRxReply(w))
  {
    hide Bag, SubmitsSent, UnlinksSent, SentOnce, RepliesHeeded, CancelsHeeded, UrbsConserved;
    var w' := DoRxReply(w);
    BackwardPopped(w);
    BagPush(w.h.rets, w.s2c[0], RetSubmitNo);
    BagPush(w.h.rets, w.s2c[0], RetUnlinkNo);
    GiveBackConserves(w, Given(w.s2c[0].seqnum, ByRetSubmit(w.s2c[0].outcome)));
    RxSubmitHeeded(w);
  }

  lemma GiveBackConserves(w: World, g: Given)
    requires UrbsConserved(w.client.privTx, w.client.privRx, w.client.given, w.h.submitted.Keys)
    ensures var c := PickupAndGiveBack(w.client, g.seqnum, g.how);
      UrbsConserved(c.privTx, c.privRx, c.given, w.h.submitted.Keys)
  {
    hide Bag;
    if Waiting(w.client.privRx, g.seqnum) {
      BagWithout(w.client.privRx, PrivAt(w.client.privRx, g.seqnum), PrivNo);
      BagPush(w.client.given, g, GivenNo);
    }
  }

  lemma NotWaiting(q: seq<Priv>, n: nat)
    ensures Waiting(q, n) <==> n in Bag(q, PrivNo)
  {
    if n in Bag(q, PrivNo) {
      var i := BagFrom(q, PrivNo, n);
      FirstExists(q, PrivKey, i);
    }
    if Waiting(q, n) {
      BagHas(q, PrivAt(q, n), PrivNo);
    }
  }

  lemma RxSubmitHeeded(w: World)
    requires w.s2c != [] && w.s2c[0].RetSubmit? && w.phase.Up? && w.rx.Idle?
    requires Counts(w)
    ensures var w' := DoRxReply(w);
      && RepliesHeeded(w'.client.privRx, w'.h.rets)
      && CancelsHeeded(w'.client.privRx, w'.rx, w'.h.rets, w'.h.cancelled)
  {
    hide Bag, SubmitsSent, UnlinksSent, SentOnce, SubmitsAnswered, UnlinksAnswered, UnlinksAwaited, First;
    var m := w.s2c[0];
    BackwardPopped(w);
    BagPush(w.h.rets, m, RetSubmitNo);
    BagPush(w.h.rets, m, RetUnlinkNo);
    assert multiset(w.h.submitted.Keys)[m.seqnum] <= 1;
    NotWaiting(w.client.privRx, m.seqnum);
    if Waiting(w.client.privRx, m.seqnum) {
      BagWithout(w.client.privRx, PrivAt(w.client.privRx, m.seqnum), PrivNo);
    }
  }

  /** Every RET_UNLINK finds its request in unlink_rx: the branch that reports
      an unknown request is never taken. */
  lemma RetUnlinkFindsRequest(w: World)
    requires Counts(w) && w.phase.Up? && w.s2c != [] && w.s2c[0].RetUnlink?
    ensures First(w.client.unlinkRx, UnlinkKey, w.s2c[0].seqnum) < |w.client.unlinkRx|
  {
    hide Bag, SubmitsSent, SentOnce, SubmitsAnswered, RepliesHeeded, CancelsHeeded, UrbsConserved;
    var n := w.s2c[0].seqnum;
    BackwardPopped(w);
    assert multiset(w.h.aim.Keys)[n] <= 1;
    assert n in Bag(w.client.unlinkRx, UnlinkNo);
    var i := BagFrom(w.client.unlinkRx, UnlinkNo, n);
    FirstExists(w.client.unlinkRx, UnlinkKey, i);
  }

  lemma RxUnlinkCounts(w: World)
    requires w.s2c != [] && w.s2c[0].RetUnlink? && w.phase.Up? && w.rx.Idle?
    requires Inv(w)
    ensures Counts(DoRxReply(w))
  {
    hide Bag, SubmitsSent, UnlinksSent, SentOnce, RepliesHeeded, CancelsHeeded, UrbsConserved;
    hide Numbered, ClientTrue, CmdsOk, ServerTrue, RetsOk;
    var m := w.s2c[0];
    RetUnlinkFindsRequest(w);
    BackwardPopped(w);
    BagPush(w.h.rets, m, RetSubmitNo);
    BagPush(w.h.rets, m, RetUnlinkNo);
    BagWithout(w.client.unlinkRx, First(w.client.unlinkRx, UnlinkKey, m.seqnum), UnlinkNo);
    RxUnlinkHeeded(w);
  }

  lemma RxUnlinkHeeded(w: World)
    requires w.s2c != [] && w.s2c[0].RetUnlink? && w.phase.Up? && w.rx.Idle?
    requires Inv(w)
    ensures var w' := DoRxReply(w);
      && RepliesHeeded(w'.client.privRx, w'.h.rets)
      && CancelsHeeded(w'.client.privRx, w'.rx, w'.h.rets, w'.h.cancelled)
  {
    hide Bag, SubmitsSent, UnlinksSent, SentOnce, SubmitsAnswered, UnlinksAnswered, UnlinksAwaited, UrbsConserved;
    hide PrivsOk, GivensOk, CmdsOk, InitsOk, DonesOk, StubUnlinksOk, RetsOk;
    var m := w.s2c[0];
    RetUnlinkFindsRequest(w);
    BackwardPopped(w);
    BagPush(w.h.rets, m, RetSubmitNo);
    BagPush(w.h.rets, m, RetUnlinkNo);
    var i := First(w.client.unlinkRx, UnlinkKey, m.seqnum);
    assert AimOk(w.h, w.client.unlinkRx[i].seqnum, w.client.unlinkRx[i].target);
    forall k | 0 <= k < |w.h.cancelled| && w.h.cancelled[k].seqnum == m.seqnum
      ensures w.h.cancelled[k] == w.client.unlinkRx[i]
    {
      assert AimOk(w.h, w.h.cancelled[k].seqnum, w.h.cancelled[k].target);
    }
  }

  lemma RxPickupTruth(w: World)
    requires w.rx.Answered?
    requires Truth(w)
    ensures Truth(DoRxPickup(w))
  {
    hide CmdsOk, ServerTrue, RetsOk, Numbered, PrivsOk, UnlinksOk, GivensOk;
    var g := Given(w.rx.unlink.target, ByRetUnlink(w.rx.status));
    assert AimOk(w.h, w.rx.unlink.seqnum, g.seqnum)
        && RetOk(w.h, RetUnlink(w.rx.unlink.seqnum, w.rx.status));
    assert GivenOk(w.h, g);
    GiveBackTruth(w, g);
  }

  lemma RxPickupCounts(w: World)
    requires w.rx.Answered? && w.phase.Up?
    requires Counts(w)
    ensures Counts(DoRxPickup(w))
  {
    hide Bag, SubmitsSent, UnlinksSent, SentOnce, SubmitsAnswered, UnlinksAnswered, UnlinksAwaited;
    var n := w.rx.unlink.target;
    NotWaiting(w.client.privRx, n);
    assert multiset(w.h.submitted.Keys)[n] <= 1;
    if Waiting(w.client.privRx, n) {
      BagWithout(w.client.privRx, PrivAt(w.client.privRx, n), PrivNo);
      BagPush(w.client.given, Given(n, ByRetUnlink(w.rx.status)), GivenNo);
    }
  }
}
