/** When a client's command that had to wait reaches the camera, and when it never does. */
module PtpProgress {
  import opened Bags
  import opened Bytes
  import opened PtpReading
  import opened PtpFilter
  import opened PtpStreams
  import opened PtpSpeech
  import opened PtpFilterSafety
  import P = PtpParser

  /** A client's command is in the queue. */
  predicate Waits(w: World) {
    ClientCommand in w.filter.queue
  }

  /** The last piece of a preview's response. */
  predicate EndsPreview(w: World, e: Event)
    requires Parsers(w.streams) && Enabled(w, e)
  {
    e.DataDone? && !Malformed(w.streams.back, e.data) && Complete(Track(w.streams.back, e.data))
  }

  lemma WaitsMeans(w: World)
    requires Inv(w)
    ensures Waits(w) <==> w.client.Asking? && !w.client.preview && w.camera.pending != Some(Client)
    ensures Waits(w) ==> !w.filter.serving && w.filter.state !in {CommandSent, Waiting, SleepWait}
  {
    hide Spoken, UrbsHeld;
  }

  /** With the filter's own commands taken off, only the client's is left. */
  lemma {:induction false} OnlyClients(q: seq<Item>)
    requires multiset(q)[ClientCommand] == 1 && multiset(q)[OwnData] == 0 && multiset(q)[ClientRead] == 0
    ensures Others(q) == [ClientCommand]
    decreases |q|
  {
    assert q == [q[0]] + q[1..];
    if q[0] == OwnCommand {
      OnlyClients(q[1..]);
    } else {
      assert q[0] in multiset(q);
      assert multiset(q) == multiset([q[0]]) + multiset(q[1..]);
      NoneLeft(q[1..]);
    }
  }

  lemma {:induction false} NoneLeft(q: seq<Item>)
    requires multiset(q)[ClientCommand] == 0 && multiset(q)[OwnData] == 0 && multiset(q)[ClientRead] == 0
    ensures Others(q) == []
    decreases |q|
  {
    if q != [] {
      assert q == [q[0]] + q[1..] && q[0] in multiset(q);
      NoneLeft(q[1..]);
    }
  }

  /** What is produced sends a client's command exactly when it is at the head and
      nothing is under way. */
  lemma ProducedTurn(w: World, env: Env)
    requires Inv(w) && w.camera.pending != Some(Client) && Waits(w)
    ensures Produce(w, env).camera.pending == Some(Client) <==>
      w.filter.queue[0] == ClientCommand && w.camera.pending == None
  {
    hide Spoken, Others, SendOwn, SendClient;
    ProduceKeeps(w, env);
    HeadCounted(w.filter.queue);
    if w.filter.queue[0] == ClientCommand && w.camera.pending == None {
      var s := w.filter.state;
      var v := Enter(Taken(w, true), if s == Idle then CommandSent else if s == Sleep then SleepWait else Waiting);
      FilterFree(w, v);
      SendClientSpoken(v);
    } else if w.filter.queue[0] == OwnCommand && (w.filter.state == Sleep || (w.filter.state == Active && env.room)) {
      var v := Enter(Taken(w, true), Busy);
      FilterFree(w, v);
      SendOwnSpoken(v);
      assert Enter(Enter(Taken(w, true), Active), Busy) == v;
    }
  }

  /** A piece of the filter's own data lets a client's command go exactly when it ends
      the preview and puts the filter to sleep, or finds the command at the head. */
  lemma DataDoneTurn(w: World, data: seq<Byte>, env: Env)
    requires Inv(w) && Enabled(w, DataDone(data, env)) && Waits(w)
    ensures !Malformed(w.streams.back, data)
    ensures OnDataDone(w, data, env).camera.pending == Some(Client) <==>
      Complete(Track(w.streams.back, data)) && (FallsAsleep(w, data) || w.filter.queue[0] == ClientCommand)
  {
    hide Turns, ClientHeld, UrbsHeld, Spoken, Produce, ProduceItem, SelfParsed, Malformed, Track, Piece, Others, OnDataDone, FallsAsleep;
    WaitsMeans(w);
    var u := DataDoneStep(w, data, env);
    if Complete(Track(w.streams.back, data)) {
      WaitsMeans(u);
      ProducedTurn(u, env);
      if FallsAsleep(w, data) {
        HeldOnce(w);
        OnlyClients(w.filter.queue);
      }
    } else {
      MoreDataKeeps(u, env);
    }
  }

  lemma HeldOnce(w: World)
    requires Inv(w) && Waits(w) && w.camera.own == Reading
    ensures multiset(w.filter.queue)[ClientCommand] == 1
    ensures multiset(w.filter.queue)[OwnData] == 0 && multiset(w.filter.queue)[ClientRead] == 0
  {
    hide Spoken;
  }

  /** The timer sends the filter's own command or none. */
  lemma TimerTurn(w: World, env: Env)
    requires Inv(w) && w.camera.pending != Some(Client)
    ensures TimerStep(w, env).camera.pending != Some(Client)
    ensures TimerStep(w, env).camera.pending == None ==>
      w.camera.pending == None && TimerStep(w, env).filter.state == w.filter.state
    ensures TimerStep(w, env).camera.pending == None ==> w.filter.queue <= TimerStep(w, env).filter.queue
  {
    hide Spoken, Others, SendOwn, TimerStep, ClientHeld;
    var f := w.filter;
    TimerDoes(w, env);
    FreeMeansBuilt(w);
    if f.state == Active && f.free > 0 && env.room {
      var v := Enter(w.(filter := f.(free := f.free - 1)), Busy);
      FilterFree(w, v);
      SendOwnSpoken(v);
    }
  }

  /** When a waiting command goes: exactly with the end of one of the filter's own
      previews, if that puts the filter to sleep or the command is at the head. */
  lemma ClientSentIff(w: World, e: Event)
    requires Inv(w) && Enabled(w, e) && Orderly(w, e) && Waits(w)
    ensures Step(w, e).camera.pending == Some(Client) <==>
      EndsPreview(w, e) && (FallsAsleep(w, e.data) || w.filter.queue[0] == ClientCommand)
  {
    hide Turns, ClientHeld, UrbsHeld, Spoken, OnDataDone, TimerStep, FallsAsleep, OnRead, Malformed, Track;
    WaitsMeans(w);
    match e
    case Timer(env) =>
      TimerSet(w, false);
      TimerTurn(Disarmed(w), env);
    case CommandDone =>
    case DataDone(data, env) => DataDoneTurn(w, data, env);
    case Read(env) =>
    case Out(bytes, early, env) =>
    case Answered(data, env) =>
    case Served(data, env) =>
  }

  /** A command that waits while nothing is under way: behind a preview of the filter's
      own for which there was no room. */
  predicate Blocked(w: World) {
    Waits(w) && w.filter.state == Active
  }

  predicate NoRoom(e: Event) {
    e.Timer? ==> !e.env.room
  }

  /** Then only the timer runs, and it only adds to the queue. */
  lemma BlockedStep(w: World, e: Event)
    requires Inv(w) && Blocked(w) && Enabled(w, e) && NoRoom(e)
    ensures var v := Step(w, e); Blocked(v) && v.camera == w.camera && v.client == w.client
  {
    hide Spoken, Others, UrbsHeld;
    WaitsMeans(w);
    assert e.Timer?;
  }

  /** From such a state, as long as no room is made, and the client, which waits for its
      answer, reads nothing that would make any, its command never reaches the camera. */
  lemma {:induction false} BlockedForGood(w: World, es: seq<Event>)
    requires Inv(w) && Blocked(w) && Feasible(w, es) && forall e :: e in es ==> NoRoom(e)
    ensures var v := Run(w, es); Blocked(v) && v.camera == w.camera && v.client == w.client
    decreases |es|
  {
    hide Turns, ClientHeld, UrbsHeld, Spoken, Step, Enabled, Orderly, Blocked, NoRoom;
    if es != [] {
      assert es[0] in es;
      BlockedStep(w, es[0]);
      StepKeeps(w, es[0]);
      BlockedForGood(Step(w, es[0]), es[1..]);
    }
  }
}
