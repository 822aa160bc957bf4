/** The filter's handlers as the source writes them, updating the filter in place,
    each proved to be the step that the runs are made of. The parsers' states and
    buffers are values here; the loop that updates them in place is in PtpContainers.
    What the camera and the client have seen is kept beside the filter's own fields. */
module PtpHandlers {
  import opened Bags
  import opened Bytes
  import opened PtpReading
  import opened PtpFilter
  import P = PtpParser

  lemma {:induction false} OthersWithout(q: seq<Item>, i: nat)
    requires i < |q| && q[i] == OwnCommand
    ensures Others(Without(q, i)) == Others(q)
  {
    if i == 0 {
      assert Without(q, 0) == q[1..];
    } else {
      assert Without(q, i)[0] == q[0] && Without(q, i)[1..] == Without(q[1..], i - 1);
      OthersWithout(q[1..], i - 1);
    }
  }

  lemma {:induction false} OthersOfOthers(q: seq<Item>)
    requires OwnCommand !in q
    ensures Others(q) == q
  {
    if q != [] {
      OthersOfOthers(q[1..]);
    }
  }

  class Handlers {
    var state: State
    var requestQueue: seq<Item>
    var free: nat
    var built: bool
    var serving: bool
    var frames: nat
    var armed: bool
    const limit: nat

    var streams: Streams
    var camera: Camera
    var client: ClientPhase
    var answers: seq<Answer>
    var read: seq<seq<Byte>>

    function Value(): World
      reads this
    {
      World(PtpFilter.Filter(state, requestQueue, free, built, serving, frames, limit, armed), streams, camera, client, answers, read)
    }

    predicate Parsing()
      reads this
    {
      Parsers(streams)
    }

    constructor (limit: nat)
      ensures Value() == Start(limit)
    {
      this.limit := limit;
      state, requestQueue, free, built, serving, frames, armed := Idle, [], 0, false, false, 0, false;
      streams := Start(limit).streams;
      camera, client, answers, read := Start(limit).camera, Resting, [], [];
    }

    /** ptp_change_state. */
    method Change(next: State)
      modifies `state, `requestQueue, `free, `armed
      ensures Value() == Enter(old(Value()), next)
    {
      if !next.Intercepting() && state.Intercepting() {
        armed := false;
      } else if next == Sleep {
        armed := false;
        ghost var q, n := requestQueue, free;
        var i := 0;
        while i < |requestQueue|
          invariant i <= |requestQueue| && OwnCommand !in requestQueue[..i]
          invariant !armed && Others(requestQueue) == Others(q) && free + |requestQueue| == n + |q|
          decreases |requestQueue| - i
        {
          if requestQueue[i] == OwnCommand {
            OthersWithout(requestQueue, i);
            requestQueue, free := Without(requestQueue, i), free + 1;
          } else {
            i := i + 1;
          }
        }
        OthersOfOthers(requestQueue);
      }
      if state != next {
        state := next;
      }
    }

    /** The filter gives up where a parser did. */
    method GiveUpUnless(ending: P.Ending)
      modifies `state, `requestQueue, `free, `armed
      ensures Value() == Unless(old(Value()), ending)
    {
      if ending != P.Fine {
        Change(Bypassed);
      }
    }

    /** The submission of a preview command, numbered by the sending parser. */
    method SubmitOwn()
      requires Parsing()
      modifies this
      ensures Value() == SendOwn(old(Value()))
    {
      hide P.Scan, Hears;
      var s := P.Scan(P.Send, false, streams.ids, streams.send, streams.trigger);
      streams := streams.(ids := s.ids, send := MachineAfter(s, streams.send), trigger := s.data);
      camera := Hears(camera, Own, s.data);
      GiveUpUnless(s.ending);
    }

    /** The completion of a client's URB, parsed on its way back. */
    method Complete(served: bool)
      requires Parsing()
      modifies this
      ensures Value() == Completed(old(Value()), served)
    {
      hide P.Scan;
      if state == Bypassed {
        return;
      }
      var s := P.Scan(P.Tx, served, streams.ids, streams.tx, streams.urb);
      streams := streams.(ids := s.ids, tx := MachineAfter(s, streams.tx), urb := s.data);
      GiveUpUnless(s.ending);
    }

    method SubmitAsIs()
      requires Parsing()
      modifies this
      ensures Value() == Forward(old(Value()))
    {
      hide P.Scan, Hears, Completed;
      camera := Hears(camera, Client, streams.urb);
      Complete(false);
    }

    /** The submission of a client's command that had to wait. */
    method SubmitClient()
      requires Parsing()
      modifies this
      ensures Value() == SendClient(old(Value()))
    {
      hide P.Scan, Forward;
      var s := P.Scan(P.Send, false, streams.ids, streams.send, streams.urb);
      streams := streams.(ids := s.ids, send := MachineAfter(s, streams.send), urb := s.data);
      GiveUpUnless(s.ending);
      SubmitAsIs();
    }

    /** ptp_produce_ for one request, taken from the head of the queue or new. */
    method ProduceOne(item: Item, pending: bool, env: Env)
      requires Parsing() && (pending ==> requestQueue != [] && requestQueue[0] == item)
      modifies this
      ensures Value() == ProduceItem(old(Value()), item, pending, env)
    {
      hide Others, SendOwn, SendClient;
      var next := Idle;
      match item
      case OwnCommand =>
        if state == Sleep {
          if pending {
            requestQueue := requestQueue[1..];
          }
          Change(Active);
        } else if state != Active || !env.room {
          if !pending {
            requestQueue := requestQueue + [item];
          }
          return;
        } else if pending {
          requestQueue := requestQueue[1..];
        }
        Change(Busy);
        SubmitOwn();
      case ClientCommand =>
        match state {
          case Idle => next := CommandSent;
          case Sleep => next := SleepWait;
          case Active => next := Waiting;
          case _ =>
            if !pending {
              requestQueue := requestQueue + [item];
            }
            return;
        }
        if pending {
          requestQueue := requestQueue[1..];
        }
        Change(next);
        SubmitClient();
      case ClientRead =>
        if state != Busy && state != Drop {
          if pending {
            requestQueue := requestQueue[1..];
          }
        } else if !pending {
          requestQueue := requestQueue + [item];
        }
      case OwnData =>
        if env.space == Full {
          if !pending {
            requestQueue := requestQueue + [item];
            camera := camera.(own := Stalled);
          }
          return;
        }
        if env.space == Overrun {
          Change(Drop);
        }
        if pending {
          requestQueue := requestQueue[1..];
        }
        camera := camera.(own := Reading);
    }

    method ProduceNext(env: Env)
      requires Parsing()
      modifies this
      ensures Value() == Produce(old(Value()), env)
    {
      if requestQueue != [] {
        ProduceOne(requestQueue[0], true, env);
      }
    }

    /** ptp_timer, called by the timer or in place of it. */
    method OnTimer(env: Env)
      requires Parsing()
      modifies this
      ensures Value() == TimerStep(old(Value()), env)
    {
      hide ProduceItem;
      if !state.Intercepting() || state == Drop || state == Sleep || state == SleepWait {
        return;
      }
      if free > 0 {
        free := free - 1;
        ProduceOne(OwnCommand, false, env);
      }
    }

    /** The timer fires, and is not set any more. */
    method Expire(env: Env)
      requires Parsing() && armed
      modifies this
      ensures Value() == Step(old(Value()), Timer(env))
    {
      armed := false;
      OnTimer(env);
    }

    /** The parsing of what the client sends. */
    method ParseOut(bytes: seq<Byte>)
      requires Parsing()
      modifies `streams, `state, `requestQueue, `free, `armed
      ensures Value() == Parsed(old(Value()), bytes)
    {
      hide Others, P.Scan;
      var s := P.Scan(P.Rx, false, streams.ids, streams.rx, bytes);
      streams := streams.(ids := s.ids.(sessionChanged := false), rx := MachineAfter(s, streams.rx), urb := s.data);
      if s.ids.sessionChanged {
        Change(Idle);
      }
      GiveUpUnless(s.ending);
    }

    /** The filter's URBs, made once. */
    method Build()
      requires Parsing()
      modifies `free, `built, `streams
      ensures Value() == WithUrbs(old(Value())) && Parsing()
    {
      if !built {
        free, built := FREE_URBS, true;
        streams := streams.(trigger := streams.urb);
      }
    }

    method RxPreview(early: bool, env: Env)
      requires Parsing()
      modifies this
      ensures Value() == OnPreview(old(Value()), early, env)
    {
      hide Others, TimerStep, Completed, Forward, WithUrbs;
      if state == Idle || state == Sleep {
        var wake := state == Sleep;
        if !wake {
          frames := 0;
          streams := streams.(front := streams.front.(left := 0));
        }
        serving := true;
        state := Active;
        var soon := wake && frames > 0 && early;
        if soon {
          armed := true;
        }
        Complete(true);
        if soon {
          return;
        }
        Build();
        OnTimer(env);
      } else if state.Intercepting() && !serving {
        serving := true;
        Complete(true);
      } else {
        Change(Bypassed);
        SubmitAsIs();
      }
    }

    method RxCommand()
      requires Parsing()
      modifies this
      ensures Value() == OnCommand(old(Value()))
    {
      hide Others, Forward, ChangeState;
      match state {
        case Active => Change(Waiting); SubmitAsIs();
        case Sleep => Change(SleepWait); SubmitAsIs();
        case Idle => Change(CommandSent); SubmitAsIs();
        case Drop => requestQueue := requestQueue + [ClientCommand];
        case Busy => requestQueue := requestQueue + [ClientCommand];
        case _ => Change(Bypassed); SubmitAsIs();
      }
    }

    /** ptp_on_rx for a transfer of the client's. */
    method OnRx(bytes: seq<Byte>, early: bool, env: Env)
      requires Parsing() && Enabled(Value(), Out(bytes, early, env))
      modifies this
      ensures Value() == Step(old(Value()), Out(bytes, early, env))
    {
      hide OnPreview, OnCommand, Parsed, Forward;
      ParseOut(bytes);
      if client.Resting? {
        client := Asked(bytes);
      }
      if streams.rx.phase != P.WaitResponse || streams.rx.pdu.kind != P.CONTAINER_COMMAND {
        SubmitAsIs();
      } else if |streams.urb| < CODE_END {
        state := Faulted;
      } else if IsPreview(streams.urb) {
        RxPreview(early, env);
      } else {
        RxCommand();
      }
    }

    /** ptp_cmd_complete. */
    method CmdComplete()
      modifies this
      ensures Value() == OnCommandDone(old(Value()))
    {
      if !state.Intercepting() {
        free := free + 1;
        camera := camera.(own := Absent);
        Change(Bypassed);
      } else {
        camera := camera.(own := Reading);
        streams := streams.(back := streams.back.(left := 0));
      }
    }

    /** The parsing of what the filter has read for itself. */
    method ParseSelf(data: seq<Byte>)
      requires Parsing()
      modifies this
      ensures Value() == SelfParsed(old(Value()), data)
    {
      hide P.Scan, Hear;
      var s := P.Scan(P.Self, false, streams.ids, streams.self, data);
      camera := Speaks(camera, Hear(ReaderOf(streams.self), data).ended);
      streams := streams.(ids := s.ids, self := MachineAfter(s, streams.self));
      GiveUpUnless(s.ending);
    }

    /** The URB of a finished preview goes back to the free list. */
    method FreeUrb()
      modifies `free, `camera
      ensures Value() == UrbFreed(old(Value()))
    {
      free := free + 1;
      camera := camera.(own := Absent);
    }

    /** ptp_data_complete. */
    method DataComplete(data: seq<Byte>, env: Env)
      requires Parsing()
      modifies this
      ensures Value() == OnDataDone(old(Value()), data, env)
    {
      hide Others, ProduceItem, Produce, ChangeState, SelfParsed, Malformed, Track, Finished;
      ParseSelf(data);
      if (state != Busy && state != Drop) || Malformed(streams.back, data) {
        FreeUrb();
        Change(Bypassed);
        return;
      }
      streams := streams.(back := Track(streams.back, data));
      if !PtpFilter.Complete(streams.back) {
        ProduceOne(OwnData, false, env);
        return;
      }
      FinishPreview();
      ProduceNext(env);
    }

    /** Where a response has ended: count the frame, and sleep or set the timer. */
    method FinishPreview()
      modifies `state, `requestQueue, `free, `armed, `frames, `camera
      ensures Value() == Finished(old(Value()))
    {
      FreeUrb();
      if state == Drop {
        Change(Sleep);
        return;
      }
      frames := frames + 1;
      if frames >= limit || streams.self.pdu.code != RESULT_OK {
        Change(Sleep);
      } else {
        Change(Active);
        armed := true;
      }
    }

    /** The parsing of what goes to the client; it tells whether a response is finished. */
    method ParseTx(served: bool, data: seq<Byte>) returns (done: bool)
      requires Parsing() && client.Asking?
      modifies this
      ensures Value() == TxParsed(old(Value()), served, data) && done == Finishes(old(Value()), served, data)
    {
      hide P.Scan, Hear, Blank;
      var s := P.Scan(P.Tx, served, streams.ids, streams.tx, data);
      var a := Hear(ReaderOf(streams.tx), s.data);
      answers, read := answers + AnswersIn(a.heads, client.id), read + [Blank(ReaderOf(streams.tx), s.data)];
      if a.ended > 0 {
        client := Resting;
      }
      streams := streams.(ids := s.ids, tx := MachineAfter(s, streams.tx));
      GiveUpUnless(s.ending);
      done := s.ending == P.Fine && s.responses > 0;
    }

    /** ptp_on_tx from where a response is finished. */
    method Done(env: Env)
      requires Parsing()
      modifies this
      ensures Value() == OnDone(old(Value()), env)
    {
      hide Others, ProduceItem;
      match state {
        case Waiting => Change(Active);
        case SleepWait => Change(Sleep);
        case CommandSent => Change(Idle);
        case _ =>
      }
      ProduceNext(env);
    }

    /** ptp_on_tx for what the camera has answered the client. */
    method OnTx(data: seq<Byte>, env: Env)
      requires Parsing() && client.Asking?
      modifies this
      ensures Value() == OnAnswered(old(Value()), data, env)
    {
      hide TxParsed, Finishes, OnDone, Hear;
      var ended := Hear(ReaderOf(streams.tx), data).ended;
      var done := ParseTx(false, data);
      camera := Speaks(camera, ended);
      if done {
        Done(env);
      }
    }

    /** ptp_consume_ for one read of a buffered frame. */
    method Consume(data: seq<Byte>, env: Env)
      requires Parsing() && client.Asking?
      modifies this
      ensures Value() == OnServed(old(Value()), data, env)
    {
      hide Others, TxParsed, OnDone, Produce, Malformed, Track, P.Scan;
      if Malformed(streams.front, data) {
        Change(Bypassed);
        return;
      }
      streams := streams.(front := Track(streams.front, data));
      if PtpFilter.Complete(streams.front) {
        serving := false;
        frames := if frames > 0 then frames - 1 else 0;
      }
      var done := ParseTx(true, data);
      if done {
        Done(env);
      }
      ProduceNext(env);
    }
  }
}
