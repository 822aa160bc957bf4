/** The event handler of a device: one thread works off the bits of a shared word
    while any other thread may add bits at any moment. Adding is atomic; clearing a
    bit is not, so it is a load and a store with anything in between. */
module Events {

  datatype Flag = Shutdown | Bye | Reset | Unusable

  /** Every event is one of these masks, and each asks for a shutdown. */
  predicate Mask(m: set<Flag>) {
    m in {{Shutdown, Reset, Bye}, {Shutdown, Reset}, {Shutdown, Unusable}, {Shutdown, Bye}}
  }

  /** Where the handler is: at the loop head, at a test, after a callback and about to
      load the word, or about to store it back without the bit. */
  datatype Pc =
    | Head
    | Test(flag: Flag)
    | Called(flag: Flag)
    | Loaded(flag: Flag, copy: set<Flag>)
    | Stopped

  datatype Mark = Began | Ran(flag: Flag)

  /** log is what the handler has done, added what arrived since the last load. */
  datatype Device = Device(word: set<Flag>, pc: Pc, log: seq<Mark>, added: set<Flag>)

  datatype Event = Add(mask: set<Flag>) | Handle

  const QUIET := Device({}, Head, [], {})

  function After(flag: Flag): Pc {
    match flag
    case Shutdown => Test(Reset)
    case Reset => Test(Unusable)
    case Unusable => Test(Bye)
    case Bye => Head
  }

  /** One step of the handler's own. */
  function HandlerStep(d: Device): Device {
    match d.pc
    case Head => if d.word == {} then d else d.(pc := Test(Shutdown), log := d.log + [Began])
    case Test(Bye) => if Bye in d.word then d.(pc := Stopped) else d.(pc := Head)
    case Test(f) => if f in d.word then d.(pc := Called(f), log := d.log + [Ran(f)]) else d.(pc := After(f))
    case Called(f) => d.(pc := Loaded(f, d.word), added := {})
    case Loaded(f, copy) => d.(word := copy - {f}, pc := After(f))
    case Stopped => d
  }

  function Step(d: Device, e: Event): Device {
    match e
    case Add(mask) => d.(word := d.word + mask, added := d.added + mask)
    case Handle => HandlerStep(d)
  }

  predicate Feasible(es: seq<Event>) {
    forall e :: e in es && e.Add? ==> Mask(e.mask)
  }

  function Run(d: Device, es: seq<Event>): Device
    decreases |es|
  {
    if es == [] then d else Run(Step(d, es[0]), es[1..])
  }

  // ------------------------------------------------------------ the invariant

  /** The bits the rest of an iteration still looks at. */
  function Ahead(pc: Pc): set<Flag> {
    match pc
    case Test(Reset) => {Reset, Unusable, Bye}
    case Called(Reset) => {Reset, Unusable, Bye}
    case Test(Unusable) => {Unusable, Bye}
    case Called(Unusable) => {Unusable, Bye}
    case Test(Bye) => {Bye}
    case _ => {}
  }

  /** Bits left behind in a word without a shutdown bit are still ahead. */
  predicate Left(word: set<Flag>, ahead: set<Flag>) {
    Shutdown in word || word <= ahead
  }

  predicate WordFits(d: Device) {
    match d.pc
    case Head => Left(d.word, {})
    case Test(Shutdown) => Shutdown in d.word
    case Called(Shutdown) => Shutdown in d.word
    case Called(Bye) => false
    case Loaded(Bye, _) => false
    case Loaded(Shutdown, copy) => d.word == copy + d.added
    case Loaded(f, copy) => d.word == copy + d.added && Left(copy, Ahead(Called(f)))
    case Stopped => true
    case _ => Left(d.word, Ahead(d.pc))
  }

  /** An iteration begins with the shutdown callback. */
  predicate ShutdownFirst(log: seq<Mark>) {
    && (forall i :: 0 <= i < |log| - 1 && log[i] == Began ==> log[i + 1] == Ran(Shutdown))
    && (log != [] ==> log[0] == Began)
  }

  predicate LogFits(d: Device) {
    && ShutdownFirst(d.log)
    && (d.log != [] && d.log[|d.log| - 1] == Began ==> d.pc == Test(Shutdown))
    && (d.pc != Head ==> d.log != [])
    && (d.pc == Test(Shutdown) ==> d.log[|d.log| - 1] == Began)
  }

  predicate Inv(d: Device) {
    WordFits(d) && LogFits(d)
  }

  lemma AddKeeps(d: Device, mask: set<Flag>)
    requires Inv(d) && Mask(mask)
    ensures Inv(Step(d, Add(mask)))
  {
  }

  lemma HandleKeeps(d: Device)
    requires Inv(d)
    ensures Inv(HandlerStep(d))
  {
    AllFlags(d.word);
    if d.pc.Loaded? {
      AllFlags(d.pc.copy);
    }
  }

  lemma AllFlags(s: set<Flag>)
    ensures s <= {Shutdown, Reset, Unusable, Bye}
  {
    forall f | f in s ensures f in {Shutdown, Reset, Unusable, Bye} {
      match f {
        case Shutdown =>
        case Reset =>
        case Unusable =>
        case Bye =>
      }
    }
  }

  lemma {:induction false} RunKeeps(d: Device, es: seq<Event>)
    requires Inv(d) && Feasible(es)
    ensures Inv(Run(d, es))
    decreases |es|
  {
    if es != [] {
      if es[0].Add? {
        AddKeeps(d, es[0].mask);
      } else {
        HandleKeeps(d);
      }
      RunKeeps(Step(d, es[0]), es[1..]);
    }
  }

  // ------------------------------------------------------------ what runs guarantee

  /** Whatever is added whenever: at the loop head a word that is not zero asks for a
      shutdown. */
  lemma PendingMeansShutdown(es: seq<Event>)
    requires Feasible(es)
    ensures var d := Run(QUIET, es); d.pc == Head && d.word != {} ==> Shutdown in d.word
  {
    RunKeeps(QUIET, es);
  }

  /** Every reset and every unusable callback comes after a shutdown callback of the
      same iteration. */
  lemma ShutdownPrecedes(es: seq<Event>, i: nat)
    requires Feasible(es) && i < |Run(QUIET, es).log|
    requires Run(QUIET, es).log[i] in {Ran(Reset), Ran(Unusable)}
    ensures var log := Run(QUIET, es).log;
      exists j :: 0 <= j < i && log[j] == Ran(Shutdown) && forall k :: j < k < i ==> log[k] != Began
  {
    RunKeeps(QUIET, es);
    var log := Run(QUIET, es).log;
    var b := LastBegan(log, i);
    assert log[b + 1] == Ran(Shutdown);
  }

  /** The iteration that a callback belongs to. */
  lemma {:induction false} LastBegan(log: seq<Mark>, i: nat) returns (b: nat)
    requires i < |log| && log[0] == Began && log[i] != Began
    ensures b < i && log[b] == Began && forall k :: b < k <= i ==> log[k] != Began
  {
    b := i - 1;
    while log[b] != Began
      invariant b < i && forall k :: b < k <= i ==> log[k] != Began
      decreases b
    {
      b := b - 1;
    }
  }

  // ------------------------------------------------------------ callbacks in order, and on request

  /** The order within an iteration. */
  function Rank(m: Mark): nat {
    match m
    case Began => 0
    case Ran(f) => match f { case Shutdown => 1 case Reset => 2 case Unusable => 3 case Bye => 4 }
  }

  /** What an iteration may still log where the handler stands. */
  function Reached(pc: Pc): nat {
    match pc
    case Head => 4
    case Test(f) => Rank(Ran(f)) - 1
    case Called(f) => Rank(Ran(f))
    case Loaded(f, _) => Rank(Ran(f))
    case Stopped => 4
  }

  predicate InOrder(log: seq<Mark>) {
    forall i :: 1 <= i < |log| ==> log[i] == Began || Rank(log[i - 1]) < Rank(log[i])
  }

  predicate Ordered(d: Device) {
    InOrder(d.log) && (d.log != [] ==> Rank(d.log[|d.log| - 1]) <= Reached(d.pc))
  }

  lemma {:induction false} RunOrdered(d: Device, es: seq<Event>)
    requires Ordered(d)
    ensures Ordered(Run(d, es))
    decreases |es|
  {
    if es != [] {
      StepOrdered(d, es[0]);
      RunOrdered(Step(d, es[0]), es[1..]);
    }
  }

  lemma StepOrdered(d: Device, e: Event)
    requires Ordered(d)
    ensures Ordered(Step(d, e))
  {
  }

  lemma {:induction false} OrderedBetween(log: seq<Mark>, i: nat, j: nat)
    requires InOrder(log) && i < j < |log| && forall k :: i < k <= j ==> log[k] != Began
    ensures Rank(log[i]) < Rank(log[j])
    decreases j
  {
    if i + 1 < j {
      OrderedBetween(log, i, j - 1);
    }
  }

  /** Within an iteration each callback runs at most once, and a reset before what makes
      the device unusable. */
  lemma CallbacksInOrder(es: seq<Event>, i: nat, j: nat)
    requires i < j < |Run(QUIET, es).log|
    requires forall k :: i < k <= j ==> Run(QUIET, es).log[k] != Began
    ensures var log := Run(QUIET, es).log; log[i] != log[j] && !(log[i] == Ran(Unusable) && log[j] == Ran(Reset))
  {
    hide Run;
    RunOrdered(QUIET, es);
    OrderedBetween(Run(QUIET, es).log, i, j);
  }

  /** How often a callback has run, and how often it was asked for. */
  function Runs(log: seq<Mark>, f: Flag): nat {
    if log == [] then 0 else Runs(log[..|log| - 1], f) + if log[|log| - 1] == Ran(f) then 1 else 0
  }

  function Requests(es: seq<Event>, f: Flag): nat {
    if es == [] then 0 else Requests(es[1..], f) + if es[0].Add? && f in es[0].mask then 1 else 0
  }

  lemma OneMoreRun(log: seq<Mark>, m: Mark, f: Flag)
    ensures Runs(log + [m], f) == Runs(log, f) + if m == Ran(f) then 1 else 0
  {
    assert (log + [m])[..|log|] == log;
  }

  /** Runs so far, and the one to come if the bit is before the handler. */
  function Due(d: Device, f: Flag): nat {
    Runs(d.log, f) + if f in Outstanding(d) then 1 else 0
  }

  lemma StepDue(d: Device, e: Event, f: Flag)
    ensures Due(Step(d, e), f) <= Due(d, f) + if e.Add? && f in e.mask then 1 else 0
  {
    hide Runs;
    OneMoreRun(d.log, Began, f);
    if d.pc.Test? {
      OneMoreRun(d.log, Ran(d.pc.flag), f);
    }
  }

  lemma {:induction false} RunDue(d: Device, es: seq<Event>, f: Flag)
    ensures Due(Run(d, es), f) <= Due(d, f) + Requests(es, f)
    decreases |es|
  {
    hide Due, Step;
    if es != [] {
      StepDue(d, es[0], f);
      RunDue(Step(d, es[0]), es[1..], f);
    }
  }

  /** No callback runs unasked: never more often than its bit was added, and not again
      for a bit that is still before the handler. The handler ends only when told to. */
  lemma CallbacksRequested(es: seq<Event>, f: Flag)
    ensures var d := Run(QUIET, es);
      Runs(d.log, f) + (if f in Outstanding(d) then 1 else 0) <= Requests(es, f)
    ensures Run(QUIET, es).pc == Stopped ==> Bye in Run(QUIET, es).word
  {
    RunDue(QUIET, es, f);
    StoppedByBye(QUIET, es);
  }

  lemma {:induction false} StoppedByBye(d: Device, es: seq<Event>)
    requires d.pc == Stopped ==> Bye in d.word
    ensures Run(d, es).pc == Stopped ==> Bye in Run(d, es).word
    decreases |es|
  {
    if es != [] {
      StoppedByBye(Step(d, es[0]), es[1..]);
    }
  }

  // ------------------------------------------------------------ which events are lost

  /** Nothing is left to do and the handler waits. */
  predicate AtRest(d: Device) {
    d.pc == Head && d.word == {}
  }

  /** The bits the handler still has before it: those of the word, but a clearing under
      way will drop its own bit, and once loaded will write back what it loaded. */
  function Outstanding(d: Device): set<Flag> {
    match d.pc
    case Called(f) => d.word - {f}
    case Loaded(f, copy) => copy - {f}
    case _ => d.word
  }

  /** A bit added now is not noticed: its own callback has begun and its clearing is
      still to come, or a word without it is about to be stored. */
  predicate Unnoticed(pc: Pc, f: Flag) {
    match pc
    case Called(g) => f == g
    case Loaded(g, copy) => f == g || f !in copy
    case _ => false
  }

  /** The handler will end before it waits again: it has, or it will find the bye bit. */
  predicate Ending(d: Device) {
    d.pc == Stopped || Bye in Outstanding(d)
  }

  lemma OutstandingAdded(d: Device, mask: set<Flag>, f: Flag)
    requires f in mask
    ensures f in Outstanding(Step(d, Add(mask))) <==> !Unnoticed(d.pc, f)
  {
  }

  /** Each callback of f logged after the first n entries of a log. */
  predicate RanSince(log: seq<Mark>, n: nat, f: Flag) {
    n <= |log| && Ran(f) in log[n..]
  }

  lemma LogGrows(d: Device, e: Event, n: nat, f: Flag)
    requires n <= |d.log|
    ensures n <= |Step(d, e).log|
    ensures RanSince(Step(d, e).log, n, f) <==>
      RanSince(d.log, n, f) || (e.Handle? && d.pc == Test(f) && f in d.word && f != Bye)
  {
    var log := Step(d, e).log;
    if |log| > |d.log| {
      assert log[n..] == d.log[n..] + [log[|d.log|]];
    }
  }

  /** A bit before the handler stays there until its callback runs. */
  lemma {:induction false} NoticedRuns(d: Device, es: seq<Event>, n: nat, f: Flag)
    requires f != Bye && n <= |d.log| && (f in Outstanding(d) || RanSince(d.log, n, f))
    requires Inv(d) && Feasible(es)
    ensures AtRest(Run(d, es)) ==> RanSince(Run(d, es).log, n, f)
    decreases |es|
  {
    hide RanSince, Inv;
    if es != [] {
      LogGrows(d, es[0], n, f);
      if es[0].Add? {
        AddKeeps(d, es[0].mask);
      } else {
        HandleKeeps(d);
      }
      NoticedRuns(Step(d, es[0]), es[1..], n, f);
    }
  }

  /** An ending handler never waits again. */
  lemma {:induction false} EndingNeverRests(d: Device, es: seq<Event>)
    requires Ending(d)
    requires Inv(d) && Feasible(es)
    ensures !AtRest(Run(d, es))
    decreases |es|
  {
    hide LogFits;
    if es != [] {
      if es[0].Add? {
        AddKeeps(d, es[0].mask);
      } else {
        HandleKeeps(d);
      }
      EndingNeverRests(Step(d, es[0]), es[1..]);
    }
  }

  /** How far the handler is from the start of the next iteration. */
  function Distance(pc: Pc): nat {
    match pc
    case Called(Shutdown) => 10
    case Loaded(Shutdown, _) => 9
    case Test(Reset) => 8
    case Called(Reset) => 7
    case Loaded(Reset, _) => 6
    case Test(Unusable) => 5
    case Called(Unusable) => 4
    case Loaded(Unusable, _) => 3
    case Test(Bye) => 2
    case Head => 1
    case _ => 0
  }

  /** Left alone, a handler that is not ending comes to rest, without the callback of
      any bit that is not before it. */
  lemma {:induction false} ComesToRest(d: Device, n: nat, f: Flag) returns (es: seq<Event>)
    requires !Ending(d) && f !in Outstanding(d) && n <= |d.log| && !RanSince(d.log, n, f)
    requires Inv(d)
    ensures Feasible(es) && AtRest(Run(d, es)) && !RanSince(Run(d, es).log, n, f)
    decreases |Outstanding(d)|, Distance(d.pc)
  {
    hide RanSince, LogFits;
    if AtRest(d) {
      es := [];
    } else {
      var d1 := HandlerStep(d);
      LogGrows(d, Handle, n, f);
      HandleKeeps(d);
      OutstandingShrinks(d);
      es := ComesToRest(d1, n, f);
      assert ([Handle] + es)[1..] == es;
      es := [Handle] + es;
    }
  }

  /** What the invariant excludes: skipping the shutdown, and a callback for bye. */
  lemma Excluded(d: Device)
    requires Inv(d)
    ensures d.pc == Test(Shutdown) ==> Shutdown in d.word
    ensures d.pc != Called(Bye) && (d.pc.Loaded? ==> d.pc.flag != Bye)
  {
  }

  lemma OutstandingShrinks(d: Device)
    requires !Ending(d) && !AtRest(d)
    requires Inv(d)
    ensures var d1 := HandlerStep(d);
      && !Ending(d1) && Outstanding(d1) <= Outstanding(d)
      && (|Outstanding(d1)| < |Outstanding(d)|
          || (Outstanding(d1) == Outstanding(d) && Distance(d1.pc) < Distance(d.pc)))
  {
    hide Inv;
    Excluded(d);
    if d.pc.Test? && d.pc.flag in d.word {
      CallShrinks(d);
    } else {
      OthersApproach(d);
    }
  }

  lemma CallShrinks(d: Device)
    requires d.pc.Test? && d.pc.flag in d.word && !Ending(d)
    ensures var d1 := HandlerStep(d);
      !Ending(d1) && Outstanding(d1) <= Outstanding(d) && |Outstanding(d1)| < |Outstanding(d)|
  {
    var f := d.pc.flag;
    assert Outstanding(HandlerStep(d)) == d.word - {f};
  }

  lemma OthersApproach(d: Device)
    requires !(d.pc.Test? && d.pc.flag in d.word) && !Ending(d) && !AtRest(d)
    requires d.pc != Test(Shutdown) && d.pc != Called(Bye) && (d.pc.Loaded? ==> d.pc.flag != Bye)
    ensures var d1 := HandlerStep(d);
      !Ending(d1) && Outstanding(d1) == Outstanding(d) && Distance(d1.pc) < Distance(d.pc)
  {
    match d.pc {
      case Test(f) => match f { case Shutdown => case Reset => case Unusable => case Bye => }
      case Called(f) => match f { case Shutdown => case Reset => case Unusable => case Bye => }
      case Loaded(f, copy) => match f { case Shutdown => case Reset => case Unusable => case Bye => }
      case _ =>
    }
  }

  /** Exactly which reported events are lost. Whatever has happened so far, after a bit
      is added the handler can come to rest without running the bit's callback again if
      and only if the bit was added unnoticed and the handler is not ending. */
  lemma EventLostIff(es: seq<Event>, mask: set<Flag>, f: Flag)
    requires Feasible(es) && Mask(mask) && f in mask && f != Bye
    ensures var d := Run(QUIET, es);
      var after := Step(d, Add(mask));
      (exists cs :: Feasible(cs) && AtRest(Run(after, cs)) && !RanSince(Run(after, cs).log, |d.log|, f))
      <==> Unnoticed(d.pc, f) && !Ending(after)
  {
    hide Inv, Run, Ending, AtRest, Outstanding, Unnoticed, RanSince;
    RunKeeps(QUIET, es);
    var d := Run(QUIET, es);
    var after := Step(d, Add(mask));
    AddKeeps(d, mask);
    OutstandingAdded(d, mask, f);
    NoneYet(d.log, f);
    if Ending(after) {
      forall cs | Feasible(cs) ensures !AtRest(Run(after, cs)) {
        EndingNeverRests(after, cs);
      }
    } else if Unnoticed(d.pc, f) {
      var cs := ComesToRest(after, |d.log|, f);
    } else {
      forall cs | Feasible(cs) && AtRest(Run(after, cs)) ensures RanSince(Run(after, cs).log, |d.log|, f) {
        NoticedRuns(after, cs, |d.log|, f);
      }
    }
  }

  lemma NoneYet(log: seq<Mark>, f: Flag)
    ensures !RanSince(log, |log|, f)
  {
  }

  lemma {:induction false} RunThen(d: Device, es: seq<Event>, e: Event, reached: Device)
    requires Run(d, es) == reached
    ensures Run(d, es + [e]) == Step(reached, e)
    decreases |es|
  {
    if es == [] {
      assert [e][1..] == [] && es + [e] == [e];
    } else {
      assert (es + [e])[1..] == es[1..] + [e];
      RunThen(Step(d, es[0]), es[1..], e, reached);
    }
  }

  const TCP_ERROR: set<Flag> := {Shutdown, Reset}

  /** So an event can be lost for good: a connection error reported while the bit of an
      earlier one is being cleared leaves an empty word and an idle handler. */
  lemma EventLost()
    ensures var es := [Add(TCP_ERROR), Handle, Handle, Handle, Handle, Handle, Handle,
                       Add(TCP_ERROR), Handle, Handle, Handle];
      Feasible(es) && Run(QUIET, es) == Device({}, Head, [Began, Ran(Shutdown), Ran(Reset)], TCP_ERROR)
  {
    hide Run;
    var error := TCP_ERROR;
    assert {} + error == error && error - {Shutdown} == {Reset} && {Reset} + error == error && {Reset} - {Reset} == {};
    var e0: seq<Event> := [];
    assert Run(QUIET, e0) == QUIET by { NothingRun(); }
    RunThen(QUIET, e0, Add(error), QUIET);
    var e1 := e0 + [Add(error)];
    RunThen(QUIET, e1, Handle, Device(error, Head, [], error));
    var e2 := e1 + [Handle];
    RunThen(QUIET, e2, Handle, Device(error, Test(Shutdown), [Began], error));
    var e3 := e2 + [Handle];
    var log := [Began, Ran(Shutdown)];
    RunThen(QUIET, e3, Handle, Device(error, Called(Shutdown), log, error));
    var e4 := e3 + [Handle];
    RunThen(QUIET, e4, Handle, Device(error, Loaded(Shutdown, error), log, {}));
    var e5 := e4 + [Handle];
    RunThen(QUIET, e5, Handle, Device({Reset}, Test(Reset), log, {}));
    var e6 := e5 + [Handle];
    RunThen(QUIET, e6, Handle, Device({Reset}, Called(Reset), log + [Ran(Reset)], {}));
    var e7 := e6 + [Handle];
    LostAtTheStore(e7);
    assert e7 == [Add(error), Handle, Handle, Handle, Handle, Handle, Handle];
    assert e7 + [Add(error), Handle, Handle, Handle] ==
      [Add(error), Handle, Handle, Handle, Handle, Handle, Handle, Add(error), Handle, Handle, Handle];
  }

  lemma NothingRun()
    ensures Run(QUIET, []) == QUIET
  {
  }

  lemma LostAtTheStore(es: seq<Event>)
    requires Run(QUIET, es) == Device({Reset}, Loaded(Reset, {Reset}), [Began, Ran(Shutdown), Ran(Reset)], {})
    ensures Run(QUIET, es + [Add(TCP_ERROR), Handle, Handle, Handle])
         == Device({}, Head, [Began, Ran(Shutdown), Ran(Reset)], TCP_ERROR)
  {
    hide Run;
    var error, log := TCP_ERROR, [Began, Ran(Shutdown), Ran(Reset)];
    assert {} + error == error && {Reset} + error == error && {Reset} - {Reset} == {};
    RunThen(QUIET, es, Add(error), Run(QUIET, es));
    var f1 := es + [Add(error)];
    RunThen(QUIET, f1, Handle, Device(error, Loaded(Reset, {Reset}), log, error));
    var f2 := f1 + [Handle];
    RunThen(QUIET, f2, Handle, Device({}, Test(Unusable), log, error));
    var f3 := f2 + [Handle];
    RunThen(QUIET, f3, Handle, Device({}, Test(Bye), log, error));
    assert f3 + [Handle] == es + [Add(error), Handle, Handle, Handle];
  }

  // ------------------------------------------------------------ the loop

  function AddOf(e: Event): seq<set<Flag>> {
    if e.Add? then [e.mask] else []
  }

  /** What a run adds, in order. */
  function Adds(es: seq<Event>): seq<set<Flag>> {
    if es == [] then [] else AddOf(es[0]) + Adds(es[1..])
  }

  lemma {:induction false} AddsMore(es: seq<Event>, e: Event)
    ensures Adds(es + [e]) == Adds(es) + AddOf(e)
  {
    hide AddOf;
    if es == [] {
      assert es + [e] == [e] && [e][1..] == [];
      assert AddOf(e) + [] == AddOf(e) == [] + AddOf(e);
    } else {
      assert (es + [e])[1..] == es[1..] + [e];
      AddsMore(es[1..], e);
      assert AddOf(es[0]) + (Adds(es[1..]) + AddOf(e)) == (AddOf(es[0]) + Adds(es[1..])) + AddOf(e);
    }
  }

  /** The handler as a loop over the shared word. arriving is any schedule of what other
      threads add before each access; run is what has happened so far, as a run of the
      machine above. */
  class UsbipDevice {
    var event: set<Flag>
    var arriving: seq<set<Flag>>
    var log: seq<Mark>
    ghost var run: seq<Event>
    ghost const schedule: seq<set<Flag>>

    constructor (arriving: seq<set<Flag>>)
      requires forall m :: m in arriving ==> Mask(m)
      ensures event == {} && log == [] && this.arriving == arriving == schedule
      ensures run == [] && At(Head)
    {
      event, log, this.arriving := {}, [], arriving;
      run, schedule := [], arriving;
    }

    /** The run has come to this word and this log, with the handler here, and has added
        what has arrived. */
    ghost predicate At(pc: Pc)
      reads this
    {
      var d := Run(QUIET, run);
      && Feasible(run) && d.word == event && d.log == log && d.pc == pc
      && Adds(run) + arriving == schedule && forall m :: m in arriving ==> Mask(m)
    }

    /** Other threads' additions before the next access. */
    method Arrive(ghost pc: Pc)
      requires At(pc)
      modifies `event, `arriving, `run
      ensures At(pc)
      ensures old(event) <= event && |arriving| <= |old(arriving)|
      ensures |arriving| == |old(arriving)| ==> arriving == [] && event == old(event)
    {
      if arriving != [] {
        ghost var e := Add(arriving[0]);
        RunThen(QUIET, run, e, Run(QUIET, run));
        AddsMore(run, e);
        assert arriving == [arriving[0]] + arriving[1..];
        event, arriving, run := event + arriving[0], arriving[1..], run + [e];
      }
    }

    /** The machine takes the handler's next step. */
    ghost method Advance(pc: Pc)
      requires At(pc)
      modifies `run
      ensures var d := HandlerStep(Run(QUIET, old(run)));
        && Run(QUIET, run) == d && Feasible(run) && Adds(run) == Adds(old(run))
    {
      RunThen(QUIET, run, Handle, Run(QUIET, run));
      AddsMore(run, Handle);
      run := run + [Handle];
    }

    /** One test, callback and clearing. The word is read again after the callback and
        written back later. */
    method WorkOff(f: Flag)
      requires At(Test(f)) && f != Bye
      modifies this
      ensures At(After(f)) && |arriving| <= |old(arriving)|
      ensures |arriving| == |old(arriving)| ==> event == old(event) - {f}
    {
      hide Run, Adds, Feasible, Mask;
      Arrive(Test(f));
      Advance(Test(f));
      if f in event {
        log := log + [Ran(f)];
        Arrive(Called(f));
        Advance(Called(f));
        var copy := event;
        Arrive(Loaded(f, copy));
        Advance(Loaded(f, copy));
        event := copy - {f};
      }
    }

    /** One turn of the loop. */
    method Iterate() returns (bye: bool)
      requires At(Head) && event != {}
      modifies this
      ensures At(if bye then Stopped else Head) && (bye ==> Bye in event) && |arriving| <= |old(arriving)|
      ensures |arriving| == |old(arriving)| ==> event == old(event) - {Shutdown, Reset, Unusable}
    {
      hide Run, Adds, Feasible, Mask;
      Advance(Head);
      log := log + [Began];
      WorkOff(Shutdown);
      WorkOff(Reset);
      WorkOff(Unusable);
      Arrive(Test(Bye));
      Advance(Test(Bye));
      return Bye in event;
    }

    /** event_handler: for any schedule of additions the loop is a run of the machine. It
        works until the word is zero, or until it is told to end. */
    method EventHandler() returns (bye: bool)
      requires At(Head)
      modifies this
      ensures At(if bye then Stopped else Head)
      ensures if bye then Bye in event else event == {}
    {
      while event != {}
        invariant At(Head)
        decreases |arriving|, |event|
      {
        ghost var before, waiting := event, |arriving|;
        assert Shutdown in before by { PendingMeansShutdown(run); }
        bye := Iterate();
        if bye {
          return;
        }
        if |arriving| == waiting {
          Smaller(event, before - {Shutdown});
        }
      }
      return false;
    }
  }

  lemma {:induction false} Smaller(a: set<Flag>, b: set<Flag>)
    requires a <= b
    ensures |a| <= |b|
    decreases |a|
  {
    if a != {} {
      var x :| x in a;
      Smaller(a - {x}, b - {x});
    }
  }
}
