/**
 One CompositeLogger instance: the hand-off from deferred to active mode
 (src/Elastic.OpenTelemetry.Core/Diagnostics/CompositeLogger.cs).

 Any number of threads call Log, Activate, the safety-timer callback, Dispose, GetOrCreate's
 "store the options" write and SetAdditionalLogger.  Each shared read or write is one step.  A region
 under _activationLock that touches only the queue is one step that needs the lock to be free;
 Activate's longer region keeps the lock over several steps, because Log reads the sub-loggers
 without taking it.  Memory is sequentially consistent.

 The Log call e logs the event named e, so events are distinct by construction.  After the
 compare-and-swap on _activationState at most one Activate call is still running; what is left of
 that call is the field `activation`.
 */
module LogHandOff {
  import opened Prelude

  type Tid = nat
  type Event = nat

  /** Where a Log body is. */
  datatype LogPc =
    | TestDisposed
    | ReadQueue
    | Enqueue
    | ToFile
    | ToConsole(inFile: bool)
    | ToExtra(inFile: bool, inConsole: bool)
    | LogDone

  /** A deferred entry that the drain loop is handing to Log. */
  datatype Entry = Entry(e: Event, pc: LogPc)

  /** What is left of the Activate call that won the claim; Unclaimed is _activationState == 0. */
  datatype Activation =
    | Unclaimed
    | Entering
    | SetFile
    | SetConsole
    | SetExtra
    | NullOptions
    | Capture
    | Draining(rest: seq<Event>, current: Option<Entry>, count: nat)
    | Activated(reported: nat)

  /** Activate before its claim, and the safety-timer callback. */
  datatype CallPc =
    | Claim
    | TimerTestDisposed
    | TimerReadOptions
    | TimerDiscard(afterOffer: bool)
    | CallDone

  datatype Action =
    | BeginLog(e: Event)
    | StepLog(e: Event)
    | BeginActivate(t: Tid)
    | BeginTimer(t: Tid)
    | StepCall(t: Tid)
    | StepActivation(extra: bool)  // extra: whether options.AdditionalLogger is set
    | SetDisposed
    | NullExtra
    | StoreOptions
    | AttachExtra

  /** The fields of the instance. */
  datatype Instance = Instance(
    disposed: bool,
    queue: Option<seq<Event>>,
    options: bool,
    hasFile: bool,
    hasConsole: bool,
    hasExtra: bool)

  /** What each sub-logger has been handed, in order. */
  datatype Sinks = Sinks(file: seq<Event>, console: seq<Event>, extra: seq<Event>)

  /** History: the enqueue order, where finished events went, and what happened to the timer's options. */
  datatype History = History(
    enqueued: seq<Event>,
    routed: seq<Event>,
    discarded: seq<Event>,
    afterDispose: seq<Event>,
    noSink: seq<Event>,
    discardRan: bool,
    offered: bool,
    missedExtra: bool)  // a routed event found no additional logger

  datatype World = World(obj: Instance, sinks: Sinks, hist: History)

  datatype State = State(w: World, logs: map<Event, LogPc>, calls: map<Tid, CallPc>, activation: Activation)

  /** A deferred instance as its constructor leaves it, with or without retained options. */
  function Deferred(withOptions: bool): State {
    State(World(Instance(false, Some([]), withOptions, false, false, false),
                Sinks([], [], []),
                History([], [], [], [], [], false, withOptions, false)),
          map[], map[], Unclaimed)
  }

  /** An instance that its constructor activates at once, because its options name no OpAMP endpoint. */
  function Active(extra: bool): State {
    State(World(Instance(false, None, true, true, true, extra),
                Sinks([], [], []),
                History([], [], [], [], [], false, true, false)),
          map[], map[], Activated(0))
  }

  datatype Construction = Deferring(withOptions: bool) | Activating(extra: bool)

  /** What the constructor may leave. */
  function Constructed(c: Construction): State {
    match c
    case Deferring(withOptions) => Deferred(withOptions)
    case Activating(extra) => Active(extra)
  }

  /** _activationLock is held across steps only by the winning Activate call. */
  predicate Locked(a: Activation) {
    a.SetFile? || a.SetConsole? || a.SetExtra? || a.NullOptions? || a.Capture?
  }

  predicate LogEnabled(a: Activation, pc: LogPc) {
    pc != LogDone && (pc.Enqueue? ==> !Locked(a))
  }

  predicate Enabled(s: State, a: Action) {
    match a
    case BeginLog(e) => e !in s.logs
    case StepLog(e) => e in s.logs && LogEnabled(s.activation, s.logs[e])
    case BeginActivate(t) => t !in s.calls
    case BeginTimer(t) => t !in s.calls
    case StepCall(t) => t in s.calls && s.calls[t] != CallDone && (s.calls[t].TimerDiscard? ==> !Locked(s.activation))
    case StepActivation(_) => ActivationEnabled(s.activation)
    case SetDisposed => true
    case NullExtra => s.w.obj.disposed
    case StoreOptions => true
    case AttachExtra => true
  }

  predicate ActivationEnabled(a: Activation) {
    !a.Unclaimed? && !a.Activated? && (a.Draining? && a.current.Some? ==> LogEnabled(a, a.current.value.pc))
  }

  /** Record the end of an event's routing. */
  function Settle(h: History, e: Event, taken: bool, hasExtra: bool): History {
    var h1 := h.(missedExtra := h.missedExtra || !hasExtra);
    if taken then h1.(routed := h.routed + [e]) else h1.(noSink := h.noSink + [e])
  }

  /** One step of a Log body on event e: the new world and where the body is next. */
  function LogBody(w: World, e: Event, pc: LogPc): (World, LogPc)
    requires pc != LogDone
  {
    match pc
    case TestDisposed =>
      if w.obj.disposed then (w.(hist := w.hist.(afterDispose := w.hist.afterDispose + [e])), LogDone)
      else (w, ReadQueue)
    case ReadQueue =>
      (w, if w.obj.queue.Some? then Enqueue else ToFile)
    case Enqueue =>
      if w.obj.queue.Some? then
        (w.(obj := w.obj.(queue := Some(w.obj.queue.value + [e])),
            hist := w.hist.(enqueued := w.hist.enqueued + [e])), LogDone)
      else
        (w, ToFile)
    case ToFile =>
      (if w.obj.hasFile then w.(sinks := w.sinks.(file := w.sinks.file + [e])) else w,
       ToConsole(w.obj.hasFile))
    case ToConsole(f) =>
      (if w.obj.hasConsole then w.(sinks := w.sinks.(console := w.sinks.console + [e])) else w,
       ToExtra(f, w.obj.hasConsole))
    case ToExtra(f, c) =>
      (World(w.obj,
             if w.obj.hasExtra then w.sinks.(extra := w.sinks.extra + [e]) else w.sinks,
             Settle(w.hist, e, f || c || w.obj.hasExtra, w.obj.hasExtra)), LogDone)
  }

  /** One step of an Activate call up to its claim, or of the timer callback. */
  function CallBody(w: World, a: Activation, pc: CallPc): (World, Activation, CallPc)
    requires pc != CallDone
  {
    match pc
    case Claim => (w, if a.Unclaimed? then Entering else a, CallDone)
    case TimerTestDisposed => (w, a, if w.obj.disposed then CallDone else TimerReadOptions)
    case TimerReadOptions => (w, a, if w.obj.options then Claim else TimerDiscard(w.hist.offered))
    case TimerDiscard(_) =>
      (if w.obj.queue.Some? then
         World(w.obj.(queue := None), w.sinks, w.hist.(discarded := w.obj.queue.value, discardRan := true))
       else w, a, CallDone)
  }

  /** One step of the winning Activate call. */
  function ActivationBody(w: World, a: Activation, extra: bool): (World, Activation)
    requires ActivationEnabled(a)
  {
    match a
    case Entering => (w, SetFile)
    case SetFile => (w.(obj := w.obj.(hasFile := true)), SetConsole)
    case SetConsole => (w.(obj := w.obj.(hasConsole := true)), SetExtra)
    case SetExtra => (w.(obj := w.obj.(hasExtra := extra)), NullOptions)
    case NullOptions => (w.(obj := w.obj.(options := false)), Capture)
    case Capture => (w.(obj := w.obj.(queue := None)), Draining(ToSeq(w.obj.queue), None, 0))
    case Draining(rest, None, count) =>
      (w, if rest == [] then Activated(count)
          else Draining(rest[1..], Some(Entry(rest[0], TestDisposed)), count))
    case Draining(rest, Some(Entry(e, pc)), count) =>
      var (w1, next) := LogBody(w, e, pc);
      (w1, if next == LogDone then Draining(rest, None, count + 1)
           else Draining(rest, Some(Entry(e, next)), count))
  }

  function Next(s: State, a: Action): State
    requires Enabled(s, a)
  {
    match a
    case BeginLog(e) => s.(logs := s.logs[e := TestDisposed])
    case StepLog(e) =>
      var (w1, next) := LogBody(s.w, e, s.logs[e]);
      s.(w := w1, logs := s.logs[e := next])
    case BeginActivate(t) => s.(calls := s.calls[t := Claim])
    case BeginTimer(t) => s.(calls := s.calls[t := TimerTestDisposed])
    case StepCall(t) =>
      var (w1, a1, next) := CallBody(s.w, s.activation, s.calls[t]);
      State(w1, s.logs, s.calls[t := next], a1)
    case StepActivation(extra) =>
      var (w1, a1) := ActivationBody(s.w, s.activation, extra);
      s.(w := w1, activation := a1)
    case SetDisposed => s.(w := s.w.(obj := s.w.obj.(disposed := true)))
    case NullExtra => s.(w := s.w.(obj := s.w.obj.(hasExtra := false)))
    case StoreOptions => s.(w := s.w.(obj := s.w.obj.(options := true), hist := s.w.hist.(offered := true)))
    case AttachExtra => s.(w := s.w.(obj := s.w.obj.(hasExtra := true)))
  }

  predicate Feasible(s: State, run: seq<Action>)
    decreases run
  {
    run == [] || (Enabled(s, run[0]) && Feasible(Next(s, run[0]), run[1..]))
  }

  function Exec(s: State, run: seq<Action>): State
    requires Feasible(s, run)
    decreases run
  {
    if run == [] then s else Exec(Next(s, run[0]), run[1..])
  }

  // ---------------------------------------------------------------- calls that nothing interrupts

  function PcRank(pc: LogPc): nat {
    match pc
    case TestDisposed => 6
    case ReadQueue => 5
    case Enqueue => 4
    case ToFile => 3
    case ToConsole(_) => 2
    case ToExtra(_, _) => 1
    case LogDone => 0
  }

  /** A Log body run to its end. */
  function LogAlone(w: World, e: Event, pc: LogPc): World
    decreases PcRank(pc)
  {
    if pc == LogDone then w
    else
      var (w1, next) := LogBody(w, e, pc);
      LogAlone(w1, e, next)
  }

  function StageRank(a: Activation): nat {
    match a
    case Unclaimed => 0
    case Entering => 7
    case SetFile => 6
    case SetConsole => 5
    case SetExtra => 4
    case NullOptions => 3
    case Capture => 2
    case Draining(_, _, _) => 1
    case Activated(_) => 0
  }

  /** The winning Activate call run to its end; options.AdditionalLogger is set if extra is. */
  function ActivateAlone(w: World, a: Activation, extra: bool): (World, Activation)
    requires !a.Unclaimed? && (a.Draining? && a.current.Some? ==> a.current.value.pc != LogDone)
    decreases StageRank(a), if a.Draining? then |a.rest| else 0,
              if a.Draining? && a.current.Some? then 1 + PcRank(a.current.value.pc) else 0
  {
    if a.Activated? then (w, a)
    else
      var (w1, a1) := ActivationBody(w, a, extra);
      ActivateAlone(w1, a1, extra)
  }

  /** A call run to its end, but for the activation it may claim. */
  function CallAlone(w: World, a: Activation, pc: CallPc): (World, Activation)
    decreases CallRank(pc)
  {
    if pc == CallDone then (w, a)
    else
      var (w1, a1, next) := CallBody(w, a, pc);
      CallAlone(w1, a1, next)
  }

  function CallRank(pc: CallPc): nat {
    match pc
    case TimerTestDisposed => 3
    case TimerReadOptions => 2
    case Claim => 1
    case TimerDiscard(_) => 1
    case CallDone => 0
  }

  /** The timer callback run to its end, with the activation it wins. */
  function TimerAlone(w: World, a: Activation, extra: bool): (World, Activation)
    requires a.Unclaimed? || a.Activated?
  {
    var (w1, a1) := CallAlone(w, a, TimerTestDisposed);
    if a1.Entering? then ActivateAlone(w1, a1, extra) else (w1, a1)
  }

  lemma DrainOneAlone(w: World, rest: seq<Event>, e: Event, pc: LogPc, count: nat, extra: bool)
    requires pc != LogDone
    ensures ActivateAlone(w, Draining(rest, Some(Entry(e, pc)), count), extra)
         == ActivateAlone(LogAlone(w, e, pc), Draining(rest, None, count + 1), extra)
    decreases PcRank(pc)
  {
    var (w1, next) := LogBody(w, e, pc);
    if next != LogDone {
      DrainOneAlone(w1, rest, e, next, count, extra);
    }
  }

  /** The sub-loggers that exist after they have been handed a list of events. */
  function Handed(sinks: Sinks, obj: Instance, events: seq<Event>): Sinks {
    Sinks(if obj.hasFile then sinks.file + events else sinks.file,
          if obj.hasConsole then sinks.console + events else sinks.console,
          if obj.hasExtra then sinks.extra + events else sinks.extra)
  }

  lemma HandedOne(sinks: Sinks, obj: Instance, e: Event, rest: seq<Event>)
    ensures Handed(Handed(sinks, obj, [e]), obj, rest) == Handed(sinks, obj, [e] + rest)
  {
    assert forall s: seq<Event> :: (s + [e]) + rest == s + ([e] + rest);
  }

  /** An undisturbed Log in active mode hands the event to every sub-logger there is. */
  lemma RoutesAlone(w: World, e: Event)
    requires !w.obj.disposed && w.obj.queue.None?
    ensures LogAlone(w, e, TestDisposed)
      == World(w.obj, Handed(w.sinks, w.obj, [e]),
               Settle(w.hist, e, w.obj.hasFile || w.obj.hasConsole || w.obj.hasExtra, w.obj.hasExtra))
  {
    var f, c := w.obj.hasFile, w.obj.hasConsole;
    var w1 := LogBody(w, e, ToFile).0;
    var w2 := LogBody(w1, e, ToConsole(f)).0;
    assert LogAlone(w, e, TestDisposed) == LogAlone(w, e, ReadQueue) == LogAlone(w, e, ToFile);
    assert LogAlone(w, e, ToFile) == LogAlone(w1, e, ToConsole(f));
    assert LogAlone(w1, e, ToConsole(f)) == LogAlone(w2, e, ToExtra(f, c));
    assert LogAlone(w2, e, ToExtra(f, c)) == LogBody(w2, e, ToExtra(f, c)).0;
  }

  /** An undisturbed drain hands each entry to every sub-logger there is, in queue order, and counts them. */
  lemma {:induction false} DrainAloneDelivers(w: World, rest: seq<Event>, count: nat, extra: bool)
    requires !w.obj.disposed && w.obj.queue.None?
    ensures var (w1, a1) := ActivateAlone(w, Draining(rest, None, count), extra);
      w1.sinks == Handed(w.sinks, w.obj, rest) && w1.obj == w.obj && a1 == Activated(count + |rest|)
    decreases |rest|
  {
    if rest == [] {
      assert forall s: seq<Event> :: s + rest == s;
    } else {
      DrainOneAlone(w, rest[1..], rest[0], TestDisposed, count, extra);
      var w1 := LogAlone(w, rest[0], TestDisposed);
      RoutesAlone(w, rest[0]);
      DrainAloneDelivers(w1, rest[1..], count + 1, extra);
      HandedOne(w.sinks, w.obj, rest[0], rest[1..]);
      assert [rest[0]] + rest[1..] == rest;
    }
  }

  /** Up to the drain, an undisturbed Activate creates the sub-loggers and takes the queue. */
  lemma CapturesAlone(w: World, extra: bool)
    ensures ActivateAlone(w, Entering, extra)
      == ActivateAlone(w.(obj := Instance(w.obj.disposed, None, false, true, true, extra)),
                       Draining(ToSeq(w.obj.queue), None, 0), extra)
  {
    var w1 := w.(obj := w.obj.(hasFile := true));
    var w2 := w1.(obj := w1.obj.(hasConsole := true));
    var w3 := w2.(obj := w2.obj.(hasExtra := extra));
    var w4 := w3.(obj := w3.obj.(options := false));
    assert ActivateAlone(w, Entering, extra) == ActivateAlone(w, SetFile, extra);
    assert ActivateAlone(w, SetFile, extra) == ActivateAlone(w1, SetConsole, extra);
    assert ActivateAlone(w1, SetConsole, extra) == ActivateAlone(w2, SetExtra, extra);
    assert ActivateAlone(w2, SetExtra, extra) == ActivateAlone(w3, NullOptions, extra);
    assert ActivateAlone(w3, NullOptions, extra) == ActivateAlone(w4, Capture, extra);
  }

  /** An undisturbed Activate of an instance that is not disposed delivers all that was deferred: to the
      file and the console, and to the additional logger if the options have one. */
  lemma ActivateAloneDelivers(w: World, extra: bool)
    requires !w.obj.disposed
    ensures var (w1, a1) := ActivateAlone(w, Entering, extra);
      && w1.sinks.file == w.sinks.file + ToSeq(w.obj.queue)
      && w1.sinks.console == w.sinks.console + ToSeq(w.obj.queue)
      && w1.sinks.extra == (if extra then w.sinks.extra + ToSeq(w.obj.queue) else w.sinks.extra)
      && w1.obj == Instance(false, None, false, true, true, extra)
      && a1 == Activated(|ToSeq(w.obj.queue)|)
  {
    CapturesAlone(w, extra);
    DrainAloneDelivers(w.(obj := Instance(false, None, false, true, true, extra)), ToSeq(w.obj.queue), 0, extra);
  }

  /** After disposal an undisturbed Activate delivers nothing; it drops every entry and counts it. */
  lemma {:induction false} DisposedDrainDrops(w: World, rest: seq<Event>, count: nat, extra: bool)
    requires w.obj.disposed
    ensures var (w1, a1) := ActivateAlone(w, Draining(rest, None, count), extra);
      w1.sinks == w.sinks && w1.obj == w.obj && a1 == Activated(count + |rest|)
    decreases |rest|
  {
    if rest != [] {
      DrainOneAlone(w, rest[1..], rest[0], TestDisposed, count, extra);
      DisposedDrainDrops(LogAlone(w, rest[0], TestDisposed), rest[1..], count + 1, extra);
    }
  }

  /** The instance with its fields.  Each method is one undisturbed call: its contract says outright what
      the call does to the fields and the sub-loggers, and that this is what the steps of the call do
      when no other call runs between them. */
  class CompositeLogger {
    var isDisposed: bool
    var deferredQueue: Option<seq<Event>>
    var hasOptions: bool
    var activationState: bool
    var fileLogger: bool
    var consoleLogger: bool
    var additionalLogger: bool
    var file: seq<Event>
    var console: seq<Event>
    var extra: seq<Event>
    ghost var hist: History

    ghost function AsWorld(): World
      reads this
    {
      World(Instance(isDisposed, deferredQueue, hasOptions, fileLogger, consoleLogger, additionalLogger),
            Sinks(file, console, extra), hist)
    }

    /** With options and no OpAMP endpoint the instance is active at once; otherwise it defers, keeping
        the options it has. */
    constructor (options: bool, opAmpEndpoint: bool, additional: bool)
      ensures var how := if options && !opAmpEndpoint then Activating(additional) else Deferring(options);
        AsWorld() == Constructed(how).w
      ensures hasOptions == options && !isDisposed && file == console == extra == []
      ensures activationState == (options && !opAmpEndpoint)
      ensures activationState ==> deferredQueue == None && fileLogger && consoleLogger && additionalLogger == additional
      ensures !activationState ==> deferredQueue == Some([]) && !fileLogger && !consoleLogger && !additionalLogger
    {
      isDisposed, hasOptions := false, options;
      file, console, extra := [], [], [];
      hist := History([], [], [], [], [], false, options, false);
      if options && !opAmpEndpoint {
        fileLogger, consoleLogger, additionalLogger := true, true, additional;
        activationState, deferredQueue := true, None;
      } else {
        fileLogger, consoleLogger, additionalLogger := false, false, false;
        activationState, deferredQueue := false, Some([]);
      }
    }

    /** Dropped after disposal, else queued while there is a queue, else handed to each of the three
        sub-loggers that exists. */
    method Log(e: Event)
      modifies this`deferredQueue, this`file, this`console, this`extra, this`hist
      ensures AsWorld() == LogAlone(old(AsWorld()), e, TestDisposed)
      ensures isDisposed ==> deferredQueue == old(deferredQueue)
      ensures !isDisposed && old(deferredQueue).Some? ==> deferredQueue == Some(old(deferredQueue).value + [e])
      ensures old(deferredQueue).None? ==> deferredQueue == None
      ensures var handsOver := !isDisposed && old(deferredQueue).None?;
        && file == (if handsOver && fileLogger then old(file) + [e] else old(file))
        && console == (if handsOver && consoleLogger then old(console) + [e] else old(console))
        && extra == (if handsOver && additionalLogger then old(extra) + [e] else old(extra))
    {
      if isDisposed {
        hist := hist.(afterDispose := hist.afterDispose + [e]);
        return;
      }
      if deferredQueue.Some? {
        deferredQueue := Some(deferredQueue.value + [e]);
        hist := hist.(enqueued := hist.enqueued + [e]);
        return;
      }
      RoutesAlone(AsWorld(), e);
      if fileLogger {
        file := file + [e];
      }
      if consoleLogger {
        console := console + [e];
      }
      if additionalLogger {
        extra := extra + [e];
      }
      hist := Settle(hist, e, fileLogger || consoleLogger || additionalLogger, additionalLogger);
    }

    /** The region of Activate under _activationLock. */
    method CaptureQueue(options: bool) returns (captured: seq<Event>)
      modifies this
      ensures captured == ToSeq(old(deferredQueue)) && activationState == old(activationState)
      ensures AsWorld() ==
        old(AsWorld()).(obj := Instance(old(isDisposed), None, false, true, true, options))
    {
      fileLogger, consoleLogger, additionalLogger := true, true, options;
      hasOptions := false;
      captured := ToSeq(deferredQueue);
      deferredQueue := None;
    }

    /** The drain loop of Activate. */
    method Drain(captured: seq<Event>, ghost options: bool) returns (count: nat)
      modifies this
      ensures activationState == old(activationState)
      ensures (AsWorld(), Activated(count)) == ActivateAlone(old(AsWorld()), Draining(captured, None, 0), options)
    {
      var rest := captured;
      count := 0;
      while rest != []
        invariant activationState == old(activationState)
        invariant ActivateAlone(old(AsWorld()), Draining(captured, None, 0), options)
               == ActivateAlone(AsWorld(), Draining(rest, None, count), options)
        decreases |rest|
      {
        DrainOneAlone(AsWorld(), rest[1..], rest[0], TestDisposed, count, options);
        Log(rest[0]);
        rest, count := rest[1..], count + 1;
      }
    }

    /** Only the first call does anything: it makes the sub-loggers, forgets the options, hands over what
        was deferred, in order and unless the instance is disposed, and reports how many entries that
        were. */
    method Activate(additional: bool) returns (count: Option<nat>)
      modifies this
      ensures activationState && (count.None? <==> old(activationState))
      ensures old(activationState) ==> AsWorld() == old(AsWorld())
      ensures count.Some? ==>
        (AsWorld(), Activated(count.value)) == ActivateAlone(old(AsWorld()), Entering, additional)
      ensures count.Some? ==> count.value == |ToSeq(old(deferredQueue))|
      ensures count.Some? ==> fileLogger && consoleLogger && additionalLogger == additional
      ensures count.Some? ==> deferredQueue == None && !hasOptions && isDisposed == old(isDisposed)
      ensures count.Some? && !isDisposed ==>
        && file == old(file) + ToSeq(old(deferredQueue))
        && console == old(console) + ToSeq(old(deferredQueue))
        && extra == (if additional then old(extra) + ToSeq(old(deferredQueue)) else old(extra))
      ensures isDisposed ==> file == old(file) && console == old(console) && extra == old(extra)
    {
      if activationState {
        return None;
      }
      activationState := true;
      ghost var w := AsWorld();
      CapturesAlone(w, additional);
      var captured := CaptureQueue(additional);
      if isDisposed {
        DisposedDrainDrops(AsWorld(), captured, 0, additional);
      } else {
        ActivateAloneDelivers(w, additional);
      }
      var drained := Drain(captured, additional);
      return Some(drained);
    }

    /** With options the callback activates; without, it discards what is queued; after disposal it does
        nothing. */
    method OnSafetyTimerElapsed(additional: bool)
      modifies this
      ensures AsWorld() ==
        TimerAlone(old(AsWorld()), if old(activationState) then Activated(0) else Unclaimed, additional).0
      ensures old(isDisposed) ==> AsWorld() == old(AsWorld()) && activationState == old(activationState)
      ensures !old(isDisposed) && old(hasOptions) ==> activationState
      ensures !old(isDisposed) && old(hasOptions) && !old(activationState) ==>
        && deferredQueue == None && hist.discarded == old(hist.discarded)
        && file == old(file) + ToSeq(old(deferredQueue))
        && console == old(console) + ToSeq(old(deferredQueue))
        && extra == (if additional then old(extra) + ToSeq(old(deferredQueue)) else old(extra))
      ensures !old(isDisposed) && !old(hasOptions) ==>
        && deferredQueue == None && activationState == old(activationState)
        && file == old(file) && console == old(console) && extra == old(extra)
        && fileLogger == old(fileLogger) && consoleLogger == old(consoleLogger)
    {
      TimerCases(AsWorld(), if activationState then Activated(0) else Unclaimed, additional);
      if isDisposed {
        return;
      }
      if hasOptions {
        if !activationState {
          ActivateKeepsDiscarded(AsWorld(), Entering, additional);
        }
        var _ := Activate(additional);
        return;
      }
      if deferredQueue.None? {
        return;
      }
      hist := hist.(discarded := deferredQueue.value, discardRan := true);
      deferredQueue := None;
    }

    method Dispose()
      modifies this`isDisposed, this`additionalLogger
      ensures isDisposed && !additionalLogger
    {
      isDisposed := true;
      additionalLogger := false;
    }
  }

  lemma ActivateKeepsDiscarded(w: World, a: Activation, extra: bool)
    requires !a.Unclaimed? && (a.Draining? && a.current.Some? ==> a.current.value.pc != LogDone)
    ensures ActivateAlone(w, a, extra).0.hist.discarded == w.hist.discarded
    decreases StageRank(a), if a.Draining? then |a.rest| else 0,
              if a.Draining? && a.current.Some? then 1 + PcRank(a.current.value.pc) else 0
  {
    if !a.Activated? {
      var (w1, a1) := ActivationBody(w, a, extra);
      ActivateKeepsDiscarded(w1, a1, extra);
    }
  }

  lemma TimerCases(w: World, a: Activation, extra: bool)
    requires a.Unclaimed? || a.Activated?
    ensures w.obj.disposed ==> TimerAlone(w, a, extra) == (w, a)
    ensures !w.obj.disposed && w.obj.options && a.Unclaimed? ==>
      TimerAlone(w, a, extra) == ActivateAlone(w, Entering, extra)
    ensures !w.obj.disposed && w.obj.options && a.Activated? ==> TimerAlone(w, a, extra) == (w, a)
    ensures !w.obj.disposed && !w.obj.options ==>
      TimerAlone(w, a, extra) ==
      (if w.obj.queue.Some? then
         World(w.obj.(queue := None), w.sinks, w.hist.(discarded := w.obj.queue.value, discardRan := true))
       else w, a)
  {
    if !w.obj.disposed {
      assert CallAlone(w, a, TimerTestDisposed) == CallAlone(w, a, TimerReadOptions);
      if w.obj.options {
        assert CallAlone(w, a, TimerReadOptions) == CallAlone(w, a, Claim);
        assert CallAlone(w, a, Claim) == (w, if a.Unclaimed? then Entering else a);
      } else {
        var discard := TimerDiscard(w.hist.offered);
        assert CallAlone(w, a, TimerReadOptions) == CallAlone(w, a, discard);
        assert CallAlone(w, a, discard) == (CallBody(w, a, discard).0, a);
      }
    }
  }
}
