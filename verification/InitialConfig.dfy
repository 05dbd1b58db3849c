/**
 The first central configuration: RemoteConfigSubscriber.HandleMessage, WaitForFirstConfig,
 TryGetInitialConfig and the level that CreateComponents activates the logger with
 (src/Elastic.OpenTelemetry.Core/Configuration/CentralConfiguration.cs,
 src/Elastic.OpenTelemetry.Core/ElasticOpenTelemetry.cs).

 Any number of HandleMessage calls race with the bootstrap path; the exchange and the completion of
 FirstConfigTask are separate steps.  The wait may time out at any moment.
 */
module InitialConfig {
  import opened Prelude
  import opened CompositeOptions

  type Tid = nat

  /** ElasticRemoteConfig: its level may be null. */
  datatype Message = Message(level: Option<string>)

  datatype Handler = Exchange(m: Message) | Complete | Returned

  datatype Caller =
    | Waiting
    | Reading
    | Setting(m: Message)
    | Activating
    | Activated(level: LogLevel)

  datatype State = State(
    config: Option<Message>,          // _initialConfig
    completed: bool,                  // FirstConfigTask has completed
    handlers: map<Tid, Handler>,
    caller: Caller,
    level: LogLevel,                  // the options' effective level
    // history
    exchanges: seq<Message>,          // in the order of the exchanges
    waited: Option<bool>)             // what WaitForFirstConfig returned

  datatype Action =
    | Receive(t: Tid, m: Message)
    | HandlerStep(t: Tid)
    | WaitReturns(arrived: bool)
    | CallerStep

  function Start(local: LogLevel): State {
    State(None, false, map[], Waiting, local, [], None)
  }

  predicate Enabled(s: State, a: Action) {
    match a
    case Receive(t, _) => t !in s.handlers
    case HandlerStep(t) => t in s.handlers && s.handlers[t] != Returned
    // with an empty client, a fault or a timeout the wait returns false
    case WaitReturns(arrived) => s.caller.Waiting? && (arrived ==> s.completed)
    case CallerStep => s.caller.Reading? || s.caller.Setting? || s.caller.Activating?
  }

  function HandlerNext(s: State, t: Tid): State
    requires Enabled(s, HandlerStep(t))
  {
    match s.handlers[t]
    case Exchange(m) =>
      s.(config := if s.config.Some? then s.config else Some(m), exchanges := s.exchanges + [m],
         handlers := s.handlers[t := if s.config.None? then Complete else Returned])
    case Complete => s.(completed := true, handlers := s.handlers[t := Returned])
  }

  /** The level after SetLogLevelFromCentralConfig, if the message has one. */
  function Applied(level: LogLevel, m: Message, toLogLevel: LevelParser): LogLevel {
    if m.level.Some? then ParseLevel(toLogLevel, m.level.value).GetOr(level) else level
  }

  function CallerNext(s: State, toLogLevel: LevelParser): State
    requires Enabled(s, CallerStep)
  {
    match s.caller
    case Reading => s.(caller := if s.config.Some? then Setting(s.config.value) else Activating)
    case Setting(m) => s.(level := Applied(s.level, m, toLogLevel), caller := Activating)
    case Activating => s.(caller := Activated(s.level))
  }

  function Next(s: State, a: Action, toLogLevel: LevelParser): State
    requires Enabled(s, a)
  {
    match a
    case Receive(t, m) => s.(handlers := s.handlers[t := Exchange(m)])
    case HandlerStep(t) => HandlerNext(s, t)
    case WaitReturns(arrived) => s.(caller := if arrived then Reading else Activating, waited := Some(arrived))
    case CallerStep => CallerNext(s, toLogLevel)
  }

  predicate Feasible(s: State, run: seq<Action>, toLogLevel: LevelParser)
    decreases run
  {
    run == [] || (Enabled(s, run[0]) && Feasible(Next(s, run[0], toLogLevel), run[1..], toLogLevel))
  }

  function Exec(s: State, run: seq<Action>, toLogLevel: LevelParser): State
    requires Feasible(s, run, toLogLevel)
    decreases run
  {
    if run == [] then s else Exec(Next(s, run[0], toLogLevel), run[1..], toLogLevel)
  }

  ghost predicate Subscriber(s: State) {
    && s.config == (if s.exchanges == [] then None else Some(s.exchanges[0]))
    && (s.completed ==> s.config.Some?)
    && (forall t <- s.handlers :: s.handlers[t].Complete? ==> s.config.Some?)
  }

  /** The handler that stored the message has completed the task, or is about to. */
  ghost predicate TaskIsDue(s: State) {
    s.config.Some? && !s.completed ==> exists t :: t in s.handlers && s.handlers[t].Complete?
  }

  lemma TaskIsDueNext(s: State, a: Action, toLogLevel: LevelParser)
    requires TaskIsDue(s) && Enabled(s, a)
    ensures TaskIsDue(Next(s, a, toLogLevel))
  {
    var s1 := Next(s, a, toLogLevel);
    if s1.config.Some? && !s1.completed {
      if s.config.Some? {
        var t :| t in s.handlers && s.handlers[t].Complete?;
        assert t in s1.handlers && s1.handlers[t].Complete?;
      } else {
        assert a.HandlerStep? && s1.handlers[a.t].Complete?;
      }
    }
  }

  lemma {:induction false} TaskIsDueRun(s: State, run: seq<Action>, toLogLevel: LevelParser)
    requires TaskIsDue(s) && Feasible(s, run, toLogLevel)
    ensures TaskIsDue(Exec(s, run, toLogLevel))
    decreases run
  {
    if run != [] {
      TaskIsDueNext(s, run[0], toLogLevel);
      TaskIsDueRun(Next(s, run[0], toLogLevel), run[1..], toLogLevel);
    }
  }

  /** Once a message has been exchanged and every handler has returned, the wait can succeed. */
  lemma FirstConfigEndsTheWait(local: LogLevel, toLogLevel: LevelParser, run: seq<Action>)
    requires Feasible(Start(local), run, toLogLevel)
    requires var s := Exec(Start(local), run, toLogLevel);
      s.exchanges != [] && (forall t <- s.handlers :: s.handlers[t] == Returned) && s.caller.Waiting?
    ensures Enabled(Exec(Start(local), run, toLogLevel), WaitReturns(true))
  {
    InvRun(Start(local), run, local, toLogLevel);
    TaskIsDueRun(Start(local), run, toLogLevel);
  }

  /** What the bootstrap path will activate with, or has activated with. */
  function Due(s: State, local: LogLevel, toLogLevel: LevelParser): LogLevel {
    if s.waited == Some(true) && s.config.Some? then Applied(local, s.config.value, toLogLevel) else local
  }

  ghost predicate Path(s: State, local: LogLevel, toLogLevel: LevelParser) {
    && (s.waited.None? <==> s.caller.Waiting?)
    && (s.waited == Some(true) ==> s.config.Some?)
    && (match s.caller
        case Waiting => s.level == local
        case Reading => s.level == local && s.waited == Some(true)
        case Setting(m) => s.level == local && s.waited == Some(true) && s.config == Some(m)
        case Activating => s.level == Due(s, local, toLogLevel)
        case Activated(level) => level == Due(s, local, toLogLevel))
  }

  lemma InvNext(s: State, a: Action, local: LogLevel, toLogLevel: LevelParser)
    requires Subscriber(s) && Path(s, local, toLogLevel) && Enabled(s, a)
    ensures Subscriber(Next(s, a, toLogLevel)) && Path(Next(s, a, toLogLevel), local, toLogLevel)
  {
  }

  lemma {:induction false} InvRun(s: State, run: seq<Action>, local: LogLevel, toLogLevel: LevelParser)
    requires Subscriber(s) && Path(s, local, toLogLevel) && Feasible(s, run, toLogLevel)
    ensures Subscriber(Exec(s, run, toLogLevel)) && Path(Exec(s, run, toLogLevel), local, toLogLevel)
    ensures s.config.Some? ==> Exec(s, run, toLogLevel).config == s.config
    ensures s.exchanges <= Exec(s, run, toLogLevel).exchanges
    decreases run
  {
    if run != [] {
      InvNext(s, run[0], local, toLogLevel);
      InvRun(Next(s, run[0], toLogLevel), run[1..], local, toLogLevel);
    }
  }

  /** Once WaitForFirstConfig has returned true, and in every continuation of the run, TryGetInitialConfig
      gives the message of the first exchange. */
  lemma FirstConfigIsStable(local: LogLevel, toLogLevel: LevelParser, run: seq<Action>, more: seq<Action>)
    requires Feasible(Start(local), run, toLogLevel)
    requires Feasible(Exec(Start(local), run, toLogLevel), more, toLogLevel)
    requires Exec(Start(local), run, toLogLevel).waited == Some(true)
    ensures var s := Exec(Start(local), run, toLogLevel);
      s.exchanges != [] && Exec(s, more, toLogLevel).config == Some(s.exchanges[0])
  {
    InvRun(Start(local), run, local, toLogLevel);
    InvRun(Exec(Start(local), run, toLogLevel), more, local, toLogLevel);
  }

  /** The level at activation: that of the first message, if the wait saw it and the level parses, and
      otherwise what the local sources define. */
  lemma ActivationLevel(env: map<string, string>, config: Option<map<string, string>>, user: Option<UserOptions>,
                        toLogLevel: LevelParser, run: seq<Action>)
    requires Feasible(Start(LocalLevel(env, config, user, toLogLevel)), run, toLogLevel)
    requires Exec(Start(LocalLevel(env, config, user, toLogLevel)), run, toLogLevel).caller.Activated?
    ensures var local := LocalLevel(env, config, user, toLogLevel);
      var s := Exec(Start(local), run, toLogLevel);
      var text := if s.waited == Some(true) && s.exchanges != [] then s.exchanges[0].level else None;
      var central := if text.Some? && text.value != "" then toLogLevel(text.value) else None;
      s.caller.level == if central.Some? then central.value else local
  {
    var local := LocalLevel(env, config, user, toLogLevel);
    InvRun(Start(local), run, local, toLogLevel);
  }

  /** It does come to that: a first message with a level that parses, received in time, decides. */
  lemma CentralLevelDecides(local: LogLevel, text: string, toLogLevel: LevelParser) returns (run: seq<Action>)
    requires text != "" && toLogLevel(text).Some?
    ensures Feasible(Start(local), run, toLogLevel)
    ensures Exec(Start(local), run, toLogLevel).caller == Activated(toLogLevel(text).value)
  {
    var s1 := Next(Start(local), Receive(0, Message(Some(text))), toLogLevel);
    var s2 := Next(s1, HandlerStep(0), toLogLevel);
    var s3 := Next(s2, HandlerStep(0), toLogLevel);
    var s4 := Next(s3, WaitReturns(true), toLogLevel);
    var s5 := Next(s4, CallerStep, toLogLevel);
    var s6 := Next(s5, CallerStep, toLogLevel);
    run := [CallerStep];
    assert run[1..] == [] && Feasible(s6, run, toLogLevel);
    assert Exec(s6, run, toLogLevel) == Next(s6, CallerStep, toLogLevel);
    run := Before(s5, CallerStep, run, toLogLevel);
    run := Before(s4, CallerStep, run, toLogLevel);
    run := Before(s3, WaitReturns(true), run, toLogLevel);
    run := Before(s2, HandlerStep(0), run, toLogLevel);
    run := Before(s1, HandlerStep(0), run, toLogLevel);
    run := Before(Start(local), Receive(0, Message(Some(text))), run, toLogLevel);
  }

  lemma Before(s: State, a: Action, rest: seq<Action>, toLogLevel: LevelParser) returns (run: seq<Action>)
    requires Enabled(s, a) && Feasible(Next(s, a, toLogLevel), rest, toLogLevel)
    ensures Feasible(s, run, toLogLevel)
    ensures Exec(s, run, toLogLevel) == Exec(Next(s, a, toLogLevel), rest, toLogLevel)
  {
    run := [a] + rest;
    assert run[1..] == rest;
  }

  // ---------------------------------------------------------------- the objects

  class RemoteConfigSubscriber {
    var initialConfig: Option<Message>
    var firstConfigTask: bool

    /** FirstConfigTask is complete exactly when there is a first message. */
    ghost predicate Valid()
      reads this
    {
      firstConfigTask <==> initialConfig.Some?
    }

    constructor ()
      ensures Valid() && initialConfig == None
    {
      initialConfig, firstConfigTask := None, false;
    }

    /** The first message stays. */
    method HandleMessage(m: Message)
      requires Valid()
      modifies this
      ensures Valid()
      ensures initialConfig == if old(initialConfig).Some? then old(initialConfig) else Some(m)
    {
      if initialConfig.None? {
        initialConfig := Some(m);
        firstConfigTask := true;
      }
    }
  }

  /** The part of CreateComponents that decides the level the logger is activated with.  The wait may
      time out although a message has come. */
  method CreateComponents(options: CompositeElasticOpenTelemetryOptions, subscriber: RemoteConfigSubscriber,
                          timedOut: bool, toLogLevel: LevelParser)
    returns (enabled: bool, level: LogLevel)
    requires options.Valid() && subscriber.Valid()
    modifies options, options.logLevel, options.serviceName
    ensures options.Valid() && options.identityResolved
    ensures enabled == options.OpAmpConfigured()
    ensures var first := if enabled && !timedOut then subscriber.initialConfig else None;
      level == options.EffectiveLogLevel()
            == if first.Some? then Applied(old(options.EffectiveLogLevel()), first.value, toLogLevel)
               else old(options.EffectiveLogLevel())
    ensures options.TheIdentity() == Answer(Answer(old(options.TheIdentity()), Resolve), AskEnabled)
  {
    options.ResolveOpAmpServiceIdentity();
    enabled := options.IsOpAmpEnabled();
    if enabled {
      if subscriber.firstConfigTask && !timedOut && subscriber.initialConfig.Some? {
        var config := subscriber.initialConfig.value;
        if config.level.Some? {
          options.SetLogLevelFromCentralConfig(config.level.value, toLogLevel);
        }
      }
    }
    level := options.EffectiveLogLevel();
  }
}
