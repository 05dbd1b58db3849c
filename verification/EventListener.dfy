/**
 LoggingEventListener: event sources announced before, during and after its constructor
 (src/Elastic.OpenTelemetry.Core/Diagnostics/LoggingEventListener.cs).

 The base constructor may call OnEventSourceCreated on any number of threads before the fields of the
 derived constructor are assigned.  Each callback announces one event source and is named by it; only
 sources with the OpenTelemetry name prefix match.  Regions under _lock are single steps, since they
 touch only the two lists.
 */
module EventListener {
  import opened Prelude

  type Source = nat

  /** The level _eventLevel is initialized with, and the one the constructor takes from the options. */
  datatype Level = Initial | FromOptions

  datatype Callback =
    | TestPrefix(matches: bool)
    | TestList
    | AddOrPass
    | Subscribe
    | Enable
    | Deferred
    | Handled

  datatype Constructor =
    | SetLevel
    | TakeList
    | AddNext(rest: seq<Source>)
    | EnableNext(current: Source, rest: seq<Source>)
    | Constructed

  datatype State = State(
    level: Level,
    early: Option<seq<Source>>,      // _eventSourcesBeforeConstructor
    subscribed: seq<Source>,
    enabled: seq<Source>,            // EnableEvents calls, in order ...
    enabledAt: seq<Level>,           // ... and their levels
    ctor: Constructor,
    callbacks: map<Source, Callback>,
    matching: set<Source>)           // history: announced sources with a matching name

  datatype Action =
    | Announce(e: Source, matches: bool)
    | CallbackStep(e: Source)
    | ConstructorStep

  function Start(): State {
    State(Initial, Some([]), [], [], [], SetLevel, map[], {})
  }

  predicate Enabled(s: State, a: Action) {
    match a
    case Announce(e, _) => e !in s.callbacks
    case CallbackStep(e) => e in s.callbacks && s.callbacks[e] != Deferred && s.callbacks[e] != Handled
    case ConstructorStep => s.ctor != Constructed
  }

  function EnableEvents(s: State, e: Source): State {
    s.(enabled := s.enabled + [e], enabledAt := s.enabledAt + [s.level])
  }

  function CallbackNext(s: State, e: Source): State
    requires Enabled(s, CallbackStep(e))
  {
    match s.callbacks[e]
    case TestPrefix(matches) => s.(callbacks := s.callbacks[e := if matches then TestList else Handled])
    case TestList => s.(callbacks := s.callbacks[e := if s.early.Some? then AddOrPass else Subscribe])
    case AddOrPass =>
      if s.early.Some? then s.(early := Some(s.early.value + [e]), callbacks := s.callbacks[e := Deferred])
      else s.(callbacks := s.callbacks[e := Subscribe])
    case Subscribe => s.(subscribed := s.subscribed + [e], callbacks := s.callbacks[e := Enable])
    case Enable => EnableEvents(s, e).(callbacks := s.callbacks[e := Handled])
  }

  function ConstructorNext(s: State): State
    requires Enabled(s, ConstructorStep)
  {
    match s.ctor
    case SetLevel => s.(level := FromOptions, ctor := TakeList)
    case TakeList => s.(early := None, ctor := AddNext(ToSeq(s.early)))
    case AddNext(rest) =>
      if rest == [] then s.(ctor := Constructed)
      else s.(subscribed := s.subscribed + [rest[0]], ctor := EnableNext(rest[0], rest[1..]))
    case EnableNext(e, rest) => EnableEvents(s, e).(ctor := AddNext(rest))
  }

  function Next(s: State, a: Action): State
    requires Enabled(s, a)
  {
    match a
    case Announce(e, matches) =>
      s.(callbacks := s.callbacks[e := TestPrefix(matches)],
         matching := if matches then s.matching + {e} else s.matching)
    case CallbackStep(e) => CallbackNext(s, e)
    case ConstructorStep => ConstructorNext(s)
  }

  predicate Feasible(s: State, run: seq<Action>)
    decreases run
  {
    run == [] || (Enabled(s, run[0]) && Feasible(Next(s, run[0]), run[1..]))
  }

  function Exec(s: State, run: seq<Action>): State
    requires Feasible(s, run)
    decreases run
  {
    if run == [] then s else Exec(Next(s, run[0]), run[1..])
  }

  // ---------------------------------------------------------------- invariants

  /** A matching source whose own callback is still on the way to enabling it, or to deferring it. */
  predicate OnItsWay(c: Callback) {
    c == TestPrefix(true) || c.TestList? || c.AddOrPass? || c.Subscribe? || c.Enable?
  }

  function HeldByConstructor(c: Constructor): seq<Source> {
    match c
    case AddNext(rest) => rest
    case EnableNext(e, rest) => [e] + rest
    case _ => []
  }

  function Places(s: State, e: Source): nat {
    Bit(e in s.callbacks && OnItsWay(s.callbacks[e])) + Occurs(ToSeq(s.early), e)
    + Occurs(HeldByConstructor(s.ctor), e) + Occurs(s.enabled, e)
  }

  ghost predicate InOnePlace(s: State, e: Source) {
    && Places(s, e) == Bit(e in s.matching)
    && (e in s.matching ==> e in s.callbacks)
  }

  lemma CallbackKeepsPlaces(s: State, e: Source, x: Source)
    requires InOnePlace(s, x) && Enabled(s, CallbackStep(e))
    ensures InOnePlace(CallbackNext(s, e), x)
  {
    match s.callbacks[e]
    case AddOrPass => OccursAppend(ToSeq(s.early), e, x);
    case Enable => OccursAppend(s.enabled, e, x);
    case _ =>
  }

  lemma ConstructorKeepsPlaces(s: State, x: Source)
    requires InOnePlace(s, x) && Enabled(s, ConstructorStep)
    ensures InOnePlace(ConstructorNext(s), x)
  {
    match s.ctor
    case EnableNext(e, rest) =>
      OccursAppend(s.enabled, e, x);
      assert HeldByConstructor(s.ctor)[1..] == rest;
    case AddNext(rest) =>
      assert rest != [] ==> [rest[0]] + rest[1..] == rest;
    case _ =>
  }

  lemma InOnePlaceNext(s: State, a: Action, x: Source)
    requires InOnePlace(s, x) && Enabled(s, a)
    ensures InOnePlace(Next(s, a), x)
  {
    match a
    case CallbackStep(e) => CallbackKeepsPlaces(s, e, x);
    case ConstructorStep => ConstructorKeepsPlaces(s, x);
    case _ =>
  }

  /** Nothing is enabled before the list is taken, and the level is set before that. */
  ghost predicate Levelled(s: State) {
    && (s.early.Some? <==> s.ctor.SetLevel? || s.ctor.TakeList?)
    && (s.level == Initial <==> s.ctor.SetLevel?)
    && (forall e <- s.callbacks :: s.callbacks[e].Subscribe? || s.callbacks[e].Enable? ==> s.early.None?)
    && |s.enabledAt| == |s.enabled|
    && (forall i | 0 <= i < |s.enabledAt| :: s.enabledAt[i] == FromOptions)
  }

  lemma LevelledNext(s: State, a: Action)
    requires Levelled(s) && Enabled(s, a)
    ensures Levelled(Next(s, a))
  {
  }

  /** _subscribedEventSources lists what has been or is being enabled. */
  ghost predicate Listed(s: State, e: Source) {
    Occurs(s.subscribed, e) == Occurs(s.enabled, e) + Bit(e in s.callbacks && s.callbacks[e].Enable?)
                               + Bit(s.ctor.EnableNext? && s.ctor.current == e)
  }

  lemma ListedNext(s: State, a: Action, x: Source)
    requires Listed(s, x) && Enabled(s, a)
    ensures Listed(Next(s, a), x)
  {
    if a.CallbackStep? {
      OccursAppend(s.subscribed, a.e, x);
      OccursAppend(s.enabled, a.e, x);
    } else if s.ctor.AddNext? && s.ctor.rest != [] {
      OccursAppend(s.subscribed, s.ctor.rest[0], x);
    } else if s.ctor.EnableNext? {
      OccursAppend(s.enabled, s.ctor.current, x);
    }
  }

  ghost predicate PerSource(s: State, e: Source) {
    InOnePlace(s, e) && Listed(s, e)
  }

  ghost predicate Inv(s: State) {
    Levelled(s) && forall e :: PerSource(s, e)
  }

  lemma {:induction false} InvRun(s: State, run: seq<Action>)
    requires Inv(s) && Feasible(s, run)
    ensures Inv(Exec(s, run))
    decreases run
  {
    if run != [] {
      LevelledNext(s, run[0]);
      forall e ensures PerSource(Next(s, run[0]), e) {
        assert PerSource(s, e);
        InOnePlaceNext(s, run[0], e);
        ListedNext(s, run[0], e);
      }
      InvRun(Next(s, run[0]), run[1..]);
    }
  }

  lemma InvReachable(run: seq<Action>)
    requires Feasible(Start(), run)
    ensures Inv(Exec(Start(), run))
  {
    forall e ensures PerSource(Start(), e) {
    }
    InvRun(Start(), run);
  }

  // ---------------------------------------------------------------- in every run

  predicate AtRest(s: State) {
    s.ctor == Constructed && forall e <- s.callbacks :: s.callbacks[e] == Handled || s.callbacks[e] == Deferred
  }

  /** Events are never enabled twice for a source, and always at the level taken from the options,
      even for a source announced before that level was assigned. */
  lemma EnabledAtOptionsLevel(run: seq<Action>, e: Source)
    requires Feasible(Start(), run)
    ensures var s := Exec(Start(), run);
      && Occurs(s.enabled, e) <= 1
      && |s.enabledAt| == |s.enabled|
      && forall i | 0 <= i < |s.enabledAt| :: s.enabledAt[i] == FromOptions
  {
    InvReachable(run);
    assert PerSource(Exec(Start(), run), e);
  }

  /** Once the constructor and all callbacks have returned, exactly the matching sources have been
      enabled and recorded, each once. */
  lemma MatchingSourcesEnabledOnce(run: seq<Action>, e: Source)
    requires Feasible(Start(), run) && AtRest(Exec(Start(), run))
    ensures var s := Exec(Start(), run);
      && Occurs(s.enabled, e) == Bit(e in s.matching)
      && Occurs(s.subscribed, e) == Bit(e in s.matching)
  {
    InvReachable(run);
    assert PerSource(Exec(Start(), run), e);
  }

  // ---------------------------------------------------------------- calls by themselves

  function CallbackRank(c: Callback): nat {
    match c
    case TestPrefix(_) => 5
    case TestList => 4
    case AddOrPass => 3
    case Subscribe => 2
    case Enable => 1
    case Deferred => 0
    case Handled => 0
  }

  /** A callback by itself returns: its source is deferred if the list is still there, and else enabled,
      at the level the field has by then. */
  lemma CallbackFinishes(s: State, e: Source) returns (run: seq<Action>)
    requires e in s.callbacks && OnItsWay(s.callbacks[e]) && (s.callbacks[e].Subscribe? ==> s.early.None?)
    ensures Feasible(s, run) && e in Exec(s, run).callbacks
    ensures var end := Exec(s, run);
      if s.early.Some? && !s.callbacks[e].Enable?
      then end.callbacks[e] == Deferred && end.early == Some(s.early.value + [e]) && end.enabled == s.enabled
      else end.callbacks[e] == Handled && end.enabled == s.enabled + [e] && end.enabledAt == s.enabledAt + [s.level]
    decreases CallbackRank(s.callbacks[e])
  {
    var a := CallbackStep(e);
    var rest := [];
    if OnItsWay(Next(s, a).callbacks[e]) {
      rest := CallbackFinishes(Next(s, a), e);
    }
    run := [a] + rest;
    assert run[1..] == rest;
  }

  /** The constructor by itself returns, having enabled what it held, in order. */
  lemma ConstructorFinishes(s: State) returns (run: seq<Action>)
    requires s.ctor.AddNext? && s.level == FromOptions
    ensures Feasible(s, run) && Exec(s, run).ctor == Constructed
    ensures Exec(s, run).enabled == s.enabled + s.ctor.rest
    decreases |s.ctor.rest|
  {
    var a := ConstructorStep;
    if s.ctor.rest == [] {
      run := [a];
      assert run[1..] == [] && s.enabled + [] == s.enabled;
    } else {
      var s1 := Next(s, a);
      var rest := ConstructorFinishes(Next(s1, a));
      run := [a] + ([a] + rest);
      assert run[1..] == [a] + rest && ([a] + rest)[1..] == rest;
      assert s.ctor.rest == [s.ctor.rest[0]] + s.ctor.rest[1..];
    }
  }

  // ---------------------------------------------------------------- the listener object

  class LoggingEventListener {
    var eventLevel: Level
    var eventSourcesBeforeConstructor: Option<seq<Source>>
    var subscribedEventSources: seq<Source>
    var enabled: seq<Source>
    var enabledAt: seq<Level>

    /** The fields as their initializers leave them, before the constructor's body runs. */
    constructor ()
      ensures eventLevel == Initial && eventSourcesBeforeConstructor == Some([])
      ensures subscribedEventSources == [] && enabled == [] && enabledAt == []
    {
      eventLevel, eventSourcesBeforeConstructor := Initial, Some([]);
      subscribedEventSources, enabled, enabledAt := [], [], [];
    }

    method EnableEvents(e: Source)
      modifies this`enabled, this`enabledAt
      ensures enabled == old(enabled) + [e] && enabledAt == old(enabledAt) + [eventLevel]
    {
      enabled := enabled + [e];
      enabledAt := enabledAt + [eventLevel];
    }

    /** The constructor's body: every source announced so far is recorded and enabled, in the order of
        announcement and at the options' level. */
    method Construct()
      modifies this
      ensures eventLevel == FromOptions && eventSourcesBeforeConstructor == None
      ensures subscribedEventSources == old(subscribedEventSources) + ToSeq(old(eventSourcesBeforeConstructor))
      ensures enabled == old(enabled) + ToSeq(old(eventSourcesBeforeConstructor))
      ensures enabledAt == old(enabledAt) + seq(|ToSeq(old(eventSourcesBeforeConstructor))|, _ => FromOptions)
    {
      eventLevel := FromOptions;
      var eventSources := ToSeq(eventSourcesBeforeConstructor);
      eventSourcesBeforeConstructor := None;
      for i := 0 to |eventSources|
        invariant eventLevel == FromOptions && eventSourcesBeforeConstructor == None
        invariant subscribedEventSources == old(subscribedEventSources) + eventSources[..i]
        invariant enabled == old(enabled) + eventSources[..i]
        invariant enabledAt == old(enabledAt) + seq(i, _ => FromOptions)
      {
        subscribedEventSources := subscribedEventSources + [eventSources[i]];
        EnableEvents(eventSources[i]);
      }
    }

    method OnEventSourceCreated(e: Source, matches: bool)
      modifies this
      ensures eventLevel == old(eventLevel)
      ensures !matches ==> unchanged(this)
      ensures matches && old(eventSourcesBeforeConstructor).Some? ==>
                eventSourcesBeforeConstructor == Some(old(eventSourcesBeforeConstructor.value) + [e])
                && enabled == old(enabled) && enabledAt == old(enabledAt)
                && subscribedEventSources == old(subscribedEventSources)
      ensures matches && old(eventSourcesBeforeConstructor).None? ==>
                eventSourcesBeforeConstructor == None
                && enabled == old(enabled) + [e] && enabledAt == old(enabledAt) + [eventLevel]
                && subscribedEventSources == old(subscribedEventSources) + [e]
    {
      if matches {
        if eventSourcesBeforeConstructor.Some? {
          eventSourcesBeforeConstructor := Some(eventSourcesBeforeConstructor.value + [e]);
          return;
        }
        subscribedEventSources := subscribedEventSources + [e];
        EnableEvents(e);
      }
    }
  }
}
