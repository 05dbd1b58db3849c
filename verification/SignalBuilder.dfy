/**
 SignalBuilder.WithElasticDefaults: each builder is configured at most once, and its call counter counts
 the calls that were not turned away (src/Elastic.OpenTelemetry.Core/SignalBuilder.cs,
 src/Elastic.OpenTelemetry.Core/BuilderState.cs).

 Any number of calls by any number of threads on any builders.  The table is read without the lock, then
 again under it; the lock is re-entrant, so the configure callback may call WithElasticDefaults on other
 builders, but by assumption not on a builder that the same thread is already busy with, and it returns
 normally.  Whether the signal gate turns a call away is up to the environment.
 */
module SignalBuilder {
  import opened Prelude

  type Tid = nat
  type CallId = nat
  type Builder = nat

  datatype Pc =
    | FastRead
    | Gate
    | Enter
    | Recheck
    | Configure
    | InCallback
    | Store
    | Handle(locked: bool)
    | Exit
    | Accepted
    | TurnedAway

  datatype Call = Call(thread: Tid, builder: Builder, pc: Pc)

  datatype State = State(
    calls: map<CallId, Call>,
    table: map<Builder, nat>,           // BuilderStateTable, with each state's call counter
    configured: seq<Builder>,           // history: callback invocations
    configuredBy: map<Builder, CallId>) // history

  datatype Action =
    | Begin(c: CallId, t: Tid, b: Builder)
    | Step(c: CallId, pass: bool)

  function Start(): State {
    State(map[], map[], [], map[])
  }

  predicate Active(pc: Pc) {
    pc != Accepted && pc != TurnedAway
  }

  /** The call is inside the locked region. */
  predicate Critical(pc: Pc) {
    pc == Recheck || Configuring(pc) || pc == Handle(true) || pc == Exit
  }

  predicate Configuring(pc: Pc) {
    pc == Configure || pc == InCallback || pc == Store
  }

  predicate Enabled(s: State, a: Action) {
    match a
    case Begin(c, t, b) =>
      && c !in s.calls
      && forall d <- s.calls :: s.calls[d].thread == t && s.calls[d].builder == b ==> !Active(s.calls[d].pc)
    case Step(c, _) =>
      && c in s.calls
      && Active(s.calls[c].pc)
      // the lock is free, or held by the same thread
      && (s.calls[c].pc == Enter ==>
            forall d <- s.calls :: Critical(s.calls[d].pc) ==> s.calls[d].thread == s.calls[c].thread)
  }

  /** Where the call goes; found: its builder has an entry in the table. */
  function NextPc(pc: Pc, found: bool, pass: bool): Pc
    requires Active(pc)
  {
    match pc
    case FastRead => if found then Handle(false) else Gate
    case Gate => if pass then Enter else TurnedAway
    case Enter => Recheck
    case Recheck => if found then Handle(true) else Configure
    case Configure => InCallback
    case InCallback => Store
    case Store => Exit
    case Handle(locked) => if locked then Exit else Accepted
    case Exit => Accepted
  }

  /** BuilderStateTable.Add with a fresh counter of 1, or IncrementWithElasticDefaults. */
  function NextTable(table: map<Builder, nat>, b: Builder, pc: Pc): map<Builder, nat> {
    match pc
    case Store => table[b := 1]
    case Handle(_) => table[b := (if b in table then table[b] else 0) + 1]
    case _ => table
  }

  function StepNext(s: State, c: CallId, pass: bool): State
    requires Enabled(s, Step(c, pass))
  {
    var call := s.calls[c];
    State(s.calls[c := call.(pc := NextPc(call.pc, call.builder in s.table, pass))],
          NextTable(s.table, call.builder, call.pc),
          if call.pc == Configure then s.configured + [call.builder] else s.configured,
          if call.pc == Configure then s.configuredBy[call.builder := c] else s.configuredBy)
  }

  function Next(s: State, a: Action): State
    requires Enabled(s, a)
  {
    match a
    case Begin(c, t, b) => s.(calls := s.calls[c := Call(t, b, FastRead)])
    case Step(c, pass) => StepNext(s, c, pass)
  }

  predicate Feasible(s: State, run: seq<Action>)
    decreases run
  {
    run == [] || (Enabled(s, run[0]) && Feasible(Next(s, run[0]), run[1..]))
  }

  function Exec(s: State, run: seq<Action>): State
    requires Feasible(s, run)
    decreases run
  {
    if run == [] then s else Exec(Next(s, run[0]), run[1..])
  }

  // ---------------------------------------------------------------- mutual exclusion

  /** Two calls are not both in the locked region unless one thread made both, and a thread is not
      busy with the same builder twice. */
  predicate PairOk(same: bool, x: Call, y: Call) {
    && (Critical(x.pc) && Critical(y.pc) ==> x.thread == y.thread)
    && (Active(x.pc) && Active(y.pc) && x.thread == y.thread && x.builder == y.builder ==> same)
  }

  ghost predicate Exclusive(s: State) {
    forall c <- s.calls, d <- s.calls :: PairOk(c == d, s.calls[c], s.calls[d])
  }

  lemma PairOkStep(same: bool, x: Call, y: Call, found: bool, pass: bool)
    requires PairOk(same, x, y) && Active(x.pc) && !same
    requires x.pc == Enter && Critical(y.pc) ==> x.thread == y.thread
    ensures var x1 := x.(pc := NextPc(x.pc, found, pass)); PairOk(same, x1, y) && PairOk(same, y, x1)
  {
  }

  lemma ExclusiveNext(s: State, a: Action)
    requires Exclusive(s) && Enabled(s, a)
    ensures Exclusive(Next(s, a))
  {
    if a.Step? {
      var x := s.calls[a.c];
      forall d <- s.calls | d != a.c
        ensures var x1 := Next(s, a).calls[a.c]; PairOk(false, x1, s.calls[d]) && PairOk(false, s.calls[d], x1)
      {
        assert PairOk(a.c == d, x, s.calls[d]);
        PairOkStep(false, x, s.calls[d], x.builder in s.table, a.pass);
      }
    }
  }

  // ---------------------------------------------------------------- configured at most once

  predicate CallOk(call: Call, table: map<Builder, nat>, configured: seq<Builder>) {
    && (Configuring(call.pc) ==> call.builder !in table)
    && (call.pc == Configure ==> call.builder !in configured)
    && (call.pc == InCallback || call.pc == Store ==> call.builder in configured)
    && (call.pc.Handle? ==> call.builder in table)
  }

  ghost predicate CallsOk(s: State) {
    forall c <- s.calls :: CallOk(s.calls[c], s.table, s.configured)
  }

  predicate BeingConfigured(s: State, b: Builder) {
    b in s.configuredBy && s.configuredBy[b] in s.calls
    && var call := s.calls[s.configuredBy[b]];
       call.builder == b && (call.pc == InCallback || call.pc == Store)
  }

  ghost predicate ConfiguredOnce(s: State, b: Builder) {
    && (b in s.configured ==> b in s.table || BeingConfigured(s, b))
    && (b in s.table ==> b in s.configured)
    && Occurs(s.configured, b) <= 1
  }

  lemma ConfiguredOnceStep(s: State, c: CallId, pass: bool, b: Builder)
    requires CallsOk(s) && ConfiguredOnce(s, b) && Enabled(s, Step(c, pass))
    ensures ConfiguredOnce(StepNext(s, c, pass), b)
  {
    var call := s.calls[c];
    assert CallOk(call, s.table, s.configured);
    OccursAppend(s.configured, call.builder, b);
    OccursMember(s.configured, b);
  }

  /** A call that finds no entry under the lock is the first to configure its builder. */
  lemma RecheckIsFirst(s: State, c: CallId)
    requires Exclusive(s) && c in s.calls && s.calls[c].pc == Recheck
    requires ConfiguredOnce(s, s.calls[c].builder) && s.calls[c].builder !in s.table
    ensures s.calls[c].builder !in s.configured
  {
  }

  lemma CallOkStep(s: State, c: CallId, pass: bool)
    requires Exclusive(s) && CallsOk(s) && Enabled(s, Step(c, pass)) && ConfiguredOnce(s, s.calls[c].builder)
    ensures CallOk(StepNext(s, c, pass).calls[c], StepNext(s, c, pass).table, StepNext(s, c, pass).configured)
  {
    assert CallOk(s.calls[c], s.table, s.configured);
    if s.calls[c].pc == Recheck && s.calls[c].builder !in s.table {
      RecheckIsFirst(s, c);
    }
  }

  lemma CallsOkStep(s: State, c: CallId, pass: bool)
    requires Exclusive(s) && CallsOk(s) && Enabled(s, Step(c, pass)) && ConfiguredOnce(s, s.calls[c].builder)
    ensures CallsOk(StepNext(s, c, pass))
  {
    CallOkStep(s, c, pass);
    var s1 := StepNext(s, c, pass);
    forall d <- s1.calls ensures CallOk(s1.calls[d], s1.table, s1.configured) {
      if d != c {
        assert CallOk(s.calls[d], s.table, s.configured) && PairOk(d == c, s.calls[d], s.calls[c]);
        assert CallOk(s.calls[c], s.table, s.configured);
      }
    }
  }

  // ---------------------------------------------------------------- the counter

  predicate CountedPc(pc: Pc) {
    pc == Exit || pc == Accepted
  }

  function Counted(calls: map<CallId, Call>, b: Builder): set<CallId> {
    set c | c in calls && calls[c].builder == b && CountedPc(calls[c].pc)
  }

  ghost predicate CounterOk(s: State, b: Builder) {
    && |Counted(s.calls, b)| == (if b in s.table then s.table[b] else 0)
    && (b in s.table ==> s.table[b] > 0)
  }

  lemma CounterOkStep(s: State, c: CallId, pass: bool, b: Builder)
    requires CallsOk(s) && CounterOk(s, b) && Enabled(s, Step(c, pass))
    ensures CounterOk(StepNext(s, c, pass), b)
  {
    var calls1 := StepNext(s, c, pass).calls;
    assert CallOk(s.calls[c], s.table, s.configured);
    if s.calls[c].builder == b && !CountedPc(s.calls[c].pc) && CountedPc(calls1[c].pc) {
      assert Counted(calls1, b) == Counted(s.calls, b) + {c};
      CardAdd(Counted(s.calls, b), c);
    } else {
      assert Counted(calls1, b) == Counted(s.calls, b);
    }
  }

  // ---------------------------------------------------------------- in every run

  ghost predicate PerBuilder(s: State, b: Builder) {
    ConfiguredOnce(s, b) && CounterOk(s, b)
  }

  ghost predicate Inv(s: State) {
    Exclusive(s) && CallsOk(s) && forall b :: PerBuilder(s, b)
  }

  lemma InvNext(s: State, a: Action)
    requires Inv(s) && Enabled(s, a)
    ensures Inv(Next(s, a))
  {
    ExclusiveNext(s, a);
    if a.Step? {
      assert PerBuilder(s, s.calls[a.c].builder);
      CallsOkStep(s, a.c, a.pass);
    }
    forall b ensures PerBuilder(Next(s, a), b) {
      assert PerBuilder(s, b);
      if a.Step? {
        ConfiguredOnceStep(s, a.c, a.pass, b);
        CounterOkStep(s, a.c, a.pass, b);
      } else {
        assert Counted(Next(s, a).calls, b) == Counted(s.calls, b);
      }
    }
  }

  lemma {:induction false} InvRun(s: State, run: seq<Action>)
    requires Inv(s) && Feasible(s, run)
    ensures Inv(Exec(s, run))
    decreases run
  {
    if run != [] {
      InvNext(s, run[0]);
      InvRun(Next(s, run[0]), run[1..]);
    }
  }

  lemma InvReachable(run: seq<Action>)
    requires Feasible(Start(), run)
    ensures Inv(Exec(Start(), run))
  {
    forall b ensures PerBuilder(Start(), b) {
      assert Counted(map[], b) == {};
    }
    InvRun(Start(), run);
  }

  /** In every run the configure callback is invoked at most once for a builder. */
  lemma ConfiguredAtMostOnce(run: seq<Action>, b: Builder)
    requires Feasible(Start(), run)
    ensures Occurs(Exec(Start(), run).configured, b) <= 1
  {
    InvReachable(run);
    assert PerBuilder(Exec(Start(), run), b);
  }

  /** The calls on b that the signal gate did not turn away. */
  function NotTurnedAway(s: State, b: Builder): set<CallId> {
    set c | c in s.calls && s.calls[c].builder == b && s.calls[c].pc != TurnedAway
  }

  /** When all calls have returned, a builder has a stored counter exactly when some call on it was not
      turned away; then it has been configured exactly once, and the counter is the number of those calls. */
  lemma CounterCountsCalls(run: seq<Action>, b: Builder)
    requires Feasible(Start(), run)
    requires forall c <- Exec(Start(), run).calls :: !Active(Exec(Start(), run).calls[c].pc)
    ensures var s := Exec(Start(), run);
      && (b in s.table <==> NotTurnedAway(s, b) != {})
      && (b in s.table ==> s.table[b] == |NotTurnedAway(s, b)|)
      && Occurs(s.configured, b) == Bit(b in s.table)
  {
    InvReachable(run);
    var s := Exec(Start(), run);
    assert PerBuilder(s, b);
    assert NotTurnedAway(s, b) == Counted(s.calls, b);
    OccursMember(s.configured, b);
  }

  // ---------------------------------------------------------------- the signal gate

  /** The call has been let in: it goes on to be counted. */
  predicate LetIn(pc: Pc) {
    pc != FastRead && pc != Gate && pc != TurnedAway
  }

  lemma {:induction false} LetInStays(s: State, c: CallId, more: seq<Action>)
    requires c in s.calls && LetIn(s.calls[c].pc) && Feasible(s, more)
    ensures c in Exec(s, more).calls && LetIn(Exec(s, more).calls[c].pc)
    decreases more
  {
    if more != [] {
      LetInStays(Next(s, more[0]), c, more[1..]);
    }
  }

  lemma {:induction false} TurnedAwayStays(s: State, c: CallId, more: seq<Action>)
    requires c in s.calls && s.calls[c].pc == TurnedAway && Feasible(s, more)
    ensures c in Exec(s, more).calls && Exec(s, more).calls[c].pc == TurnedAway
    decreases more
  {
    if more != [] {
      TurnedAwayStays(Next(s, more[0]), c, more[1..]);
    }
  }

  /** The gate decides: in every continuation the call is turned away exactly if the gate says so, and
      then its own step has touched neither the table nor the builder. */
  lemma GateDecides(s: State, c: CallId, pass: bool, more: seq<Action>)
    requires c in s.calls && s.calls[c].pc == Gate && Feasible(Next(s, Step(c, pass)), more)
    ensures var end := Exec(Next(s, Step(c, pass)), more);
      c in end.calls && (end.calls[c].pc == TurnedAway <==> !pass)
    ensures Next(s, Step(c, pass)).table == s.table && Next(s, Step(c, pass)).configured == s.configured
  {
    if pass {
      LetInStays(Next(s, Step(c, pass)), c, more);
    } else {
      TurnedAwayStays(Next(s, Step(c, pass)), c, more);
    }
  }

  /** A call that finds its builder in the table is never asked at the gate. */
  lemma KnownBuilderIsCounted(s: State, c: CallId, pass: bool, more: seq<Action>)
    requires c in s.calls && s.calls[c].pc == FastRead && s.calls[c].builder in s.table
    requires Feasible(Next(s, Step(c, pass)), more)
    ensures var end := Exec(Next(s, Step(c, pass)), more); c in end.calls && LetIn(end.calls[c].pc)
  {
    LetInStays(Next(s, Step(c, pass)), c, more);
  }

  // ---------------------------------------------------------------- calls by themselves

  function PcRank(pc: Pc): nat {
    match pc
    case FastRead => 8
    case Gate => 7
    case Enter => 6
    case Recheck => 5
    case Configure => 4
    case InCallback => 3
    case Store => 2
    case Handle(_) => 2
    case Exit => 1
    case Accepted => 0
    case TurnedAway => 0
  }

  /** A call that nobody keeps from the lock can return. */
  lemma CallFinishes(s: State, c: CallId, pass: bool) returns (run: seq<Action>)
    requires c in s.calls
    requires forall d <- s.calls :: Critical(s.calls[d].pc) ==> s.calls[d].thread == s.calls[c].thread
    ensures Feasible(s, run) && c in Exec(s, run).calls && !Active(Exec(s, run).calls[c].pc)
    decreases PcRank(s.calls[c].pc)
  {
    if !Active(s.calls[c].pc) {
      return [];
    }
    var a := Step(c, pass);
    var rest := CallFinishes(Next(s, a), c, pass);
    run := [a] + rest;
    assert run[1..] == rest;
  }

  // ---------------------------------------------------------------- the objects

  class BuilderState {
    var useElasticDefaultsCounter: nat

    constructor ()
      ensures useElasticDefaultsCounter == 1
    {
      useElasticDefaultsCounter := 1;
    }

    method IncrementWithElasticDefaults()
      modifies this
      ensures useElasticDefaultsCounter == old(useElasticDefaultsCounter) + 1
    {
      useElasticDefaultsCounter := useElasticDefaultsCounter + 1;
    }
  }

  /** The table of builder states. */
  class BuilderStateTable {
    var states: map<Builder, BuilderState>
    var configured: seq<Builder>

    /** Builders have states of their own, exactly those that have been configured, and no builder has
        been configured twice. */
    ghost predicate Valid()
      reads this
    {
      && (forall b, d :: b in states && d in states && states[b] == states[d] ==> b == d)
      && (forall b :: b in states <==> b in configured)
      && (forall b :: Occurs(configured, b) <= 1)
    }

    constructor ()
      ensures Valid() && states == map[] && configured == []
    {
      states, configured := map[], [];
    }

    function Counter(b: Builder): nat
      requires b in states
      reads this, states.Values
    {
      states[b].useElasticDefaultsCounter
    }

    /** One undisturbed call: a known builder is counted, an unknown one is configured and stored with
        a counter of one if the signal gate lets it pass, and nothing else changes. */
    method WithElasticDefaults(b: Builder, pass: bool)
      requires Valid()
      modifies this, states.Values
      ensures Valid()
      ensures old(b in states) || !pass ==> states == old(states) && configured == old(configured)
      ensures old(b in states) ==> Counter(b) == old(Counter(b)) + 1
      ensures !old(b in states) && pass ==> states.Keys == old(states.Keys) + {b} && configured == old(configured) + [b]
      ensures !old(b in states) && pass ==> fresh(states[b]) && Counter(b) == 1
      ensures forall d <- old(states) :: d != b ==> d in states && states[d] == old(states[d])
      ensures forall d <- old(states) :: d != b ==> Counter(d) == old(Counter(d))
    {
      if b in states {
        states[b].IncrementWithElasticDefaults();
        return;
      }
      if !pass {
        return;
      }
      var builderState := new BuilderState();
      forall d ensures Occurs(configured + [b], d) <= 1 {
        OccursAppend(configured, b, d);
        OccursMember(configured, b);
      }
      configured := configured + [b];
      states := states[b := builderState];
    }
  }
}
