/**
 How long the bootstrap path blocks between entering StartClient and activating the logger
 (src/Elastic.OpenTelemetry.Core/Configuration/CentralConfiguration.cs,
 src/Elastic.OpenTelemetry.Core/ElasticOpenTelemetry.cs).

 A timed model in milliseconds from the entry of StartClient: time passes only in Tick steps, which no
 pending deadline allows to overshoot, and not at all while a blocked call is ready to return.  Code
 that does not block takes no time.
 */
module BootstrapTiming {
  const OPAMP_START_TIMEOUT_MS: nat := 2000
  const WAIT_FOR_FIRST_CONFIG_TIMEOUT_MS: nat := 3000
  const SAFETY_TIMER_MARGIN_MS: nat := 1000
  const SAFETY_TIMER_MS: nat :=
    OPAMP_START_TIMEOUT_MS + WAIT_FOR_FIRST_CONFIG_TIMEOUT_MS + SAFETY_TIMER_MARGIN_MS
  const CLEANUP_BUDGET_MS: nat := 500
  const SCHEDULING_MARGIN_MS: nat := 500
  const JOIN_TIMEOUT_MS: nat := OPAMP_START_TIMEOUT_MS + CLEANUP_BUDGET_MS + SCHEDULING_MARGIN_MS

  datatype Worker =
    | Starting
    | CleaningUp(since: nat)
    | Exited(started: bool)

  datatype Caller =
    | Joining
    | WaitingForConfig(since: nat)
    | Activated(at: nat, retained: bool)

  /** obedient: StartAsync ends by its cancellation deadline; prompt: neither StopAsync nor Dispose
      blocks its caller, so that the worker's cleanup keeps to its budget. */
  datatype Client = Client(obedient: bool, prompt: bool)

  datatype State = State(now: nat, worker: Worker, caller: Caller, arrived: bool, client: Client)

  datatype Action =
    | Tick(d: nat)
    | StartEnds(ok: bool)
    | CleanupEnds
    | ConfigArrives
    | JoinReturns
    | WaitReturns

  function Start(client: Client): State {
    State(0, Starting, Joining, false, client)
  }

  predicate MayWaitUntil(s: State, t: nat) {
    && (s.worker.Starting? && s.client.obedient ==> t <= OPAMP_START_TIMEOUT_MS)
    && (s.worker.CleaningUp? && s.client.prompt ==> t <= s.worker.since + CLEANUP_BUDGET_MS)
    && (s.caller.Joining? ==> !s.worker.Exited? && t <= JOIN_TIMEOUT_MS)
    && (s.caller.WaitingForConfig? ==> !s.arrived && t <= s.caller.since + WAIT_FOR_FIRST_CONFIG_TIMEOUT_MS)
  }

  predicate Enabled(s: State, a: Action) {
    match a
    case Tick(d) => d > 0 && MayWaitUntil(s, s.now + d)
    case StartEnds(_) => s.worker.Starting?
    case CleanupEnds => s.worker.CleaningUp?
    case ConfigArrives => true
    case JoinReturns => s.caller.Joining? && (s.worker.Exited? || s.now >= JOIN_TIMEOUT_MS)
    case WaitReturns =>
      s.caller.WaitingForConfig? && (s.arrived || s.now >= s.caller.since + WAIT_FOR_FIRST_CONFIG_TIMEOUT_MS)
  }

  function Next(s: State, a: Action): State
    requires Enabled(s, a)
  {
    match a
    case Tick(d) => s.(now := s.now + d)
    case StartEnds(ok) => s.(worker := if ok then Exited(true) else CleaningUp(s.now))
    case CleanupEnds => s.(worker := Exited(false))
    case ConfigArrives => s.(arrived := true)
    // a join that failed leaves the empty client, for which WaitForFirstConfig returns at once
    case JoinReturns =>
      s.(caller := if s.worker == Exited(true) then WaitingForConfig(s.now) else Activated(s.now, false))
    case WaitReturns => s.(caller := Activated(s.now, true))
  }

  predicate Feasible(s: State, run: seq<Action>)
    decreases run
  {
    run == [] || (Enabled(s, run[0]) && Feasible(Next(s, run[0]), run[1..]))
  }

  function Exec(s: State, run: seq<Action>): State
    requires Feasible(s, run)
    decreases run
  {
    if run == [] then s else Exec(Next(s, run[0]), run[1..])
  }

  ghost predicate Inv(s: State) {
    && (s.client.obedient && s.worker.Starting? ==> s.now <= OPAMP_START_TIMEOUT_MS)
    && (s.client.obedient && s.worker.CleaningUp? ==> s.worker.since <= OPAMP_START_TIMEOUT_MS)
    && (s.client.prompt && s.worker.CleaningUp? ==> s.now <= s.worker.since + CLEANUP_BUDGET_MS)
    && (s.client.obedient && s.worker == Exited(true) && s.caller.Joining? ==> s.now <= OPAMP_START_TIMEOUT_MS)
    && (s.client.obedient && s.client.prompt && s.worker == Exited(false) && s.caller.Joining? ==>
          s.now <= OPAMP_START_TIMEOUT_MS + CLEANUP_BUDGET_MS)
    && (s.caller.Joining? ==> s.now <= JOIN_TIMEOUT_MS)
    && (s.caller.WaitingForConfig? ==>
          && s.caller.since <= (if s.client.obedient then OPAMP_START_TIMEOUT_MS else JOIN_TIMEOUT_MS)
          && s.now <= s.caller.since + WAIT_FOR_FIRST_CONFIG_TIMEOUT_MS)
    && (s.caller.WaitingForConfig? ==> s.worker == Exited(true))
    && (s.caller.Activated? ==> s.caller.at <= Budget(s.client, s.caller.retained))
    && (s.caller.Activated? && s.caller.retained ==> s.worker == Exited(true))
    && (s.caller.Activated? && !s.caller.retained && s.client.obedient ==>
          s.worker != Starting && s.worker != Exited(true))
  }

  function Budget(client: Client, retained: bool): nat {
    if retained then
      (if client.obedient then OPAMP_START_TIMEOUT_MS else JOIN_TIMEOUT_MS) + WAIT_FOR_FIRST_CONFIG_TIMEOUT_MS
    else if client.obedient && client.prompt then OPAMP_START_TIMEOUT_MS + CLEANUP_BUDGET_MS
    else JOIN_TIMEOUT_MS
  }

  lemma InvNext(s: State, a: Action)
    requires Inv(s) && Enabled(s, a)
    ensures Inv(Next(s, a))
  {
  }

  lemma {:induction false} InvRun(s: State, run: seq<Action>)
    requires Inv(s) && Feasible(s, run)
    ensures Inv(Exec(s, run)) && Exec(s, run).client == s.client
    decreases run
  {
    if run != [] {
      InvNext(s, run[0]);
      InvRun(Next(s, run[0]), run[1..]);
    }
  }

  /** From entering StartClient to activation: in every run at most the safety timer's 6000 ms; at most
      5000 ms if StartAsync ends by its deadline; and if the client was not retained only the time of
      the join, 3000 ms or, when the cleanup does not block either, 2500 ms.  A retained client has been
      started; and one that obeys its deadline is retained if it has been started. */
  lemma ActivationIsOnTime(client: Client, run: seq<Action>)
    requires Feasible(Start(client), run) && Exec(Start(client), run).caller.Activated?
    ensures var c := Exec(Start(client), run).caller;
      && c.at <= SAFETY_TIMER_MS == 6000
      && (client.obedient ==> c.at <= 5000)
      && (!c.retained ==> c.at <= 3000)
      && (!c.retained && client.obedient && client.prompt ==> c.at <= 2500)
      && (c.retained ==> Exec(Start(client), run).worker == Exited(true))
      && (client.obedient && Exec(Start(client), run).worker == Exited(true) ==> c.retained)
  {
    InvRun(Start(client), run);
  }

  /** The model never gets stuck before activation: a step of the protocol or of the clock is possible,
      so the bounds do not hold for want of runs. */
  lemma NeverStuck(client: Client, run: seq<Action>)
    requires Feasible(Start(client), run) && !Exec(Start(client), run).caller.Activated?
    ensures exists a :: a != ConfigArrives && Enabled(Exec(Start(client), run), a)
  {
    InvRun(Start(client), run);
    var s := Exec(Start(client), run);
    if s.worker.Starting? {
      assert Enabled(s, StartEnds(true));
    } else if s.worker.CleaningUp? {
      assert Enabled(s, CleanupEnds);
    } else if s.caller.Joining? {
      assert Enabled(s, JoinReturns);
    } else if s.arrived || s.now >= s.caller.since + WAIT_FOR_FIRST_CONFIG_TIMEOUT_MS {
      assert Enabled(s, WaitReturns);
    } else {
      assert Enabled(s, Tick(1));
    }
  }

  lemma OneStep(s: State, a: Action, rest: seq<Action>)
    requires Enabled(s, a) && Feasible(Next(s, a), rest)
    ensures Feasible(s, [a] + rest) && Exec(s, [a] + rest) == Exec(Next(s, a), rest)
  {
    assert ([a] + rest)[1..] == rest;
  }

  /** The longest time to activation. */
  function Worst(client: Client): nat {
    if client.obedient then 5000 else 6000
  }

  /** Both bounds are reached. */
  lemma BoundsAreTight(client: Client) returns (run: seq<Action>)
    ensures Feasible(Start(client), run) && Exec(Start(client), run).caller == Activated(Worst(client), true)
  {
    var t := if client.obedient then 2000 else 3000;
    var s1 := Next(Start(client), Tick(t));
    var s2 := Next(s1, StartEnds(true));
    var s3 := Next(s2, JoinReturns);
    var s4 := Next(s3, Tick(3000));
    OneStep(s4, WaitReturns, []);
    run := [WaitReturns] + [];
    OneStep(s3, Tick(3000), run);
    run := [Tick(3000)] + run;
    OneStep(s2, JoinReturns, run);
    run := [JoinReturns] + run;
    OneStep(s1, StartEnds(true), run);
    run := [StartEnds(true)] + run;
    OneStep(Start(client), Tick(t), run);
    run := [Tick(t)] + run;
  }

  // ---------------------------------------------------------------- no needless waiting

  /** A message that is there ends the wait at once. */
  lemma {:induction false} ArrivalEndsTheWait(s: State, more: seq<Action>)
    requires s.caller.WaitingForConfig? && s.arrived && Feasible(s, more)
    ensures var end := Exec(s, more);
      if end.caller.Activated? then end.caller == Activated(s.now, true)
      else end.caller == s.caller && end.now == s.now && Enabled(end, WaitReturns)
    decreases more
  {
    if more != [] {
      if more[0] == WaitReturns {
        ActivatedStays(Next(s, more[0]), more[1..]);
      } else {
        ArrivalEndsTheWait(Next(s, more[0]), more[1..]);
      }
    }
  }

  lemma {:induction false} ActivatedStays(s: State, more: seq<Action>)
    requires s.caller.Activated? && Feasible(s, more)
    ensures Exec(s, more).caller == s.caller
    decreases more
  {
    if more != [] {
      ActivatedStays(Next(s, more[0]), more[1..]);
    }
  }

  /** A message that arrives while the caller waits for it activates the logger at the time of its arrival,
      and one that arrived before the wait lets it take no time. */
  lemma MessageActivates(client: Client, run: seq<Action>, more: seq<Action>)
    requires Feasible(Start(client), run) && Exec(Start(client), run).caller.WaitingForConfig?
    requires Feasible(Next(Exec(Start(client), run), ConfigArrives), more)
    ensures var s := Exec(Start(client), run);
      var end := Exec(Next(s, ConfigArrives), more);
      if end.caller.Activated? then end.caller == Activated(s.now, true) else end.now == s.now
  {
    ArrivalEndsTheWait(Next(Exec(Start(client), run), ConfigArrives), more);
  }

  /** A worker that has ended ends the join at once: a client that was not started activates the logger
      then, and one that was lets the wait begin. */
  lemma {:induction false} WorkerEndsTheJoin(s: State, more: seq<Action>)
    requires s.caller.Joining? && s.worker.Exited? && Feasible(s, more)
    ensures var end := Exec(s, more);
      && (end.caller.Joining? ==> end.now == s.now && end.worker == s.worker && Enabled(end, JoinReturns))
      && (end.caller.WaitingForConfig? ==> s.worker.started && end.caller.since == s.now)
      && (end.caller.Activated? ==> (end.caller.retained <==> s.worker.started))
      && (end.caller.Activated? && !end.caller.retained ==> end.caller.at == s.now)
    decreases more
  {
    if more != [] {
      if more[0] == JoinReturns {
        JoinedStays(Next(s, more[0]), more[1..]);
      } else {
        WorkerEndsTheJoin(Next(s, more[0]), more[1..]);
      }
    }
  }

  lemma {:induction false} JoinedStays(s: State, more: seq<Action>)
    requires !s.caller.Joining? && Feasible(s, more)
    ensures var end := Exec(s, more);
      if s.caller.Activated? then end.caller == s.caller
      else end.caller == s.caller || (end.caller.Activated? && end.caller.retained)
    decreases more
  {
    if more != [] {
      JoinedStays(Next(s, more[0]), more[1..]);
    }
  }

  /** Without a retained client the whole time of the join may pass, or that of StartAsync and the cleanup. */
  lemma JoinBoundsAreTight(client: Client) returns (run: seq<Action>)
    ensures Feasible(Start(client), run)
    ensures Exec(Start(client), run).caller ==
            Activated(if client.obedient && client.prompt then 2500 else 3000, false)
  {
    var t := if client.obedient then 2000 else 3000;
    var s1 := Next(Start(client), Tick(t));
    var s2 := Next(s1, StartEnds(false));
    var left := if !client.obedient then 0 else if client.prompt then 500 else 1000;
    var s3 := if left > 0 then Next(s2, Tick(left)) else s2;
    var s4 := Next(s3, CleanupEnds);
    OneStep(s4, JoinReturns, []);
    run := [JoinReturns] + [];
    OneStep(s3, CleanupEnds, run);
    run := [CleanupEnds] + run;
    if left > 0 {
      OneStep(s2, Tick(left), run);
      run := [Tick(left)] + run;
    }
    OneStep(s1, StartEnds(false), run);
    run := [StartEnds(false)] + run;
    OneStep(Start(client), Tick(t), run);
    run := [Tick(t)] + run;
  }

  // ---------------------------------------------------------------- the safety timer

  /** Activation, when it comes, comes no later than the safety timer, which was started lead before
      StartClient was entered. */
  ghost predicate InTime(client: Client, lead: nat, run: seq<Action>) {
    Feasible(Start(client), run) && Exec(Start(client), run).caller.Activated? ==>
      lead + Exec(Start(client), run).caller.at <= SAFETY_TIMER_MS
  }

  /** The timer starts when the logger is constructed, some time before StartClient.  The main path is
      never late exactly if that was at most 1000 ms earlier and StartAsync ends by its deadline, or if
      no time passed at all. */
  lemma TimerIsLateEnough(client: Client, lead: nat)
    ensures (forall run :: InTime(client, lead, run)) <==> lead <= (if client.obedient then 1000 else 0)
  {
    if lead <= (if client.obedient then 1000 else 0) {
      forall run ensures InTime(client, lead, run) {
        if Feasible(Start(client), run) && Exec(Start(client), run).caller.Activated? {
          ActivationIsOnTime(client, run);
        }
      }
    } else {
      var run := BoundsAreTight(client);
      assert !InTime(client, lead, run);
    }
  }
}
