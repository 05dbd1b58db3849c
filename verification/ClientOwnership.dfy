/**
 CentralConfiguration: who owns the OpAMP client, between the bootstrap worker thread, the caller with
 its timed Join, and later Dispose / DisposeAsync calls, direct or through
 ElasticOpenTelemetryComponents (src/Elastic.OpenTelemetry.Core/Configuration/CentralConfiguration.cs,
 src/Elastic.OpenTelemetry.Core/ElasticOpenTelemetryComponents.cs).

 The client is adversarial: StartAsync may succeed, be cancelled, fail or never return; StopAsync and
 Dispose may throw, which the source catches, so they only count as reached.  The worker's read of
 _client and its exit are separate steps.  Join may time out at any moment.
 */
module ClientOwnership {
  import opened Prelude

  type Tid = nat

  datatype Client = Real | Empty

  datatype Outcome = Pending | Succeeded | Cancelled | Faulted

  datatype Worker =
    | Starting      // inside client.StartAsync
    | Recorded      // outcome written, in the finally block
    | CheckField    // succeeded: about to read _client
    | Stopping      // about to call client.StopAsync
    | Disposing     // about to call client.Dispose
    | Leaving       // about to exit the thread
    | Exited

  datatype Caller =
    | Joining
    | Joined(completed: bool)
    | Swapping
    | Returned

  /** A user's disposal: of the components (through their own gate) or of the CentralConfiguration. */
  datatype Disposal =
    | ComponentsGate
    | TestEmpty(viaComponents: bool)
    | Gate(viaComponents: bool)
    | CallStop(viaComponents: bool)
    | CallDispose(viaComponents: bool)
    | LoggerDispose
    | Disposed

  /** What has reached the original client. */
  datatype Reached = Reached(stops: nat, disposes: nat, duringStart: bool)

  datatype State = State(
    client: Client,
    disposedBy: Option<Tid>,    // _disposed: set when Some, by the call named
    outcome: Outcome,
    worker: Worker,
    caller: Caller,
    componentsBy: Option<Tid>,  // the components' _disposed, likewise
    disposals: map<Tid, Disposal>,
    // history
    reached: Reached,
    joinCompleted: bool,
    checkedBeforeSwap: bool,
    loggerDisposes: nat)

  datatype Action =
    | StartEnds(outcome: Outcome)
    | WorkerStep
    | JoinReturns(completed: bool)
    | CallerStep
    | BeginDispose(t: Tid, viaComponents: bool)
    | DisposalStep(t: Tid)

  /** The worker thread has been started and the caller is about to join it. */
  function Start(): State {
    State(Real, None, Pending, Starting, Joining, None, map[], Reached(0, 0, false), false, false, 0)
  }

  predicate Enabled(s: State, a: Action) {
    match a
    case StartEnds(o) => s.worker == Starting && o != Pending
    case WorkerStep => s.worker != Starting && s.worker != Exited
    case JoinReturns(completed) => s.caller == Joining && (completed ==> s.worker == Exited)
    case CallerStep => s.caller.Joined? || s.caller == Swapping
    // nobody has the object before its constructor returns
    case BeginDispose(t, _) => t !in s.disposals && s.caller == Returned
    case DisposalStep(t) => t in s.disposals && s.disposals[t] != Disposed
  }

  function StopReaches(r: Reached, w: Worker): Reached {
    r.(stops := r.stops + 1, duringStart := r.duringStart || w == Starting)
  }

  function DisposeReaches(r: Reached, w: Worker): Reached {
    r.(disposes := r.disposes + 1, duringStart := r.duringStart || w == Starting)
  }

  function WorkerNext(s: State): State
    requires Enabled(s, WorkerStep)
  {
    match s.worker
    case Recorded => s.(worker := if s.outcome == Succeeded then CheckField else Stopping)
    case CheckField =>
      if s.client == Real then s.(worker := Leaving, checkedBeforeSwap := true) else s.(worker := Stopping)
    case Stopping => s.(worker := Disposing, reached := StopReaches(s.reached, s.worker))
    case Disposing => s.(worker := Leaving, reached := DisposeReaches(s.reached, s.worker))
    case Leaving => s.(worker := Exited)
  }

  function CallerNext(s: State): State
    requires Enabled(s, CallerStep)
  {
    match s.caller
    case Joined(completed) =>
      s.(caller := if completed && s.outcome == Succeeded then Returned else Swapping)
    case Swapping => s.(client := Empty, caller := Returned)
  }

  function AfterCentral(viaComponents: bool): Disposal {
    if viaComponents then LoggerDispose else Disposed
  }

  function DisposalNext(s: State, t: Tid): State
    requires Enabled(s, DisposalStep(t))
  {
    match s.disposals[t]
    case ComponentsGate =>
      if s.componentsBy.Some? then s.(disposals := s.disposals[t := Disposed])
      else s.(componentsBy := Some(t), disposals := s.disposals[t := TestEmpty(true)])
    case TestEmpty(via) =>
      s.(disposals := s.disposals[t := if s.client == Empty then AfterCentral(via) else Gate(via)])
    case Gate(via) =>
      if s.disposedBy.Some? then s.(disposals := s.disposals[t := AfterCentral(via)])
      else s.(disposedBy := Some(t), disposals := s.disposals[t := CallStop(via)])
    case CallStop(via) =>
      s.(disposals := s.disposals[t := CallDispose(via)],
         reached := if s.client == Real then StopReaches(s.reached, s.worker) else s.reached)
    case CallDispose(via) =>
      s.(disposals := s.disposals[t := AfterCentral(via)],
         reached := if s.client == Real then DisposeReaches(s.reached, s.worker) else s.reached)
    case LoggerDispose =>
      s.(loggerDisposes := s.loggerDisposes + 1, disposals := s.disposals[t := Disposed])
  }

  function Next(s: State, a: Action): State
    requires Enabled(s, a)
  {
    match a
    case StartEnds(o) => s.(outcome := o, worker := Recorded)
    case WorkerStep => WorkerNext(s)
    case JoinReturns(completed) => s.(caller := Joined(completed), joinCompleted := completed)
    case CallerStep => CallerNext(s)
    case BeginDispose(t, via) =>
      s.(disposals := s.disposals[t := if via then ComponentsGate else TestEmpty(false)])
    case DisposalStep(t) => DisposalNext(s, t)
  }

  predicate Feasible(s: State, run: seq<Action>)
    decreases run
  {
    run == [] || (Enabled(s, run[0]) && Feasible(Next(s, run[0]), run[1..]))
  }

  function Exec(s: State, run: seq<Action>): State
    requires Feasible(s, run)
    decreases run
  {
    if run == [] then s else Exec(Next(s, run[0]), run[1..])
  }

  // ---------------------------------------------------------------- worker and caller

  /** The caller left with the client still in the field. */
  predicate Retained(s: State) {
    s.caller == Returned && s.client == Real
  }

  predicate WorkerCleansUp(w: Worker) {
    w == Stopping || w == Disposing
  }

  predicate WorkerIsDone(w: Worker) {
    w == Leaving || w == Exited
  }

  ghost predicate Protocol(s: State) {
    && (s.outcome == Pending <==> s.worker == Starting)
    && (s.worker == CheckField ==> s.outcome == Succeeded)
    && (s.client == Empty ==> s.caller == Returned)
    && (s.caller == Joined(true) ==> s.worker == Exited && s.joinCompleted)
    && (s.caller == Joined(false) ==> !s.joinCompleted)
    && (s.joinCompleted ==> s.worker == Exited)
    && (s.caller == Swapping && s.joinCompleted ==> s.outcome != Succeeded)
    && (s.caller == Returned && s.client == Empty && s.joinCompleted ==> s.outcome != Succeeded)
    && (Retained(s) ==> s.joinCompleted && s.outcome == Succeeded)
    && (s.checkedBeforeSwap ==> s.outcome == Succeeded && WorkerIsDone(s.worker))
    && (s.outcome == Succeeded && WorkerIsDone(s.worker) && !s.checkedBeforeSwap ==> s.client == Empty)
    && (WorkerCleansUp(s.worker) && s.outcome == Succeeded ==> s.client == Empty)
  }

  lemma ProtocolWorker(s: State)
    requires Protocol(s) && Enabled(s, WorkerStep)
    ensures Protocol(WorkerNext(s))
  {
  }

  lemma ProtocolDisposal(s: State, t: Tid)
    requires Protocol(s) && Enabled(s, DisposalStep(t))
    ensures Protocol(DisposalNext(s, t))
  {
  }

  lemma ProtocolNext(s: State, a: Action)
    requires Protocol(s) && Enabled(s, a)
    ensures Protocol(Next(s, a))
  {
    match a
    case WorkerStep => ProtocolWorker(s);
    case DisposalStep(t) => ProtocolDisposal(s, t);
    case _ =>
  }

  // ---------------------------------------------------------------- what reaches the client

  /** What the worker's cleanup has sent to the client so far. */
  function ByWorker(s: State): Reached {
    var left := WorkerIsDone(s.worker) && !s.checkedBeforeSwap;
    Reached(Bit(left || s.worker == Disposing), Bit(left), false)
  }

  /** A user's disposal past the central gate works on a retained client, alone. */
  ghost predicate UserPart(s: State, t: Tid, d: Disposal) {
    && s.caller == Returned
    && (d.Gate? || d.CallStop? || d.CallDispose? ==> Retained(s))
    && (d.CallStop? ==> s.disposedBy == Some(t) && s.reached == Reached(0, 0, false))
    && (d.CallDispose? ==> s.disposedBy == Some(t) && s.reached == Reached(1, 0, false))
  }

  predicate AtMostOnce(r: Reached) {
    r.stops <= 1 && r.disposes <= 1 && !r.duringStart
  }

  predicate DisposalRuns(d: Disposal) {
    d.CallStop? || d.CallDispose?
  }

  ghost predicate Cleanup(s: State) {
    && (s.disposedBy.None? ==> s.reached == ByWorker(s))
    && (s.disposedBy.Some? ==> Retained(s) && AtMostOnce(s.reached) && s.disposedBy.value in s.disposals)
    && (s.disposedBy.Some? && !DisposalRuns(s.disposals[s.disposedBy.value]) ==> s.reached == Reached(1, 1, false))
    && (forall t <- s.disposals :: UserPart(s, t, s.disposals[t]))
  }

  lemma CleanupWorker(s: State)
    requires Protocol(s) && Cleanup(s) && Enabled(s, WorkerStep)
    ensures Cleanup(WorkerNext(s))
  {
  }

  lemma CleanupDisposal(s: State, t: Tid)
    requires Protocol(s) && Cleanup(s) && Enabled(s, DisposalStep(t))
    ensures Cleanup(DisposalNext(s, t))
  {
    assert UserPart(s, t, s.disposals[t]);
  }

  lemma CleanupNext(s: State, a: Action)
    requires Protocol(s) && Cleanup(s) && Enabled(s, a)
    ensures Cleanup(Next(s, a))
  {
    match a
    case WorkerStep => CleanupWorker(s);
    case DisposalStep(t) => CleanupDisposal(s, t);
    case _ =>
  }

  // ---------------------------------------------------------------- the components' gate

  predicate Via(d: Disposal) {
    d.LoggerDispose? || ((d.TestEmpty? || d.Gate? || d.CallStop? || d.CallDispose?) && d.viaComponents)
  }

  predicate ViaOrDone(d: Disposal) {
    Via(d) || d == Disposed
  }

  /** Only the winner of the components' gate goes on to the children. */
  ghost predicate Components(s: State) {
    && (forall t <- s.disposals :: Via(s.disposals[t]) ==> s.componentsBy == Some(t))
    && (s.componentsBy.Some? ==> s.componentsBy.value in s.disposals && ViaOrDone(s.disposals[s.componentsBy.value]))
    && (s.componentsBy.Some? ==> s.loggerDisposes == Bit(s.disposals[s.componentsBy.value] == Disposed))
    && (s.componentsBy.None? ==> s.loggerDisposes == 0)
  }

  lemma ComponentsDisposal(s: State, t: Tid)
    requires Components(s) && Enabled(s, DisposalStep(t))
    ensures Components(DisposalNext(s, t))
  {
  }

  lemma ComponentsNext(s: State, a: Action)
    requires Components(s) && Enabled(s, a)
    ensures Components(Next(s, a))
  {
    match a
    case DisposalStep(t) => ComponentsDisposal(s, t);
    case _ =>
  }

  /** The components' winner has not yet reached the central gate. */
  predicate WinnerOnItsWay(s: State) {
    s.componentsBy.Some? && s.componentsBy.value in s.disposals
    && (s.disposals[s.componentsBy.value].TestEmpty? || s.disposals[s.componentsBy.value].Gate?)
  }

  /** A finished disposal of a retained client leaves somebody who disposes it. */
  ghost predicate Vouched(s: State, d: Disposal) {
    (d == Disposed || d == LoggerDispose) && s.client == Real ==> s.disposedBy.Some? || WinnerOnItsWay(s)
  }

  ghost predicate AllVouched(s: State) {
    forall t <- s.disposals :: Vouched(s, s.disposals[t])
  }

  lemma AllVouchedNext(s: State, a: Action)
    requires Cleanup(s) && Components(s) && AllVouched(s) && Enabled(s, a)
    ensures AllVouched(Next(s, a))
  {
    match a
    case DisposalStep(t) => AllVouchedDisposal(s, t);
    case _ =>
  }

  lemma AllVouchedDisposal(s: State, t: Tid)
    requires Cleanup(s) && Components(s) && AllVouched(s) && Enabled(s, DisposalStep(t))
    ensures AllVouched(DisposalNext(s, t))
  {
    assert Vouched(s, s.disposals[t]);
    if s.componentsBy.Some? {
      var w := s.componentsBy.value;
      assert Vouched(s, s.disposals[w]) && UserPart(s, w, s.disposals[w]);
    }
  }

  // ---------------------------------------------------------------- in every run

  ghost predicate Inv(s: State) {
    Protocol(s) && Cleanup(s) && Components(s) && AllVouched(s)
  }

  lemma {:induction false} InvRun(s: State, run: seq<Action>)
    requires Inv(s) && Feasible(s, run)
    ensures Inv(Exec(s, run))
    decreases run
  {
    if run != [] {
      ProtocolNext(s, run[0]);
      CleanupNext(s, run[0]);
      ComponentsNext(s, run[0]);
      AllVouchedNext(s, run[0]);
      InvRun(Next(s, run[0]), run[1..]);
    }
  }

  /** StopAsync and Dispose each reach the client at most once and never while StartAsync runs, and the
      components' CompositeLogger is disposed at most once, whatever disposals follow. */
  lemma ClientStoppedAtMostOnce(run: seq<Action>)
    requires Feasible(Start(), run)
    ensures var s := Exec(Start(), run); AtMostOnce(s.reached) && s.loggerDisposes <= 1
  {
    InvRun(Start(), run);
  }

  predicate BootstrapDone(s: State) {
    s.worker == Exited && s.caller == Returned
  }

  /** The client is kept, untouched, for later use ... */
  predicate IsRetained(s: State) {
    s.client == Real && s.reached == Reached(0, 0, false)
  }

  /** ... or was replaced and cleaned up by the worker ... */
  predicate IsCleanedUp(s: State) {
    s.client == Empty && s.reached == Reached(1, 1, false)
  }

  /** ... or was replaced and is left running with no owner. */
  predicate IsOrphaned(s: State) {
    s.client == Empty && s.reached == Reached(0, 0, false)
  }

  /** Ownership when worker and caller have finished and nobody has disposed anything: exactly one of
      three cases, each with the condition it arises under.  The client is orphaned exactly when the
      worker succeeded and read _client before the caller's swap, yet Join timed out. */
  lemma OwnershipTrichotomy(run: seq<Action>)
    requires Feasible(Start(), run)
    requires BootstrapDone(Exec(Start(), run)) && Exec(Start(), run).disposals == map[]
    ensures var s := Exec(Start(), run);
      && (IsRetained(s) || IsCleanedUp(s) || IsOrphaned(s))
      && (IsRetained(s) <==> s.joinCompleted && s.outcome == Succeeded)
      && (IsOrphaned(s) <==> !s.joinCompleted && s.outcome == Succeeded && s.checkedBeforeSwap)
      && (IsCleanedUp(s) <==> s.outcome != Succeeded || (!s.joinCompleted && !s.checkedBeforeSwap))
  {
    InvRun(Start(), run);
  }

  /** The worker is cleaning up, or has cleaned up, a client that the caller has given up. */
  ghost predicate Clearing(s: State) {
    && s.client == Empty && s.disposedBy.None? && !s.checkedBeforeSwap
    && (s.worker == Stopping || s.worker == Disposing || s.worker == Leaving || s.worker == Exited)
  }

  lemma {:induction false} ClearingRun(s: State, more: seq<Action>)
    requires Protocol(s) && Cleanup(s) && Clearing(s) && Feasible(s, more)
    ensures Protocol(Exec(s, more)) && Cleanup(Exec(s, more)) && Clearing(Exec(s, more))
    decreases more
  {
    if more != [] {
      ClearingNext(s, more[0]);
      ProtocolNext(s, more[0]);
      CleanupNext(s, more[0]);
      ClearingRun(Next(s, more[0]), more[1..]);
    }
  }

  lemma ClearingNext(s: State, a: Action)
    requires Protocol(s) && Cleanup(s) && Clearing(s) && Enabled(s, a)
    ensures Clearing(Next(s, a))
  {
    if a.DisposalStep? {
      assert UserPart(s, a.t, s.disposals[a.t]);
    }
  }

  /** A worker that reads _client after the caller's swap always cleans the started client up. */
  lemma LateReadCleansUp(run: seq<Action>, more: seq<Action>)
    requires Feasible(Start(), run)
    requires Exec(Start(), run).worker == CheckField && Exec(Start(), run).client == Empty
    requires Feasible(Next(Exec(Start(), run), WorkerStep), more)
    requires Exec(Next(Exec(Start(), run), WorkerStep), more).worker == Exited
    ensures IsCleanedUp(Exec(Next(Exec(Start(), run), WorkerStep), more))
  {
    InvRun(Start(), run);
    var s := Exec(Start(), run);
    ProtocolNext(s, WorkerStep);
    CleanupNext(s, WorkerStep);
    ClearingRun(Next(s, WorkerStep), more);
  }

  /** When every disposal has finished and there was one: a retained client has received StopAsync and
      Dispose exactly once each; any other client has received only what the worker's cleanup sent; and
      if the components were disposed, so was the logger, once. */
  lemma DisposalIsExactlyOnce(run: seq<Action>)
    requires Feasible(Start(), run)
    requires var s := Exec(Start(), run);
      BootstrapDone(s) && s.disposals != map[] && forall t <- s.disposals :: s.disposals[t] == Disposed
    ensures var s := Exec(Start(), run);
      && (s.componentsBy.Some? ==> s.loggerDisposes == 1)
      && (if s.joinCompleted && s.outcome == Succeeded then s.client == Real && s.reached == Reached(1, 1, false)
          else s.client == Empty && s.reached == ByWorker(s))
  {
    InvRun(Start(), run);
    var s := Exec(Start(), run);
    var t :| t in s.disposals;
    assert Vouched(s, s.disposals[t]);
  }

  lemma {:induction false} ExecConcat(s: State, run: seq<Action>, more: seq<Action>)
    requires Feasible(s, run) && Feasible(Exec(s, run), more)
    ensures Feasible(s, run + more) && Exec(s, run + more) == Exec(Exec(s, run), more)
    decreases run
  {
    if run == [] {
      assert run + more == more;
    } else {
      ExecConcat(Next(s, run[0]), run[1..], more);
      assert (run + more)[1..] == run[1..] + more;
    }
  }

  lemma ExecStep(s: State, run: seq<Action>, a: Action)
    requires Feasible(s, run) && Enabled(Exec(s, run), a)
    ensures Feasible(s, run + [a]) && Exec(s, run + [a]) == Next(Exec(s, run), a)
  {
    var last := [a];
    assert last[1..] == [];
    ExecConcat(s, run, last);
  }

  /** The orphaned case does arise. */
  lemma OrphanedClientIsReachable() returns (run: seq<Action>)
    ensures Feasible(Start(), run) && BootstrapDone(Exec(Start(), run)) && IsOrphaned(Exec(Start(), run))
  {
    run := [];
    ExecStep(Start(), run, StartEnds(Succeeded));
    run := run + [StartEnds(Succeeded)];
    ExecStep(Start(), run, WorkerStep);
    run := run + [WorkerStep];
    ExecStep(Start(), run, WorkerStep);
    run := run + [WorkerStep];
    ExecStep(Start(), run, JoinReturns(false));
    run := run + [JoinReturns(false)];
    ExecStep(Start(), run, WorkerStep);
    run := run + [WorkerStep];
    ExecStep(Start(), run, CallerStep);
    run := run + [CallerStep];
    ExecStep(Start(), run, CallerStep);
    run := run + [CallerStep];
  }

  // ---------------------------------------------------------------- one disposal by itself

  /** What a disposal that nothing interrupts does: of a retained client through the central gate, and
      of the logger through the components' gate. */
  predicate DisposedAlone(s: State, end: State, via: bool) {
    var central := s.client == Real && s.disposedBy.None? && (via ==> s.componentsBy.None?);
    var logger := via && s.componentsBy.None?;
    && end.client == s.client
    && end.reached.stops == s.reached.stops + Bit(central)
    && end.reached.disposes == s.reached.disposes + Bit(central)
    && end.disposedBy.Some? == (s.disposedBy.Some? || central)
    && end.componentsBy.Some? == (s.componentsBy.Some? || via)
    && end.loggerDisposes == s.loggerDisposes + Bit(logger)
  }

  function DisposalRank(d: Disposal): nat {
    match d
    case ComponentsGate => 6
    case TestEmpty(_) => 5
    case Gate(_) => 4
    case CallStop(_) => 3
    case CallDispose(_) => 2
    case LoggerDispose => 1
    case Disposed => 0
  }

  lemma DisposalFinishes(s: State, t: Tid) returns (run: seq<Action>)
    requires t in s.disposals
    ensures Feasible(s, run) && t in Exec(s, run).disposals && Exec(s, run).disposals[t] == Disposed
    ensures Exec(s, run) == FinishDisposal(s, t)
    decreases DisposalRank(s.disposals[t])
  {
    if s.disposals[t] == Disposed {
      return [];
    }
    var step := DisposalStep(t);
    var rest := DisposalFinishes(Next(s, step), t);
    run := [step] + rest;
    assert run[1..] == rest;
  }

  /** The steps of call t to its end. */
  function FinishDisposal(s: State, t: Tid): State
    requires t in s.disposals
    decreases DisposalRank(s.disposals[t])
  {
    if s.disposals[t] == Disposed then s else FinishDisposal(DisposalNext(s, t), t)
  }

  /** From s to end the client received StopAsync and Dispose this often, and the logger was disposed. */
  predicate Sends(s: State, end: State, calls: nat, logger: bool) {
    && end.client == s.client && end.componentsBy == s.componentsBy
    && end.reached.stops == s.reached.stops + calls
    && end.reached.disposes == s.reached.disposes + calls
    && end.loggerDisposes == s.loggerDisposes + Bit(logger)
  }

  lemma AfterCentralAlone(s: State, t: Tid, via: bool)
    requires t in s.disposals && s.disposals[t] == AfterCentral(via)
    ensures Sends(s, FinishDisposal(s, t), 0, via) && FinishDisposal(s, t).disposedBy == s.disposedBy
  {
  }

  lemma GatedAlone(s: State, t: Tid, via: bool)
    requires t in s.disposals && s.disposals[t] == CallStop(via) && s.client == Real
    ensures Sends(s, FinishDisposal(s, t), 1, via) && FinishDisposal(s, t).disposedBy == s.disposedBy
  {
    var s1 := DisposalNext(s, t);
    var s2 := DisposalNext(s1, t);
    assert FinishDisposal(s, t) == FinishDisposal(s1, t);
    assert FinishDisposal(s1, t) == FinishDisposal(s2, t);
    AfterCentralAlone(s2, t, via);
  }

  lemma CentralAlone(s: State, t: Tid, via: bool)
    requires t in s.disposals && s.disposals[t] == TestEmpty(via)
    ensures var end := FinishDisposal(s, t);
      var central := s.client == Real && s.disposedBy.None?;
      Sends(s, end, Bit(central), via) && end.disposedBy.Some? == (s.disposedBy.Some? || central)
  {
    var s1 := DisposalNext(s, t);
    assert FinishDisposal(s, t) == FinishDisposal(s1, t);
    if s.client == Empty {
      AfterCentralAlone(s1, t, via);
    } else {
      var s2 := DisposalNext(s1, t);
      assert FinishDisposal(s1, t) == FinishDisposal(s2, t);
      if s.disposedBy.None? {
        GatedAlone(s2, t, via);
      } else {
        AfterCentralAlone(s2, t, via);
      }
    }
  }

  /** A run for every disposal by itself, from any state after the constructor has returned. */
  lemma DisposalAlone(s: State, t: Tid, via: bool) returns (run: seq<Action>)
    requires s.caller == Returned && t !in s.disposals
    ensures Feasible(s, run) && DisposedAlone(s, Exec(s, run), via)
  {
    var begin := BeginDispose(t, via);
    var s1 := Next(s, begin);
    var rest := DisposalFinishes(s1, t);
    run := [begin] + rest;
    assert run[1..] == rest;
    if via {
      var s2 := DisposalNext(s1, t);
      assert FinishDisposal(s1, t) == FinishDisposal(s2, t);
      if s.componentsBy.None? {
        CentralAlone(s2, t, true);
      }
    } else {
      CentralAlone(s1, t, false);
    }
  }

  // ---------------------------------------------------------------- the objects

  /** The object after its constructor has returned. */
  class CentralConfiguration {
    var client: Client
    var disposed: bool
    var reached: Reached

    constructor (client: Client, reached: Reached)
      ensures this.client == client && !disposed && this.reached == reached
    {
      this.client, disposed, this.reached := client, false, reached;
    }

    /** StopAsync and Dispose each reach a retained client in the first call, once, and never again; an
        empty client is left alone and does not use up the gate. */
    method Dispose()
      modifies this`disposed, this`reached
      ensures disposed == (old(disposed) || client == Real)
      ensures reached.stops == old(reached.stops) + (if client == Real && !old(disposed) then 1 else 0)
      ensures reached.disposes == old(reached.disposes) + (if client == Real && !old(disposed) then 1 else 0)
      ensures reached.duringStart == old(reached.duringStart)
    {
      if client == Empty || disposed {
        return;
      }
      disposed := true;
      reached := StopReaches(reached, Exited);
      reached := DisposeReaches(reached, Exited);
    }
  }

  class ElasticOpenTelemetryComponents {
    const central: CentralConfiguration
    var disposed: bool
    var shared: bool               // listed in SharedComponents
    var loggerDisposes: nat
    var listenerDisposes: nat

    constructor (central: CentralConfiguration, shared: bool)
      ensures this.central == central && this.shared == shared
      ensures !disposed && loggerDisposes == 0 && listenerDisposes == 0
    {
      this.central, this.shared, disposed, loggerDisposes, listenerDisposes := central, shared, false, 0, 0;
    }

    /** The first call takes the components off the shared list and disposes each child once, the client
        through the central gate; later calls do nothing. */
    method Dispose()
      modifies this`disposed, this`shared, this`loggerDisposes, this`listenerDisposes
      modifies central`disposed, central`reached
      ensures disposed
      ensures old(disposed) ==> unchanged(this) && unchanged(central)
      ensures !old(disposed) ==> !shared
      ensures !old(disposed) ==> loggerDisposes == old(loggerDisposes) + 1
      ensures !old(disposed) ==> listenerDisposes == old(listenerDisposes) + 1
      ensures !old(disposed) ==> central.disposed == (old(central.disposed) || central.client == Real)
      ensures var first := !old(disposed) && central.client == Real && !old(central.disposed);
        && central.reached.stops == old(central.reached.stops) + (if first then 1 else 0)
        && central.reached.disposes == old(central.reached.disposes) + (if first then 1 else 0)
    {
      if disposed {
        return;
      }
      disposed := true;
      shared := false;
      central.Dispose();
      loggerDisposes := loggerDisposes + 1;
      listenerDisposes := listenerDisposes + 1;
    }
  }
}
