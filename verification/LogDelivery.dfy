/**
 What the CompositeLogger hand-off promises in every run, stated over all schedules of all calls.
 */
module LogDelivery {
  import opened Prelude
  import opened LogHandOff
  import opened LogHandOffInvariants

  lemma InvReachable(c: Construction, run: seq<Action>)
    requires Feasible(Constructed(c), run)
    ensures Inv(Exec(Constructed(c), run))
  {
    InvInit(c);
    InvRun(Constructed(c), run);
  }

  lemma AtMostOnce(s: State, e: Event, k: Sink)
    requires Conserved(s, e) && Accounted(s, e, k)
    ensures Occurs(Contents(s.w, k), e) <= 1
  {
    if DrainHeld(s.activation, e, k) > 0 {
      OccursMember(Captured(s.activation), e);
    }
  }

  /** e has begun and is in one place, once, or has not begun and is nowhere. */
  predicate InOnePlace(s: State, e: Event) {
    && Places(s, e) == Bit(e in s.logs)
    && Occurs(s.w.sinks.file, e) <= 1
    && Occurs(s.w.sinks.console, e) <= 1
    && Occurs(s.w.sinks.extra, e) <= 1
  }

  lemma OnePlace(s: State, e: Event)
    requires Inv(s)
    ensures InOnePlace(s, e)
  {
    assert PerEvent(s, e);
    AtMostOnce(s, e, File);
    AtMostOnce(s, e, Console);
    AtMostOnce(s, e, Extra);
  }

  /** Conservation: an event whose Log call has begun is in exactly one place, and in it once: in
      flight, queued, captured by the drain, routed, discarded by the timer, dropped because of
      disposal, or dropped while no sub-logger existed.  No sub-logger receives it twice. */
  lemma EveryEventIsInOnePlace(c: Construction, run: seq<Action>, e: Event)
    requires Feasible(Constructed(c), run)
    ensures InOnePlace(Exec(Constructed(c), run), e)
  {
    InvReachable(c, run);
    OnePlace(Exec(Constructed(c), run), e);
  }

  lemma AssignedWithQueue(s: State)
    requires Control(s.w, s.activation)
    ensures s.w.obj.queue.None? && !s.w.hist.discardRan ==> s.w.obj.hasFile && s.w.obj.hasConsole
  {
  }

  /** Before any discard, a Log call that reads a null queue finds both sub-loggers assigned. */
  lemma NullQueueMeansSubLoggers(c: Construction, run: seq<Action>)
    requires Feasible(Constructed(c), run)
    ensures var s := Exec(Constructed(c), run);
      s.w.obj.queue.None? && !s.w.hist.discardRan ==> s.w.obj.hasFile && s.w.obj.hasConsole
  {
    InvReachable(c, run);
    AssignedWithQueue(Exec(Constructed(c), run));
  }

  predicate AtRest(s: State) {
    s.activation.Activated? && forall e <- s.logs :: s.logs[e] == LogDone
  }

  /** Sub-logger k has received every event once, the deferred ones in their enqueue order. */
  ghost predicate Delivered(s: State, k: Sink) {
    && (forall e :: Occurs(Contents(s.w, k), e) == Bit(e in s.logs))
    && Restrict(Contents(s.w, k), s.w.hist.enqueued) == s.w.hist.enqueued
  }

  lemma ReceivedOnce(s: State, e: Event, k: Sink)
    requires Conserved(s, e) && Accounted(s, e, k) && AllHonest(s) && Control(s.w, s.activation)
    requires AtRest(s) && Complete(s.w, k)
    ensures Occurs(Contents(s.w, k), e) == Bit(e in s.logs)
  {
  }

  lemma AllReceived(s: State, k: Sink)
    requires AllHonest(s) && Control(s.w, s.activation) && forall x :: PerEvent(s, x)
    requires AtRest(s) && Complete(s.w, k)
    ensures forall e :: Occurs(Contents(s.w, k), e) == Bit(e in s.logs)
  {
    forall e ensures Occurs(Contents(s.w, k), e) == Bit(e in s.logs) {
      assert PerEvent(s, e);
      ReceivedOnce(s, e, k);
    }
  }

  lemma NoneWaiting(contents: seq<Event>, enqueued: seq<Event>)
    requires InOrder(contents, enqueued, [], true)
    ensures Restrict(contents, enqueued) == enqueued
  {
    assert enqueued[..|enqueued|] == enqueued;
  }

  lemma AllInOrder(w: World, a: Activation, k: Sink)
    requires Control(w, a) && Ordered(w, a, k) && Counted(w, a) && a.Activated? && Complete(w, k)
    ensures Restrict(Contents(w, k), w.hist.enqueued) == w.hist.enqueued
    ensures a.reported == |w.hist.enqueued|
  {
    NoneWaiting(Contents(w, k), w.hist.enqueued);
  }

  lemma DeliveredFrom(s: State, k: Sink)
    requires Inv(s) && AtRest(s) && Complete(s.w, k)
    ensures Delivered(s, k) && s.activation.reported == |s.w.hist.enqueued|
  {
    AllReceived(s, k);
    assert Ordered(s.w, s.activation, k);
    AllInOrder(s.w, s.activation, k);
  }

  /** Delivery: once activation and all Log calls have finished, and the instance is neither disposed
      nor had its queue discarded, the file and the console have received every event exactly once, the
      deferred ones in their enqueue order, and the reported drain count is the number enqueued; and so
      has the additional logger, unless a routed event found none. */
  lemma DeliveredAtRest(c: Construction, run: seq<Action>, k: Sink)
    requires Feasible(Constructed(c), run)
    requires AtRest(Exec(Constructed(c), run)) && Complete(Exec(Constructed(c), run).w, k)
    ensures var s := Exec(Constructed(c), run); Delivered(s, k) && s.activation.reported == |s.w.hist.enqueued|
  {
    InvReachable(c, run);
    DeliveredFrom(Exec(Constructed(c), run), k);
  }

  /** What k has received of the deferred entries came in enqueue order, possibly with gaps. */
  predicate OrderKept(s: State, k: Sink) {
    IsSubsequence(Restrict(Contents(s.w, k), s.w.hist.enqueued), s.w.hist.enqueued)
  }

  lemma OrderKeptFrom(s: State, k: Sink)
    requires Ordered(s.w, s.activation, k)
    ensures OrderKept(s, k)
  {
    var waiting, enqueued := Waiting(s.w, s.activation, k), s.w.hist.enqueued;
    SubsequencePrefix(Restrict(Contents(s.w, k), enqueued), enqueued[..|enqueued| - |waiting|], waiting);
  }

  /** In all runs, whatever reaches a sub-logger of the deferred entries arrives in enqueue order, and
      the reported count is what was enqueued and not discarded. */
  lemma DeferredOrderAlwaysKept(c: Construction, run: seq<Action>, k: Sink)
    requires Feasible(Constructed(c), run)
    ensures var s := Exec(Constructed(c), run);
      && OrderKept(s, k)
      && (s.activation.Activated? ==> s.activation.reported == |s.w.hist.enqueued| - |s.w.hist.discarded|)
  {
    InvReachable(c, run);
    OrderKeptFrom(Exec(Constructed(c), run), k);
  }

  lemma {:induction false} SubsequencePrefix(a: seq<Event>, b: seq<Event>, c: seq<Event>)
    requires IsSubsequence(a, b)
    ensures IsSubsequence(a, b + c)
    decreases |c|
  {
    if c == [] {
      assert b + c == b;
    } else {
      SubsequencePrefix(a, b, c[..|c| - 1]);
      SubsequenceSkip(a, b + c[..|c| - 1], c[|c| - 1]);
      assert b + c == (b + c[..|c| - 1]) + [c[|c| - 1]];
    }
  }

  // ---------------------------------------------------------------- when entries can be discarded

  /** The part of the invariant that discarding depends on. */
  ghost predicate Core(s: State) {
    Control(s.w, s.activation) && TimerSafe(s)
  }

  lemma CoreNext(s: State, a: Action)
    requires Core(s) && Enabled(s, a)
    ensures Core(Next(s, a))
  {
    ControlNext(s, a);
    TimerSafeNext(s, a);
  }

  ghost predicate Retaining(s: State) {
    s.w.hist.offered && !s.w.hist.discardRan && forall t <- s.calls :: s.calls[t] != TimerDiscard(false)
  }

  lemma RetainingNext(s: State, a: Action)
    requires Core(s) && Enabled(s, a) && Retaining(s)
    ensures Retaining(Next(s, a))
  {
  }

  lemma {:induction false} RetainingRun(s: State, run: seq<Action>)
    requires Core(s) && Retaining(s) && Feasible(s, run)
    ensures Retaining(Exec(s, run))
    decreases run
  {
    if run != [] {
      CoreNext(s, run[0]);
      RetainingNext(s, run[0]);
      RetainingRun(Next(s, run[0]), run[1..]);
    }
  }

  lemma InitiallyRetaining(c: Construction)
    requires c.Deferring? ==> c.withOptions
    ensures Core(Constructed(c)) && Retaining(Constructed(c))
  {
  }

  /** No entry was discarded or dropped for want of a sub-logger. */
  predicate KeptAll(w: World) {
    w.hist.discarded == [] && w.hist.noSink == [] && !w.hist.discardRan
  }

  lemma KeptUnlessDiscarded(s: State)
    requires Inv(s)
    ensures KeptAll(s.w) <==> !s.w.hist.discardRan
  {
  }

  /** An instance constructed with options never loses an entry to the safety timer: the timer may
      still read null options, but only once Activate holds the lock it takes the queue under. */
  lemma RetainedOptionsNeverDiscard(c: Construction, run: seq<Action>)
    requires (c.Deferring? ==> c.withOptions) && Feasible(Constructed(c), run)
    ensures KeptAll(Exec(Constructed(c), run).w)
  {
    InvReachable(c, run);
    InitiallyRetaining(c);
    RetainingRun(Constructed(c), run);
    KeptUnlessDiscarded(Exec(Constructed(c), run));
  }

  lemma {:induction false} FeasiblePrefix(s: State, run: seq<Action>, n: nat)
    requires Feasible(s, run) && n <= |run|
    ensures Feasible(s, run[..n])
    decreases n
  {
    if n > 0 {
      assert run[..n][0] == run[0] && run[..n][1..] == run[1..][..n - 1];
      FeasiblePrefix(Next(s, run[0]), run[1..], n - 1);
    }
  }

  /** Step n of the run is a timer callback reading null options that nobody had ever offered. */
  ghost predicate ReadsNoOptions(s: State, run: seq<Action>, n: nat)
    requires Feasible(s, run)
  {
    n < |run| && run[n].StepCall? && Feasible(s, run[..n])
    && var before := Exec(s, run[..n]);
       run[n].t in before.calls && before.calls[run[n].t] == TimerReadOptions && !before.w.hist.offered
  }

  ghost predicate Unthreatened(s: State) {
    !s.w.hist.discardRan && forall t <- s.calls :: s.calls[t] != TimerDiscard(false)
  }

  lemma UnthreatenedNext(s: State, a: Action)
    requires Core(s) && Enabled(s, a) && Unthreatened(s)
    ensures Unthreatened(Next(s, a))
         || (a.StepCall? && s.calls[a.t] == TimerReadOptions && !s.w.hist.offered)
  {
  }

  lemma {:induction false} ThreatHasCause(s: State, run: seq<Action>) returns (n: nat)
    requires Core(s) && Unthreatened(s) && Feasible(s, run) && Exec(s, run).w.hist.discardRan
    ensures ReadsNoOptions(s, run, n)
    decreases run
  {
    UnthreatenedNext(s, run[0]);
    CoreNext(s, run[0]);
    if Unthreatened(Next(s, run[0])) {
      var m := ThreatHasCause(Next(s, run[0]), run[1..]);
      n := m + 1;
      FeasiblePrefix(s, run, n);
      assert run[..n][0] == run[0] && run[..n][1..] == run[1..][..m];
    } else {
      n := 0;
    }
  }

  lemma InitiallyUnthreatened(c: Construction)
    ensures Core(Constructed(c)) && Unthreatened(Constructed(c))
  {
  }

  /** Entries are discarded, or dropped for want of a sub-logger, only in runs in which a timer
      callback read null options before any had been offered to the instance. */
  lemma DiscardOnlyAfterReadingNoOptions(c: Construction, run: seq<Action>)
    requires Feasible(Constructed(c), run)
    requires !KeptAll(Exec(Constructed(c), run).w)
    ensures exists n :: ReadsNoOptions(Constructed(c), run, n)
  {
    InvReachable(c, run);
    InitiallyUnthreatened(c);
    KeptUnlessDiscarded(Exec(Constructed(c), run));
    var n := ThreatHasCause(Constructed(c), run);
  }

  // ---------------------------------------------------------------- the additional logger

  /** The winning Activate call has assigned the additional logger. */
  predicate PastExtra(a: Activation) {
    PastConsole(a) && !a.SetExtra?
  }

  /** While the instance lives, the additional logger is there once activation has assigned it, and no
      routed event has missed it. */
  predicate ExtraReady(w: World, a: Activation) {
    !w.obj.disposed ==> (PastExtra(a) ==> w.obj.hasExtra) && (!w.hist.discardRan ==> !w.hist.missedExtra)
  }

  lemma ExtraReadyLog(w: World, a: Activation, e: Event, pc: LogPc)
    requires Control(w, a) && Honest(w, pc) && LogEnabled(a, pc) && ExtraReady(w, a)
    ensures ExtraReady(LogBody(w, e, pc).0, a)
  {
  }

  lemma ExtraReadyActivation(w: World, a: Activation)
    requires Control(w, a) && ActivationEnabled(a) && ExtraReady(w, a)
    requires a.Draining? && a.current.Some? ==> Honest(w, a.current.value.pc)
    ensures var (w1, a1) := ActivationBody(w, a, true); ExtraReady(w1, a1)
  {
    match a
    case Draining(_, Some(Entry(e, pc)), _) => ExtraReadyLog(w, a, e, pc);
    case _ =>
  }

  lemma ExtraReadyNext(s: State, a: Action)
    requires Control(s.w, s.activation) && AllHonest(s) && Enabled(s, a)
    requires ExtraReady(s.w, s.activation) && (a.StepActivation? ==> a.extra)
    ensures ExtraReady(Next(s, a).w, Next(s, a).activation)
  {
    match a
    case StepLog(e) => ExtraReadyLog(s.w, s.activation, e, s.logs[e]);
    case StepActivation(_) => ExtraReadyActivation(s.w, s.activation);
    case _ =>
  }

  /** Whichever Activate call wins, its options have an additional logger. */
  predicate AlwaysExtra(run: seq<Action>) {
    forall i | 0 <= i < |run| :: run[i].StepActivation? ==> run[i].extra
  }

  lemma {:induction false} ExtraReadyRun(s: State, run: seq<Action>)
    requires Control(s.w, s.activation) && AllHonest(s) && ExtraReady(s.w, s.activation)
    requires Feasible(s, run) && AlwaysExtra(run)
    ensures ExtraReady(Exec(s, run).w, Exec(s, run).activation)
    decreases run
  {
    if run != [] {
      ControlNext(s, run[0]);
      AllHonestNext(s, run[0]);
      ExtraReadyNext(s, run[0]);
      ExtraReadyRun(Next(s, run[0]), run[1..]);
    }
  }

  lemma InitiallyExtraReady(c: Construction)
    requires c.Activating? ==> c.extra
    ensures Control(Constructed(c).w, Constructed(c).activation) && AllHonest(Constructed(c))
    ensures ExtraReady(Constructed(c).w, Constructed(c).activation)
  {
  }

  /** Delivery to the additional logger: an instance built active with one, or one whose activation
      finds one in the options, has handed it every event exactly once, the deferred ones in their
      enqueue order, when activation and all Log calls have finished and it is neither disposed nor had
      its queue discarded. */
  lemma DeliveredToAdditional(c: Construction, run: seq<Action>)
    requires (c.Activating? ==> c.extra) && AlwaysExtra(run) && Feasible(Constructed(c), run)
    requires AtRest(Exec(Constructed(c), run)) && Lossless(Exec(Constructed(c), run).w)
    ensures Delivered(Exec(Constructed(c), run), Extra)
  {
    InitiallyExtraReady(c);
    ExtraReadyRun(Constructed(c), run);
    DeliveredAtRest(c, run, Extra);
  }

  // ---------------------------------------------------------------- runs put together

  lemma {:induction false} ExecConcat(s: State, run: seq<Action>, more: seq<Action>)
    requires Feasible(s, run) && Feasible(Exec(s, run), more)
    ensures Feasible(s, run + more) && Exec(s, run + more) == Exec(Exec(s, run), more)
    decreases run
  {
    if run == [] {
      assert run + more == more;
    } else {
      ExecConcat(Next(s, run[0]), run[1..], more);
      assert (run + more)[1..] == run[1..] + more;
    }
  }

  lemma ExecStep(s: State, run: seq<Action>, a: Action)
    requires Feasible(s, run) && Enabled(Exec(s, run), a)
    ensures Feasible(s, run + [a]) && Exec(s, run + [a]) == Next(Exec(s, run), a)
  {
    var last := [a];
    assert last[1..] == [];
    ExecConcat(s, run, last);
  }

  /** An activation that nothing interrupts is a run: what is said of ActivateAlone is said of runs. */
  lemma ActivateAloneIsRun(s: State, extra: bool) returns (run: seq<Action>)
    requires !s.activation.Unclaimed?
    requires s.activation.Draining? && s.activation.current.Some? ==> s.activation.current.value.pc != LogDone
    ensures Feasible(s, run) && AlwaysExtra(run) == (extra || run == [])
    ensures var (w1, a1) := ActivateAlone(s.w, s.activation, extra); Exec(s, run) == s.(w := w1, activation := a1)
    decreases StageRank(s.activation), if s.activation.Draining? then |s.activation.rest| else 0,
              if s.activation.Draining? && s.activation.current.Some? then 1 + PcRank(s.activation.current.value.pc)
              else 0
  {
    if s.activation.Activated? {
      return [];
    }
    var a := StepActivation(extra);
    var rest := ActivateAloneIsRun(Next(s, a), extra);
    run := [a] + rest;
    assert run[1..] == rest && run[0] == a;
  }

  /** What an instance that has its options owes to its deferred entries when its timer elapses. */
  predicate DeliveredBy(s: State, end: State, extra: bool) {
    && end.activation == Activated(|ToSeq(s.w.obj.queue)|)
    && end.w.sinks.file == s.w.sinks.file + ToSeq(s.w.obj.queue)
    && end.w.sinks.console == s.w.sinks.console + ToSeq(s.w.obj.queue)
    && end.w.sinks.extra == (if extra then s.w.sinks.extra + ToSeq(s.w.obj.queue) else s.w.sinks.extra)
  }

  lemma TimerRuns(s: State, t: Tid, extra: bool) returns (more: seq<Action>)
    requires !s.w.obj.disposed && s.w.obj.options && s.activation.Unclaimed? && t !in s.calls
    ensures Feasible(s, more) && DeliveredBy(s, Exec(s, more), extra)
  {
    more := [];
    ExecStep(s, more, BeginTimer(t));
    more := more + [BeginTimer(t)];
    ExecStep(s, more, StepCall(t));
    more := more + [StepCall(t)];
    ExecStep(s, more, StepCall(t));
    more := more + [StepCall(t)];
    ExecStep(s, more, StepCall(t));
    more := more + [StepCall(t)];
    var s4 := Exec(s, more);
    assert s4.activation == Entering && s4.w == s.w;
    var rest := ActivateAloneIsRun(s4, extra);
    ActivateAloneDelivers(s.w, extra);
    ExecConcat(s, more, rest);
    more := more + rest;
  }

  /** In every run of an instance constructed with options that is not yet activated nor disposed, the
      timer, left alone, delivers everything that is queued to the sub-loggers. */
  lemma RetainedOptionsDeliver(run: seq<Action>, t: Tid, extra: bool) returns (more: seq<Action>)
    requires Feasible(Constructed(Deferring(true)), run)
    requires var s := Exec(Constructed(Deferring(true)), run);
      s.activation.Unclaimed? && !s.w.obj.disposed && t !in s.calls
    ensures var s := Exec(Constructed(Deferring(true)), run);
      Feasible(s, more) && DeliveredBy(s, Exec(s, more), extra)
  {
    var c := Deferring(true);
    InvReachable(c, run);
    InitiallyRetaining(c);
    RetainingRun(Constructed(c), run);
    more := TimerRuns(Exec(Constructed(c), run), t, extra);
  }

  // ---------------------------------------------------------------- order across the hand-off

  /** e has reached sub-logger k while some entry deferred by the time of s has not. */
  ghost predicate Overtaken(s: State, end: State, e: Event, k: Sink) {
    e in Contents(end.w, k) && exists x :: x in s.w.hist.enqueued && x !in Contents(end.w, k)
  }

  lemma {:induction false} ContentsGrow(s: State, more: seq<Action>, k: Sink)
    requires Feasible(s, more)
    ensures Contents(s.w, k) <= Contents(Exec(s, more).w, k)
    decreases more
  {
    if more != [] {
      ContentsGrow(Next(s, more[0]), more[1..], k);
    }
  }

  lemma {:induction false} RestrictMember(s: seq<Event>, keep: seq<Event>, x: Event)
    requires x in Restrict(s, keep)
    ensures x in s
  {
    if s[|s| - 1] !in keep || x != s[|s| - 1] {
      RestrictMember(s[..|s| - 1], keep, x);
    }
  }

  /** An entry that waits is owned by the queue or by the drain. */
  lemma WaitingIsOwned(w: World, a: Activation, k: Sink)
    requires Complete(w, k) && Waiting(w, a, k) != []
    ensures var x := Waiting(w, a, k)[0];
      Occurs(ToSeq(w.obj.queue), x) + Occurs(Captured(a), x) > DrainHeld(a, x, k)
  {
    var x := Waiting(w, a, k)[0];
    OccursMember(ToSeq(w.obj.queue), x);
    OccursMember(Captured(a), x);
    if a.Draining? && a.current.Some? {
      assert Captured(a)[1..] == a.rest;
      OccursMember(a.rest, x);
    }
  }

  lemma OwnedIsAbsent(s: State, k: Sink, x: Event)
    requires Conserved(s, x) && Accounted(s, x, k)
    requires Occurs(ToSeq(s.w.obj.queue), x) + Occurs(Captured(s.activation), x) > DrainHeld(s.activation, x, k)
    ensures x in s.logs && x !in Contents(s.w, k)
  {
    OccursMember(Contents(s.w, k), x);
  }

  /** An entry that still waits for a sub-logger is not in it. */
  lemma WaitingIsAbsent(s: State, k: Sink)
    requires Inv(s) && Complete(s.w, k) && Waiting(s.w, s.activation, k) != []
    ensures var x := Waiting(s.w, s.activation, k)[0];
      x in s.w.hist.enqueued && x in s.logs && x !in Contents(s.w, k)
  {
    var x := Waiting(s.w, s.activation, k)[0];
    assert PerEvent(s, x);
    WaitingIsOwned(s.w, s.activation, k);
    OwnedIsAbsent(s, k, x);
    assert x in s.w.hist.enqueued by {
      assert Ordered(s.w, s.activation, k) && x in Waiting(s.w, s.activation, k);
    }
  }

  lemma {:induction false} BoundOf(s: set<nat>) returns (b: nat)
    ensures forall x <- s :: x < b
    decreases s
  {
    b := 0;
    if x :| x in s {
      var c := BoundOf(s - {x});
      assert forall y <- s :: y == x || y in s - {x};
      b := if c <= x then x + 1 else c;
    }
  }

  /** Nothing has moved with respect to sub-logger k, and e has not begun. */
  ghost predicate Same(s: State, s1: State, k: Sink) {
    && Control(s1.w, s1.activation) && Complete(s1.w, k) && s1.logs == s.logs
    && Contents(s1.w, k) == Contents(s.w, k)
    && Waiting(s1.w, s1.activation, k) == Waiting(s.w, s.activation, k)
  }

  lemma OneActivation(s: State, k: Sink)
    requires Control(s.w, s.activation) && Complete(s.w, k)
    requires s.activation.Entering? || Locked(s.activation)
    ensures Enabled(s, StepActivation(false)) && Same(s, Next(s, StepActivation(false)), k)
    ensures StageRank(Next(s, StepActivation(false)).activation) < StageRank(s.activation)
  {
    ControlNext(s, StepActivation(false));
  }

  lemma OneClaim(s: State, t: Tid, k: Sink)
    requires Control(s.w, s.activation) && Complete(s.w, k) && s.activation.Unclaimed? && t !in s.calls
    ensures var s1 := Next(s, BeginActivate(t));
      Enabled(s1, StepCall(t)) && Same(s, Next(s1, StepCall(t)), k) && Next(s1, StepCall(t)).activation.Entering?
  {
    ControlNext(s, BeginActivate(t));
    ControlNext(Next(s, BeginActivate(t)), StepCall(t));
  }

  /** While an entry waits, activation can be carried on up to the drain loop. */
  lemma ReachDrain(s: State, k: Sink) returns (more: seq<Action>)
    requires Control(s.w, s.activation) && Complete(s.w, k) && Waiting(s.w, s.activation, k) != []
    ensures Feasible(s, more) && Same(s, Exec(s, more), k) && Exec(s, more).activation.Draining?
    decreases if s.activation.Unclaimed? then 8 else StageRank(s.activation)
  {
    if s.activation.Draining? {
      return [];
    }
    var steps := [StepActivation(false)];
    if s.activation.Unclaimed? {
      var t := BoundOf(s.calls.Keys);
      OneClaim(s, t, k);
      ExecStep(s, [], BeginActivate(t));
      steps := [] + [BeginActivate(t)];
      ExecStep(s, steps, StepCall(t));
      steps := steps + [StepCall(t)];
    } else {
      OneActivation(s, k);
      ExecStep(s, [], StepActivation(false));
      assert [] + [StepActivation(false)] == steps;
    }
    var rest := ReachDrain(Exec(s, steps), k);
    ExecConcat(s, steps, rest);
    more := steps + rest;
  }

  /** During the drain a Log call that nothing interrupts goes straight to every sub-logger, if there is
      an additional one; SetAdditionalLogger may provide it. */
  lemma DirectLog(s: State, e: Event, k: Sink) returns (more: seq<Action>)
    requires Control(s.w, s.activation) && Complete(s.w, k) && s.activation.Draining? && e !in s.logs
    ensures Feasible(s, more) && Contents(Exec(s, more).w, k) == Contents(s.w, k) + [e]
  {
    more := [];
    ExecStep(s, more, AttachExtra);
    more := more + [AttachExtra];
    ExecStep(s, more, BeginLog(e));
    more := more + [BeginLog(e)];
    ExecStep(s, more, StepLog(e));
    more := more + [StepLog(e)];
    ExecStep(s, more, StepLog(e));
    more := more + [StepLog(e)];
    var s4 := Exec(s, more);
    assert s4.logs[e] == ToFile && s4.w.sinks == s.w.sinks && s4.w.obj == s.w.obj.(hasExtra := true);
    ExecStep(s, more, StepLog(e));
    more := more + [StepLog(e)];
    ExecStep(s, more, StepLog(e));
    more := more + [StepLog(e)];
    ExecStep(s, more, StepLog(e));
    more := more + [StepLog(e)];
  }

  /** When nothing waits for a sub-logger, it has every deferred entry. */
  lemma NothingWaits(s: State, k: Sink, x: Event)
    requires Inv(s) && Complete(s.w, k) && Waiting(s.w, s.activation, k) == [] && x in s.w.hist.enqueued
    ensures x in Contents(s.w, k)
  {
    assert Ordered(s.w, s.activation, k);
    NoneWaiting(Contents(s.w, k), s.w.hist.enqueued);
    RestrictMember(Contents(s.w, k), s.w.hist.enqueued, x);
  }

  lemma CanOvertake(s: State, e: Event, k: Sink) returns (more: seq<Action>)
    requires Inv(s) && Complete(s.w, k) && e !in s.logs && Waiting(s.w, s.activation, k) != []
    ensures Feasible(s, more) && Overtaken(s, Exec(s, more), e, k)
  {
    WaitingIsAbsent(s, k);
    var x := Waiting(s.w, s.activation, k)[0];
    var activating := ReachDrain(s, k);
    var s1 := Exec(s, activating);
    var logging := DirectLog(s1, e, k);
    ExecConcat(s, activating, logging);
    more := activating + logging;
    assert x !in Contents(s.w, k) + [e] && e in Contents(s.w, k) + [e];
  }

  lemma CannotOvertake(s: State, e: Event, k: Sink, more: seq<Action>)
    requires Inv(s) && Complete(s.w, k) && Waiting(s.w, s.activation, k) == [] && Feasible(s, more)
    ensures !Overtaken(s, Exec(s, more), e, k)
  {
    ContentsGrow(s, more, k);
    forall x | x in s.w.hist.enqueued ensures x in Contents(Exec(s, more).w, k) {
      NothingWaits(s, k, x);
    }
  }

  /** Some continuation of s lets e, which begins later, overtake an entry deferred by then. */
  ghost predicate CanBeOvertaken(s: State, e: Event, k: Sink) {
    exists more :: Feasible(s, more) && Overtaken(s, Exec(s, more), e, k)
  }

  lemma OvertakingFrom(s: State, e: Event, k: Sink)
    requires Inv(s) && Complete(s.w, k) && e !in s.logs
    ensures CanBeOvertaken(s, e, k) <==> Waiting(s.w, s.activation, k) != []
  {
    if Waiting(s.w, s.activation, k) != [] {
      var more := CanOvertake(s, e, k);
    } else if CanBeOvertaken(s, e, k) {
      var more :| Feasible(s, more) && Overtaken(s, Exec(s, more), e, k);
      CannotOvertake(s, e, k, more);
    }
  }

  /** Order across the hand-off: in any run to a state of a live instance, a Log call that has not begun
      can, in some continuation, reach a sub-logger before an entry deferred by then, if and only if an
      entry is still waiting for that sub-logger. */
  lemma OvertakingExactlyIf(c: Construction, run: seq<Action>, e: Event, k: Sink)
    requires Feasible(Constructed(c), run)
    requires Complete(Exec(Constructed(c), run).w, k) && e !in Exec(Constructed(c), run).logs
    ensures var s := Exec(Constructed(c), run); CanBeOvertaken(s, e, k) <==> Waiting(s.w, s.activation, k) != []
  {
    InvReachable(c, run);
    OvertakingFrom(Exec(Constructed(c), run), e, k);
  }

  /** It does happen: event 0 is deferred and its Log call returns; event 1 can still come first. */
  lemma OvertakingHappens() returns (run: seq<Action>)
    ensures Feasible(Constructed(Deferring(true)), run)
    ensures var s := Exec(Constructed(Deferring(true)), run);
      s.logs == map[0 := LogDone] && s.w.hist.enqueued == [0] && CanBeOvertaken(s, 1, File)
  {
    var start := Constructed(Deferring(true));
    run := [];
    ExecStep(start, run, BeginLog(0));
    run := run + [BeginLog(0)];
    ExecStep(start, run, StepLog(0));
    run := run + [StepLog(0)];
    ExecStep(start, run, StepLog(0));
    run := run + [StepLog(0)];
    ExecStep(start, run, StepLog(0));
    run := run + [StepLog(0)];
    assert Exec(start, run).w.obj.queue.value == [0] && Exec(start, run).w.hist.enqueued == [0];
    OvertakingExactlyIf(Deferring(true), run, 1, File);
  }

  /** Discarding happens too: event 0 is deferred by an instance without options and its timer elapses. */
  lemma DiscardHappens() returns (run: seq<Action>)
    ensures Feasible(Constructed(Deferring(false)), run)
    ensures Exec(Constructed(Deferring(false)), run).w.hist.discarded == [0]
  {
    var start := Constructed(Deferring(false));
    run := [];
    ExecStep(start, run, BeginLog(0));
    run := run + [BeginLog(0)];
    ExecStep(start, run, StepLog(0));
    run := run + [StepLog(0)];
    ExecStep(start, run, StepLog(0));
    run := run + [StepLog(0)];
    ExecStep(start, run, StepLog(0));
    run := run + [StepLog(0)];
    assert Exec(start, run).w.obj.queue.value == [0];
    ExecStep(start, run, BeginTimer(7));
    run := run + [BeginTimer(7)];
    ExecStep(start, run, StepCall(7));
    run := run + [StepCall(7)];
    ExecStep(start, run, StepCall(7));
    run := run + [StepCall(7)];
    ExecStep(start, run, StepCall(7));
    run := run + [StepCall(7)];
  }

  /** No run of an instance discards or drops an entry, if and only if it was constructed with options:
      to be retained, or to be activated with at once. */
  lemma NeverDiscardsExactlyIf(c: Construction)
    ensures (forall run | Feasible(Constructed(c), run) :: KeptAll(Exec(Constructed(c), run).w))
       <==> (c.Deferring? ==> c.withOptions)
  {
    if c.Deferring? ==> c.withOptions {
      forall run | Feasible(Constructed(c), run) ensures KeptAll(Exec(Constructed(c), run).w) {
        RetainedOptionsNeverDiscard(c, run);
      }
    } else {
      var run := DiscardHappens();
      assert c == Deferring(false);
    }
  }

  // ---------------------------------------------------------------- after disposal

  /** A timer callback that begins after disposal leaves the queue, the claim and the sub-loggers alone. */
  predicate Idle(s: State, t: Tid) {
    s.w.obj.disposed && t in s.calls && (s.calls[t] == TimerTestDisposed || s.calls[t] == CallDone)
  }

  lemma {:induction false} IdleRun(s: State, t: Tid, more: seq<Action>)
    requires Idle(s, t) && Feasible(s, more)
    ensures Idle(Exec(s, more), t)
    decreases more
  {
    if more != [] {
      IdleRun(Next(s, more[0]), t, more[1..]);
    }
  }

  /** A timer callback that begins after disposal never gets beyond its first test. */
  lemma TimerAfterDisposal(s: State, t: Tid, more: seq<Action>)
    requires s.w.obj.disposed && t !in s.calls && Feasible(Next(s, BeginTimer(t)), more)
    ensures Idle(Exec(Next(s, BeginTimer(t)), more), t)
  {
    IdleRun(Next(s, BeginTimer(t)), t, more);
  }

  /** e has begun after disposal, or been dropped because of it, and is nowhere else. */
  predicate Silent(s: State, e: Event) {
    && s.w.obj.disposed && e in s.logs && (s.logs[e] == TestDisposed || s.logs[e] == LogDone)
    && e !in ToSeq(s.w.obj.queue) && e !in Captured(s.activation)
    && e !in s.w.sinks.file && e !in s.w.sinks.console && e !in s.w.sinks.extra
  }

  lemma NowhereYet(s: State, e: Event)
    requires Inv(s) && e !in s.logs
    ensures e !in ToSeq(s.w.obj.queue) && e !in Captured(s.activation)
    ensures e !in s.w.sinks.file && e !in s.w.sinks.console && e !in s.w.sinks.extra
  {
    assert PerEvent(s, e);
    OccursMember(ToSeq(s.w.obj.queue), e);
    OccursMember(Captured(s.activation), e);
    OccursMember(s.w.sinks.file, e);
    OccursMember(s.w.sinks.console, e);
    OccursMember(s.w.sinks.extra, e);
  }

  lemma SilentNext(s: State, e: Event, a: Action)
    requires Silent(s, e) && Enabled(s, a)
    ensures Silent(Next(s, a), e)
  {
    match a
    case StepActivation(extra) => SilentActivation(s.w, s.activation, e, extra);
    case _ =>
  }

  lemma SilentActivation(w: World, a: Activation, e: Event, extra: bool)
    requires ActivationEnabled(a) && e !in ToSeq(w.obj.queue) && e !in Captured(a)
    requires e !in w.sinks.file && e !in w.sinks.console && e !in w.sinks.extra
    ensures var (w1, a1) := ActivationBody(w, a, extra);
      && e !in ToSeq(w1.obj.queue) && e !in Captured(a1) && w1.obj.disposed == w.obj.disposed
      && e !in w1.sinks.file && e !in w1.sinks.console && e !in w1.sinks.extra
  {
    if a.Draining? && a.current.Some? {
      assert Captured(a)[0] == a.current.value.e && Captured(a)[1..] == a.rest;
    }
  }

  lemma {:induction false} SilentRun(s: State, e: Event, more: seq<Action>)
    requires Silent(s, e) && Feasible(s, more)
    ensures Silent(Exec(s, more), e)
    decreases more
  {
    if more != [] {
      SilentNext(s, e, more[0]);
      SilentRun(Next(s, more[0]), e, more[1..]);
    }
  }

  lemma SilentFrom(s: State, e: Event, more: seq<Action>)
    requires Inv(s) && s.w.obj.disposed && e !in s.logs && Feasible(Next(s, BeginLog(e)), more)
    ensures Silent(Exec(Next(s, BeginLog(e)), more), e)
  {
    NowhereYet(s, e);
    SilentRun(Next(s, BeginLog(e)), e, more);
  }

  /** In every run, an event whose Log call begins after disposal reaches no queue and no sub-logger. */
  lemma LogAfterDisposal(c: Construction, run: seq<Action>, e: Event, more: seq<Action>)
    requires Feasible(Constructed(c), run)
    requires Exec(Constructed(c), run).w.obj.disposed && e !in Exec(Constructed(c), run).logs
    requires Feasible(Next(Exec(Constructed(c), run), BeginLog(e)), more)
    ensures Silent(Exec(Next(Exec(Constructed(c), run), BeginLog(e)), more), e)
  {
    InvReachable(c, run);
    SilentFrom(Exec(Constructed(c), run), e, more);
  }

  lemma {:induction false} DisposalIsFinal(s: State, more: seq<Action>)
    requires Feasible(Next(s, SetDisposed), more)
    ensures Exec(Next(s, SetDisposed), more).w.obj.disposed
  {
    StaysDisposed(Next(s, SetDisposed), more);
  }

  lemma {:induction false} StaysDisposed(s: State, more: seq<Action>)
    requires s.w.obj.disposed && Feasible(s, more)
    ensures Exec(s, more).w.obj.disposed
    decreases more
  {
    if more != [] {
      StaysDisposed(Next(s, more[0]), more[1..]);
    }
  }

  /** Once disposal has taken the additional logger away from an activated instance, it receives nothing
      more, unless another one is set. */
  lemma ExtraIsGone(s: State, more: seq<Action>)
    requires s.w.obj.disposed && s.activation.Activated? && Feasible(Next(s, NullExtra), more)
    requires AttachExtra !in more
    ensures Exec(Next(s, NullExtra), more).w.sinks.extra == s.w.sinks.extra
  {
    NothingForExtra(Next(s, NullExtra), more);
  }

  lemma {:induction false} NothingForExtra(s: State, more: seq<Action>)
    requires !s.w.obj.hasExtra && s.activation.Activated? && Feasible(s, more) && AttachExtra !in more
    ensures Exec(s, more).w.sinks.extra == s.w.sinks.extra
    decreases more
  {
    if more != [] {
      assert more[0] in more && forall a <- more[1..] :: a in more;
      NothingForExtra(Next(s, more[0]), more[1..]);
    }
  }

  /** Options that GetOrCreate stores before any timer callback has found none protect the queue in
      every continuation. */
  lemma StoredOptionsNeverDiscard(c: Construction, run: seq<Action>, more: seq<Action>)
    requires Feasible(Constructed(c), run)
    requires var s := Exec(Constructed(c), run);
      && !s.w.hist.discardRan && (forall t <- s.calls :: !s.calls[t].TimerDiscard?)
      && Feasible(Next(s, StoreOptions), more)
    ensures KeptAll(Exec(Next(Exec(Constructed(c), run), StoreOptions), more).w)
  {
    InvReachable(c, run);
    StoredFrom(Exec(Constructed(c), run), more);
  }

  lemma StoredFrom(s: State, more: seq<Action>)
    requires Inv(s) && !s.w.hist.discardRan && (forall t <- s.calls :: !s.calls[t].TimerDiscard?)
    requires Feasible(Next(s, StoreOptions), more)
    ensures KeptAll(Exec(Next(s, StoreOptions), more).w)
  {
    var s1 := Next(s, StoreOptions);
    InvNext(s, StoreOptions);
    RetainingRun(s1, more);
    InvRun(s1, more);
    KeptUnlessDiscarded(Exec(s1, more));
  }
}
