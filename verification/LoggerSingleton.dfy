/**
 CompositeLogger's static pre-activation singleton: GetOrCreate, IsCompatible, Activate's clearing of
 the static reference, the timer's and ClearPreActivationInstance
 (src/Elastic.OpenTelemetry.Core/Diagnostics/CompositeLogger.cs).

 Any number of instances and of concurrent calls.  Every unlocked read is its own step.  StaticLock is
 held across steps by the slow path of GetOrCreate only; construction and publication are separate
 steps under it, because the new instance's timer may already run between them.  Whether two options
 are Equal is up to the environment (they are mutated in place), and so is the mode of a new instance
 that has options.
 */
module LoggerSingleton {
  import opened Prelude

  type Tid = nat
  type Id = nat
  type OptionsRef = nat

  /** made counts how often the file and console sub-loggers were created. */
  datatype Inst = Inst(claimed: bool, options: Option<OptionsRef>, made: nat)

  /** A GetOrCreate call: its argument, and the instances already claimed when it began. */
  datatype Call = Call(options: Option<OptionsRef>, claimedBefore: set<Id>)

  /** seen is history: the options that IsCompatible read from the instance it found compatible. */
  datatype Pc =
    | GetReadPublished(call: Call)
    | GetReadClaimed(call: Call, i: Id, locked: bool)
    | GetReadOptions(call: Call, i: Id, locked: bool)
    | GetTestStore(call: Call, i: Id, locked: bool, seen: Option<OptionsRef>)
    | GetWriteStore(call: Call, i: Id, locked: bool, seen: Option<OptionsRef>)
    | GetIsolated(call: Call, locked: bool)
    | GetEnterLock(call: Call)
    | GetReadAgain(call: Call)
    | GetConstruct(call: Call)
    | GetPublish(call: Call, i: Id)
    | GetDone(call: Call, i: Id, reused: bool, seen: Option<OptionsRef>)
    | ActClaim(i: Id)
    | ActMake(i: Id)
    | ActClear(i: Id)
    | ActDone(i: Id)
    | TimerClear(i: Id)
    | ClearAll
    | Done

  datatype State = State(
    published: Option<Id>,
    lock: Option<Tid>,
    insts: map<Id, Inst>,
    pcs: map<Tid, Pc>,
    returned: set<Id>)  // instances on which some Activate call has returned

  datatype Action =
    | BeginGet(t: Tid, options: Option<OptionsRef>)
    | BeginActivate(t: Tid, i: Id)
    | BeginTimerClear(t: Tid, i: Id)
    | BeginClearAll(t: Tid)
    | Step(t: Tid, newId: Id, active: bool, equal: bool)

  function Start(): State {
    State(None, None, map[], map[], {})
  }

  predicate NeedsFresh(pc: Pc) {
    pc.GetIsolated? || pc.GetConstruct?
  }

  predicate NeedsLock(pc: Pc) {
    pc.GetEnterLock? || pc.ActClear? || pc.TimerClear? || pc.ClearAll?
  }

  predicate Finished(pc: Pc) {
    pc.GetDone? || pc.ActDone? || pc.Done?
  }

  predicate Enabled(s: State, a: Action) {
    match a
    case BeginGet(t, _) => t !in s.pcs
    case BeginActivate(t, i) => t !in s.pcs && i in s.insts
    case BeginTimerClear(t, i) => t !in s.pcs && i in s.insts
    case BeginClearAll(t) => t !in s.pcs
    case Step(t, newId, _, _) =>
      && t in s.pcs
      && !Finished(s.pcs[t])
      && (NeedsLock(s.pcs[t]) ==> s.lock == None)
      && (NeedsFresh(s.pcs[t]) ==> newId !in s.insts)
  }

  /** The instance named i; calls only ever hold names of instances (see Sound). */
  function At(s: State, i: Id): Inst {
    if i in s.insts then s.insts[i] else Inst(false, None, 0)
  }

  function Claimed(s: State): set<Id> {
    set i | i in s.insts && s.insts[i].claimed
  }

  /** A new instance: active at once when it has options without an OpAMP endpoint, deferred otherwise. */
  function Construct(options: Option<OptionsRef>, active: bool): Inst {
    if options.Some? && active then Inst(true, options, 1) else Inst(false, options, 0)
  }

  function Goto(s: State, t: Tid, pc: Pc): State {
    s.(pcs := s.pcs[t := pc])
  }

  /** Leave StaticLock if this call holds it. */
  function Leave(s: State, locked: bool): State {
    if locked then s.(lock := None) else s
  }

  function ClearIf(s: State, i: Id): State {
    if s.published == Some(i) then s.(published := None) else s
  }

  predicate IsGetPc(pc: Pc) {
    pc.GetReadPublished? || pc.GetReadClaimed? || pc.GetReadOptions? || pc.GetTestStore? || pc.GetWriteStore?
    || pc.GetIsolated? || pc.GetEnterLock? || pc.GetReadAgain? || pc.GetConstruct? || pc.GetPublish?
  }

  function GetStep(s: State, t: Tid, pc: Pc, newId: Id, active: bool, equal: bool): State
    requires IsGetPc(pc)
  {
    match pc
    case GetReadPublished(c) =>
      Goto(s, t, if s.published.Some? then GetReadClaimed(c, s.published.value, false) else GetEnterLock(c))
    case GetReadClaimed(c, i, l) =>
      Goto(s, t, if At(s, i).claimed then GetIsolated(c, l) else GetReadOptions(c, i, l))
    case GetReadOptions(c, i, l) =>
      var existing := At(s, i).options;
      Goto(s, t, if c.options.None? || existing.None? || c.options == existing || equal
                 then GetTestStore(c, i, l, existing) else GetIsolated(c, l))
    case GetTestStore(c, i, l, seen) =>
      if c.options.Some? && At(s, i).options.None? then Goto(s, t, GetWriteStore(c, i, l, seen))
      else Goto(Leave(s, l), t, GetDone(c, i, true, seen))
    case GetWriteStore(c, i, l, seen) =>
      Goto(Leave(s.(insts := s.insts[i := At(s, i).(options := c.options)]), l), t, GetDone(c, i, true, seen))
    case GetIsolated(c, l) =>
      Goto(Leave(s.(insts := s.insts[newId := Construct(c.options, active)]), l), t, GetDone(c, newId, false, None))
    case GetEnterLock(c) =>
      Goto(s.(lock := Some(t)), t, GetReadAgain(c))
    case GetReadAgain(c) =>
      Goto(s, t, if s.published.Some? then GetReadClaimed(c, s.published.value, true) else GetConstruct(c))
    case GetConstruct(c) =>
      Goto(s.(insts := s.insts[newId := Construct(c.options, active)]), t, GetPublish(c, newId))
    case GetPublish(c, i) =>
      Goto(s.(published := Some(i), lock := None), t, GetDone(c, i, false, None))
  }

  function ClearStep(s: State, t: Tid, pc: Pc): State
    requires !IsGetPc(pc) && !Finished(pc)
  {
    match pc
    case ActClaim(i) =>
      if At(s, i).claimed then Goto(s, t, ActClear(i))
      else Goto(s.(insts := s.insts[i := At(s, i).(claimed := true)]), t, ActMake(i))
    case ActMake(i) =>
      var inst := At(s, i);
      Goto(s.(insts := s.insts[i := inst.(options := None, made := inst.made + 1)]), t, ActClear(i))
    case ActClear(i) => Goto(ClearIf(s, i).(returned := s.returned + {i}), t, ActDone(i))
    case TimerClear(i) => Goto(ClearIf(s, i), t, Done)
    case ClearAll => Goto(s.(published := None), t, Done)
  }

  function Next(s: State, a: Action): State
    requires Enabled(s, a)
  {
    match a
    case BeginGet(t, options) => Goto(s, t, GetReadPublished(Call(options, Claimed(s))))
    case BeginActivate(t, i) => Goto(s, t, ActClaim(i))
    case BeginTimerClear(t, i) => Goto(s, t, TimerClear(i))
    case BeginClearAll(t) => Goto(s, t, ClearAll)
    case Step(t, newId, active, equal) =>
      var pc := s.pcs[t];
      if IsGetPc(pc) then GetStep(s, t, pc, newId, active, equal) else ClearStep(s, t, pc)
  }

  predicate Feasible(s: State, run: seq<Action>)
    decreases run
  {
    run == [] || (Enabled(s, run[0]) && Feasible(Next(s, run[0]), run[1..]))
  }

  function Exec(s: State, run: seq<Action>): State
    requires Feasible(s, run)
    decreases run
  {
    if run == [] then s else Exec(Next(s, run[0]), run[1..])
  }

  predicate Known(s: State, pc: Pc) {
    (pc.GetReadClaimed? || pc.GetReadOptions? || pc.GetTestStore? || pc.GetWriteStore? || pc.GetPublish?
     || pc.GetDone? || pc.ActClaim? || pc.ActMake? || pc.ActClear? || pc.ActDone? || pc.TimerClear?)
    ==> pc.i in s.insts
  }

  /** Identifiers held by calls and by the static field denote instances. */
  ghost predicate Sound(s: State) {
    && (s.published.Some? ==> s.published.value in s.insts)
    && (forall t <- s.pcs :: Known(s, s.pcs[t]))
  }

  /** A step of call t moves that call only, and instances are never lost. */
  predicate OwnStep(s: State, s1: State, t: Tid) {
    t in s1.pcs && s1.pcs == s.pcs[t := s1.pcs[t]] && s.insts.Keys <= s1.insts.Keys
  }

  lemma FrameGet(s: State, t: Tid, pc: Pc, newId: Id, active: bool, equal: bool)
    requires IsGetPc(pc)
    ensures OwnStep(s, GetStep(s, t, pc, newId, active, equal), t)
  {
  }

  lemma Frame(s: State, a: Action)
    requires Enabled(s, a)
    ensures OwnStep(s, Next(s, a), a.t)
  {
    if a.Step? && IsGetPc(s.pcs[a.t]) {
      FrameGet(s, a.t, s.pcs[a.t], a.newId, a.active, a.equal);
    }
  }

  lemma SoundGet(s: State, t: Tid, newId: Id, active: bool, equal: bool)
    requires t in s.pcs && IsGetPc(s.pcs[t]) && Known(s, s.pcs[t])
    requires s.published.Some? ==> s.published.value in s.insts
    ensures var s1 := GetStep(s, t, s.pcs[t], newId, active, equal);
      Known(s1, s1.pcs[t]) && (s1.published.Some? ==> s1.published.value in s1.insts)
  {
  }

  lemma SoundSelf(s: State, a: Action)
    requires Sound(s) && Enabled(s, a)
    ensures Known(Next(s, a), Next(s, a).pcs[a.t])
    ensures Next(s, a).published.Some? ==> Next(s, a).published.value in Next(s, a).insts
  {
    if a.Step? {
      assert Known(s, s.pcs[a.t]);
      if IsGetPc(s.pcs[a.t]) {
        SoundGet(s, a.t, a.newId, a.active, a.equal);
      }
    }
  }

  lemma SoundNext(s: State, a: Action)
    requires Sound(s) && Enabled(s, a)
    ensures Sound(Next(s, a))
  {
    var s1 := Next(s, a);
    SoundSelf(s, a);
    Frame(s, a);
    forall t <- s1.pcs ensures Known(s1, s1.pcs[t]) {
      assert t != a.t ==> Known(s, s.pcs[t]);
    }
  }

  // ---------------------------------------------------------------- no reuse of a claimed instance

  /** A GetOrCreate call that has passed the _activationState test on i. */
  predicate Reusing(pc: Pc) {
    pc.GetReadOptions? || pc.GetTestStore? || pc.GetWriteStore? || (pc.GetDone? && pc.reused)
  }

  predicate IsCall(pc: Pc) {
    IsGetPc(pc) || pc.GetDone?
  }

  ghost predicate StillClaimed(s: State, call: Call) {
    forall i <- call.claimedBefore :: i in s.insts && s.insts[i].claimed
  }

  ghost predicate ReuseSafe(s: State) {
    forall t <- s.pcs :: IsCall(s.pcs[t]) ==>
      && StillClaimed(s, s.pcs[t].call)
      && ReuseOk(s.pcs[t])
  }

  /** Claims are never withdrawn. */
  lemma ClaimsPersist(s: State, a: Action, i: Id)
    requires Enabled(s, a) && i in s.insts && s.insts[i].claimed
    ensures i in Next(s, a).insts && Next(s, a).insts[i].claimed
  {
  }

  predicate ReuseOk(pc: Pc) {
    IsCall(pc) && Reusing(pc) ==> pc.i !in pc.call.claimedBefore
  }

  lemma ReuseSelf(s: State, a: Action)
    requires Sound(s) && ReuseSafe(s) && Enabled(s, a)
    ensures var pc := Next(s, a).pcs[a.t]; ReuseOk(pc) && (IsCall(pc) ==> StillClaimed(s, pc.call))
  {
    if a.Step? {
      assert Known(s, s.pcs[a.t]);
    }
  }

  lemma ReuseSafeNext(s: State, a: Action)
    requires Sound(s) && ReuseSafe(s) && Enabled(s, a)
    ensures ReuseSafe(Next(s, a))
  {
    var s1 := Next(s, a);
    Frame(s, a);
    ReuseSelf(s, a);
    forall t <- s1.pcs | IsCall(s1.pcs[t]) ensures StillClaimed(s1, s1.pcs[t].call) && ReuseOk(s1.pcs[t]) {
      assert t != a.t ==> s.pcs[t] == s1.pcs[t];
      StillClaimedNext(s, a, s1.pcs[t].call);
    }
  }

  lemma StillClaimedNext(s: State, a: Action, call: Call)
    requires Enabled(s, a) && StillClaimed(s, call)
    ensures StillClaimed(Next(s, a), call)
  {
    forall i <- call.claimedBefore ensures i in Next(s, a).insts && Next(s, a).insts[i].claimed {
      ClaimsPersist(s, a, i);
    }
  }

  // ---------------------------------------------------------------- no return to the static field

  ghost predicate LockHeld(s: State) {
    forall t <- s.pcs :: HoldsLock(s.pcs[t]) ==> s.lock == Some(t)
  }

  predicate HoldsLock(pc: Pc) {
    pc.GetReadAgain? || pc.GetConstruct? || pc.GetPublish?
    || ((pc.GetReadClaimed? || pc.GetReadOptions? || pc.GetTestStore? || pc.GetWriteStore? || pc.GetIsolated?)
        && pc.locked)
  }

  /** The lock changes hands only between nobody and the stepping call. */
  predicate LockMoves(s: State, s1: State, t: Tid) {
    && t in s1.pcs
    && (HoldsLock(s1.pcs[t]) ==> s1.lock == Some(t))
    && (s.lock.Some? && s.lock != Some(t) ==> s1.lock == s.lock)
  }

  lemma LockMovesGet(s: State, t: Tid, newId: Id, active: bool, equal: bool)
    requires Enabled(s, Step(t, newId, active, equal)) && IsGetPc(s.pcs[t])
    requires HoldsLock(s.pcs[t]) ==> s.lock == Some(t)
    ensures LockMoves(s, GetStep(s, t, s.pcs[t], newId, active, equal), t)
  {
  }

  lemma LockHeldStep(s: State, a: Action)
    requires Enabled(s, a) && (a.Step? && HoldsLock(s.pcs[a.t]) ==> s.lock == Some(a.t))
    ensures LockMoves(s, Next(s, a), a.t)
  {
    if a.Step? && IsGetPc(s.pcs[a.t]) {
      LockMovesGet(s, a.t, a.newId, a.active, a.equal);
    }
  }

  lemma LockHeldNext(s: State, a: Action)
    requires LockHeld(s) && Enabled(s, a)
    ensures LockHeld(Next(s, a))
  {
    var s1 := Next(s, a);
    LockHeldStep(s, a);
    Frame(s, a);
    forall t <- s1.pcs | HoldsLock(s1.pcs[t]) ensures s1.lock == Some(t) {
      assert t != a.t ==> s.pcs[t] == s1.pcs[t];
    }
  }

  ghost predicate Retired(s: State) {
    && (s.published.Some? ==> s.published.value !in s.returned)
    && (forall t <- s.pcs :: s.pcs[t].GetPublish? ==> s.pcs[t].i !in s.returned)
    && (forall i <- s.returned :: i in s.insts)
  }

  lemma RetiredGet(s: State, t: Tid, newId: Id, active: bool, equal: bool)
    requires Sound(s) && Retired(s) && Enabled(s, Step(t, newId, active, equal)) && IsGetPc(s.pcs[t])
    ensures Retired(GetStep(s, t, s.pcs[t], newId, active, equal))
  {
    assert Known(s, s.pcs[t]);
  }

  /** Activate clears the field under the lock, when no call is about to publish. */
  lemma RetiredNext(s: State, a: Action)
    requires Sound(s) && LockHeld(s) && Retired(s) && Enabled(s, a)
    ensures Retired(Next(s, a))
  {
    if a.Step? && IsGetPc(s.pcs[a.t]) {
      RetiredGet(s, a.t, a.newId, a.active, a.equal);
    } else if a.Step? {
      assert Known(s, s.pcs[a.t]);
    }
  }

  // ---------------------------------------------------------------- sub-loggers are made once

  predicate Makes(pc: Pc, i: Id) {
    pc.ActMake? && pc.i == i
  }

  /** At most one call is about to create the sub-loggers of i, and only if they do not exist. */
  ghost predicate MadeOnce(s: State, i: Id) {
    && At(s, i).made <= Bit(At(s, i).claimed)
    && (forall t <- s.pcs :: Makes(s.pcs[t], i) ==> At(s, i).claimed && At(s, i).made == 0)
    && (forall t <- s.pcs, u <- s.pcs :: Makes(s.pcs[t], i) && Makes(s.pcs[u], i) ==> t == u)
  }

  lemma MadeOnceGet(s: State, t: Tid, newId: Id, active: bool, equal: bool, i: Id)
    requires Sound(s) && MadeOnce(s, i) && Enabled(s, Step(t, newId, active, equal)) && IsGetPc(s.pcs[t])
    ensures MadeOnce(GetStep(s, t, s.pcs[t], newId, active, equal), i)
  {
    assert Known(s, s.pcs[t]);
  }

  lemma MadeOnceNext(s: State, a: Action, i: Id)
    requires Sound(s) && MadeOnce(s, i) && Enabled(s, a)
    ensures MadeOnce(Next(s, a), i)
  {
    if a.Step? && IsGetPc(s.pcs[a.t]) {
      MadeOnceGet(s, a.t, a.newId, a.active, a.equal, i);
    } else if a.Step? {
      assert Known(s, s.pcs[a.t]);
    }
  }

  // ---------------------------------------------------------------- in every run

  ghost predicate Inv(s: State) {
    Sound(s) && ReuseSafe(s) && LockHeld(s) && Retired(s) && forall i :: MadeOnce(s, i)
  }

  lemma InvNext(s: State, a: Action)
    requires Inv(s) && Enabled(s, a)
    ensures Inv(Next(s, a))
  {
    SoundNext(s, a);
    ReuseSafeNext(s, a);
    LockHeldNext(s, a);
    RetiredNext(s, a);
    forall i ensures MadeOnce(Next(s, a), i) {
      MadeOnceNext(s, a, i);
    }
  }

  lemma {:induction false} InvRun(s: State, run: seq<Action>)
    requires Inv(s) && Feasible(s, run)
    ensures Inv(Exec(s, run))
    decreases run
  {
    if run != [] {
      InvNext(s, run[0]);
      InvRun(Next(s, run[0]), run[1..]);
    }
  }

  lemma InvReachable(run: seq<Action>)
    requires Feasible(Start(), run)
    ensures Inv(Exec(Start(), run))
  {
    forall i ensures MadeOnce(Start(), i) {
    }
    InvRun(Start(), run);
  }

  /** A GetOrCreate call never hands out, as a reused singleton, an instance whose activation had been
      claimed before the call began; in particular never one built active. */
  lemma NeverReusesClaimed(run: seq<Action>, t: Tid)
    requires Feasible(Start(), run)
    requires t in Exec(Start(), run).pcs && Exec(Start(), run).pcs[t].GetDone? && Exec(Start(), run).pcs[t].reused
    ensures var pc := Exec(Start(), run).pcs[t]; pc.i !in pc.call.claimedBefore
  {
    InvReachable(run);
  }

  /** Once an Activate call on i has returned, i is not the published singleton, now or in any
      continuation of the run. */
  lemma ActivatedIsNeverPublishedAgain(run: seq<Action>, more: seq<Action>, i: Id)
    requires Feasible(Start(), run) && i in Exec(Start(), run).returned
    requires Feasible(Exec(Start(), run), more)
    ensures Exec(Exec(Start(), run), more).published != Some(i)
  {
    InvReachable(run);
    InvRun(Exec(Start(), run), more);
    ReturnedGrows(Exec(Start(), run), more, i);
  }

  lemma {:induction false} ReturnedGrows(s: State, run: seq<Action>, i: Id)
    requires Feasible(s, run) && i in s.returned
    ensures i in Exec(s, run).returned
    decreases run
  {
    if run != [] {
      ReturnedGrows(Next(s, run[0]), run[1..], i);
    }
  }

  /** Each instance creates its sub-loggers at most once, whoever activates it and however often. */
  lemma SubLoggersMadeAtMostOnce(run: seq<Action>, i: Id)
    requires Feasible(Start(), run) && i in Exec(Start(), run).insts
    ensures Exec(Start(), run).insts[i].made <= 1
  {
    InvReachable(run);
    assert MadeOnce(Exec(Start(), run), i);
  }

  /** A claimed instance has its sub-loggers, or a call is about to make them; and an instance on which
      Activate has returned is claimed. */
  ghost predicate MakingIsDue(s: State, i: Id) {
    && (At(s, i).claimed && At(s, i).made == 0 ==> exists t :: t in s.pcs && Makes(s.pcs[t], i))
    && (i in s.returned ==> At(s, i).claimed)
    && (forall t <- s.pcs :: s.pcs[t] == ActClear(i) ==> At(s, i).claimed)
  }

  lemma MakingIsDueGet(s: State, t: Tid, newId: Id, active: bool, equal: bool, i: Id)
    requires Sound(s) && Retired(s) && MakingIsDue(s, i)
    requires Enabled(s, Step(t, newId, active, equal)) && IsGetPc(s.pcs[t])
    ensures MakingIsDue(GetStep(s, t, s.pcs[t], newId, active, equal), i)
  {
    var s1 := GetStep(s, t, s.pcs[t], newId, active, equal);
    assert Known(s, s.pcs[t]);
    FrameGet(s, t, s.pcs[t], newId, active, equal);
    if At(s, i).claimed && At(s, i).made == 0 {
      var u :| u in s.pcs && Makes(s.pcs[u], i);
      assert Makes(s1.pcs[u], i) && Known(s, s.pcs[u]);
    }
    forall u <- s1.pcs | s1.pcs[u] == ActClear(i) ensures At(s1, i).claimed {
      assert s.pcs[u] == ActClear(i) && Known(s, s.pcs[u]);
    }
  }

  lemma MakingIsDueOther(s: State, a: Action, i: Id)
    requires Sound(s) && MadeOnce(s, i) && MakingIsDue(s, i) && Enabled(s, a)
    requires !(a.Step? && IsGetPc(s.pcs[a.t]))
    ensures MakingIsDue(Next(s, a), i)
  {
    var s1 := Next(s, a);
    Frame(s, a);
    assert a.Step? ==> Known(s, s.pcs[a.t]) && (Makes(s.pcs[a.t], i) ==> At(s, i).claimed && At(s, i).made == 0);
    if At(s1, i).claimed && At(s1, i).made == 0 {
      if At(s, i).claimed {
        var u :| u in s.pcs && Makes(s.pcs[u], i);
        assert Makes(s1.pcs[u], i);
      } else {
        assert Makes(s1.pcs[a.t], i);
      }
    }
  }

  lemma MakingIsDueNext(s: State, a: Action, i: Id)
    requires Sound(s) && Retired(s) && MadeOnce(s, i) && MakingIsDue(s, i) && Enabled(s, a)
    ensures MakingIsDue(Next(s, a), i)
  {
    if a.Step? && IsGetPc(s.pcs[a.t]) {
      MakingIsDueGet(s, a.t, a.newId, a.active, a.equal, i);
    } else {
      MakingIsDueOther(s, a, i);
    }
  }

  lemma {:induction false} MakingIsDueRun(s: State, run: seq<Action>, i: Id)
    requires Inv(s) && MakingIsDue(s, i) && Feasible(s, run)
    ensures MakingIsDue(Exec(s, run), i)
    decreases run
  {
    if run != [] {
      MakingIsDueNext(s, run[0], i);
      InvNext(s, run[0]);
      MakingIsDueRun(Next(s, run[0]), run[1..], i);
    }
  }

  /** Once Activate has returned on an instance and no call is still making its sub-loggers, they have
      been made: exactly once. */
  lemma ActivatedHasSubLoggers(run: seq<Action>, i: Id)
    requires Feasible(Start(), run) && i in Exec(Start(), run).returned
    requires forall t <- Exec(Start(), run).pcs :: !Makes(Exec(Start(), run).pcs[t], i)
    ensures At(Exec(Start(), run), i).made == 1
  {
    InvReachable(run);
    assert Inv(Start()) by {
      InvReachable([]);
    }
    MakingIsDueRun(Start(), run, i);
    assert MadeOnce(Exec(Start(), run), i);
  }

  // ---------------------------------------------------------------- sharing

  /** GetOrCreate calls only, all with options that agree, and all instances built deferred. */
  predicate Peaceful(a: Action) {
    a.BeginGet? || (a.Step? && !a.active && a.equal)
  }

  predicate AllPeaceful(run: seq<Action>) {
    forall i | 0 <= i < |run| :: Peaceful(run[i])
  }

  /** The instance has options if the call brought any. */
  predicate HasOptions(s: State, c: Call, i: Id) {
    i in s.insts && (c.options.Some? ==> s.insts[i].options.Some?)
  }

  /** Whatever instance a call holds is the published one, or the one it is about to publish; a call
      constructs only while nothing is published, and never an isolated instance. */
  predicate Sharing(s: State, t: Tid, pc: Pc) {
    match pc
    case GetReadClaimed(_, i, _) => s.published == Some(i)
    case GetReadOptions(_, i, _) => s.published == Some(i)
    case GetTestStore(_, i, _, _) => s.published == Some(i)
    case GetWriteStore(c, i, _, _) => s.published == Some(i) && c.options.Some?
    case GetConstruct(_) => s.published == None && s.lock == Some(t)
    case GetPublish(c, i) => s.published == None && s.lock == Some(t) && HasOptions(s, c, i)
    case GetDone(c, i, _, _) => s.published == Some(i) && HasOptions(s, c, i)
    case GetReadPublished(_) => true
    case GetEnterLock(_) => true
    case GetReadAgain(_) => s.lock == Some(t)
    case _ => false
  }

  ghost predicate AllSharing(s: State) {
    && (s.published.Some? ==> s.published.value in s.insts)
    && (forall i <- s.insts :: !s.insts[i].claimed)
    && (forall t <- s.pcs :: Sharing(s, t, s.pcs[t]))
  }

  lemma SharingSelf(s: State, a: Action)
    requires AllSharing(s) && LockHeld(s) && Enabled(s, a) && Peaceful(a)
    ensures a.t in Next(s, a).pcs && Sharing(Next(s, a), a.t, Next(s, a).pcs[a.t])
    ensures Next(s, a).published.Some? ==> Next(s, a).published.value in Next(s, a).insts
    ensures forall i <- Next(s, a).insts :: !Next(s, a).insts[i].claimed
  {
    if a.Step? {
      assert Sharing(s, a.t, s.pcs[a.t]);
    }
  }

  /** What a step changes for the other calls: a publication, by the holder of the lock. */
  lemma SharingFrame(s: State, a: Action, t: Tid)
    requires AllSharing(s) && LockHeld(s) && Enabled(s, a) && Peaceful(a) && t in s.pcs && t != a.t
    ensures Sharing(Next(s, a), t, s.pcs[t])
  {
    assert Sharing(s, t, s.pcs[t]);
    if a.Step? {
      assert Sharing(s, a.t, s.pcs[a.t]);
    }
  }

  lemma AllSharingNext(s: State, a: Action)
    requires AllSharing(s) && LockHeld(s) && Enabled(s, a) && Peaceful(a)
    ensures AllSharing(Next(s, a))
  {
    var s1 := Next(s, a);
    Frame(s, a);
    SharingSelf(s, a);
    forall t <- s1.pcs ensures Sharing(s1, t, s1.pcs[t]) {
      if t != a.t {
        SharingFrame(s, a, t);
      }
    }
  }

  lemma {:induction false} AllSharingRun(s: State, run: seq<Action>)
    requires AllSharing(s) && LockHeld(s) && Feasible(s, run) && AllPeaceful(run)
    ensures AllSharing(Exec(s, run))
    decreases run
  {
    if run != [] {
      AllSharingNext(s, run[0]);
      LockHeldNext(s, run[0]);
      AllSharingRun(Next(s, run[0]), run[1..]);
    }
  }

  /** Under every schedule of GetOrCreate calls alone, with options that agree and defer, all calls that
      have returned have returned the same instance; it is the published one, and has options if one of
      the calls brought any. */
  lemma OneInstanceIsShared(run: seq<Action>, t: Tid, u: Tid)
    requires Feasible(Start(), run) && AllPeaceful(run)
    requires t in Exec(Start(), run).pcs && Exec(Start(), run).pcs[t].GetDone?
    requires u in Exec(Start(), run).pcs && Exec(Start(), run).pcs[u].GetDone?
    ensures var s := Exec(Start(), run);
      && s.pcs[t].i == s.pcs[u].i && s.published == Some(s.pcs[t].i)
      && s.pcs[t].i in s.insts
      && (s.pcs[t].call.options.Some? ==> s.insts[s.pcs[t].i].options.Some?)
  {
    AllSharingRun(Start(), run);
    var s := Exec(Start(), run);
    assert Sharing(s, t, s.pcs[t]) && Sharing(s, u, s.pcs[u]);
  }

  // ---------------------------------------------------------------- options that do not agree

  /** Options that are not the same reference are not Equal either. */
  predicate NeverEqual(run: seq<Action>) {
    forall i | 0 <= i < |run| :: run[i].Step? ==> !run[i].equal
  }

  /** A call that goes on to reuse an instance brought no options, or saw none or the same there. */
  predicate Agrees(pc: Pc) {
    pc.GetTestStore? || pc.GetWriteStore? || (pc.GetDone? && pc.reused) ==>
      pc.call.options.None? || pc.seen.None? || pc.seen == pc.call.options
  }

  ghost predicate AllAgree(s: State) {
    forall t <- s.pcs :: Agrees(s.pcs[t])
  }

  lemma AgreesSelf(s: State, a: Action)
    requires AllAgree(s) && Enabled(s, a) && (a.Step? ==> !a.equal)
    ensures a.t in Next(s, a).pcs && Agrees(Next(s, a).pcs[a.t])
  {
    assert a.Step? ==> Agrees(s.pcs[a.t]);
  }

  lemma AllAgreeNext(s: State, a: Action)
    requires AllAgree(s) && Enabled(s, a) && (a.Step? ==> !a.equal)
    ensures AllAgree(Next(s, a))
  {
    Frame(s, a);
    AgreesSelf(s, a);
    forall t <- Next(s, a).pcs ensures Agrees(Next(s, a).pcs[t]) {
      assert t != a.t ==> Agrees(s.pcs[t]);
    }
  }

  lemma {:induction false} AllAgreeRun(s: State, run: seq<Action>)
    requires AllAgree(s) && Feasible(s, run) && NeverEqual(run)
    ensures AllAgree(Exec(s, run))
    decreases run
  {
    if run != [] {
      AllAgreeNext(s, run[0]);
      AllAgreeRun(Next(s, run[0]), run[1..]);
    }
  }

  /** In every run, a GetOrCreate call that reuses an instance brought no options, or found none, or
      found its own. */
  lemma ReuseNeedsAgreement(run: seq<Action>, t: Tid)
    requires Feasible(Start(), run) && NeverEqual(run)
    requires t in Exec(Start(), run).pcs && Exec(Start(), run).pcs[t].GetDone? && Exec(Start(), run).pcs[t].reused
    ensures var pc := Exec(Start(), run).pcs[t];
      pc.call.options.None? || pc.seen.None? || pc.seen == pc.call.options
  {
    AllAgreeRun(Start(), run);
    assert Agrees(Exec(Start(), run).pcs[t]);
  }

  /** i exists, is not published, and no call is about to publish it. */
  ghost predicate Gone(s: State, i: Id) {
    i in s.insts && s.published != Some(i) && forall t <- s.pcs :: s.pcs[t].GetPublish? ==> s.pcs[t].i != i
  }

  lemma GoneGet(s: State, t: Tid, newId: Id, active: bool, equal: bool, i: Id)
    requires Gone(s, i) && Enabled(s, Step(t, newId, active, equal)) && IsGetPc(s.pcs[t])
    ensures Gone(GetStep(s, t, s.pcs[t], newId, active, equal), i)
  {
  }

  lemma GoneNext(s: State, a: Action, i: Id)
    requires Gone(s, i) && Enabled(s, a)
    ensures Gone(Next(s, a), i)
  {
    if a.Step? && IsGetPc(s.pcs[a.t]) {
      GoneGet(s, a.t, a.newId, a.active, a.equal, i);
    }
  }

  lemma {:induction false} GoneRun(s: State, more: seq<Action>, i: Id)
    requires Gone(s, i) && Feasible(s, more)
    ensures Gone(Exec(s, more), i)
    decreases more
  {
    if more != [] {
      GoneNext(s, more[0], i);
      GoneRun(Next(s, more[0]), more[1..], i);
    }
  }

  /** The step by which Activate, the timer or ClearPreActivationInstance withdraws i. */
  predicate Withdraws(s: State, pc: Pc, i: Id) {
    pc == ActClear(i) || pc == TimerClear(i) || (pc == ClearAll && s.published == Some(i))
  }

  /** An instance that was withdrawn in any of the three ways is never the published singleton again. */
  lemma WithdrawnForGood(run: seq<Action>, a: Action, i: Id, more: seq<Action>)
    requires Feasible(Start(), run) && Enabled(Exec(Start(), run), a)
    requires a.Step? && Withdraws(Exec(Start(), run), Exec(Start(), run).pcs[a.t], i)
    requires Feasible(Next(Exec(Start(), run), a), more)
    ensures Exec(Next(Exec(Start(), run), a), more).published != Some(i)
  {
    InvReachable(run);
    WithdrawnFrom(Exec(Start(), run), a, i);
    GoneRun(Next(Exec(Start(), run), a), more, i);
  }

  lemma WithdrawnFrom(s: State, a: Action, i: Id)
    requires Sound(s) && LockHeld(s) && Enabled(s, a) && a.Step? && Withdraws(s, s.pcs[a.t], i)
    ensures Gone(Next(s, a), i)
  {
    assert Known(s, s.pcs[a.t]);
  }

  /** Call t has found a mismatch, or has returned a new instance that nothing publishes. */
  ghost predicate Isolating(s: State, t: Tid, c: Call, before: set<Id>) {
    && before <= s.insts.Keys && t in s.pcs
    && ((s.pcs[t].GetIsolated? && s.pcs[t].call == c)
        || (s.pcs[t].GetDone? && s.pcs[t].call == c && !s.pcs[t].reused
            && s.pcs[t].i !in before && Gone(s, s.pcs[t].i)))
  }

  lemma IsolatingNext(s: State, t: Tid, c: Call, before: set<Id>, a: Action)
    requires Isolating(s, t, c, before) && Sound(s) && Enabled(s, a)
    ensures Isolating(Next(s, a), t, c, before)
  {
    Frame(s, a);
    if s.pcs[t].GetDone? {
      GoneNext(s, a, s.pcs[t].i);
    } else if a.t == t {
      forall u <- s.pcs | s.pcs[u].GetPublish? ensures s.pcs[u].i in s.insts {
        assert Known(s, s.pcs[u]);
      }
    }
  }

  lemma {:induction false} IsolatingRun(s: State, t: Tid, c: Call, before: set<Id>, more: seq<Action>)
    requires Isolating(s, t, c, before) && Sound(s) && Feasible(s, more)
    ensures Isolating(Exec(s, more), t, c, before)
    decreases more
  {
    if more != [] {
      IsolatingNext(s, t, c, before, more[0]);
      SoundNext(s, more[0]);
      IsolatingRun(Next(s, more[0]), t, c, before, more[1..]);
    }
  }

  /** A call whose options differ from those it reads returns, if it returns, an instance that did not
      exist before, was not reused and is never published. */
  lemma MismatchIsIsolated(run: seq<Action>, a: Action, more: seq<Action>)
    requires Feasible(Start(), run) && Enabled(Exec(Start(), run), a) && a.Step? && !a.equal
    requires var s := Exec(Start(), run);
      && s.pcs[a.t].GetReadOptions? && s.pcs[a.t].call.options.Some?
      && At(s, s.pcs[a.t].i).options.Some? && At(s, s.pcs[a.t].i).options != s.pcs[a.t].call.options
    requires Feasible(Next(Exec(Start(), run), a), more)
    requires var end := Exec(Next(Exec(Start(), run), a), more); a.t in end.pcs && end.pcs[a.t].GetDone?
    ensures var s := Exec(Start(), run);
      var end := Exec(Next(s, a), more);
      && a.t in end.pcs && end.pcs[a.t].GetDone? && end.pcs[a.t].i !in s.insts && !end.pcs[a.t].reused
      && end.pcs[a.t].i in end.insts && end.published != Some(end.pcs[a.t].i)
  {
    InvReachable(run);
    var s := Exec(Start(), run);
    SoundNext(s, a);
    IsolatingRun(Next(s, a), a.t, s.pcs[a.t].call, s.insts.Keys, more);
  }

  // ---------------------------------------------------------------- the singleton stays in place

  /** The call can neither withdraw p nor publish beside it. */
  predicate Spares(pc: Pc, p: Id) {
    || (IsCall(pc) && !pc.GetConstruct? && !pc.GetPublish?)
    || ((pc.ActClaim? || pc.ActMake? || pc.ActClear? || pc.TimerClear?) && pc.i != p)
    || pc.ActDone? || pc.Done?
  }

  /** Not an activation, a timer or a clearing of p itself. */
  predicate SparesAction(a: Action, p: Id) {
    match a
    case BeginActivate(_, i) => i != p
    case BeginTimerClear(_, i) => i != p
    case BeginClearAll(_) => false
    case _ => true
  }

  ghost predicate InPlace(s: State, p: Id) {
    s.published == Some(p) && forall t <- s.pcs :: Spares(s.pcs[t], p)
  }

  lemma InPlaceSelf(s: State, p: Id, a: Action)
    requires InPlace(s, p) && Enabled(s, a) && SparesAction(a, p)
    ensures Next(s, a).published == Some(p) && a.t in Next(s, a).pcs && Spares(Next(s, a).pcs[a.t], p)
  {
    assert a.Step? ==> Spares(s.pcs[a.t], p);
  }

  lemma InPlaceNext(s: State, p: Id, a: Action)
    requires InPlace(s, p) && Enabled(s, a) && SparesAction(a, p)
    ensures InPlace(Next(s, a), p)
  {
    Frame(s, a);
    InPlaceSelf(s, p, a);
    forall t <- Next(s, a).pcs ensures Spares(Next(s, a).pcs[t], p) {
      assert t != a.t ==> Spares(s.pcs[t], p);
    }
  }

  /** A published singleton stays published whatever GetOrCreate calls bring and whichever other
      instances are activated or time out: only its own activation, its own timer or
      ClearPreActivationInstance withdraws it. */
  lemma {:induction false} SingletonStays(s: State, p: Id, more: seq<Action>)
    requires InPlace(s, p) && Feasible(s, more)
    requires forall i | 0 <= i < |more| :: SparesAction(more[i], p)
    ensures Exec(s, more).published == Some(p)
    decreases more
  {
    if more != [] {
      InPlaceNext(s, p, more[0]);
      SingletonStays(Next(s, more[0]), p, more[1..]);
    }
  }

  // ---------------------------------------------------------------- calls by themselves

  function PcRank(pc: Pc): nat {
    match pc
    case GetReadPublished(_) => 9
    case GetEnterLock(_) => 8
    case GetReadAgain(_) => 7
    case GetReadClaimed(_, _, _) => 6
    case GetReadOptions(_, _, _) => 5
    case GetTestStore(_, _, _, _) => 4
    case GetWriteStore(_, _, _, _) => 3
    case GetConstruct(_) => 2
    case GetPublish(_, _) => 1
    case GetIsolated(_, _) => 1
    case ActClaim(_) => 3
    case ActMake(_) => 2
    case ActClear(_) => 1
    case TimerClear(_) => 1
    case ClearAll => 1
    case GetDone(_, _, _, _) => 0
    case ActDone(_) => 0
    case Done => 0
  }

  lemma {:induction false} FreshId(ids: set<Id>) returns (b: nat)
    ensures forall x <- ids :: x < b
    decreases ids
  {
    b := 0;
    if x :| x in ids {
      var c := FreshId(ids - {x});
      assert forall y <- ids :: y == x || y in ids - {x};
      b := if c <= x then x + 1 else c;
    }
  }

  /** The lock is held by call t exactly if it is inside its locked region, and by nobody else. */
  predicate Undisturbed(s: State, t: Tid) {
    t in s.pcs && s.lock == (if HoldsLock(s.pcs[t]) then Some(t) else None)
  }

  lemma StepAloneGet(s: State, t: Tid, id: Id, active: bool, equal: bool)
    requires Undisturbed(s, t) && IsGetPc(s.pcs[t])
    ensures var s1 := GetStep(s, t, s.pcs[t], id, active, equal);
      Undisturbed(s1, t) && PcRank(s1.pcs[t]) < PcRank(s.pcs[t])
  {
  }

  lemma StepAlone(s: State, t: Tid, id: Id, active: bool, equal: bool)
    requires Undisturbed(s, t) && !Finished(s.pcs[t]) && id !in s.insts
    ensures var a := Step(t, id, active, equal);
      Enabled(s, a) && Undisturbed(Next(s, a), t) && PcRank(Next(s, a).pcs[t]) < PcRank(s.pcs[t])
  {
    if IsGetPc(s.pcs[t]) {
      StepAloneGet(s, t, id, active, equal);
    }
  }

  /** A call that nobody keeps from StaticLock can return. */
  lemma CallFinishes(s: State, t: Tid, active: bool, equal: bool) returns (run: seq<Action>)
    requires Undisturbed(s, t)
    ensures Feasible(s, run) && t in Exec(s, run).pcs && Finished(Exec(s, run).pcs[t])
    decreases PcRank(s.pcs[t])
  {
    if Finished(s.pcs[t]) {
      return [];
    }
    var id := FreshId(s.insts.Keys);
    StepAlone(s, t, id, active, equal);
    var a := Step(t, id, active, equal);
    var rest := CallFinishes(Next(s, a), t, active, equal);
    run := [a] + rest;
    assert run[1..] == rest;
  }

  /** The first Activate call on an instance, by itself: it makes the sub-loggers, forgets the options and
      withdraws that instance, and touches no other. */
  lemma ActivateAlone(s: State, t: Tid, i: Id, id: Id) returns (run: seq<Action>)
    requires t in s.pcs && s.pcs[t] == ActClaim(i) && s.lock == None && i in s.insts && !s.insts[i].claimed
    ensures Feasible(s, run)
    ensures var end := Exec(s, run);
      && t in end.pcs && end.pcs[t] == ActDone(i)
      && end.insts == s.insts[i := Inst(true, None, s.insts[i].made + 1)]
      && end.published == (if s.published == Some(i) then None else s.published)
  {
    var a := Step(t, id, false, false);
    var s1 := Next(s, a);
    var s2 := Next(s1, a);
    run := Before(s2, a, []);
    run := Before(s1, a, run);
    run := Before(s, a, run);
  }

  lemma Before(s: State, a: Action, rest: seq<Action>) returns (run: seq<Action>)
    requires Enabled(s, a) && Feasible(Next(s, a), rest)
    ensures Feasible(s, run) && Exec(s, run) == Exec(Next(s, a), rest)
  {
    run := [a] + rest;
    assert run[1..] == rest;
  }

  // ---------------------------------------------------------------- the static members

  /** Undisturbed calls, in the source's order of tests and writes. */
  class PreActivation {
    var instance: Option<Id>
    var insts: map<Id, Inst>

    ghost predicate Valid()
      reads this
    {
      instance.Some? ==> instance.value in insts
    }

    constructor ()
      ensures Valid() && instance == None && insts == map[]
    {
      instance, insts := None, map[];
    }

    /** An instance whose activation has been claimed is compatible with nothing. */
    predicate IsCompatible(existing: Id, options: Option<OptionsRef>, equal: bool)
      requires existing in insts
      reads this
    {
      !insts[existing].claimed
      && (options.None? || insts[existing].options.None? || insts[existing].options == options || equal)
    }

    /** Without a singleton the new instance is it.  A singleton that is not claimed is shared if either
        side has no options, or both have the same or equal ones, and is given the options if it has none.
        One that is claimed or has other options is left in place beside an isolated new instance. */
    method GetOrCreate(options: Option<OptionsRef>, newId: Id, active: bool, equal: bool) returns (i: Id)
      requires Valid() && newId !in insts
      modifies this
      ensures Valid()
      ensures instance == if old(instance).Some? then old(instance) else Some(newId)
      ensures i == newId || Some(i) == old(instance)
      ensures i == newId ==> newId in insts && insts == old(insts)[newId := insts[newId]]
      ensures i == newId ==> insts[newId].options == options && insts[newId].claimed == (options.Some? && active)
      ensures i == newId ==> insts[newId].made == Bit(options.Some? && active)
      ensures old(instance).Some? && old(insts)[old(instance).value].claimed ==> i == newId
      ensures old(instance).Some? ==>
        var existing := old(insts)[old(instance).value];
        && (options.Some? && existing.options.Some? && existing.options != options && !equal ==> i == newId)
        && (!existing.claimed && (options.None? || existing.options.None? || existing.options == options || equal) ==>
              Some(i) == old(instance))
      ensures i != newId ==>
        insts == old(insts)[i := old(insts)[i].(options := if old(insts)[i].options.Some? then old(insts)[i].options
                                                           else options)]
    {
      if instance.Some? {
        var existing := instance.value;
        if IsCompatible(existing, options, equal) {
          if options.Some? && insts[existing].options.None? {
            insts := insts[existing := insts[existing].(options := options)];
          }
          return existing;
        }
        insts := insts[newId := Construct(options, active)];
        return newId;
      }
      insts := insts[newId := Construct(options, active)];
      instance := Some(newId);
      return newId;
    }

    /** The sub-loggers are made in the first call; every call withdraws the instance. */
    method Activate(i: Id)
      requires Valid() && i in insts
      modifies this
      ensures Valid()
      ensures instance == if old(instance) == Some(i) then None else old(instance)
      ensures insts == old(insts)[i := if old(insts)[i].claimed then old(insts)[i]
                                       else Inst(true, None, old(insts)[i].made + 1)]
    {
      if !insts[i].claimed {
        insts := insts[i := insts[i].(claimed := true)];
        insts := insts[i := insts[i].(options := None, made := insts[i].made + 1)];
      }
      if instance == Some(i) {
        instance := None;
      }
    }

    method ClearPreActivationInstance()
      modifies this
      ensures instance == None && insts == old(insts)
    {
      instance := None;
    }
  }
}
