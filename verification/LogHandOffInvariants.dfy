/**
 What every step of the CompositeLogger hand-off keeps: control, conservation of events, what the
 sub-loggers hold, the order of deferred entries, the drain count and the timer's view of the options.
 */
module LogHandOffInvariants {
  import opened Prelude
  import opened LogHandOff

  // ---------------------------------------------------------------- control

  /** The winning Activate call has taken the queue away. */
  predicate PastCapture(a: Activation) {
    a.Draining? || a.Activated?
  }

  /** The winning Activate call has assigned the file (console) sub-logger. */
  predicate PastFile(a: Activation) {
    PastCapture(a) || (Locked(a) && !a.SetFile?)
  }

  predicate PastConsole(a: Activation) {
    PastFile(a) && !a.SetConsole?
  }

  ghost predicate Control(w: World, a: Activation) {
    && (w.obj.queue.None? <==> PastCapture(a) || w.hist.discardRan)
    && (w.obj.hasFile <==> PastFile(a))
    && (w.obj.hasConsole <==> PastConsole(a))
    && (w.obj.options ==> w.hist.offered)
    && (w.hist.discarded != [] ==> w.hist.discardRan)
    && (w.hist.discardRan ==> Captured(a) == [])
  }

  lemma ControlLog(w: World, a: Activation, e: Event, pc: LogPc)
    requires Control(w, a) && LogEnabled(a, pc)
    ensures Control(LogBody(w, e, pc).0, a)
  {
  }

  lemma ControlActivation(w: World, a: Activation, extra: bool)
    requires Control(w, a) && ActivationEnabled(a)
    ensures var (w1, a1) := ActivationBody(w, a, extra); Control(w1, a1)
  {
    match a
    case Draining(_, Some(Entry(e, pc)), _) => ControlLog(w, a, e, pc);
    case _ =>
  }

  lemma ControlNext(s: State, a: Action)
    requires Control(s.w, s.activation) && Enabled(s, a)
    ensures Control(Next(s, a).w, Next(s, a).activation)
  {
    match a
    case StepLog(e) => ControlLog(s.w, s.activation, e, s.logs[e]);
    case StepActivation(extra) => ControlActivation(s.w, s.activation, extra);
    case _ =>
  }

  // ---------------------------------------------------------------- every event is in one place

  predicate InFlight(s: State, e: Event) {
    e in s.logs && s.logs[e] != LogDone
  }

  /** What the drain loop still owns: the entry it is logging and the rest of the captured queue. */
  function Captured(a: Activation): seq<Event> {
    if !a.Draining? then [] else if a.current.Some? then [a.current.value.e] + a.rest else a.rest
  }

  /** The places outside the running calls. */
  function Settled(w: World, e: Event): nat {
    Occurs(ToSeq(w.obj.queue), e) + Occurs(w.hist.routed, e) + Occurs(w.hist.discarded, e)
    + Occurs(w.hist.afterDispose, e) + Occurs(w.hist.noSink, e)
  }

  /** In how many places e is, counting repetitions. */
  function Places(s: State, e: Event): nat {
    Bit(InFlight(s, e)) + Occurs(Captured(s.activation), e) + Settled(s.w, e)
  }

  ghost predicate Conserved(s: State, e: Event) {
    Places(s, e) == Bit(e in s.logs)
  }

  /** A Log body hands its event over exactly when it returns, and moves no other event. */
  lemma LogBodySettles(w: World, e: Event, pc: LogPc, x: Event)
    requires pc != LogDone
    ensures var (w1, next) := LogBody(w, e, pc);
      Settled(w1, x) == Settled(w, x) + Bit(x == e && next == LogDone)
  {
    match pc
    case TestDisposed => OccursAppend(w.hist.afterDispose, e, x);
    case Enqueue => OccursAppend(ToSeq(w.obj.queue), e, x);
    case ToExtra(_, _) =>
      OccursAppend(w.hist.routed, e, x);
      OccursAppend(w.hist.noSink, e, x);
    case _ =>
  }

  lemma ActivationConserves(w: World, a: Activation, extra: bool, x: Event)
    requires Control(w, a) && ActivationEnabled(a)
    ensures var (w1, a1) := ActivationBody(w, a, extra);
      Occurs(Captured(a1), x) + Settled(w1, x) == Occurs(Captured(a), x) + Settled(w, x)
  {
    match a
    case Draining(rest, None, _) =>
      if rest != [] {
        assert Captured(ActivationBody(w, a, extra).1) == rest;
      }
    case Draining(rest, Some(Entry(e, pc)), _) =>
      LogBodySettles(w, e, pc, x);
      assert Captured(a)[0] == e && Captured(a)[1..] == rest;
    case _ =>
  }

  lemma ConservedNext(s: State, a: Action, x: Event)
    requires Control(s.w, s.activation) && Enabled(s, a) && Conserved(s, x)
    ensures Conserved(Next(s, a), x)
  {
    match a
    case StepLog(e) => LogBodySettles(s.w, e, s.logs[e], x);
    case StepActivation(extra) => ActivationConserves(s.w, s.activation, extra, x);
    case _ =>
  }

  // ---------------------------------------------------------------- what the sub-loggers receive

  datatype Sink = File | Console | Extra

  function Contents(w: World, k: Sink): seq<Event> {
    match k
    case File => w.sinks.file
    case Console => w.sinks.console
    case Extra => w.sinks.extra
  }

  /** Sub-logger k was there for every event that was routed: the file and the console unless the timer
      had discarded the queue, the additional logger unless a routed event found none. */
  predicate Present(w: World, k: Sink) {
    !w.hist.discardRan && (k.Extra? ==> !w.hist.missedExtra)
  }

  /** A Log body at pc has passed the hand-over to sub-logger k ... */
  predicate Passed(pc: LogPc, k: Sink) {
    match k
    case File => pc.ToConsole? || pc.ToExtra?
    case Console => pc.ToExtra?
    case Extra => false
  }

  /** ... and found it assigned. */
  predicate Taken(pc: LogPc, k: Sink) {
    match k
    case File => (pc.ToConsole? || pc.ToExtra?) && pc.inFile
    case Console => pc.ToExtra? && pc.inConsole
    case Extra => false
  }

  /** A Log body that left the deferred path saw a null queue; it missed a sub-logger only if the
      timer had discarded the queue. */
  predicate Honest(w: World, pc: LogPc) {
    && (pc.ToFile? || pc.ToConsole? || pc.ToExtra? ==> w.obj.queue.None?)
    && (!w.hist.discardRan ==> (pc.ToConsole? ==> pc.inFile) && (pc.ToExtra? ==> pc.inFile && pc.inConsole))
  }

  ghost predicate AllHonest(s: State) {
    && (forall e <- s.logs :: Honest(s.w, s.logs[e]))
    && (s.activation.Draining? && s.activation.current.Some? ==> Honest(s.w, s.activation.current.value.pc))
    && (s.w.hist.noSink != [] ==> s.w.hist.discardRan)
    && (s.w.hist.afterDispose != [] ==> s.w.obj.disposed)
  }

  lemma LogBodyHonest(w: World, a: Activation, e: Event, pc: LogPc)
    requires Control(w, a) && Honest(w, pc) && LogEnabled(a, pc)
    ensures Honest(LogBody(w, e, pc).0, LogBody(w, e, pc).1)
    ensures LogBody(w, e, pc).0.hist.noSink == w.hist.noSink || w.hist.discardRan
    ensures LogBody(w, e, pc).0.hist.afterDispose == w.hist.afterDispose || w.obj.disposed
    ensures SameMode(w, LogBody(w, e, pc).0)
  {
  }

  predicate SameMode(w: World, w1: World) {
    && w1.obj.queue.Some? == w.obj.queue.Some?
    && w1.hist.discardRan == w.hist.discardRan
    && w1.obj.disposed == w.obj.disposed
  }

  lemma AllHonestNext(s: State, a: Action)
    requires Control(s.w, s.activation) && AllHonest(s) && Enabled(s, a)
    ensures AllHonest(Next(s, a))
  {
    match a
    case StepLog(e) => LogBodyHonest(s.w, s.activation, e, s.logs[e]);
    case StepActivation(extra) => AllHonestActivation(s, extra);
    case _ =>
  }

  lemma AllHonestActivation(s: State, extra: bool)
    requires Control(s.w, s.activation) && AllHonest(s) && Enabled(s, StepActivation(extra))
    ensures AllHonest(Next(s, StepActivation(extra)))
  {
    match s.activation
    case Draining(_, Some(Entry(e, pc)), _) => LogBodyHonest(s.w, s.activation, e, pc);
    case _ =>
  }

  /** Running Log bodies that have already handed x to sub-logger k. */
  function Held(logs: map<Event, LogPc>, a: Activation, x: Event, k: Sink): nat {
    Bit(x in logs && Taken(logs[x], k)) + DrainHeld(a, x, k)
  }

  function DrainHeld(a: Activation, x: Event, k: Sink): nat {
    Bit(a.Draining? && a.current.Some? && a.current.value.e == x && Taken(a.current.value.pc, k))
  }

  /** Copies of x in sub-logger k that no routed event and no running call accounts for. */
  function Surplus(s: State, x: Event, k: Sink): int {
    Occurs(Contents(s.w, k), x) - Occurs(s.w.hist.routed, x) - Held(s.logs, s.activation, x, k)
  }

  ghost predicate Accounted(s: State, x: Event, k: Sink) {
    Surplus(s, x, k) <= 0 && (Present(s.w, k) ==> Surplus(s, x, k) == 0)
  }

  function Excess(w: World, x: Event, k: Sink): int {
    Occurs(Contents(w, k), x) - Occurs(w.hist.routed, x)
  }

  lemma LogBodyAccounts(w: World, e: Event, pc: LogPc, x: Event, k: Sink)
    requires pc != LogDone && Honest(w, pc)
    ensures var (w1, next) := LogBody(w, e, pc);
      var change := Excess(w1, x, k) - Excess(w, x, k) - Bit(x == e && Taken(next, k)) + Bit(x == e && Taken(pc, k));
      change <= 0 && (Present(w1, k) ==> change == 0)
  {
    match pc
    case ToFile => OccursAppend(w.sinks.file, e, x);
    case ToConsole(_) => OccursAppend(w.sinks.console, e, x);
    case ToExtra(_, _) =>
      OccursAppend(w.sinks.extra, e, x);
      OccursAppend(w.hist.routed, e, x);
    case _ =>
  }

  lemma ActivationAccounts(w: World, a: Activation, extra: bool, x: Event, k: Sink)
    requires Control(w, a) && ActivationEnabled(a)
    requires a.Draining? && a.current.Some? ==> Honest(w, a.current.value.pc)
    ensures var (w1, a1) := ActivationBody(w, a, extra);
      var change := Excess(w1, x, k) - DrainHeld(a1, x, k) - Excess(w, x, k) + DrainHeld(a, x, k);
      change <= 0 && (Present(w1, k) ==> change == 0 && Present(w, k))
  {
    match a
    case Draining(_, Some(Entry(e, pc)), _) =>
      LogBodyAccounts(w, e, pc, x, k);
      LogBodyHonest(w, a, e, pc);
    case _ =>
  }

  lemma AccountedLog(s: State, e: Event, x: Event, k: Sink)
    requires Control(s.w, s.activation) && AllHonest(s) && Enabled(s, StepLog(e)) && Accounted(s, x, k)
    ensures Accounted(Next(s, StepLog(e)), x, k)
  {
    LogBodyAccounts(s.w, e, s.logs[e], x, k);
    LogBodyHonest(s.w, s.activation, e, s.logs[e]);
  }

  lemma AccountedActivation(s: State, extra: bool, x: Event, k: Sink)
    requires Control(s.w, s.activation) && AllHonest(s) && Enabled(s, StepActivation(extra)) && Accounted(s, x, k)
    ensures Accounted(Next(s, StepActivation(extra)), x, k)
  {
    ActivationAccounts(s.w, s.activation, extra, x, k);
  }

  lemma AccountedNext(s: State, a: Action, x: Event, k: Sink)
    requires Control(s.w, s.activation) && AllHonest(s) && Enabled(s, a) && Accounted(s, x, k)
    ensures Accounted(Next(s, a), x, k)
  {
    match a
    case StepLog(e) => AccountedLog(s, e, x, k);
    case StepActivation(extra) => AccountedActivation(s, extra, x, k);
    case _ =>
  }

  // ---------------------------------------------------------------- the order of deferred entries

  /** s without the elements that are not in keep. */
  function Restrict(s: seq<Event>, keep: seq<Event>): seq<Event> {
    if s == [] then []
    else
      var front := Restrict(s[..|s| - 1], keep);
      if s[|s| - 1] in keep then front + [s[|s| - 1]] else front
  }

  lemma RestrictAppend(s: seq<Event>, x: Event, keep: seq<Event>)
    ensures Restrict(s + [x], keep) == if x in keep then Restrict(s, keep) + [x] else Restrict(s, keep)
  {
    assert (s + [x])[..|s|] == s;
  }

  lemma {:induction false} RestrictGrow(s: seq<Event>, keep: seq<Event>, x: Event)
    requires x !in s
    ensures Restrict(s, keep + [x]) == Restrict(s, keep)
  {
    if s != [] {
      RestrictGrow(s[..|s| - 1], keep, x);
    }
  }

  /** a is b with some elements left out. */
  predicate IsSubsequence(a: seq<Event>, b: seq<Event>) {
    a == [] || (b != [] && (IsSubsequence(a, b[..|b| - 1])
                            || (a[|a| - 1] == b[|b| - 1] && IsSubsequence(a[..|a| - 1], b[..|b| - 1]))))
  }

  lemma SubsequenceSkip(a: seq<Event>, b: seq<Event>, x: Event)
    requires IsSubsequence(a, b)
    ensures IsSubsequence(a, b + [x])
  {
    assert (b + [x])[..|b|] == b;
  }

  lemma SubsequenceTake(a: seq<Event>, b: seq<Event>, x: Event)
    requires IsSubsequence(a, b)
    ensures IsSubsequence(a + [x], b + [x])
  {
    assert (b + [x])[..|b|] == b;
    assert (a + [x])[..|a|] == a;
  }

  /** Deferred entries that sub-logger k has not been offered yet, in enqueue order. */
  function Waiting(w: World, a: Activation, k: Sink): seq<Event> {
    if w.hist.discardRan then w.hist.discarded
    else if a.Draining? then
      if a.current.Some? && !Passed(a.current.value.pc, k) then [a.current.value.e] + a.rest else a.rest
    else ToSeq(w.obj.queue)
  }

  /** The entries of contents that were once enqueued are those of enqueued before the waiting ones,
      in the same order; with exact, none of them is missing. */
  ghost predicate InOrder(contents: seq<Event>, enqueued: seq<Event>, waiting: seq<Event>, exact: bool) {
    && |waiting| <= |enqueued|
    && var offered := enqueued[..|enqueued| - |waiting|];
       && enqueued == offered + waiting
       && IsSubsequence(Restrict(contents, enqueued), offered)
       && (exact ==> Restrict(contents, enqueued) == offered)
  }

  lemma InOrderEnqueue(contents: seq<Event>, enqueued: seq<Event>, waiting: seq<Event>, exact: bool, e: Event)
    requires InOrder(contents, enqueued, waiting, exact) && e !in contents
    ensures InOrder(contents, enqueued + [e], waiting + [e], exact)
  {
    RestrictGrow(contents, enqueued, e);
    var offered := enqueued[..|enqueued| - |waiting|];
    assert (enqueued + [e])[..|enqueued| - |waiting|] == offered;
  }

  lemma InOrderDirect(contents: seq<Event>, enqueued: seq<Event>, waiting: seq<Event>, exact: bool, e: Event)
    requires InOrder(contents, enqueued, waiting, exact) && e !in enqueued
    ensures InOrder(contents + [e], enqueued, waiting, exact)
  {
    RestrictAppend(contents, e, enqueued);
  }

  lemma InOrderDrain(contents: seq<Event>, enqueued: seq<Event>, waiting: seq<Event>, exact: bool)
    requires InOrder(contents, enqueued, waiting, exact) && waiting != []
    ensures InOrder(contents + [waiting[0]], enqueued, waiting[1..], exact)
    ensures InOrder(contents, enqueued, waiting[1..], false)
  {
    var n := |enqueued| - |waiting|;
    assert enqueued[n] == waiting[0];
    assert enqueued[..n + 1] == enqueued[..n] + [waiting[0]];
    RestrictAppend(contents, waiting[0], enqueued);
    SubsequenceTake(Restrict(contents, enqueued), enqueued[..n], waiting[0]);
    SubsequenceSkip(Restrict(contents, enqueued), enqueued[..n], waiting[0]);
  }

  predicate Lossless(w: World) {
    !w.obj.disposed && !w.hist.discardRan
  }

  /** Nothing that was offered to sub-logger k has been lost. */
  predicate Complete(w: World, k: Sink) {
    !w.obj.disposed && Present(w, k)
  }

  /** Sub-logger k gets the deferred entries in enqueue order, and all of those that were offered to it
      as long as nothing is lost. */
  ghost predicate Ordered(w: World, a: Activation, k: Sink) {
    InOrder(Contents(w, k), w.hist.enqueued, Waiting(w, a, k), Complete(w, k))
  }

  /** A step that moves neither the sub-logger's contents nor the waiting entries ... */
  predicate Stays(w: World, a: Activation, w1: World, a1: Activation, k: Sink) {
    && Contents(w1, k) == Contents(w, k)
    && w1.hist.enqueued == w.hist.enqueued
    && Waiting(w1, a1, k) == Waiting(w, a, k)
    && (Complete(w1, k) ==> Complete(w, k))
  }

  /** ... one that hands e over without its having waited ... */
  predicate Hands(w: World, a: Activation, w1: World, e: Event, k: Sink) {
    && Contents(w1, k) == Contents(w, k) + [e]
    && w1.hist.enqueued == w.hist.enqueued
    && Waiting(w1, a, k) == Waiting(w, a, k)
    && (Complete(w1, k) ==> Complete(w, k))
  }

  /** ... one that defers e ... */
  predicate Defers(w: World, a: Activation, w1: World, e: Event, k: Sink) {
    && Contents(w1, k) == Contents(w, k)
    && w1.hist.enqueued == w.hist.enqueued + [e]
    && Waiting(w1, a, k) == Waiting(w, a, k) + [e]
    && (Complete(w1, k) ==> Complete(w, k))
  }

  /** ... and one that takes the first waiting entry, handing it to k unless something is lost. */
  predicate Drains(w: World, a: Activation, w1: World, a1: Activation, k: Sink) {
    && Waiting(w, a, k) != []
    && w1.hist.enqueued == w.hist.enqueued
    && Waiting(w1, a1, k) == Waiting(w, a, k)[1..]
    && (Complete(w1, k) ==> Complete(w, k))
    && (Contents(w1, k) == Contents(w, k) + [Waiting(w, a, k)[0]]
        || (!Complete(w1, k) && Contents(w1, k) == Contents(w, k)))
  }

  lemma LogBodyEffect(w: World, a: Activation, e: Event, pc: LogPc, k: Sink)
    requires Control(w, a) && LogEnabled(a, pc)
    ensures var w1 := LogBody(w, e, pc).0;
      Stays(w, a, w1, a, k) || Hands(w, a, w1, e, k) || (pc.Enqueue? && Defers(w, a, w1, e, k))
  {
  }

  lemma LogBodyOrdered(w: World, a: Activation, e: Event, pc: LogPc, k: Sink)
    requires Control(w, a) && Ordered(w, a, k) && LogEnabled(a, pc)
    requires e !in w.hist.enqueued && (pc.Enqueue? ==> e !in Contents(w, k))
    ensures Ordered(LogBody(w, e, pc).0, a, k)
  {
    LogBodyEffect(w, a, e, pc, k);
    OrderedLog(w, a, LogBody(w, e, pc).0, e, pc.Enqueue?, k);
  }

  lemma OrderedLog(w: World, a: Activation, w1: World, e: Event, enqueues: bool, k: Sink)
    requires Ordered(w, a, k) && e !in w.hist.enqueued && (enqueues ==> e !in Contents(w, k))
    requires Stays(w, a, w1, a, k) || Hands(w, a, w1, e, k) || (enqueues && Defers(w, a, w1, e, k))
    ensures Ordered(w1, a, k)
  {
    if Hands(w, a, w1, e, k) {
      InOrderDirect(Contents(w, k), w.hist.enqueued, Waiting(w, a, k), Complete(w, k), e);
    } else if !Stays(w, a, w1, a, k) {
      InOrderEnqueue(Contents(w, k), w.hist.enqueued, Waiting(w, a, k), Complete(w, k), e);
    }
  }

  lemma DrainBodyEffect(w: World, a: Activation, extra: bool, k: Sink)
    requires Control(w, a) && ActivationEnabled(a) && a.Draining? && a.current.Some?
    ensures var (w1, a1) := ActivationBody(w, a, extra); Stays(w, a, w1, a1, k) || Drains(w, a, w1, a1, k)
  {
    var e, pc := a.current.value.e, a.current.value.pc;
    assert Captured(a)[0] == e;
    assert ([e] + a.rest)[1..] == a.rest;
    match pc
    case TestDisposed =>
    case ToFile =>
    case ToConsole(_) =>
    case ToExtra(_, _) =>
    case _ =>
  }

  lemma DrainEffect(w: World, a: Activation, extra: bool, k: Sink)
    requires Control(w, a) && ActivationEnabled(a) && a.Draining?
    ensures var (w1, a1) := ActivationBody(w, a, extra); Stays(w, a, w1, a1, k) || Drains(w, a, w1, a1, k)
  {
    if a.current.Some? {
      DrainBodyEffect(w, a, extra, k);
    } else if a.rest != [] {
      assert [a.rest[0]] + a.rest[1..] == a.rest;
    }
  }

  lemma OrderedStep(w: World, a: Activation, w1: World, a1: Activation, k: Sink)
    requires Ordered(w, a, k) && (Stays(w, a, w1, a1, k) || Drains(w, a, w1, a1, k))
    ensures Ordered(w1, a1, k)
  {
    if Drains(w, a, w1, a1, k) {
      InOrderDrain(Contents(w, k), w.hist.enqueued, Waiting(w, a, k), Complete(w, k));
    }
  }

  lemma ActivationEffect(w: World, a: Activation, extra: bool, k: Sink)
    requires Control(w, a) && ActivationEnabled(a)
    ensures var (w1, a1) := ActivationBody(w, a, extra); Stays(w, a, w1, a1, k) || Drains(w, a, w1, a1, k)
  {
    if a.Draining? {
      DrainEffect(w, a, extra, k);
    }
  }

  lemma QuietEffect(s: State, a: Action, k: Sink)
    requires Control(s.w, s.activation) && Enabled(s, a) && !a.StepLog? && !a.StepActivation?
    ensures Stays(s.w, s.activation, Next(s, a).w, Next(s, a).activation, k)
  {
  }

  ghost predicate EnqueuedReturned(s: State) {
    forall x :: x in s.w.hist.enqueued ==> x in s.logs && s.logs[x] == LogDone
  }

  lemma EnqueuedReturnedNext(s: State, a: Action)
    requires Control(s.w, s.activation) && Enabled(s, a) && EnqueuedReturned(s)
    ensures EnqueuedReturned(Next(s, a))
  {
  }

  lemma OrderedNext(s: State, a: Action, k: Sink)
    requires Control(s.w, s.activation) && Enabled(s, a) && EnqueuedReturned(s)
    requires Ordered(s.w, s.activation, k)
    requires a.StepLog? ==> Conserved(s, a.e) && Accounted(s, a.e, k)
    ensures Ordered(Next(s, a).w, Next(s, a).activation, k)
  {
    match a
    case StepLog(e) =>
      if s.logs[e].Enqueue? {
        NotYetHandedOver(s, e, k);
      }
      LogBodyOrdered(s.w, s.activation, e, s.logs[e], k);
    case StepActivation(extra) =>
      ActivationEffect(s.w, s.activation, extra, k);
      OrderedStep(s.w, s.activation, Next(s, a).w, Next(s, a).activation, k);
    case _ =>
      QuietEffect(s, a, k);
      OrderedStep(s.w, s.activation, Next(s, a).w, Next(s, a).activation, k);
  }

  /** An event about to be enqueued is in no sub-logger. */
  lemma NotYetHandedOver(s: State, e: Event, k: Sink)
    requires e in s.logs && s.logs[e].Enqueue? && Conserved(s, e) && Accounted(s, e, k)
    ensures e !in Contents(s.w, k)
  {
    OccursMember(Contents(s.w, k), e);
    if DrainHeld(s.activation, e, k) > 0 {
      OccursMember(Captured(s.activation), e);
    }
  }

  // ---------------------------------------------------------------- the drain count

  /** Entries the drain loop has counted or will count. */
  function DrainTotal(w: World, a: Activation): nat {
    match a
    case Draining(rest, current, count) => count + Bit(current.Some?) + |rest|
    case Activated(count) => count
    case _ => |ToSeq(w.obj.queue)|
  }

  ghost predicate Counted(w: World, a: Activation) {
    DrainTotal(w, a) + |w.hist.discarded| == |w.hist.enqueued|
  }

  lemma CountedLog(w: World, a: Activation, e: Event, pc: LogPc)
    requires Control(w, a) && LogEnabled(a, pc) && Counted(w, a)
    ensures Counted(LogBody(w, e, pc).0, a)
  {
  }

  lemma CountedActivation(w: World, a: Activation, extra: bool)
    requires Control(w, a) && ActivationEnabled(a) && Counted(w, a)
    ensures var (w1, a1) := ActivationBody(w, a, extra); Counted(w1, a1)
  {
    match a
    case Draining(_, Some(Entry(e, pc)), _) => CountedLog(w, a, e, pc);
    case _ =>
  }

  lemma CountedNext(s: State, a: Action)
    requires Control(s.w, s.activation) && Enabled(s, a) && Counted(s.w, s.activation)
    ensures Counted(Next(s, a).w, Next(s, a).activation)
  {
    match a
    case StepLog(e) => CountedLog(s.w, s.activation, e, s.logs[e]);
    case StepActivation(extra) => CountedActivation(s.w, s.activation, extra);
    case _ =>
  }

  // ---------------------------------------------------------------- the timer and the options

  /** Activate is about to capture the queue, or has done so. */
  predicate OptionsUsed(a: Activation) {
    a.Capture? || PastCapture(a)
  }

  /** Options that were offered disappear only with the queue, under one hold of the lock. */
  ghost predicate TimerSafe(s: State) {
    && (s.w.hist.offered && !s.w.obj.options ==> OptionsUsed(s.activation))
    && (forall t <- s.calls :: s.calls[t] == TimerDiscard(true) ==> OptionsUsed(s.activation))
  }

  lemma TimerSafeNext(s: State, a: Action)
    requires Control(s.w, s.activation) && Enabled(s, a) && TimerSafe(s)
    ensures TimerSafe(Next(s, a))
  {
  }

  // ---------------------------------------------------------------- all together

  ghost predicate PerEvent(s: State, x: Event) {
    Conserved(s, x) && Accounted(s, x, File) && Accounted(s, x, Console) && Accounted(s, x, Extra)
  }

  ghost predicate Inv(s: State) {
    && Control(s.w, s.activation)
    && AllHonest(s)
    && EnqueuedReturned(s)
    && Counted(s.w, s.activation)
    && TimerSafe(s)
    && Ordered(s.w, s.activation, File)
    && Ordered(s.w, s.activation, Console)
    && Ordered(s.w, s.activation, Extra)
    && forall x :: PerEvent(s, x)
  }

  lemma InvInit(c: Construction)
    ensures Inv(Constructed(c))
  {
    var s := Constructed(c);
    forall x ensures PerEvent(s, x) {
    }
  }

  lemma InvNext(s: State, a: Action)
    requires Inv(s) && Enabled(s, a)
    ensures Inv(Next(s, a))
  {
    assert a.StepLog? ==> PerEvent(s, a.e);
    ControlNext(s, a);
    AllHonestNext(s, a);
    EnqueuedReturnedNext(s, a);
    CountedNext(s, a);
    TimerSafeNext(s, a);
    OrderedNext(s, a, File);
    OrderedNext(s, a, Console);
    OrderedNext(s, a, Extra);
    forall x ensures PerEvent(Next(s, a), x) {
      assert PerEvent(s, x);
      ConservedNext(s, a, x);
      AccountedNext(s, a, x, File);
      AccountedNext(s, a, x, Console);
      AccountedNext(s, a, x, Extra);
    }
  }

  lemma {:induction false} InvRun(s: State, run: seq<Action>)
    requires Inv(s) && Feasible(s, run)
    ensures Inv(Exec(s, run))
    decreases run
  {
    if run != [] {
      InvNext(s, run[0]);
      InvRun(Next(s, run[0]), run[1..]);
    }
  }
}
