/**
 RemoteConfigMessageListener: the copy-on-write compare-and-swap loop of Subscribe, and the snapshots
 that HandleMessage dispatches over
 (src/Elastic.OpenTelemetry.OpAmp/OpAmp/RemoteConfigMessageListener.cs).

 Arrays live in a heap and are compared by reference, as Interlocked.CompareExchange does; an array is
 never written after it has been built.  Any number of subscribers run Subscribe under any schedule,
 each read of the field, each array construction and each exchange being a step.
 */
module SubscriberList {
  import opened Prelude
  import JsonScanner

  type Subscriber = nat
  type Ref = nat
  type Reader = nat

  datatype Pc =
    | Read
    | Build(current: Ref)
    | Swap(current: Ref, updated: Ref)

  datatype State = State(
    heap: seq<seq<Subscriber>>,
    field: Ref,                        // _subscribers
    loops: map<Subscriber, Pc>,        // Subscribe calls that have not returned
    snapshots: map<Reader, Ref>,       // what HandleMessage calls are dispatching over
    // history
    waiting: set<Subscriber>,          // subscribers whose exchange has not succeeded yet
    published: seq<Ref>,               // values the field has had
    order: seq<Subscriber>,            // in the order of successful exchanges
    failures: nat)

  datatype Action =
    | Begin(t: Subscriber)
    | Step(t: Subscriber)
    | TakeSnapshot(r: Reader)

  function Start(subscribers: set<Subscriber>): State {
    State([[]], 0, map[], map[], subscribers, [0], [], 0)
  }

  predicate Enabled(s: State, a: Action) {
    match a
    case Begin(t) => t in s.waiting && t !in s.loops
    case Step(t) => t in s.loops && (s.loops[t].Build? ==> s.loops[t].current < |s.heap|)
    case TakeSnapshot(r) => r !in s.snapshots
  }

  function StepNext(s: State, t: Subscriber): State
    requires Enabled(s, Step(t))
  {
    match s.loops[t]
    case Read => s.(loops := s.loops[t := Build(s.field)])
    case Build(current) =>
      s.(heap := s.heap + [s.heap[current] + [t]], loops := s.loops[t := Swap(current, |s.heap|)])
    case Swap(current, updated) =>
      if s.field == current then
        s.(field := updated, loops := s.loops - {t}, waiting := s.waiting - {t},
           published := s.published + [updated], order := s.order + [t])
      else
        s.(loops := s.loops[t := Read], failures := s.failures + 1)
  }

  function Next(s: State, a: Action): State
    requires Enabled(s, a)
  {
    match a
    case Begin(t) => s.(loops := s.loops[t := Read])
    case Step(t) => StepNext(s, t)
    case TakeSnapshot(r) => s.(snapshots := s.snapshots[r := s.field])
  }

  predicate Feasible(s: State, run: seq<Action>)
    decreases run
  {
    run == [] || (Enabled(s, run[0]) && Feasible(Next(s, run[0]), run[1..]))
  }

  function Exec(s: State, run: seq<Action>): State
    requires Feasible(s, run)
    decreases run
  {
    if run == [] then s else Exec(Next(s, run[0]), run[1..])
  }

  // ---------------------------------------------------------------- contents

  /** The field's i-th value holds the first i subscribers in exchange order. */
  ghost predicate Published(s: State) {
    && |s.published| == |s.order| + 1
    && s.field == s.published[|s.order|]
    && (forall i | 0 <= i < |s.published| :: s.published[i] < |s.heap| && s.heap[s.published[i]] == s.order[..i])
  }

  /** A loop holds a reference the field has had, and an array of its own that extends it. */
  ghost predicate LoopOk(s: State, t: Subscriber)
    requires t in s.loops
  {
    && t in s.waiting
    && (s.loops[t].Build? ==> s.loops[t].current in s.published)
    && (s.loops[t].Swap? ==>
          && s.loops[t].current in s.published
          && s.loops[t].current < |s.heap|
          && s.loops[t].updated < |s.heap|
          && s.loops[t].updated !in s.published
          && s.heap[s.loops[t].updated] == s.heap[s.loops[t].current] + [t])
  }

  ghost predicate Loops(s: State) {
    && (forall r <- s.published :: r < |s.heap|)
    && (forall t <- s.loops :: LoopOk(s, t))
    && (forall t <- s.loops, u <- s.loops ::
          s.loops[t].Swap? && s.loops[u].Swap? && s.loops[t].updated == s.loops[u].updated ==> t == u)
  }

  lemma PublishedNext(s: State, a: Action)
    requires Published(s) && Loops(s) && Enabled(s, a)
    ensures Published(Next(s, a))
  {
    if a.Step? && s.loops[a.t].Swap? && s.field == s.loops[a.t].current {
      assert LoopOk(s, a.t);
      assert s.order + [a.t] == (s.order + [a.t])[..|s.order| + 1];
    }
  }

  lemma LoopsNext(s: State, a: Action)
    requires Published(s) && Loops(s) && Enabled(s, a)
    ensures Loops(Next(s, a))
  {
  }

  // ---------------------------------------------------------------- each subscriber once

  ghost predicate Distinct(s: seq<Subscriber>) {
    forall i, j | 0 <= i < j < |s| :: s[i] != s[j]
  }

  ghost predicate Whole(s: State, subscribers: set<Subscriber>) {
    && Distinct(s.order)
    && (forall t <- s.order :: t !in s.waiting)
    && (forall t :: t in subscribers <==> t in s.waiting || t in s.order)
    && |s.waiting| + |s.order| == |subscribers|
  }

  lemma WholeNext(s: State, a: Action, subscribers: set<Subscriber>)
    requires Loops(s) && Whole(s, subscribers) && Enabled(s, a)
    ensures Whole(Next(s, a), subscribers)
  {
    if a.Step? && s.loops[a.t].Swap? && s.field == s.loops[a.t].current {
      assert LoopOk(s, a.t);
      CardRemove(s.waiting, a.t);
    }
  }

  // ---------------------------------------------------------------- failed exchanges

  predicate IsStale(s: State, pc: Pc) {
    (pc.Build? || pc.Swap?) && pc.current != s.field
  }

  /** Loops that have read a value the field no longer has. */
  function Stale(s: State): set<Subscriber> {
    set t | t in s.loops && IsStale(s, s.loops[t])
  }

  /** The k-th success can spoil the attempt of at most the n - k subscribers still waiting. */
  function Losses(n: nat, k: nat): nat
    requires k <= n
  {
    if k == 0 then 0 else Losses(n, k - 1) + (n - k)
  }

  lemma {:induction false} LossesTotal(n: nat, k: nat)
    requires k <= n
    ensures 2 * Losses(n, k) == k * (2 * n - k - 1)
    ensures Losses(n, k) <= Losses(n, n)
    decreases n - k, k
  {
    LossesClosedForm(n, k);
    if k < n {
      LossesTotal(n, k + 1);
    }
  }

  lemma {:induction false} LossesClosedForm(n: nat, k: nat)
    requires k <= n
    ensures 2 * Losses(n, k) == k * (2 * n - k - 1)
  {
    if k > 0 {
      LossesClosedForm(n, k - 1);
    }
  }

  ghost predicate FewFailures(s: State, n: nat) {
    |s.order| <= n && s.failures + |Stale(s)| <= Losses(n, |s.order|)
  }

  lemma FewFailuresSwap(s: State, t: Subscriber, subscribers: set<Subscriber>)
    requires Loops(s) && Whole(s, subscribers) && FewFailures(s, |subscribers|)
    requires Enabled(s, Step(t)) && s.loops[t].Swap?
    ensures FewFailures(StepNext(s, t), |subscribers|)
  {
    var s1 := StepNext(s, t);
    assert LoopOk(s, t);
    if s.field == s.loops[t].current {
      WholeNext(s, Step(t), subscribers);
      forall u <- Stale(s1) ensures u in s1.waiting {
        assert LoopOk(s, u);
      }
      CardSubset(Stale(s1), s1.waiting);
    } else {
      assert Stale(s1) == Stale(s) - {t};
      CardRemove(Stale(s), t);
    }
  }

  lemma FewFailuresNext(s: State, a: Action, subscribers: set<Subscriber>)
    requires Loops(s) && Whole(s, subscribers) && FewFailures(s, |subscribers|) && Enabled(s, a)
    ensures FewFailures(Next(s, a), |subscribers|)
  {
    if a.Step? && s.loops[a.t].Swap? {
      FewFailuresSwap(s, a.t, subscribers);
    } else {
      assert Stale(Next(s, a)) == Stale(s);
    }
  }

  // ---------------------------------------------------------------- snapshots

  ghost predicate SnapshotsOk(s: State) {
    forall r <- s.snapshots :: s.snapshots[r] in s.published
  }

  lemma SnapshotsOkNext(s: State, a: Action)
    requires Published(s) && SnapshotsOk(s) && Enabled(s, a)
    ensures SnapshotsOk(Next(s, a))
  {
  }

  // ---------------------------------------------------------------- in every run

  ghost predicate Inv(s: State, subscribers: set<Subscriber>) {
    && Published(s) && Loops(s) && Whole(s, subscribers)
    && FewFailures(s, |subscribers|) && SnapshotsOk(s)
  }

  lemma InvInit(subscribers: set<Subscriber>)
    ensures Inv(Start(subscribers), subscribers)
  {
    assert Stale(Start(subscribers)) == {};
  }

  lemma {:induction false} InvRun(s: State, run: seq<Action>, subscribers: set<Subscriber>)
    requires Inv(s, subscribers) && Feasible(s, run)
    ensures Inv(Exec(s, run), subscribers)
    decreases run
  {
    if run != [] {
      PublishedNext(s, run[0]);
      LoopsNext(s, run[0]);
      WholeNext(s, run[0], subscribers);
      FewFailuresNext(s, run[0], subscribers);
      SnapshotsOkNext(s, run[0]);
      InvRun(Next(s, run[0]), run[1..], subscribers);
    }
  }

  /** The array in the field lists the subscribers whose exchange has succeeded, each once, in exchange
      order; when no subscriber is left waiting that is all of them.  Over the whole run at most
      N(N-1)/2 exchanges fail. */
  lemma SubscribersListedOnce(subscribers: set<Subscriber>, run: seq<Action>)
    requires Feasible(Start(subscribers), run)
    ensures var s := Exec(Start(subscribers), run);
      && s.field < |s.heap|
      && s.heap[s.field] == s.order
      && Distinct(s.order)
      && (forall t :: t in subscribers && t !in s.waiting <==> t in s.order)
      && 2 * s.failures <= |subscribers| * (|subscribers| - 1)
  {
    InvInit(subscribers);
    InvRun(Start(subscribers), run, subscribers);
    var s := Exec(Start(subscribers), run);
    LossesTotal(|subscribers|, |s.order|);
    LossesTotal(|subscribers|, |subscribers|);
    assert s.order[..|s.order|] == s.order;
  }

  /** A snapshot taken by HandleMessage stays a prefix of every later list of subscribers. */
  lemma SnapshotsArePrefixes(subscribers: set<Subscriber>, run: seq<Action>, r: Reader)
    requires Feasible(Start(subscribers), run) && r in Exec(Start(subscribers), run).snapshots
    ensures var s := Exec(Start(subscribers), run);
      s.snapshots[r] < |s.heap| && s.field < |s.heap| && s.heap[s.snapshots[r]] <= s.heap[s.field]
  {
    InvInit(subscribers);
    InvRun(Start(subscribers), run, subscribers);
    var s := Exec(Start(subscribers), run);
    var i :| 0 <= i < |s.published| && s.published[i] == s.snapshots[r];
  }

  lemma {:induction false} SnapshotKept(s: State, r: Reader, content: seq<Subscriber>, more: seq<Action>)
    requires r in s.snapshots && s.snapshots[r] < |s.heap| && s.heap[s.snapshots[r]] == content && Feasible(s, more)
    ensures var end := Exec(s, more);
      r in end.snapshots && end.snapshots[r] < |end.heap| && end.heap[end.snapshots[r]] == content
    decreases more
  {
    if more != [] {
      SnapshotKept(Next(s, more[0]), r, content, more[1..]);
    }
  }

  /** A snapshot holds exactly the subscribers whose exchange had succeeded when it was taken, whatever
      is subscribed while HandleMessage dispatches over it. */
  lemma SnapshotIsCurrent(subscribers: set<Subscriber>, run: seq<Action>, r: Reader, more: seq<Action>)
    requires Feasible(Start(subscribers), run) && r !in Exec(Start(subscribers), run).snapshots
    requires Feasible(Next(Exec(Start(subscribers), run), TakeSnapshot(r)), more)
    ensures var s := Exec(Start(subscribers), run);
      var end := Exec(Next(s, TakeSnapshot(r)), more);
      r in end.snapshots && end.snapshots[r] < |end.heap| && end.heap[end.snapshots[r]] == s.order
  {
    SubscribersListedOnce(subscribers, run);
    var s := Exec(Start(subscribers), run);
    SnapshotKept(Next(s, TakeSnapshot(r)), r, s.order, more);
  }

  /** A Subscribe call that has begun ends only by listing its subscriber. */
  lemma {:induction false} SubscribeIsNotAbandoned(s: State, t: Subscriber, more: seq<Action>)
    requires (t in s.loops || t in s.order) && Feasible(s, more)
    ensures t in Exec(s, more).loops || t in Exec(s, more).order
    decreases more
  {
    if more != [] {
      SubscribeIsNotAbandoned(Next(s, more[0]), t, more[1..]);
    }
  }

  /** Subscribe by itself succeeds at its first exchange and adds its subscriber at the end. */
  lemma SubscribeAlone(s: State, t: Subscriber) returns (run: seq<Action>)
    requires Enabled(s, Begin(t)) && s.field < |s.heap|
    ensures Feasible(s, run)
    ensures var end := Exec(s, run);
      && end.order == s.order + [t] && end.failures == s.failures && t !in end.loops
      && end.field < |end.heap| && end.heap[end.field] == s.heap[s.field] + [t]
  {
    var s1 := Next(s, Begin(t));
    var s2 := Next(s1, Step(t));
    var s3 := Next(s2, Step(t));
    run := [Step(t)];
    assert run[1..] == [] && Feasible(s3, run) && Exec(s3, run) == Next(s3, Step(t));
    run := Before(s2, Step(t), run);
    run := Before(s1, Step(t), run);
    run := Before(s, Begin(t), run);
  }

  lemma Before(s: State, a: Action, rest: seq<Action>) returns (run: seq<Action>)
    requires Enabled(s, a) && Feasible(Next(s, a), rest)
    ensures Feasible(s, run) && Exec(s, run) == Exec(Next(s, a), rest)
  {
    run := [a] + rest;
    assert run[1..] == rest;
  }

  // ---------------------------------------------------------------- the listener object

  /** One entry of a message's agent configuration map. */
  datatype AgentConfig = AgentConfig(contentType: string, body: JsonScanner.Bytes)

  /** The object behind the steps above.  An undisturbed Subscribe is one Read, Build and Swap. */
  class RemoteConfigMessageListener {
    var subscribers: array<Subscriber>

    constructor ()
      ensures fresh(subscribers) && subscribers[..] == []
    {
      subscribers := new Subscriber[0];
    }

    /** The copy that Subscribe builds; the array copied from is left alone. */
    method Extended(current: array<Subscriber>, subscriber: Subscriber) returns (updated: array<Subscriber>)
      ensures fresh(updated) && updated[..] == current[..] + [subscriber]
    {
      updated := new Subscriber[current.Length + 1];
      for i := 0 to current.Length
        invariant updated[..i] == current[..i]
        invariant forall j | 0 <= j < current.Length :: current[j] == old(current[j])
      {
        updated[i] := current[i];
      }
      updated[current.Length] := subscriber;
      assert updated[..current.Length] == current[..];
    }

    /** Interlocked.CompareExchange on the field, by reference. */
    method CompareExchange(updated: array<Subscriber>, current: array<Subscriber>) returns (seen: array<Subscriber>)
      modifies this
      ensures seen == old(subscribers)
      ensures subscribers == if old(subscribers) == current then updated else old(subscribers)
    {
      seen := subscribers;
      if subscribers == current {
        subscribers := updated;
      }
    }

    /** The level a message carries is that of its elastic entry, if that is JSON with a log level; every
        subscriber of the snapshot is then notified once, in order.  Any other message reaches nobody. */
    method HandleMessage(message: map<string, AgentConfig>)
      returns (level: Option<JsonScanner.Bytes>, notified: seq<Subscriber>)
      ensures if "elastic" in message && message["elastic"].contentType == "application/json"
              then level == JsonScanner.Scan(message["elastic"].body, JsonScanner.Quoted(JsonScanner.LOG_LEVEL))
              else level == None
      ensures notified == if level.Some? then subscribers[..] else []
    {
      level, notified := None, [];
      if "elastic" !in message {
        return;
      }
      var config := message["elastic"];
      if config.contentType != "application/json" {
        return;
      }
      var parser := new JsonScanner.CentralConfigJsonParser(config.body);
      level := parser.TryParseLogLevel();
      if level.None? {
        return;
      }
      var snapshot := subscribers;
      for i := 0 to snapshot.Length
        invariant notified == snapshot[..i]
      {
        notified := notified + [snapshot[i]];
      }
    }

    /** One undisturbed pass of the loop succeeds: the list grows by the subscriber, in a new array, so
        that a snapshot taken before keeps its contents. */
    method Subscribe(subscriber: Subscriber)
      modifies this
      ensures subscribers[..] == old(subscribers[..]) + [subscriber]
      ensures fresh(subscribers) && old(subscribers)[..] == old(subscribers[..])
    {
      var current := subscribers;
      var updated := Extended(current, subscriber);
      var seen := CompareExchange(updated, current);
      assert seen == current;
    }
  }
}
