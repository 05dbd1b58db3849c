/**
 FileLogger: producers, the queue, the semaphore and the background writer
 (src/Elastic.OpenTelemetry.Core/Diagnostics/FileLogger.cs).

 Any number of producers enqueue a line and then release the semaphore, as two steps.  The writer's
 wait, dequeue, disposal check and write are separate steps, in its main loop and in the flush loop
 after cancellation.  Disposal sets the flag, cancels, releases, waits with a timeout, then disposes
 the stream.  A line is named by its producer, so lines are distinct.
 */
module FileLogger {
  import opened Prelude

  type Tid = nat
  type Line = nat

  datatype Writer =
    | Waiting
    | Dequeue(flushing: bool)
    | Check(line: Line, flushing: bool)
    | Write(line: Line, flushing: bool)
    | Stopped

  datatype Disposer =
    | Exchange
    | Cancel
    | Release
    | Await
    | CloseStream
    | Finished
    | TurnedAway    // another call was first

  datatype State = State(
    queue: seq<Line>,
    permits: nat,
    disposed: bool,
    cancelled: bool,
    closed: bool,
    writer: Writer,
    releasing: set<Line>,          // producers between Enqueue and Release
    disposers: map<Tid, Disposer>,
    // history
    written: seq<Line>,
    enqueued: seq<Line>,
    lost: seq<Line>,               // taken off the queue and not written
    writtenAtDispose: nat,
    acquired: nat)                 // permits the writer has taken

  datatype Action =
    | ProducerEnqueues(line: Line)
    | ProducerReleases(line: Line)
    | WriterAcquires
    | WriterSeesCancellation
    | WriterStep
    | BeginDispose(t: Tid)
    | DisposerStep(t: Tid)

  function Start(): State {
    State([], 0, false, false, false, Waiting, {}, map[], [], [], [], 0, 0)
  }

  predicate Enabled(s: State, a: Action) {
    match a
    case ProducerEnqueues(line) => line !in s.enqueued
    case ProducerReleases(line) => line in s.releasing
    case WriterAcquires => s.writer == Waiting && s.permits > 0
    case WriterSeesCancellation => s.writer == Waiting && s.cancelled
    case WriterStep => s.writer != Waiting && s.writer != Stopped
    case BeginDispose(t) => t !in s.disposers
    case DisposerStep(t) => t in s.disposers && s.disposers[t] != Finished && s.disposers[t] != TurnedAway
  }

  function WriterNext(s: State): State
    requires Enabled(s, WriterStep)
  {
    match s.writer
    case Dequeue(flushing) =>
      if s.queue == [] then s.(writer := if flushing then Stopped else Waiting)
      else s.(queue := s.queue[1..], writer := Check(s.queue[0], flushing))
    case Check(line, flushing) =>
      if s.disposed then s.(writer := Stopped, lost := s.lost + [line])
      else s.(writer := Write(line, flushing))
    case Write(line, flushing) =>
      // WriteLineAsync throws ObjectDisposedException once the stream is closed
      if s.closed then s.(writer := Stopped, lost := s.lost + [line])
      else s.(writer := Dequeue(flushing), written := s.written + [line])
  }

  function DisposerNext(s: State, t: Tid): State
    requires Enabled(s, DisposerStep(t))
  {
    match s.disposers[t]
    case Exchange =>
      if s.disposed then s.(disposers := s.disposers[t := TurnedAway])
      else s.(disposed := true, writtenAtDispose := |s.written|, disposers := s.disposers[t := Cancel])
    case Cancel => s.(cancelled := true, disposers := s.disposers[t := Release])
    case Release => s.(permits := s.permits + 1, disposers := s.disposers[t := Await])
    case Await => s.(disposers := s.disposers[t := CloseStream])  // writer finished, or the wait timed out
    case CloseStream => s.(closed := true, disposers := s.disposers[t := Finished])
  }

  function Next(s: State, a: Action): State
    requires Enabled(s, a)
  {
    match a
    case ProducerEnqueues(line) =>
      s.(queue := s.queue + [line], enqueued := s.enqueued + [line], releasing := s.releasing + {line})
    case ProducerReleases(line) => s.(permits := s.permits + 1, releasing := s.releasing - {line})
    case WriterAcquires => s.(permits := s.permits - 1, writer := Dequeue(false), acquired := s.acquired + 1)
    case WriterSeesCancellation => s.(writer := Dequeue(true))
    case WriterStep => WriterNext(s)
    case BeginDispose(t) => s.(disposers := s.disposers[t := Exchange])
    case DisposerStep(t) => DisposerNext(s, t)
  }

  predicate Feasible(s: State, run: seq<Action>)
    decreases run
  {
    run == [] || (Enabled(s, run[0]) && Feasible(Next(s, run[0]), run[1..]))
  }

  function Exec(s: State, run: seq<Action>): State
    requires Feasible(s, run)
    decreases run
  {
    if run == [] then s else Exec(Next(s, run[0]), run[1..])
  }

  // ---------------------------------------------------------------- invariants

  function InHand(w: Writer): seq<Line> {
    if w.Check? || w.Write? then [w.line] else []
  }

  /** Lines move from the queue through the writer's hand to the file, in order; at most one is lost,
      and then the writer has stopped. */
  ghost predicate Fifo(s: State) {
    && s.enqueued == (s.written + s.lost) + (InHand(s.writer) + s.queue)
    && |s.lost| <= Bit(s.writer == Stopped)
  }

  lemma Regroup(written: seq<Line>, line: Line, queue: seq<Line>)
    ensures (written + []) + ([line] + queue) == (written + [line]) + ([] + queue)
    ensures (written + []) + ([line] + queue) == ((written + [line]) + []) + ([] + queue)
  {
  }

  lemma FifoTaken(s: State)
    requires Fifo(s) && (s.writer.Check? || s.writer.Write?)
    ensures Fifo(WriterNext(s))
  {
    assert s.lost == [];
    Regroup(s.written, s.writer.line, s.queue);
  }

  lemma FifoDequeue(s: State)
    requires Fifo(s) && s.writer.Dequeue?
    ensures Fifo(WriterNext(s))
  {
    if s.queue != [] {
      assert InHand(s.writer) + s.queue == [s.queue[0]] + s.queue[1..];
    }
  }

  lemma FifoWriter(s: State)
    requires Fifo(s) && Enabled(s, WriterStep)
    ensures Fifo(WriterNext(s))
  {
    if s.writer.Dequeue? {
      FifoDequeue(s);
    } else {
      FifoTaken(s);
    }
  }

  lemma FifoNext(s: State, a: Action)
    requires Fifo(s) && Enabled(s, a)
    ensures Fifo(Next(s, a))
  {
    match a
    case WriterStep => FifoWriter(s);
    case _ =>
  }

  /** No lost wakeup: whatever is queued while the writer waits is covered by permits, present or due. */
  ghost predicate Covered(s: State) {
    && (s.writer == Waiting ==> |s.queue| <= s.permits + |s.releasing|)
    && (forall line <- s.releasing :: line in s.enqueued)
  }

  lemma CoveredEnqueue(s: State, line: Line)
    requires Covered(s) && Enabled(s, ProducerEnqueues(line))
    ensures Covered(Next(s, ProducerEnqueues(line)))
  {
    assert line !in s.releasing;
    CardAdd(s.releasing, line);
  }

  lemma CoveredRelease(s: State, line: Line)
    requires Covered(s) && Enabled(s, ProducerReleases(line))
    ensures Covered(Next(s, ProducerReleases(line)))
  {
    CardRemove(s.releasing, line);
  }

  lemma CoveredNext(s: State, a: Action)
    requires Covered(s) && Enabled(s, a)
    ensures Covered(Next(s, a))
  {
    match a
    case ProducerEnqueues(line) => CoveredEnqueue(s, line);
    case ProducerReleases(line) => CoveredRelease(s, line);
    case WriterStep => CoveredWriter(s);
    case _ =>
  }

  lemma CoveredWriter(s: State)
    requires Covered(s) && Enabled(s, WriterStep)
    ensures Covered(WriterNext(s))
  {
  }

  /** The flag is set before cancellation, which precedes closing, so the flush loop finds it set. */
  ghost predicate Shutdown(s: State) {
    && (s.cancelled ==> s.disposed)
    && (s.closed ==> s.disposed)
    && (forall t <- s.disposers :: s.disposers[t] != Exchange ==> s.disposed)
    && ((s.writer.Dequeue? || s.writer.Check? || s.writer.Write?) && s.writer.flushing ==> s.disposed)
    && (s.writer.Write? ==> !s.writer.flushing)
    && (s.disposed ==> |s.written| + Bit(s.writer.Write?) <= s.writtenAtDispose + 1)
    && (s.writer == Stopped ==> s.disposed)
  }

  lemma ShutdownNext(s: State, a: Action)
    requires Shutdown(s) && Enabled(s, a)
    ensures Shutdown(Next(s, a))
  {
  }

  ghost predicate Inv(s: State) {
    Fifo(s) && Covered(s) && Shutdown(s)
  }

  lemma {:induction false} InvRun(s: State, run: seq<Action>)
    requires Inv(s) && Feasible(s, run)
    ensures Inv(Exec(s, run))
    decreases run
  {
    if run != [] {
      FifoNext(s, run[0]);
      CoveredNext(s, run[0]);
      ShutdownNext(s, run[0]);
      InvRun(Next(s, run[0]), run[1..]);
    }
  }

  // ---------------------------------------------------------------- in every run

  /** While the writer waits, each queued line is matched by a permit that is available or about to be
      released; so a writer that cannot wake has nothing left to do: if no permit is there and no
      producer is between its two steps, every line enqueued has been written, in order. */
  lemma NoLostWakeup(run: seq<Action>)
    requires Feasible(Start(), run) && Exec(Start(), run).writer == Waiting
    ensures var s := Exec(Start(), run);
      && |s.queue| <= s.permits + |s.releasing|
      && (s.permits == 0 && s.releasing == {} ==> s.written == s.enqueued)
  {
    InvRun(Start(), run);
    var s := Exec(Start(), run);
    if s.queue == [] {
      assert s.lost == [] && (s.written + s.lost) + (InHand(s.writer) + s.queue) == s.written;
    }
  }

  /** In every run, disposed or not, the lines written are a prefix of the enqueue order, and a writer
      that has not stopped has lost none: the rest is in its hand or queued. */
  lemma WrittenIsPrefix(run: seq<Action>)
    requires Feasible(Start(), run)
    ensures var s := Exec(Start(), run);
      && s.written <= s.enqueued
      && s.enqueued == s.written + s.lost + InHand(s.writer) + s.queue
      && |s.lost| <= 1
      && (s.writer != Stopped ==> s.lost == [])
  {
    InvRun(Start(), run);
    var s := Exec(Start(), run);
    assert s.enqueued == s.written + (s.lost + (InHand(s.writer) + s.queue));
  }

  /** Disposal ends writing: after the flag is set at most one more line, already past its check, is
      written.  In particular the flush loop never writes a line. */
  lemma DisposalStopsWriting(run: seq<Action>)
    requires Feasible(Start(), run)
    ensures var s := Exec(Start(), run);
      && (s.disposed ==> |s.written| <= s.writtenAtDispose + 1)
      && !(s.writer.Write? && s.writer.flushing)
  {
    InvRun(Start(), run);
  }

  // ---------------------------------------------------------------- permits and the disposal gate

  predicate PastGate(d: Disposer) {
    d != Exchange && d != TurnedAway
  }

  predicate PastRelease(d: Disposer) {
    d == Await || d == CloseStream || d == Finished
  }

  /** The disposals that have released the semaphore. */
  function Releasers(disposers: map<Tid, Disposer>): set<Tid> {
    set t | t in disposers && PastRelease(disposers[t])
  }

  lemma ReleasersStep(disposers: map<Tid, Disposer>, t: Tid, d: Disposer)
    requires t !in disposers || !PastRelease(disposers[t]) || PastRelease(d)
    ensures var more := PastRelease(d) && t !in Releasers(disposers);
      |Releasers(disposers[t := d])| == |Releasers(disposers)| + Bit(more)
  {
    if PastRelease(d) && t !in Releasers(disposers) {
      assert Releasers(disposers[t := d]) == Releasers(disposers) + {t};
      CardAdd(Releasers(disposers), t);
    } else {
      assert Releasers(disposers[t := d]) == Releasers(disposers);
    }
  }

  ghost predicate OneDisposal(s: State) {
    forall t <- s.disposers :: PastGate(s.disposers[t]) ==>
      s.disposed && forall u <- s.disposers :: PastGate(s.disposers[u]) ==> u == t
  }

  /** Permits are neither lost nor made up. */
  ghost predicate Balance(s: State) {
    && s.permits + s.acquired + |s.releasing| == |s.enqueued| + |Releasers(s.disposers)|
    && (forall line <- s.releasing :: line in s.enqueued)
  }

  lemma OneDisposalNext(s: State, a: Action)
    requires OneDisposal(s) && Enabled(s, a)
    ensures OneDisposal(Next(s, a))
  {
  }

  lemma BalanceProducer(s: State, a: Action)
    requires Balance(s) && Enabled(s, a) && (a.ProducerEnqueues? || a.ProducerReleases?)
    ensures Balance(Next(s, a))
  {
    if a.ProducerEnqueues? {
      assert a.line !in s.releasing;
      CardAdd(s.releasing, a.line);
    } else {
      CardRemove(s.releasing, a.line);
    }
  }

  lemma BalanceDisposer(s: State, t: Tid)
    requires Balance(s) && Enabled(s, DisposerStep(t))
    ensures Balance(DisposerNext(s, t))
  {
    ReleasersStep(s.disposers, t, DisposerNext(s, t).disposers[t]);
  }

  lemma BalanceNext(s: State, a: Action)
    requires Balance(s) && Enabled(s, a)
    ensures Balance(Next(s, a))
  {
    match a
    case ProducerEnqueues(_) => BalanceProducer(s, a);
    case ProducerReleases(_) => BalanceProducer(s, a);
    case DisposerStep(t) => BalanceDisposer(s, t);
    case BeginDispose(t) => ReleasersStep(s.disposers, t, Exchange);
    case _ =>
  }

  lemma {:induction false} BalanceRun(s: State, run: seq<Action>)
    requires Balance(s) && OneDisposal(s) && Feasible(s, run)
    ensures Balance(Exec(s, run)) && OneDisposal(Exec(s, run))
    decreases run
  {
    if run != [] {
      BalanceNext(s, run[0]);
      OneDisposalNext(s, run[0]);
      BalanceRun(Next(s, run[0]), run[1..]);
    }
  }

  /** In every run each line accounts for one permit: available, taken by the writer or about to be
      released; disposal adds one, and only one call ever gets past its gate. */
  lemma PermitsBalance(run: seq<Action>, t: Tid, u: Tid)
    requires Feasible(Start(), run)
    ensures var s := Exec(Start(), run);
      && s.permits + s.acquired + |s.releasing| == |s.enqueued| + |Releasers(s.disposers)|
      && (t in s.disposers && u in s.disposers && PastGate(s.disposers[t]) && PastGate(s.disposers[u]) ==> t == u)
  {
    assert Releasers(map[]) == {};
    BalanceRun(Start(), run);
  }

  predicate WritersOwn(more: seq<Action>) {
    forall i | 0 <= i < |more| :: more[i] == WriterStep || more[i] == WriterSeesCancellation
  }

  /** After cancellation the writer, left alone, stops. */
  lemma WriterStops(s: State) returns (more: seq<Action>)
    requires s.disposed && s.cancelled
    ensures Feasible(s, more) && WritersOwn(more) && Exec(s, more).writer == Stopped
    decreases if s.writer.Write? then 5 else if s.writer == Dequeue(false) then 4 else if s.writer == Waiting then 3
              else if s.writer.Dequeue? then 2 else if s.writer.Check? then 1 else 0
  {
    if s.writer == Stopped {
      return [];
    }
    var a := if s.writer == Waiting then WriterSeesCancellation else WriterStep;
    var rest := WriterStops(Next(s, a));
    more := [a] + rest;
    assert more[1..] == rest && more[0] == a;
  }

  // ---------------------------------------------------------------- when disposal flushes

  /** Call t is about to set the disposed flag. */
  predicate DisposalBegins(s: State, t: Tid) {
    t in s.disposers && s.disposers[t] == Exchange && !s.disposed
  }

  /** After the flag is set in state s, only a write that was already under way can still succeed. */
  predicate AfterFlag(s: State, end: State) {
    && end.disposed
    && (end.written == s.written || (s.writer.Write? && end.written == s.written + [s.writer.line]))
    && (end.writer.Write? ==> end.writer == s.writer && end.written == s.written)
  }

  lemma AfterFlagNext(s: State, end: State, a: Action)
    requires AfterFlag(s, end) && Enabled(end, a)
    ensures AfterFlag(s, Next(end, a))
  {
  }

  lemma {:induction false} AfterFlagRun(s: State, end: State, more: seq<Action>)
    requires AfterFlag(s, end) && Feasible(end, more)
    ensures AfterFlag(s, Exec(end, more))
    decreases more
  {
    if more != [] {
      AfterFlagNext(s, end, more[0]);
      AfterFlagRun(s, Next(end, more[0]), more[1..]);
    }
  }

  /** In every run and every continuation: the lines enqueued before disposal began are all written
      exactly if none was queued or waiting for the writer's check, and the write under way, if there
      was one, succeeded. */
  lemma FlushedExactlyIf(run: seq<Action>, t: Tid, more: seq<Action>)
    requires Feasible(Start(), run) && DisposalBegins(Exec(Start(), run), t)
    requires Feasible(Next(Exec(Start(), run), DisposerStep(t)), more)
    ensures var s := Exec(Start(), run);
      var end := Exec(Next(s, DisposerStep(t)), more);
      s.enqueued <= end.written
      <==> s.queue == [] && !s.writer.Check? && (s.writer.Write? ==> end.written == s.written + [s.writer.line])
  {
    InvRun(Start(), run);
    var s := Exec(Start(), run);
    AfterFlagRun(s, Next(s, DisposerStep(t)), more);
    assert s.lost == [];
    assert s.enqueued == s.written + (InHand(s.writer) + s.queue);
  }

  lemma {:induction false} ExecConcat(s: State, run: seq<Action>, more: seq<Action>)
    requires Feasible(s, run) && Feasible(Exec(s, run), more)
    ensures Feasible(s, run + more) && Exec(s, run + more) == Exec(Exec(s, run), more)
    decreases run
  {
    if run == [] {
      assert run + more == more;
    } else {
      ExecConcat(Next(s, run[0]), run[1..], more);
      assert (run + more)[1..] == run[1..] + more;
    }
  }

  lemma ExecStep(s: State, run: seq<Action>, a: Action)
    requires Feasible(s, run) && Enabled(Exec(s, run), a)
    ensures Feasible(s, run + [a]) && Exec(s, run + [a]) == Next(Exec(s, run), a)
  {
    var last := [a];
    assert last[1..] == [];
    ExecConcat(s, run, last);
  }

  /** The disposing call goes on to close the stream while the writer does nothing. */
  lemma DisposerCloses(s: State, t: Tid) returns (more: seq<Action>)
    requires t in s.disposers && s.disposers[t] == Cancel
    ensures Feasible(s, more)
    ensures var end := Exec(s, more);
      && end.cancelled && end.closed && end.permits == s.permits + 1
      && end.disposed == s.disposed && end.written == s.written
      && end.writer == s.writer && end.queue == s.queue
  {
    more := [];
    var step := DisposerStep(t);
    ExecStep(s, more, step);
    more := more + [step];
    ExecStep(s, more, step);
    more := more + [step];
    ExecStep(s, more, step);
    more := more + [step];
    ExecStep(s, more, step);
    more := more + [step];
  }

  /** Then a writer that has or finds a line stops without writing anything. */
  lemma WriterGivesUp(s: State) returns (more: seq<Action>)
    requires s.disposed && s.cancelled && s.closed && s.writer != Stopped
    requires s.queue != [] || InHand(s.writer) != []
    ensures Feasible(s, more) && Exec(s, more).writer == Stopped && Exec(s, more).written == s.written
    decreases if s.writer == Waiting then 2 else if s.writer.Dequeue? then 1 else 0
  {
    var a := if s.writer == Waiting then WriterSeesCancellation else WriterStep;
    var rest := [];
    if s.writer == Waiting || s.writer.Dequeue? {
      rest := WriterGivesUp(Next(s, a));
    }
    more := [a] + rest;
    assert more[1..] == rest;
  }

  /** The promise to flush, kept whatever the schedule: every continuation in which the writer stops
      has written all lines enqueued before disposal began, if and only if none was queued or in the
      writer's hand at that point. */
  lemma FlushPromise(run: seq<Action>, t: Tid)
    requires Feasible(Start(), run) && DisposalBegins(Exec(Start(), run), t)
    ensures var s := Exec(Start(), run);
      var begun := Next(s, DisposerStep(t));
      (forall more | Feasible(begun, more) && Exec(begun, more).writer == Stopped ::
         s.enqueued <= Exec(begun, more).written)
      <==> s.queue == [] && InHand(s.writer) == []
  {
    InvRun(Start(), run);
    var s := Exec(Start(), run);
    var begun := Next(s, DisposerStep(t));
    if s.queue == [] && InHand(s.writer) == [] {
      forall more | Feasible(begun, more) ensures s.enqueued <= Exec(begun, more).written {
        FlushedExactlyIf(run, t, more);
      }
    } else {
      var closing := DisposerCloses(begun, t);
      var giving := WriterGivesUp(Exec(begun, closing));
      ExecConcat(begun, closing, giving);
      FlushedExactlyIf(run, t, closing + giving);
    }
  }

  /** A line enqueued before disposal is lost in an actual run: the writer takes it off the queue
      after the flag is set. */
  lemma QueuedLineIsLost() returns (run: seq<Action>, more: seq<Action>)
    ensures Feasible(Start(), run) && DisposalBegins(Exec(Start(), run), 0)
    ensures Exec(Start(), run).enqueued == [7]
    ensures var begun := Next(Exec(Start(), run), DisposerStep(0));
      Feasible(begun, more)
      && Exec(begun, more).writer == Stopped && Exec(begun, more).written == [] && Exec(begun, more).lost == [7]
  {
    run := [];
    ExecStep(Start(), run, ProducerEnqueues(7));
    run := run + [ProducerEnqueues(7)];
    ExecStep(Start(), run, ProducerReleases(7));
    run := run + [ProducerReleases(7)];
    ExecStep(Start(), run, BeginDispose(0));
    run := run + [BeginDispose(0)];
    var begun := Next(Exec(Start(), run), DisposerStep(0));
    more := [];
    ExecStep(begun, more, WriterAcquires);
    more := more + [WriterAcquires];
    ExecStep(begun, more, WriterStep);
    more := more + [WriterStep];
    ExecStep(begun, more, WriterStep);
    more := more + [WriterStep];
  }

  // ---------------------------------------------------------------- the logger object

  /** What the writer's inner loop leaves when nobody else acts: everything queued is written, unless
      disposal has begun or the stream is closed, when the first line is lost and the rest stays. */
  class FileLogger {
    var logQueue: seq<Line>
    var semaphore: nat
    var disposed: bool
    var cancelled: bool
    var closed: bool
    var written: seq<Line>

    constructor ()
      ensures logQueue == [] && semaphore == 0 && !disposed && !cancelled && !closed && written == []
    {
      logQueue, semaphore, disposed, cancelled, closed, written := [], 0, false, false, false, [];
    }

    method Log(line: Line)
      modifies this`logQueue, this`semaphore
      ensures logQueue == old(logQueue) + [line] && semaphore == old(semaphore) + 1
    {
      logQueue := logQueue + [line];
      semaphore := semaphore + 1;
    }

    /** The writer's loop over the queue, in the main part and in the flush part alike. */
    method WriteQueued() returns (stopped: bool)
      modifies this`logQueue, this`written
      ensures stopped <==> (disposed || closed) && old(logQueue) != []
      ensures stopped ==> written == old(written) && logQueue == old(logQueue)[1..]
      ensures !stopped ==> written == old(written) + old(logQueue) && logQueue == []
    {
      while logQueue != []
        invariant written + logQueue == old(written) + old(logQueue)
        invariant (disposed || closed) ==> written == old(written) && logQueue == old(logQueue)
        decreases |logQueue|
      {
        var logEntry := logQueue[0];
        assert logQueue == [logEntry] + logQueue[1..];
        logQueue := logQueue[1..];
        if disposed {
          return true;
        }
        if closed {
          return true;
        }
        written := written + [logEntry];
      }
      return false;
    }

    /** The flag goes first: whatever the writer still takes off the queue, it does not write. */
    method Dispose()
      modifies this
      ensures disposed && logQueue == old(logQueue) && written == old(written)
      ensures if old(disposed) then cancelled == old(cancelled) && closed == old(closed) && semaphore == old(semaphore)
              else cancelled && closed && semaphore == old(semaphore) + 1
    {
      if disposed {
        return;
      }
      disposed := true;
      cancelled := true;
      semaphore := semaphore + 1;
      closed := true;
    }
  }
}
