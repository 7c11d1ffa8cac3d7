/**
 Who may hold capacity while a worker thread runs: the ingest and query handlers around
 `run_owned_worker`, as a state machine over the event loop, the worker thread, the disconnect
 watcher and the cancellation of the handler. Every program counter is an await.
 */
module Workers {

  datatype Handler = IngestHandler | QueryHandler

  datatype Pc =
    | Preparing          // ingest only: spooling the upload, and the disconnect test after it
    | AwaitWorker        // await shield(wrap_future(future))
    | RewaitWorker       // in the except branch: await wrap_future(future), which is not shielded
    | AwaitWatcher       // in the finally block, after stop_watch.set() and watcher.cancel()
    | FinalWait          // the last await of the finally block
    | AfterWorker        // the handler's own except branches; query awaits is_disconnected there
    | Ended

  datatype Thread = NotStarted | Running | Finished(failed: bool)

  /** The loop's future of the thread: it learns of the thread's end only in a later step. */
  datatype Future = Pending | Resolved(failed: bool) | Abandoned

  datatype Watcher = NoWatcher | Watching | WatcherDone

  datatype State = State(
    handler: Handler,
    pc: Pc,
    thread: Thread,
    future: Future,
    watcher: Watcher,
    stop: bool,          // stop_watch is set
    signalled: bool,     // the operation was told to cancel
    cancels: nat,        // cancellations of the coroutine so far
    releases: nat)       // how often capacity was released

  datatype Step =
    | StartWorker        // preparation succeeded, or none is needed
    | LeaveEarly         // preparation failed, or the client has gone
    | ThreadEnds(failed: bool)
    | FutureResolves
    | TaskResumes        // the await of the coroutine is over
    | WatcherSignals     // the watcher sees the client disconnect
    | WatcherStops       // it saw stop, or the future done, or an error
    | Cancel             // a cancellation is delivered at the current await

  predicate Done(future: Future) {
    future != Pending
  }

  function Initial(handler: Handler): State {
    State(handler, Preparing, NotStarted, Pending, NoWatcher, false, false, 0, 0)
  }

  /** Leaving the handler runs its outer finally block: release, and end. */
  function Leave(s: State): State {
    s.(pc := Ended, releases := s.releases + 1)
  }

  /** Entering the finally block of `run_owned_worker`. */
  function EnterFinally(s: State): State {
    s.(pc := AwaitWatcher, stop := true)
  }

  predicate Enabled(s: State, step: Step) {
    match step
    case StartWorker => s.pc == Preparing
    case LeaveEarly => s.pc == Preparing && s.handler == IngestHandler
    case ThreadEnds(_) => s.thread == Running
    case FutureResolves => s.thread.Finished? && s.future == Pending
    case TaskResumes =>
      || ((s.pc == AwaitWorker || s.pc == RewaitWorker || s.pc == FinalWait) && Done(s.future))
      || s.pc == AwaitWatcher   // it was cancelled, so its await ends
      || s.pc == AfterWorker
    case WatcherSignals => s.watcher == Watching && !s.stop && !Done(s.future)
    case WatcherStops => s.watcher == Watching
    case Cancel => s.pc != Ended
  }

  /** What one step does; the coroutine runs on to its next await. */
  function Next(s: State, step: Step): State
    requires Enabled(s, step)
  {
    match step
    case StartWorker => s.(pc := AwaitWorker, thread := Running, watcher := Watching)
    case LeaveEarly => Leave(s)
    case ThreadEnds(failed) => s.(thread := Finished(failed))
    case FutureResolves => s.(future := Resolved(s.thread.failed))
    case TaskResumes =>
      (match s.pc
       case AwaitWorker => EnterFinally(s)
       case RewaitWorker => EnterFinally(s)
       case AwaitWatcher =>
         var stopped := s.(watcher := WatcherDone);
         if Done(s.future) then stopped.(pc := AfterWorker) else stopped.(pc := FinalWait)
       case FinalWait => s.(pc := AfterWorker)
       case _ => Leave(s))
    case WatcherSignals => s.(signalled := true, watcher := WatcherDone)
    case WatcherStops => s.(watcher := WatcherDone)
    case Cancel =>
      var hit := s.(cancels := s.cancels + 1);
      (match s.pc
       case AwaitWorker =>
         var told := hit.(signalled := true);
         if Done(s.future) then EnterFinally(told) else told.(pc := RewaitWorker)
       case RewaitWorker => EnterFinally(if Done(s.future) then hit else hit.(future := Abandoned))
       case AwaitWatcher =>  // the CancelledError of `await watcher` is swallowed
         var stopped := hit.(watcher := WatcherDone);
         if Done(s.future) then stopped.(pc := AfterWorker) else stopped.(pc := FinalWait)
       case FinalWait => (if Done(s.future) then hit else hit.(future := Abandoned)).(pc := AfterWorker)
       case _ => Leave(hit))
  }

  ghost predicate IsRun(handler: Handler, states: seq<State>, steps: seq<Step>) {
    && |states| == |steps| + 1 && states[0] == Initial(handler)
    && forall i | 0 <= i < |steps| :: Enabled(states[i], steps[i]) && states[i + 1] == Next(states[i], steps[i])
  }

  // ---------------------------------------------------------------- at most one cancellation

  /** Has `run_owned_worker` been left, normally or by an exception? */
  predicate WorkerLeft(s: State) {
    s.pc == AfterWorker || (s.pc == Ended && s.thread != NotStarted)
  }

  ghost predicate Safe(s: State) {
    && s.releases == (if s.pc == Ended then 1 else 0)
    && (s.pc == Preparing ==> s.thread == NotStarted)
    && (s.pc == Ended ==> s.thread != Running)
    && (s.thread == NotStarted ==> s.pc == Preparing || s.pc == Ended)
    && (s.future.Resolved? ==> s.thread == Finished(s.future.failed))
    && s.future != Abandoned
    && (s.pc == RewaitWorker ==> s.cancels >= 1)
    && (s.pc == AwaitWatcher || s.pc == AfterWorker ==> Done(s.future) && s.stop)
    && s.pc != FinalWait
    && (WorkerLeft(s) ==> s.watcher == WatcherDone && s.stop)
  }

  lemma StepKeepsSafe(s: State, step: Step)
    requires Safe(s) && Enabled(s, step) && Next(s, step).cancels <= 1
    ensures Safe(Next(s, step))
  {
  }

  lemma CancelsGrow(s: State, step: Step)
    requires Enabled(s, step)
    ensures s.cancels <= Next(s, step).cancels
  {
  }

  lemma {:induction false} RunKeepsSafe(handler: Handler, states: seq<State>, steps: seq<Step>, n: nat)
    requires IsRun(handler, states, steps) && n < |states| && states[n].cancels <= 1
    ensures Safe(states[n])
  {
    if n > 0 {
      assert Enabled(states[n - 1], steps[n - 1]) && states[n] == Next(states[n - 1], steps[n - 1]);
      CancelsGrow(states[n - 1], steps[n - 1]);
      RunKeepsSafe(handler, states, steps, n - 1);
      StepKeepsSafe(states[n - 1], steps[n - 1]);
    }
  }

  /**
   In every interleaving with at most one cancellation of the coroutine: `run_owned_worker` is left only
   once its thread has ended and its watcher is gone; capacity is released exactly once, when the
   handler ends, and never while the thread runs; the last await of the finally block is never needed.
   */
  lemma CapacityHeldWhileRunning(handler: Handler, states: seq<State>, steps: seq<Step>, n: nat)
    requires IsRun(handler, states, steps) && n < |states| && states[n].cancels <= 1
    ensures WorkerLeft(states[n]) ==> states[n].thread.Finished? && states[n].watcher == WatcherDone
    ensures states[n].releases == (if states[n].pc == Ended then 1 else 0)
    ensures states[n].releases > 0 ==> states[n].thread != Running
    ensures states[n].pc != FinalWait
  {
    RunKeepsSafe(handler, states, steps, n);
  }

  /** Once ended the handler releases nothing more and starts nothing more. */
  lemma EndedStays(s: State, step: Step)
    requires s.pc == Ended && Enabled(s, step)
    ensures Next(s, step).pc == Ended && Next(s, step).releases == s.releases
    ensures s.thread == NotStarted ==> Next(s, step).thread == NotStarted
  {
  }

  // ---------------------------------------------------------------- progress

  /** The step the coroutine, or the thread it waits for, takes next when nothing interferes. */
  function NextOwn(s: State): Step
    requires s.pc != Ended
  {
    if s.pc == Preparing then StartWorker
    else if s.pc == AwaitWatcher || s.pc == AfterWorker || Done(s.future) then TaskResumes
    else if s.thread == Running then ThreadEnds(false)
    else FutureResolves
  }

  function Remaining(s: State): nat {
    (match s.pc
     case Preparing => 6
     case AwaitWorker => 3
     case RewaitWorker => 3
     case AwaitWatcher => 2
     case FinalWait => 2
     case AfterWorker => 1
     case Ended => 0)
    + (if s.thread == Running then 1 else 0) + (if s.future == Pending then 1 else 0)
  }

  /** No state with at most one cancellation is stuck: its own next step is enabled and brings the end nearer. */
  lemma HandlerProgresses(s: State)
    requires Safe(s) && s.pc != Ended
    ensures Enabled(s, NextOwn(s)) && Remaining(Next(s, NextOwn(s))) < Remaining(s)
  {
  }

  // ---------------------------------------------------------------- why two cancellations are too many

  function After(s: State, steps: seq<Step>): State
    requires AllEnabled(s, steps)
    decreases |steps|
  {
    if steps == [] then s else After(Next(s, steps[0]), steps[1..])
  }

  predicate AllEnabled(s: State, steps: seq<Step>)
    decreases |steps|
  {
    steps == [] || (Enabled(s, steps[0]) && AllEnabled(Next(s, steps[0]), steps[1..]))
  }

  /** The wait of the except branch is not shielded: a second cancellation there releases capacity too early. */
  lemma SecondCancellationReleasesEarly(handler: Handler)
    ensures var steps := [StartWorker, Cancel, Cancel, TaskResumes, TaskResumes];
            && AllEnabled(Initial(handler), steps)
            && var s := After(Initial(handler), steps);
               s.cancels == 2 && s.releases == 1 && s.thread == Running
  {
    var s0 := Initial(handler);
    var s1 := Next(s0, StartWorker);
    var s2 := Next(s1, Cancel);
    var s3 := Next(s2, Cancel);
    var s4 := Next(s3, TaskResumes);
    var s5 := Next(s4, TaskResumes);
    var steps := [StartWorker, Cancel, Cancel, TaskResumes, TaskResumes];
    assert steps[1..] == [Cancel, Cancel, TaskResumes, TaskResumes];
    assert steps[1..][1..] == [Cancel, TaskResumes, TaskResumes];
    assert steps[1..][1..][1..] == [TaskResumes, TaskResumes];
    assert steps[1..][1..][1..][1..] == [TaskResumes];
    assert AllEnabled(s4, [TaskResumes]) && After(s4, [TaskResumes]) == s5;
    assert AllEnabled(s3, [TaskResumes, TaskResumes]) && After(s3, [TaskResumes, TaskResumes]) == s5;
    assert AllEnabled(s2, [Cancel, TaskResumes, TaskResumes]) && After(s2, [Cancel, TaskResumes, TaskResumes]) == s5;
  }

  // ---------------------------------------------------------------- exactly when capacity is released early

  /** The step that loses the worker: a cancellation in an unshielded wait for an unfinished future. */
  predicate Loses(s: State, step: Step) {
    step == Cancel && (s.pc == RewaitWorker || s.pc == FinalWait) && s.future == Pending
  }

  /** The invariant of runs without such a step, however many cancellations they have. */
  ghost predicate Owned(s: State) {
    Safe(s.(cancels := if s.cancels == 0 then 0 else 1))
  }

  lemma StepKeepsOwned(s: State, step: Step)
    requires Owned(s) && Enabled(s, step) && !Loses(s, step)
    ensures Owned(Next(s, step))
  {
  }

  /** Until a cancellation hits an unshielded wait no run loses its worker, and that step always does. */
  lemma {:induction false} OwnedUntilLost(handler: Handler, states: seq<State>, steps: seq<Step>, n: nat)
    requires IsRun(handler, states, steps) && n < |states|
    requires forall i | 0 <= i < n :: !Loses(states[i], steps[i])
    ensures Owned(states[n])
  {
    if n > 0 {
      OwnedUntilLost(handler, states, steps, n - 1);
      assert Enabled(states[n - 1], steps[n - 1]) && states[n] == Next(states[n - 1], steps[n - 1]);
      StepKeepsOwned(states[n - 1], steps[n - 1]);
    }
  }

  /** After such a step the handler can end, and release, before the future of its thread resolves. */
  lemma LostMeansEarlyRelease(s: State)
    requires Owned(s) && Loses(s, Cancel) && Enabled(s, Cancel)
    ensures var s1 := Next(s, Cancel);
            && Enabled(s1, TaskResumes)
            && var s2 := Next(s1, TaskResumes);
               && Enabled(s2, TaskResumes)
               && Next(s2, TaskResumes).releases == 1 && Next(s2, TaskResumes).thread == s.thread
               && !Next(s2, TaskResumes).future.Resolved?
  {
  }
}
