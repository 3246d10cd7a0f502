/**
 * The render thread: it runs the tasks posted with `queueEvent` one at a time, in
 * the order they were posted. `Drain` is the state once the render thread has
 * caught up with everything queued so far, before the main thread does anything else.
 */
module RenderThread {
  import opened EngineState

  /** Run `tasks`, oldest first. */
  function RunTasks(s: Engine, tasks: seq<Task>): (t: Engine)
    decreases |tasks|
    ensures RenderTaskFrame(s, t)
    ensures t.rendererDestroyed == (s.rendererDestroyed || DestroyRenderer in tasks)
    // the render thread can arm the return-to-blur runnable but never cancels it
    ensures s.blurTimerPending ==> t.blurTimerPending
    // only a toggle can arm it, and not while the detail view is open
    ensures s.detailMode || ToggleThenDelayBlur !in tasks ==>
      t.blurTimerPending == s.blurTimerPending
  {
    if tasks == [] then s
    else
      assert tasks == [tasks[0]] + tasks[1..];
      RunTasks(ApplyTask(s, tasks[0]), tasks[1..])
  }

  /** The render thread runs every queued task. */
  function Drain(s: Engine): (t: Engine)
    ensures t.queue == []
    ensures t.rendererDestroyed == (s.rendererDestroyed || DestroyRenderer in s.queue)
    ensures Inv(s) ==> Inv(t)
    ensures t.visible == s.visible && t.detailMode == s.detailMode
    ensures t.validDoubleTap == s.validDoubleTap && t.tapTimeoutPending == s.tapTimeoutPending
    ensures t.lockReceiverRegistered == s.lockReceiverRegistered && t.alive == s.alive
    ensures t.framesRequested == s.framesRequested
  {
    RunTasks(s.(queue := []), s.queue)
  }

  /** Running the tasks of `tasks + [last]` is running `tasks`, then `last`. */
  lemma {:induction false} RunTasksSnoc(s: Engine, tasks: seq<Task>, last: Task)
    ensures RunTasks(s, tasks + [last]) == ApplyTask(RunTasks(s, tasks), last)
    decreases |tasks|
  {
    if tasks == [] {
      assert [] + [last] == [last];
    } else {
      assert (tasks + [last])[1..] == tasks[1..] + [last];
      RunTasksSnoc(ApplyTask(s, tasks[0]), tasks[1..], last);
    }
  }

  /** A queued task's effect does not depend on what else is queued. */
  lemma ApplyTaskIgnoresQueue(s: Engine, task: Task, q: seq<Task>)
    ensures ApplyTask(s, task).(queue := q) == ApplyTask(s.(queue := q), task)
  {
  }

  /**
   * Draining is taking the head task one step at a time: after the render thread
   * has run the head task, draining the rest ends where draining everything does.
   */
  lemma DrainRunsHeadFirst(s: Engine)
    requires s.queue != []
    ensures Drain(RunHead(s)) == Drain(s)
  {
    var q := s.queue;
    ApplyTaskIgnoresQueue(s.(queue := q[1..]), q[0], []);
    assert RunTasks(s.(queue := []), q) == RunTasks(ApplyTask(s.(queue := []), q[0]), q[1..]);
  }

  /** Whatever was queued before it, the last queued blur value is the one the renderer keeps. */
  lemma DrainSettlesOnLastSetBlurred(s: Engine, earlier: seq<Task>, b: bool, animate: bool)
    requires s.queue == earlier + [SetBlurred(b, animate)]
    ensures Drain(s).blurred == b
    ensures Drain(s).blurTimerPending == RunTasks(s.(queue := []), earlier).blurTimerPending
  {
    RunTasksSnoc(s.(queue := []), earlier, SetBlurred(b, animate));
  }
}
