/**
  A stop comes to its end: no run of `serve` is longer than its services account for, none stands still before it is
  done, and once the stop was broadcast nothing a service, a connection or the store does or leaves undone is needed.
*/
module StopEnds {
  import opened Wrappers
  import Services
  import opened Stop

  // ----- Every run is bounded

  function PhaseLeft(phase: Phase): nat {
    match phase
    case SettingUp => 8
    case Opening => 7
    case Composing => 6
    case Declaring => 5
    case Binding => 4
    case Looping => 3
    case DrainingDenials => 2
    case ShuttingStore => 1
    case Done => 0
  }

  function TaskLeft(task: Task): nat {
    match task
    case Live(_) => 3
    case Returning(_) => 2
    case Finished(_) => 1
    case Joined(_) => 0
  }

  function TasksLeft(tasks: seq<Task>): nat {
    if tasks == [] then 0 else TasksLeft(tasks[..|tasks| - 1]) + TaskLeft(tasks[|tasks| - 1])
  }

  /** How many steps `s` can still take, apart from those of services not declared yet. */
  function StepsLeft(s: State): nat {
    PhaseLeft(s.phase) + TasksLeft(s.tasks)
    + (match s.halt.until case Watching => 2 case Draining => 1 case Over => 0)
    + (if s.server.Up? then 1 else 0) + (if s.timedOut then 0 else 1)
  }

  lemma {:induction false} OneTaskMoves(tasks: seq<Task>, i: nat, task: Task)
    requires i < |tasks|
    ensures TasksLeft(tasks[i := task]) == TasksLeft(tasks) - TaskLeft(tasks[i]) + TaskLeft(task)
  {
    var front, after := tasks[..|tasks| - 1], tasks[i := task];
    if i < |front| {
      OneTaskMoves(front, i, task);
      assert after[..|after| - 1] == front[i := task];
    } else {
      assert after[..|after| - 1] == front;
    }
  }

  lemma {:induction false} SameRankSameCount(tasks: seq<Task>, after: seq<Task>)
    requires |tasks| == |after| && forall i :: 0 <= i < |tasks| ==> TaskLeft(tasks[i]) == TaskLeft(after[i])
    ensures TasksLeft(tasks) == TasksLeft(after)
  {
    if tasks != [] { SameRankSameCount(tasks[..|tasks| - 1], after[..|after| - 1]); }
  }

  lemma {:induction false} AllLive(tasks: seq<Task>)
    requires forall i :: 0 <= i < |tasks| ==> tasks[i] == Live(false)
    ensures TasksLeft(tasks) == 3 * |tasks|
  {
    if tasks != [] { AllLive(tasks[..|tasks| - 1]); }
  }

  lemma TaskStepsUseOneUp(s: State, step: Step)
    requires Enabled(s, step) && (step.ReturnOk? || step.ReadStop? || step.Finish? || step.Join?)
    ensures |Do(s, step).tasks| == |s.tasks| && StepsLeft(Do(s, step)) < StepsLeft(s)
  {
    OneTaskMoves(s.tasks, step.i, Do(s, step).tasks[step.i]);
    hide TasksLeft;
  }

  lemma StartStepsUseOneUp(s: State, step: Step)
    requires Enabled(s, step) && Starting(s.phase) && s.tasks == []
    ensures var t := Do(s, step);
            StepsLeft(t) - 3 * |t.tasks| < StepsLeft(s) && (Starting(t.phase) ==> t.tasks == [])
  {
    if step.Advance? && s.phase.Binding? { AllLive(Do(s, step).tasks); }
    hide TasksLeft;
  }

  lemma LoopStepsUseOneUp(s: State, step: Step)
    requires Enabled(s, step) && !Starting(s.phase)
    requires !step.ReturnOk? && !step.ReadStop? && !step.Finish? && !step.Join?
    ensures var t := Do(s, step);
            StepsLeft(t) < StepsLeft(s) && |t.tasks| == |s.tasks| && !Starting(t.phase)
  {
    if step.Deadline? { SameRankSameCount(s.tasks, Do(s, step).tasks); }
    hide TasksLeft;
  }

  lemma AStepUsesOneUp(s: State, step: Step)
    requires Enabled(s, step) && (Starting(s.phase) ==> s.tasks == [])
    ensures var t := Do(s, step);
            StepsLeft(t) - 3 * |t.tasks| < StepsLeft(s) - 3 * |s.tasks| && (Starting(t.phase) ==> t.tasks == [])
    ensures !Starting(s.phase) ==> !Starting(Do(s, step).phase) && |Do(s, step).tasks| == |s.tasks|
  {
    if Starting(s.phase) {
      StartStepsUseOneUp(s, step);
    } else if step.ReturnOk? || step.ReadStop? || step.Finish? || step.Join? {
      TaskStepsUseOneUp(s, step);
      LoopStays(s, step);
    } else {
      LoopStepsUseOneUp(s, step);
    }
    hide *;
  }

  lemma LoopStays(s: State, step: Step)
    requires Enabled(s, step) && (step.ReturnOk? || step.ReadStop? || step.Finish? || step.Join?)
    ensures Do(s, step).phase == s.phase
  {}

  lemma {:induction false} RunUsesUp(run: seq<State>, k: nat)
    requires Run(run) && k < |run|
    ensures k + StepsLeft(run[k]) <= 12 + 3 * |run[k].tasks| && (Starting(run[k].phase) ==> run[k].tasks == [])
  {
    if k > 0 {
      RunUsesUp(run, k - 1);
      assert Next(run[k - 1], run[k]);
      var step :| Enabled(run[k - 1], step) && run[k] == Do(run[k - 1], step);
      hide Run, Next, StepsLeft;
      AStepUsesOneUp(run[k - 1], step);
    }
  }

  /** No run of `serve` takes more than twelve steps and three for each service. */
  lemma ARunIsBounded(run: seq<State>)
    requires Run(run)
    ensures |run| - 1 <= 12 + 3 * |run[|run| - 1].tasks|
  {
    RunUsesUp(run, |run| - 1);
  }

  // ----- A stop needs no help

  /** The steps that `serve`, the runtime and its deadlines take by themselves. */
  predicate Unaided(step: Step) {
    || step.WakeForService? || step.StreamsDrained? || step.CutServer? || step.ReadStop? || step.Join? || step.Deadline?
    || step.LeaveLoop? || step == DrainDenials(false) || step == ShutStore(TimedOut)
    || (step.Finish? && step.end.Cancelled?)
  }

  /** A broadcast that the stop future has not heard yet has left it a wake, and after the bound every task that has not
      finished was aborted. */
  ghost predicate Carried(s: State) {
    && (s.halt.cancelled && Serving(s) && s.halt.until.Watching? ==> s.halt.wake)
    && (s.timedOut ==> forall i :: 0 <= i < |s.tasks| && Unfinished(s.tasks[i]) ==> s.tasks[i].aborted)
    && (Starting(s.phase) ==> s.tasks == [] && !s.halt.cancelled && !s.timedOut)
  }

  lemma StepCarries(s: State, step: Step)
    requires Enabled(s, step) && Carried(s)
    ensures Carried(Do(s, step))
  {}

  lemma {:induction false} RunCarries(run: seq<State>, k: nat)
    requires Run(run) && k < |run|
    ensures Carried(run[k])
  {
    if k > 0 {
      RunCarries(run, k - 1);
      assert Next(run[k - 1], run[k]);
      var step :| Enabled(run[k - 1], step) && run[k] == Do(run[k - 1], step);
      hide Run, Next, Carried;
      StepCarries(run[k - 1], step);
    }
  }

  lemma SomethingIsEnabled(s: State) returns (step: Step)
    requires Carried(s) && s.phase != Done && !Starting(s.phase) && (s.phase.Looping? ==> s.halt.cancelled)
    ensures Enabled(s, step) && Unaided(step)
  {
    if s.phase.DrainingDenials? { return DrainDenials(false); }
    if s.phase.ShuttingStore? { return ShutStore(TimedOut); }
    if s.server.Up? {
      match s.halt.until
      case Watching => return WakeForService;
      case Draining => return StreamsDrained(true);
      case Over => return CutServer;
    }
    if AllJoined(s.tasks) { return LeaveLoop; }
    if !s.timedOut { return Deadline; }
    var i: nat :| i < |s.tasks| && !s.tasks[i].Joined?;
    match s.tasks[i]
    case Live(_) => return Finish(i, Services.Cancelled);
    case Returning(_) => return ReadStop(i);
    case Finished(_) => return Join(i);
  }

  ghost predicate NextUnaided(s: State, t: State) {
    exists step :: Unaided(step) && Enabled(s, step) && t == Do(s, step)
  }

  /** The rest of a run, all of whose steps `serve` takes unaided. */
  ghost predicate GoesOn(s: State, more: seq<State>) {
    && (more != [] ==> NextUnaided(s, more[0]))
    && forall k :: 0 <= k < |more| - 1 ==> NextUnaided(more[k], more[k + 1])
  }

  predicate Stopping(s: State) {
    !Starting(s.phase) && (s.phase.Looping? ==> s.halt.cancelled)
  }

  lemma AnUnaidedStep(s: State) returns (t: State)
    requires Carried(s) && Stopping(s) && s.phase != Done
    ensures NextUnaided(s, t) && Carried(t) && Stopping(t) && StepsLeft(t) < StepsLeft(s)
  {
    var step := SomethingIsEnabled(s);
    t := Do(s, step);
    StepCarries(s, step);
    AStepUsesOneUp(s, step);
    hide Carried, StepsLeft;
  }

  lemma {:induction false} ItGoesOn(s: State) returns (more: seq<State>)
    requires Carried(s) && Stopping(s)
    ensures GoesOn(s, more) && |more| <= StepsLeft(s)
    ensures ([s] + more)[|more|].phase == Done
    decreases StepsLeft(s)
  {
    hide Carried, Stopping, StepsLeft, NextUnaided;
    if s.phase == Done { return []; }
    var t := AnUnaidedStep(s);
    var rest := ItGoesOn(t);
    more := [t] + rest;
    forall k | 0 <= k < |more| - 1 ensures NextUnaided(more[k], more[k + 1]) {
      if k > 0 { assert more[k] == rest[k - 1] && more[k + 1] == rest[k]; }
    }
    assert ([s] + more)[|more|] == ([t] + rest)[|rest|];
  }

  lemma UnaidedIsAStep(s: State, t: State)
    requires NextUnaided(s, t)
    ensures Next(s, t)
  {}

  lemma RunAndMore(run: seq<State>, more: seq<State>)
    requires Run(run) && GoesOn(run[|run| - 1], more)
    ensures Run(run + more)
  {
    hide Next, NextUnaided;
    var all, n := run + more, |run|;
    forall k | 0 <= k < |all| - 1 ensures Next(all[k], all[k + 1]) {
      if k >= n - 1 {
        UnaidedIsAStep(all[k], all[k + 1]) by {
          if k >= n { assert all[k] == more[k - n] && all[k + 1] == more[k - n + 1]; }
        }
      }
    }
  }

  /** Once the stop was broadcast, or the loop is left, `serve` ends by steps of its own alone: services that never
      return, connections that never close and a store that never answers do not hold it up. */
  lemma ABroadcastStopEnds(run: seq<State>) returns (more: seq<State>)
    requires Run(run)
    requires var s := run[|run| - 1]; !Starting(s.phase) && (s.phase.Looping? ==> s.halt.cancelled)
    ensures Run(run + more) && GoesOn(run[|run| - 1], more)
    ensures (run + more)[|run + more| - 1].phase == Done
    ensures |run + more| - 1 <= 12 + 3 * |run[|run| - 1].tasks|
  {
    var s := run[|run| - 1];
    assert Stopping(s);
    RunCarries(run, |run| - 1);
    RunUsesUp(run, |run| - 1);
    hide *;
    more := ItGoesOn(s);
    RunAndMore(run, more);
    assert (run + more)[|run + more| - 1] == ([s] + more)[|more|];
  }
}
