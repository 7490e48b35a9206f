/**
  The promises of the ordered stop, over every run of one process.
*/
module StopLaws {
  import opened Wrappers
  import opened Services
  import opened Stop

  function Of(b: bool): nat {
    if b then 1 else 0
  }

  function Times(trace: seq<Event>, e: Event): nat {
    multiset(trace)[e]
  }

  predicate IsJoined(tasks: seq<Task>, i: nat) {
    i < |tasks| && tasks[i].Joined?
  }

  predicate Ending(phase: Phase) {
    phase.DrainingDenials? || phase.ShuttingStore? || phase.Done?
  }

  predicate HasKernel(reached: Reached) {
    reached.Composed? || reached.Listening?
  }

  /** How often each thing was done. */
  function Expected(s: State, e: Event): nat {
    match e
    case Broadcast => Of(s.halt.cancelled)
    case ServerOver => Of(!s.server.Up?)
    case JoinedService(i) => Of(IsJoined(s.tasks, i))
    case DenialsDrained => Of(HasKernel(s.reached) && (s.phase.ShuttingStore? || s.phase.Done?))
    case StoreShut => Of(!s.reached.Nothing? && s.phase.Done?)
  }

  predicate LastIs(trace: seq<Event>, back: nat, e: Event) {
    |trace| > back && trace[|trace| - 1 - back] == e
  }

  predicate OrderOk(phase: Phase, reached: Reached, trace: seq<Event>) {
    && (phase.ShuttingStore? && HasKernel(reached) ==> LastIs(trace, 0, DenialsDrained))
    && (phase.Done? && !reached.Nothing? ==> LastIs(trace, 0, StoreShut))
    && (phase.Done? && HasKernel(reached) ==> LastIs(trace, 1, DenialsDrained))
  }

  predicate PhaseOk(s: State) {
    && (s.phase.SettingUp? || s.phase.Opening? ==> s.reached.Nothing?)
    && (s.phase.Composing? ==> s.reached.Booted?)
    && (s.phase.Declaring? || s.phase.Binding? ==> s.reached.Composed?)
    && (s.phase.Looping? ==> s.reached.Listening?)
    && (s.phase.DrainingDenials? ==> HasKernel(s.reached))
    && (s.phase.ShuttingStore? ==> !s.reached.Nothing?)
    && (s.early.Some? <==> Ending(s.phase) && !s.reached.Listening?)
    && (s.reached.Listening? ==> s.phase.Looping? || Ending(s.phase))
    && (s.reached.Listening? && Ending(s.phase) ==> !s.server.Up? && AllJoined(s.tasks))
    && (!s.reached.Listening? ==> s.tasks == [] && s.server.Up? && s.halt == START.halt)
    && (s.notes.drained.Some? <==> HasKernel(s.reached) && (s.phase.ShuttingStore? || s.phase.Done?))
    && (s.notes.shut.Some? <==> !s.reached.Nothing? && s.phase.Done?)
  }

  predicate CauseOk(server: Server, halt: Halt) {
    && (!server.Up? || !halt.until.Watching? || halt.fault || halt.failed.Some? ==> halt.cancelled)
    && (halt.until.Over? || server.Up? || server == Returned(false))
  }

  /** A task ended as completed only after the broadcast, and as cancelled only after it was aborted. */
  predicate TaskOk(task: Task, i: nat, cancelled: bool, aborted: set<nat>) {
    match task
    case Live(told) => told ==> i in aborted
    case Returning(told) => told ==> i in aborted
    case Finished(end) => (end == ReturnedOk(true) ==> cancelled) && (end.Cancelled? ==> i in aborted)
    case Joined(end) => (end == ReturnedOk(true) ==> cancelled) && (end.Cancelled? ==> i in aborted)
  }

  predicate TasksOk(tasks: seq<Task>, cancelled: bool, aborted: set<nat>) {
    forall i :: 0 <= i < |tasks| ==> TaskOk(tasks[i], i, cancelled, aborted)
  }

  predicate JoinedAs(tasks: seq<Task>, reason: Reason) {
    reason.service < |tasks| && tasks[reason.service].Joined? &&
      Judge(reason.service, tasks[reason.service].end) == Failed(reason)
  }

  /** A reason stands in the record exactly when what it says happened. */
  predicate Happened(s: State, o: Observation) {
    match o
    case OfService(reason) => if reason.ServiceJoinTimeout? then reason.service in s.notes.aborted
      else JoinedAs(s.tasks, reason)
    case ConnectionDrainOverrun => s.server.Cut?
    case DenialsAbandoned => s.notes.drained == Some(false)
    case StoreTimeout => s.notes.shut == Some(TimedOut)
    case StoreError => s.notes.shut == Some(Refused)
    case StreamDrainOverrun => s.notes.overran
    case StorageTerminal => s.phase.Done? && s.reached.Listening? && s.halt.fault &&
      (s.server != Returned(false) || s.halt.failed.Some?)
    case ServeError => s.phase.Done? && s.reached.Listening? && s.server == Returned(false) && s.halt.failed.Some?
  }

  /** Joining service `i` is what the stop was broadcast over. */
  predicate CausedBy(trace: seq<Event>, i: nat) {
    exists at :: 0 <= at < |trace| - 1 && trace[at] == JoinedService(i) && trace[at + 1] == Broadcast
  }

  /** The service whose failure was the stop's first cause was joined as failed, and the stop followed at once. */
  predicate FailureNamed(s: State) {
    match s.halt.failed
    case None => true
    case Some(i) => IsJoined(s.tasks, i) && Judge(i, s.tasks[i].end).Failed? && CausedBy(s.trace, i)
  }

  predicate OverranOk(s: State) {
    s.notes.overran ==> s.halt.until.Over?
  }

  ghost predicate Inv(s: State) {
    && PhaseOk(s) && CauseOk(s.server, s.halt) && TasksOk(s.tasks, s.halt.cancelled, s.notes.aborted) &&
       FailureNamed(s) && OverranOk(s)
    && OrderOk(s.phase, s.reached, s.trace)
    && (forall e :: Times(s.trace, e) == Expected(s, e))
    && (forall o :: o in s.reasons <==> Happened(s, o))
  }

  // ----- Phases and causes

  lemma StepKeepsPhase(s: State, step: Step)
    requires PhaseOk(s) && Enabled(s, step)
    ensures PhaseOk(Do(s, step))
  {}

  lemma StepKeepsCause(s: State, step: Step)
    requires CauseOk(s.server, s.halt) && PhaseOk(s) && Enabled(s, step)
    ensures CauseOk(Do(s, step).server, Do(s, step).halt)
  {}

  lemma StepKeepsOrder(s: State, step: Step)
    requires OrderOk(s.phase, s.reached, s.trace) && PhaseOk(s) && Enabled(s, step)
    ensures var t := Do(s, step); OrderOk(t.phase, t.reached, t.trace)
  {}

  lemma StepKeepsTasks(s: State, step: Step)
    requires TasksOk(s.tasks, s.halt.cancelled, s.notes.aborted) && Enabled(s, step)
    ensures var t := Do(s, step); TasksOk(t.tasks, t.halt.cancelled, t.notes.aborted)
  {}

  lemma JoinedStays(s: State, step: Step, i: nat)
    requires Enabled(s, step) && PhaseOk(s) && i < |s.tasks| && s.tasks[i].Joined?
    ensures i < |Do(s, step).tasks| && Do(s, step).tasks[i] == s.tasks[i]
  {}

  lemma CauseStays(trace: seq<Event>, more: seq<Event>, i: nat)
    requires trace <= more && CausedBy(trace, i)
    ensures CausedBy(more, i)
  {
    var at :| 0 <= at < |trace| - 1 && trace[at] == JoinedService(i) && trace[at + 1] == Broadcast;
    assert more[at] == JoinedService(i) && more[at + 1] == Broadcast;
  }

  lemma TraceGrows(s: State, step: Step)
    requires Enabled(s, step)
    ensures s.trace <= Do(s, step).trace
    ensures s.halt.failed.Some? && CauseOk(s.server, s.halt) ==> Do(s, step).halt.failed == s.halt.failed
    ensures !step.Join? ==> Do(s, step).halt.failed == s.halt.failed
  {}

  lemma JoinKeepsFailureNamed(s: State, i: nat)
    requires s.halt.failed == None && i < |s.tasks| && s.tasks[i].Finished?
    ensures FailureNamed(JoinService(s, i))
  {
    var t := JoinService(s, i);
    if t.halt.failed.Some? {
      assert t.trace == s.trace + [JoinedService(i), Broadcast];
      assert t.trace[|s.trace|] == JoinedService(i) && t.trace[|s.trace| + 1] == Broadcast;
    }
  }

  lemma StepKeepsFailureNamed(s: State, step: Step)
    requires FailureNamed(s) && PhaseOk(s) && CauseOk(s.server, s.halt) && Enabled(s, step)
    ensures FailureNamed(Do(s, step))
  {
    TraceGrows(s, step);
    if s.halt.failed.Some? {
      var i := s.halt.failed.value;
      JoinedStays(s, step, i);
      CauseStays(s.trace, Do(s, step).trace, i);
      hide Do, PhaseOk, CausedBy;
    } else if step.Join? {
      JoinKeepsFailureNamed(s, step.i);
    }
  }

  // ----- The record

  lemma JoinRecords(s: State, i: nat, o: Observation)
    requires (o in s.reasons <==> Happened(s, o)) && i < |s.tasks| && s.tasks[i].Finished? && !s.phase.Done?
    ensures var t := JoinService(s, i); o in t.reasons <==> Happened(t, o)
  {}

  lemma AbortRecords(s: State, o: Observation)
    requires (o in s.reasons <==> Happened(s, o)) && !s.phase.Done?
    ensures var t := AbortLive(s); o in t.reasons <==> Happened(t, o)
  {
    var t := AbortLive(s);
    var named := set i | i in Overdue(s.tasks) :: OfService(ServiceJoinTimeout(i));
    if o.OfService? && o.reason.ServiceJoinTimeout? {
      assert o in named <==> o.reason.service in Overdue(s.tasks);
    } else {
      assert o !in named;
      assert forall i :: 0 <= i < |s.tasks| ==> (t.tasks[i].Joined? <==> s.tasks[i].Joined?);
    }
  }

  lemma ShutRecords(s: State, answer: StoreAnswer, o: Observation)
    requires (o in s.reasons <==> Happened(s, o)) && s.notes.shut == None && s.phase.ShuttingStore?
    ensures var t := StoreIsShut(s, answer); o in t.reasons <==> Happened(t, o)
  {}

  lemma DrainRecords(s: State, complete: bool, o: Observation)
    requires (o in s.reasons <==> Happened(s, o)) && s.notes.drained == None && s.phase.DrainingDenials?
    ensures var t := DrainQueue(s, complete); o in t.reasons <==> Happened(t, o)
  {}

  lemma CutRecords(s: State, o: Observation)
    requires (o in s.reasons <==> Happened(s, o)) && Serving(s)
    ensures var t := CutOff(s); o in t.reasons <==> Happened(t, o)
  {}

  lemma StreamsRecord(s: State, overrun: bool, o: Observation)
    requires (o in s.reasons <==> Happened(s, o)) && Enabled(s, StreamsDrained(overrun)) && !s.notes.overran
    ensures var t := Do(s, StreamsDrained(overrun)); o in t.reasons <==> Happened(t, o)
  {}

  lemma FinishRecords(s: State, i: nat, task: Task, o: Observation)
    requires (o in s.reasons <==> Happened(s, o)) && s.phase.Looping? && i < |s.tasks| && !s.tasks[i].Joined? &&
             !task.Joined?
    ensures var t := s.(tasks := s.tasks[i := task]); o in t.reasons <==> Happened(t, o)
  {}

  lemma FailRecords(s: State, o: Observation)
    requires (o in s.reasons <==> Happened(s, o)) && Starting(s.phase) && PhaseOk(s)
    ensures var t := FailedToStart(s); o in t.reasons <==> Happened(t, o)
  {}

  lemma StartRecords(s: State, services: nat, o: Observation)
    requires (o in s.reasons <==> Happened(s, o)) && Starting(s.phase) && PhaseOk(s)
    ensures var t := Started(s, services); o in t.reasons <==> Happened(t, o)
  {}

  lemma HaltRecords(s: State, step: Step, o: Observation)
    requires (o in s.reasons <==> Happened(s, o)) && Enabled(s, step)
    requires step.StopSignal? || step.StoreFault? || step.WakeForService? || step.ServerReturns? || step.LeaveLoop?
    ensures var t := Do(s, step); o in t.reasons <==> Happened(t, o)
  {}

  lemma StepRecords(s: State, step: Step, o: Observation)
    requires (o in s.reasons <==> Happened(s, o)) && PhaseOk(s) && OverranOk(s) && Enabled(s, step)
    ensures var t := Do(s, step); o in t.reasons <==> Happened(t, o)
  {
    hide Happened;
    match step {
      case Advance(n) => StartRecords(s, n, o);
      case Fail => FailRecords(s, o);
      case StreamsDrained(overrun) => StreamsRecord(s, overrun, o);
      case CutServer => CutRecords(s, o);
      case ReturnOk(i) => FinishRecords(s, i, Returning(s.tasks[i].aborted), o);
      case ReadStop(i) => FinishRecords(s, i, Finished(ReturnedOk(s.halt.cancelled)), o);
      case Finish(i, end) => FinishRecords(s, i, Finished(end), o);
      case Join(i) => JoinRecords(s, i, o);
      case Deadline => AbortRecords(s, o);
      case DrainDenials(complete) => DrainRecords(s, complete, o);
      case ShutStore(answer) => ShutRecords(s, answer, o);
      case _ => HaltRecords(s, step, o);
    }
  }

  lemma StepKeepsOverran(s: State, step: Step)
    requires OverranOk(s) && Enabled(s, step)
    ensures OverranOk(Do(s, step))
  {}

  // ----- The trace

  lemma OneMore(trace: seq<Event>, done: Event, e: Event)
    ensures Times(trace + [done], e) == Times(trace, e) + Of(e == done)
  {}

  lemma HaltTraces(s: State, halt: Halt, e: Event)
    ensures Times(HaltBy(s, halt).trace, e) == Times(s.trace, e) + Of(e == Broadcast && !s.halt.cancelled)
  {
    OneMore(s.trace, Broadcast, e);
    assert s.trace + [] == s.trace;
  }

  lemma JoinTraces(s: State, i: nat, e: Event)
    requires Times(s.trace, e) == Expected(s, e) && i < |s.tasks| && s.tasks[i].Finished? && s.phase.Looping?
    ensures Times(JoinService(s, i).trace, e) == Expected(JoinService(s, i), e)
  {
    hide Times;
    OneMore(s.trace, JoinedService(i), e);
    var t := s.(tasks := s.tasks[i := Joined(s.tasks[i].end)], trace := s.trace + [JoinedService(i)]);
    assert Times(t.trace, e) == Expected(t, e);
    match Judge(i, s.tasks[i].end) {
      case Failed(reason) =>
        var u := t.(reasons := t.reasons + {OfService(reason)});
        HaltTraces(u, u.halt.(failed := Some(i), wake := true), e);
      case _ =>
    }
  }

  lemma ServerTraces(s: State, ok: bool, e: Event)
    requires Times(s.trace, e) == Expected(s, e) && Serving(s)
    ensures Times(ServerAnswers(s, ok).trace, e) == Expected(ServerAnswers(s, ok), e)
  {
    hide Times;
    HaltTraces(s, s.halt, e);
    var t := if ok then s else HaltBy(s, s.halt);
    OneMore(t.trace, ServerOver, e);
  }

  lemma HaltStepTraces(s: State, step: Step, e: Event)
    requires Times(s.trace, e) == Expected(s, e) && Enabled(s, step)
    requires step.StopSignal? || step.StoreFault? || step.WakeForService?
    ensures Times(Do(s, step).trace, e) == Expected(Do(s, step), e)
  {
    hide Times;
    HaltTraces(s, Do(s, step).halt, e);
  }

  lemma StepTraces(s: State, step: Step, e: Event)
    requires Times(s.trace, e) == Expected(s, e) && PhaseOk(s) && Enabled(s, step)
    ensures Times(Do(s, step).trace, e) == Expected(Do(s, step), e)
  {
    hide Times, JoinService, ServerAnswers, HaltBy;
    match step {
      case Join(i) => JoinTraces(s, i, e);
      case ServerReturns(ok) => ServerTraces(s, ok, e);
      case StopSignal | StoreFault | WakeForService => HaltStepTraces(s, step, e);
      case CutServer => OneMore(s.trace, ServerOver, e);
      case DrainDenials(_) => OneMore(s.trace, DenialsDrained, e);
      case ShutStore(_) => OneMore(s.trace, StoreShut, e);
      case _ =>
    }
  }

  // ----- The run

  lemma StepKeepsInv(s: State, step: Step)
    requires Inv(s) && Enabled(s, step)
    ensures Inv(Do(s, step))
  {
    var t := Do(s, step);
    hide OrderOk, TasksOk, CauseOk, FailureNamed, Happened, Expected, Times, Do, PhaseOk, OverranOk;
    StepKeepsPhase(s, step);
    StepKeepsCause(s, step);
    StepKeepsTasks(s, step);
    StepKeepsOrder(s, step);
    StepKeepsFailureNamed(s, step);
    StepKeepsOverran(s, step);
    forall e ensures Times(t.trace, e) == Expected(t, e) { StepTraces(s, step, e); }
    forall o ensures o in t.reasons <==> Happened(t, o) { StepRecords(s, step, o); }
  }

  lemma StepOf(run: seq<State>, k: nat) returns (step: Step)
    requires Run(run) && 0 < k < |run|
    ensures Enabled(run[k - 1], step) && run[k] == Do(run[k - 1], step)
  {
    hide Enabled, Do;
    assert Next(run[k - 1], run[k - 1 + 1]);
    step :| Enabled(run[k - 1], step) && run[k] == Do(run[k - 1], step);
  }

  lemma {:induction false} RunKeepsInv(run: seq<State>, k: nat)
    requires Run(run) && k < |run|
    ensures Inv(run[k])
  {
    if k == 0 {
      forall e ensures Times([], e) == 0 {}
    } else {
      hide Run, Inv, Enabled, Do;
      RunKeepsInv(run, k - 1);
      var step := StepOf(run, k);
      StepKeepsInv(run[k - 1], step);
    }
  }

  // ----- The laws

  lemma BeforeLastTwo(trace: seq<Event>, e: Event)
    requires LastIs(trace, 0, StoreShut) && LastIs(trace, 1, DenialsDrained) && e != StoreShut && e != DenialsDrained
    ensures Times(trace[..|trace| - 2], e) == Times(trace, e)
  {
    assert trace == trace[..|trace| - 2] + [DenialsDrained] + [StoreShut];
    OneMore(trace[..|trace| - 2], DenialsDrained, e);
    OneMore(trace[..|trace| - 2] + [DenialsDrained], StoreShut, e);
  }

  /** On every path after boot the store is shut exactly once, as the last thing done, and right after the one
      denial drain whenever a kernel was composed. */
  lemma StoreShutOnceAfterTheDrain(run: seq<State>, k: nat)
    requires Run(run) && k < |run|
    ensures var s := run[k];
            && (s.phase.Done? && !s.reached.Nothing? ==>
               Times(s.trace, StoreShut) == 1 && LastIs(s.trace, 0, StoreShut))
            && (s.phase.Done? && HasKernel(s.reached) ==>
               Times(s.trace, DenialsDrained) == 1 && LastIs(s.trace, 1, DenialsDrained))
            && (!s.phase.Done? || s.reached.Nothing? ==> Times(s.trace, StoreShut) == 0)
  {
    RunKeepsInv(run, k);
    hide Run, Times, PhaseOk, TasksOk, CauseOk, Happened, FailureNamed, OverranOk;
  }

  /** On the listening path both come only after the server ended or was cut, once, and every declared service
      was joined, each exactly once; and by then the stop had been broadcast. */
  lemma ListeningStopsInOrder(run: seq<State>, k: nat)
    requires Run(run) && k < |run| && run[k].phase.Done? && run[k].reached.Listening?
    ensures var s := run[k];
            && |s.trace| >= 2 && s.trace[|s.trace| - 2..] == [DenialsDrained, StoreShut]
            && var before := s.trace[..|s.trace| - 2];
               && Times(before, ServerOver) == 1 && Times(before, Broadcast) == 1
               && forall i :: 0 <= i < |s.tasks| ==> Times(before, JoinedService(i)) == 1
  {
    RunKeepsInv(run, k);
    var s := run[k];
    hide Run, Times, TasksOk, Happened, FailureNamed, OverranOk;
    BeforeLastTwo(s.trace, ServerOver);
    BeforeLastTwo(s.trace, Broadcast);
    forall i | 0 <= i < |s.tasks| ensures Times(s.trace[..|s.trace| - 2], JoinedService(i)) == 1 {
      BeforeLastTwo(s.trace, JoinedService(i));
      assert Times(s.trace, JoinedService(i)) == Expected(s, JoinedService(i));
    }
  }

  /** The stop is broadcast at most once, and the server never ends before it. */
  lemma BroadcastAtMostOnce(run: seq<State>, k: nat)
    requires Run(run) && k < |run|
    ensures Times(run[k].trace, Broadcast) == Of(run[k].halt.cancelled)
    ensures Times(run[k].trace, ServerOver) <= Times(run[k].trace, Broadcast)
  {
    RunKeepsInv(run, k);
    hide Run, Times, PhaseOk, TasksOk, Happened, FailureNamed, OverranOk, OrderOk;
  }

  predicate EndedEarly(task: Task) {
    task == Finished(ReturnedOk(false)) || task == Joined(ReturnedOk(false))
  }

  lemma EarlyStays(s: State, step: Step, i: nat)
    requires Enabled(s, step) && PhaseOk(s) && i < |s.tasks| && EndedEarly(s.tasks[i])
    ensures i < |Do(s, step).tasks| && EndedEarly(Do(s, step).tasks[i])
  {}

  lemma PhaseOf(s: State)
    requires Inv(s)
    ensures PhaseOk(s)
  {
    hide PhaseOk;
  }

  lemma {:induction false} RunKeepsEarly(run: seq<State>, j: nat, k: nat, i: nat)
    requires Run(run) && j <= k < |run| && i < |run[j].tasks| && EndedEarly(run[j].tasks[i])
    ensures i < |run[k].tasks| && EndedEarly(run[k].tasks[i])
  {
    if j < k {
      hide Run, Enabled, Do, EndedEarly, Inv;
      RunKeepsEarly(run, j, k - 1, i);
      RunKeepsInv(run, k - 1);
      PhaseOf(run[k - 1]);
      var step := StepOf(run, k);
      EarlyStays(run[k - 1], step, i);
    }
  }

  /** A service whose task returned `Ok` and read no broadcast is judged failed however late it is joined: once it
      is, the record names it as having exited. */
  lemma EarlyOkIsJudgedFailed(run: seq<State>, j: nat, k: nat, i: nat)
    requires Run(run) && j <= k < |run| && i < |run[j].tasks| && run[j].tasks[i].Finished?
    requires run[j].tasks[i].end.ReturnedOk? && !run[j].halt.cancelled
    requires i < |run[k].tasks| && run[k].tasks[i].Joined?
    ensures Judge(i, run[k].tasks[i].end) == Failed(ServiceExited(i))
    ensures OfService(ServiceExited(i)) in run[k].reasons
  {
    RunKeepsInv(run, j);
    RunKeepsInv(run, k);
    assert TaskOk(run[j].tasks[i], i, run[j].halt.cancelled, run[j].notes.aborted);
    RunKeepsEarly(run, j, k, i);
    hide Run, PhaseOk, CauseOk, FailureNamed, OverranOk, OrderOk, Expected, Times;
    assert Happened(run[k], OfService(ServiceExited(i)));
  }

  lemma ReturningMoves(s: State, step: Step, i: nat)
    requires Enabled(s, step) && PhaseOk(s) && i < |s.tasks| && s.tasks[i].Returning?
    ensures i < |Do(s, step).tasks|
    ensures var task := Do(s, step).tasks[i]; task.Returning? || task == Finished(ReturnedOk(s.halt.cancelled))
  {}

  lemma OkStays(s: State, step: Step, i: nat, sawStop: bool)
    requires Enabled(s, step) && PhaseOk(s) && i < |s.tasks|
    requires s.tasks[i] == Finished(ReturnedOk(sawStop)) || s.tasks[i] == Joined(ReturnedOk(sawStop))
    ensures i < |Do(s, step).tasks|
    ensures var task := Do(s, step).tasks[i];
            task == Finished(ReturnedOk(sawStop)) ||
            task == Joined(ReturnedOk(sawStop))
  {}

  /** A returned service is judged by the moment its task looked: in state `m` it had returned, in the next one it
      had looked, and it is judged completed if and only if the stop had been broadcast in state `m`. */
  lemma {:induction false} JudgedByTheMomentItLooked(run: seq<State>, j: nat, k: nat, i: nat) returns (m: nat)
    requires Run(run) && j <= k < |run| && i < |run[j].tasks| && run[j].tasks[i].Returning?
    requires i < |run[k].tasks| && !run[k].tasks[i].Returning?
    ensures j <= m < k && i < |run[m].tasks| && run[m].tasks[i].Returning?
    ensures i < |run[m + 1].tasks| && !run[m + 1].tasks[i].Returning?
    ensures run[k].tasks[i].Finished? || run[k].tasks[i].Joined?
    ensures run[k].tasks[i].end == ReturnedOk(run[m].halt.cancelled)
    ensures Judge(i, run[k].tasks[i].end) == Completed <==> run[m].halt.cancelled
  {
    hide Run, Enabled, Do, Inv, PhaseOk;
    RunKeepsInv(run, k - 1);
    PhaseOf(run[k - 1]);
    var step := StepOf(run, k);
    TasksAppear(run, j, k - 1, i);
    if run[k - 1].tasks[i].Returning? {
      ReturningMoves(run[k - 1], step, i);
      m := k - 1;
    } else {
      m := JudgedByTheMomentItLooked(run, j, k - 1, i);
      OkStays(run[k - 1], step, i, run[m].halt.cancelled);
    }
  }

  lemma TasksStayCounted(s: State, step: Step)
    requires Enabled(s, step) && PhaseOk(s)
    ensures |s.tasks| <= |Do(s, step).tasks|
  {}

  lemma {:induction false} TasksAppear(run: seq<State>, j: nat, k: nat, i: nat)
    requires Run(run) && j <= k < |run| && i < |run[j].tasks|
    ensures i < |run[k].tasks|
  {
    hide Run, Enabled, Do, Inv, PhaseOk;
    if j < k {
      TasksAppear(run, j, k - 1, i);
      RunKeepsInv(run, k - 1);
      PhaseOf(run[k - 1]);
      var step := StepOf(run, k);
      TasksStayCounted(run[k - 1], step);
    }
  }

  lemma TakeStep(run: seq<State>, step: Step) returns (more: seq<State>)
    requires Run(run) && Enabled(run[|run| - 1], step)
    ensures Run(more) && more == run + [Do(run[|run| - 1], step)]
  {
    hide Enabled, Do;
    more := run + [Do(run[|run| - 1], step)];
    forall k | 0 <= k < |more| - 1 ensures Next(more[k], more[k + 1]) {
      if k < |run| - 1 { assert Next(run[k], run[k + 1]); }
    }
  }

  /** One service is declared and every phase of the start succeeds. */
  lemma AServiceIsUp() returns (run: seq<State>)
    ensures Run(run) && |run| == 6
    ensures run[5] == START.(phase := Looping, reached := Listening, tasks := [Live(false)])
  {
    run := [START];
    assert Run(run);
    hide Run;
    run := TakeStep(run, Advance(1));
    run := TakeStep(run, Advance(1));
    run := TakeStep(run, Advance(1));
    run := TakeStep(run, Advance(1));
    run := TakeStep(run, Advance(1));
    assert run[5].tasks == [Live(false)];
  }

  /** So the promise has a gap: a run of one service that returns `Ok` before any stop, a stop that falls before its
      task looks, and a join that judges the early return a completion and leaves no reason. */
  lemma AStopCanSlipIn() returns (run: seq<State>)
    ensures Run(run) && |run| == 10
    ensures run[6].tasks == [Returning(false)] && !run[6].halt.cancelled
    ensures run[9].tasks == [Joined(ReturnedOk(true))] && Judge(0, run[9].tasks[0].end) == Completed
    ensures run[9].reasons == {}
  {
    hide Run;
    run := AServiceIsUp();
    run := TakeStep(run, ReturnOk(0));
    run := TakeStep(run, StopSignal);
    run := TakeStep(run, ReadStop(0));
    run := TakeStep(run, Join(0));
  }

  /** A stop whose first cause was a service's failure never goes unnamed: joining that very service is what the
      stop was broadcast over, and the record carries that failure's own reason. */
  lemma ServiceCausedStopIsNamed(run: seq<State>, k: nat)
    requires Run(run) && k < |run| && run[k].halt.failed.Some?
    ensures var s, i := run[k], run[k].halt.failed.value;
            && IsJoined(s.tasks, i) && CausedBy(s.trace, i)
            && Judge(i, s.tasks[i].end).Failed? && OfService(Judge(i, s.tasks[i].end).reason) in s.reasons
  {
    RunKeepsInv(run, k);
    var s, i := run[k], run[k].halt.failed.value;
    hide Run, PhaseOk, CauseOk, OverranOk, OrderOk, Expected, Times, TasksOk, CausedBy;
    assert Happened(s, OfService(Judge(i, s.tasks[i].end).reason));
  }

  /** Nothing went wrong: the server ended by itself, the streams and the denials drained in time, the store
      confirmed, and every service returned `Ok` after the broadcast without being aborted. */
  predicate NothingWentWrong(s: State) {
    && s.server == Returned(true) && !s.notes.overran && !s.halt.fault
    && s.notes.drained == Some(true) && s.notes.shut == Some(Confirmed)
    && s.notes.aborted == {} && forall i :: 0 <= i < |s.tasks| ==> s.tasks[i] == Joined(ReturnedOk(true))
  }

  /** A stop on the listening path is recorded as clean, with `Ok` and no reason, exactly when nothing went
      wrong. */
  lemma CleanExactlyWhenNothingWentWrong(run: seq<State>, k: nat)
    requires Run(run) && k < |run| && run[k].phase.Done? && run[k].reached.Listening?
    ensures Answer(run[k]) == Ok(()) && run[k].reasons == {} <==> NothingWentWrong(run[k])
  {
    RunKeepsInv(run, k);
    var s := run[k];
    if s.reasons == {} {
      forall o ensures !Happened(s, o) {}
      if Answer(s) == Ok(()) { EmptyRecordIsClean(s); }
    }
    if NothingWentWrong(s) { CleanLeavesNoReason(s); }
  }

  lemma EmptyRecordIsClean(s: State)
    requires Inv(s) && s.phase.Done? && s.reached.Listening? && (forall o :: !Happened(s, o)) && Answer(s) == Ok(())
    ensures NothingWentWrong(s)
  {
    assert !Happened(s, ConnectionDrainOverrun) && !Happened(s, DenialsAbandoned) && !Happened(s, StoreTimeout);
    assert !Happened(s, StoreError) && !Happened(s, StreamDrainOverrun) && !Happened(s, StorageTerminal) &&
      !Happened(s, ServeError);
    assert s.notes.drained.Some? && s.notes.drained.value && s.notes.shut.Some? && s.notes.shut.value.Confirmed?;
    forall i ensures i !in s.notes.aborted { assert !Happened(s, OfService(ServiceJoinTimeout(i))); }
    forall i | 0 <= i < |s.tasks| ensures s.tasks[i] == Joined(ReturnedOk(true)) {
      assert TaskOk(s.tasks[i], i, s.halt.cancelled, s.notes.aborted);
      assert !Happened(s, OfService(ServiceExited(i))) && !Happened(s, OfService(ServiceError(i))) &&
        !Happened(s, OfService(ServicePanicked(i)));
    }
  }

  lemma CleanLeavesNoReason(s: State)
    requires Inv(s) && NothingWentWrong(s) && s.phase.Done? && s.reached.Listening?
    ensures s.reasons == {} && Answer(s) == Ok(())
  {
    forall o ensures !Happened(s, o) {
      if o.OfService? && o.reason.service < |s.tasks| { assert s.tasks[o.reason.service] == Joined(ReturnedOk(true)); }
    }
    assert s.early == None;
  }
}
