/**
  What causes a stop, what a join and the join bound do, how a start that failed is undone, and what `serve`
  answers, over every run.
*/
module StopSteps {
  import opened Wrappers
  import opened Services
  import opened Stop
  import opened StopLaws

  /** Step `k` of the run is `step`. */
  ghost predicate Takes(run: seq<State>, k: nat, step: Step) {
    Run(run) && k + 1 < |run| && Enabled(run[k], step) && run[k + 1] == Do(run[k], step)
  }

  // ----- Causes

  /** Every cause broadcasts the stop: the signal, a terminal store fault, the wake for a failed service, and a listener
      that failed. A server that ended by itself broadcasts nothing. */
  lemma EveryCauseBroadcasts(run: seq<State>, k: nat, step: Step)
    requires Takes(run, k, step)
    requires step.StopSignal? || step.StoreFault? || step.WakeForService? || step.ServerReturns?
    ensures var s, t := run[k], run[k + 1];
            && (step.ServerReturns? && step.ok ==> t.halt == s.halt && t.trace == s.trace + [ServerOver])
            && (!(step.ServerReturns? && step.ok) ==> t.halt.cancelled && Broadcast in t.trace)
            && (t.halt.fault <==> s.halt.fault || step.StoreFault?)
            && (step.StopSignal? || step.StoreFault? || step.WakeForService? ==> t.halt.until == Draining)
  {
    if run[k].halt.cancelled { BroadcastAtMostOnce(run, k); }
    hide Run, Times;
    if run[k].halt.cancelled { assert Broadcast in run[k].trace by { Counted(run[k].trace, Broadcast); } }
  }

  lemma Counted(trace: seq<Event>, e: Event)
    requires Times(trace, e) > 0
    ensures e in trace
  {}

  /** A join takes its task off; a failure is recorded under its reason; and the first cause of all is broadcast at once
      and wakes the stop future. */
  lemma AJoinSays(run: seq<State>, k: nat, i: nat)
    requires Takes(run, k, Join(i))
    ensures i < |run[k].tasks| && run[k].tasks[i].Finished?
    ensures var s, t := run[k], run[k + 1]; var end := s.tasks[i].end;
            && t.tasks == s.tasks[i := Joined(end)]
            && (end == ReturnedOk(true) || end == Cancelled ==>
                  t.reasons == s.reasons && t.halt == s.halt && t.trace == s.trace + [JoinedService(i)])
            && (end == ReturnedOk(false) ==> t.reasons == s.reasons + {OfService(ServiceExited(i))})
            && (end == ReturnedErr ==> t.reasons == s.reasons + {OfService(ServiceError(i))})
            && (end == Panicked ==> t.reasons == s.reasons + {OfService(ServicePanicked(i))})
            && (end != ReturnedOk(true) && end != Cancelled ==>
                  if s.halt.cancelled then t.halt == s.halt && t.trace == s.trace + [JoinedService(i)]
                  else t.halt == s.halt.(cancelled := true, failed := Some(i), wake := true) &&
                       t.trace == s.trace + [JoinedService(i), Broadcast])
  {
    hide Run;
    var s := run[k];
    assert s.trace + [JoinedService(i)] + [Broadcast] == s.trace + [JoinedService(i), Broadcast];
    assert s.trace + [JoinedService(i)] + [] == s.trace + [JoinedService(i)];
  }

  /** The join bound aborts and names exactly the tasks that have not finished. */
  lemma TheBoundNamesTheUnfinished(run: seq<State>, k: nat, i: nat)
    requires Takes(run, k, Deadline) && i < |run[k].tasks|
    ensures run[k].halt.cancelled && !run[k].timedOut && run[k + 1].timedOut && |run[k + 1].tasks| == |run[k].tasks|
    ensures var s, t := run[k], run[k + 1]; var unfinished := s.tasks[i].Live? || s.tasks[i].Returning?;
            && (OfService(ServiceJoinTimeout(i)) in t.reasons <==>
                OfService(ServiceJoinTimeout(i)) in s.reasons || unfinished)
            && (unfinished ==> t.tasks[i] == s.tasks[i].(aborted := true))
            && (!unfinished ==> t.tasks[i] == s.tasks[i])
  {
    hide Run;
    var named := set j | j in Overdue(run[k].tasks) :: OfService(ServiceJoinTimeout(j));
    assert OfService(ServiceJoinTimeout(i)) in named <==> i in Overdue(run[k].tasks);
  }

  // ----- A start that failed

  /** What was done by the time a failed start is over, and the phase it failed in. */
  predicate Undone(failure: Failure, phase: Phase, trace: seq<Event>) {
    match failure
    case SetupFailed => phase == SettingUp && trace == []
    case BootFailed => phase == Opening && trace == []
    case ComposeFailed => phase == Composing && trace == [StoreShut]
    case DeclarationFailed => phase == Declaring && trace == [DenialsDrained, StoreShut]
    case BindFailed => phase == Binding && trace == [DenialsDrained, StoreShut]
    case _ => false
  }

  /** How much of that is done so far. */
  predicate OnTheWay(failure: Failure, phase: Phase, s: State) {
    match s.phase
    case DrainingDenials => s.trace == [] && Undone(failure, phase, [DenialsDrained, StoreShut])
    case ShuttingStore => Undone(failure, phase, s.trace + [StoreShut])
    case Done => Undone(failure, phase, s.trace)
    case _ => false
  }

  ghost predicate FailedIn(run: seq<State>, k: nat, failure: Failure, phase: Phase) {
    exists j :: 0 <= j < k < |run| && run[j].phase == phase && run[j].early == None && run[j + 1].early == Some(failure)
  }

  ghost predicate EarlyOk(run: seq<State>, k: nat)
    requires k < |run|
  {
    var s := run[k];
    && (Starting(s.phase) ==> s.trace == [] && s.early == None)
    && (s.early.Some? ==>
          exists phase: Phase :: OnTheWay(s.early.value, phase, s) && FailedIn(run, k, s.early.value, phase))
  }

  lemma FailsOnTheWay(s: State)
    requires Starting(s.phase) && s.trace == [] && s.early == None
    ensures FailedToStart(s).early.Some? && OnTheWay(FailedToStart(s).early.value, s.phase, FailedToStart(s))
  {}

  lemma EarlyGoesOn(s: State, step: Step, phase: Phase)
    requires Enabled(s, step) && s.early.Some? && OnTheWay(s.early.value, phase, s)
    ensures var t := Do(s, step); t.early == s.early && OnTheWay(t.early.value, phase, t)
  {}

  lemma NoEarlyStays(s: State, step: Step)
    requires Enabled(s, step) && s.early == None && step != Fail
    ensures Do(s, step).early == None
    ensures Starting(Do(s, step).phase) ==> Starting(s.phase) && Do(s, step).trace == s.trace
  {}

  lemma {:induction false} RunKeepsEarlyOk(run: seq<State>, k: nat)
    requires Run(run) && k < |run|
    ensures EarlyOk(run, k)
  {
    if k > 0 {
      hide Run, Enabled, Do, OnTheWay, FailedIn;
      RunKeepsEarlyOk(run, k - 1);
      var s := run[k - 1];
      var step := StepOf(run, k);
      if s.early.Some? {
        var phase: Phase :| OnTheWay(s.early.value, phase, s) && FailedIn(run, k - 1, s.early.value, phase);
        EarlyGoesOn(s, step, phase);
        NotStarting(run[k], phase);
        FailedStays(run, k - 1, s.early.value, phase);
      } else if step == Fail {
        FailIs(s);
        FailsOnTheWay(s);
        NotStarting(run[k], s.phase);
        FailsNow(run, k - 1, run[k].early.value);
      } else {
        NoEarlyStays(s, step);
      }
    }
  }

  lemma FailedStays(run: seq<State>, k: nat, failure: Failure, phase: Phase)
    requires k + 1 < |run| && FailedIn(run, k, failure, phase)
    ensures FailedIn(run, k + 1, failure, phase)
  {}

  lemma FailsNow(run: seq<State>, k: nat, failure: Failure)
    requires k + 1 < |run| && run[k].early == None && run[k + 1].early == Some(failure)
    ensures FailedIn(run, k + 1, failure, run[k].phase)
  {}

  lemma FailIs(s: State)
    requires Enabled(s, Fail)
    ensures Starting(s.phase) && Do(s, Fail) == FailedToStart(s)
  {}

  lemma NotStarting(s: State, phase: Phase)
    requires s.early.Some? && OnTheWay(s.early.value, phase, s)
    ensures !Starting(s.phase)
  {}

  /** A start that failed is named after the phase it failed in and undone no further than it had come: nothing before
      the store is open, the store shut once it is, and the denials drained first once the kernel is composed. */
  lemma AFailedStartIsUndone(run: seq<State>, k: nat)
    requires Run(run) && k < |run| && run[k].phase.Done? && run[k].early.Some?
    ensures Answer(run[k]) == Err(run[k].early.value)
    ensures exists phase: Phase ::
              Undone(run[k].early.value, phase, run[k].trace) && FailedIn(run, k, run[k].early.value, phase)
  {
    RunKeepsEarlyOk(run, k);
    hide Run, FailedIn, Undone;
    var phase: Phase :| OnTheWay(run[k].early.value, phase, run[k]) && FailedIn(run, k, run[k].early.value, phase);
  }

  /** What a listening stop answers: the listener's failure when it was the cause, the store's when it failed and the
      listener did not, and otherwise `Ok`, whatever the record says. */
  lemma AListeningStopAnswers(run: seq<State>, k: nat)
    requires Run(run) && k < |run| && run[k].phase.Done? && run[k].reached.Listening?
    ensures var s := run[k];
            && (Answer(s) == Err(ListenerFailed) <==> s.server == Returned(false) && s.halt.failed == None)
            && (Answer(s) == Err(StorageFailed) <==> s.server != Returned(false) && s.halt.fault)
            && (Answer(s) == Ok(()) <==>
                if s.server == Returned(false) then s.halt.failed.Some? else !s.halt.fault)
  {
    hide Run, Inv;
    RunKeepsInv(run, k);
    PhaseOf(run[k]);
  }
}
