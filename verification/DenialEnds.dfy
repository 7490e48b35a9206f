/**
  A closed queue comes to its end: from any point of any run the appender can write out everything it owes, without the
  runtime dropping it and without a wake-up it would have to wait for.
*/
module DenialEnds {
  import opened Wrappers
  import opened Queue
  import opened Denials
  import opened DenialSafety

  /** The queue is closed and its appender has not begun to end. */
  predicate WritingOut(s: State) {
    s.q.closed && !s.appender.Unwinding? && !s.appender.Gone?
  }

  /** The steps of the appender, of an append that lands, and of a notify that is owed. */
  predicate BringsOn(step: Step) {
    || step.Poll? || step.Look? || step.Await? || step.Land? || step == Answer(true) || step.Settle?
    || step.ReportFailed? || step.ReportUnwinding? || step.NotifyPush? || step.NotifyClose?
  }

  ghost predicate StepBringsOn(capacity: nat, s: State, t: State) {
    exists step :: BringsOn(step) && Enabled(s, step) && t == Do(capacity, s, step)
  }

  /** How far the appender is from its end. */
  function Rank(s: State): nat {
    var a := s.appender;
    8 * |s.q.waiting| +
    match a
    case Unpolled => 3
    case Looking => 2
    case Awaiting => 4
    case Parked => 3
    case Writing(id) => if id in s.h.landed then 5 else 6
    case Wrote(_, _) => 4
    case Failing(_) => 3
    case Unwinding(left, _) => 1 + |left|
    case Gone(_, _) => 0
  }

  /** The decision is written, or the appender still has it: on the line, or in hand and not failed. */
  predicate Due(s: State, id: Id) {
    || id in s.h.appended || id in s.q.waiting
    || (s.q.appending == Some(id) && (s.appender == Writing(id) || s.appender == Wrote(id, true)))
  }

  predicate AtItsEnd(s: State) {
    WritingOut(s) || (s.appender.Unwinding? && s.appender.afterClose) || s.appender == Gone(true, true)
  }

  ghost function StepFor(s: State): Step
    requires s.appender.Parked? ==> s.closing == Unlocked || s.owing != {}
  {
    match s.appender
    case Unpolled => Poll
    case Looking => Look
    case Awaiting => Await
    case Parked => if s.closing == Unlocked then NotifyClose else var id :| id in s.owing; NotifyPush(id)
    case Writing(id) => if id in s.h.landed then Answer(true) else Land(id)
    case Wrote(_, _) => Settle
    case Failing(_) => ReportFailed
    case Unwinding(_, _) => ReportUnwinding
    case Gone(_, _) => Poll
  }

  lemma WhatIsDue(capacity: nat, s: State)
    requires Inv(capacity, s) && AtItsEnd(s)
    ensures s.appender.Parked? ==> s.closing == Unlocked || s.owing != {}
    ensures s.appender.Writing? ==> s.appender.id in s.h.begun
    ensures s.appender.Looking? ==> s.q.appending == None
    ensures s.appender.Unwinding? ==> Owed(s.q) == []
    ensures s.appender.Gone? ==> Owed(s.q) == []
  {
    hide LineOk, PushesOk, BegunOk, DrainsOk, CausesOk, Conserved, CountersOk;
  }

  lemma StepForGoesOn(capacity: nat, s: State)
    requires AtItsEnd(s) && s.appender != Gone(true, true)
    requires s.appender.Parked? ==> s.closing == Unlocked || s.owing != {}
    requires s.appender.Writing? ==> s.appender.id in s.h.begun
    requires s.appender.Looking? ==> s.q.appending == None
    requires s.appender.Unwinding? ==> Owed(s.q) == []
    ensures BringsOn(StepFor(s)) && Enabled(s, StepFor(s))
    ensures var t := Do(capacity, s, StepFor(s));
            && AtItsEnd(t) && Rank(t) < Rank(s)
            && forall id :: Due(s, id) ==> Due(t, id)
  {}

  lemma RunAndAStep(capacity: nat, run: seq<State>, t: State)
    requires Run(capacity, run) && StepBringsOn(capacity, run[|run| - 1], t)
    ensures Run(capacity, run + [t])
  {
    hide Init, Enabled, Do, BringsOn;
    var more := run + [t];
    forall k | 0 <= k < |more| - 1 ensures Next(capacity, more[k], more[k + 1]) {
      if k < |run| - 1 { assert Next(capacity, run[k], run[k + 1]); }
    }
  }

  lemma RunHasAState(capacity: nat, run: seq<State>)
    requires Run(capacity, run)
    ensures run != []
  {}

  lemma OneStepOn(capacity: nat, run: seq<State>) returns (t: State)
    requires run != [] && Run(capacity, run) && AtItsEnd(run[|run| - 1]) && run[|run| - 1].appender != Gone(true, true)
    ensures Run(capacity, run + [t]) && StepBringsOn(capacity, run[|run| - 1], t)
    ensures AtItsEnd(t) && Rank(t) < Rank(run[|run| - 1])
    ensures forall id :: Due(run[|run| - 1], id) ==> Due(t, id)
  {
    var s := run[|run| - 1];
    RunKeepsInv(capacity, run, |run| - 1);
    hide Run, Inv, AtItsEnd, Rank, Due, BringsOn, Enabled, Do, StepFor;
    WhatIsDue(capacity, s);
    StepForGoesOn(capacity, s);
    t := Do(capacity, s, StepFor(s));
    RunAndAStep(capacity, run, t);
  }

  lemma EndedMeans(capacity: nat, run: seq<State>, id: Id)
    requires run != [] && Run(capacity, run) && run[|run| - 1].appender == Gone(true, true)
    ensures Due(run[|run| - 1], id) ==> id in run[|run| - 1].h.appended
  {
    RunKeepsInv(capacity, run, |run| - 1);
    WhatIsDue(capacity, run[|run| - 1]);
    hide Run, Inv;
  }

  /** How `more` came from `run`. */
  ghost predicate BroughtOn(capacity: nat, run: seq<State>, more: seq<State>) {
    && run != [] && run <= more
    && forall k :: |run| - 1 <= k < |more| - 1 ==> StepBringsOn(capacity, more[k], more[k + 1])
  }

  lemma {:induction false} ItEnds(capacity: nat, run: seq<State>) returns (more: seq<State>)
    requires run != [] && Run(capacity, run) && AtItsEnd(run[|run| - 1])
    ensures Run(capacity, more) && BroughtOn(capacity, run, more) && more[|more| - 1].appender == Gone(true, true)
    ensures var s, t := run[|run| - 1], more[|more| - 1]; forall id :: Due(s, id) ==> id in t.h.appended
    decreases Rank(run[|run| - 1])
  {
    hide Run, AtItsEnd, Rank, Due, StepBringsOn;
    var s := run[|run| - 1];
    if s.appender == Gone(true, true) {
      forall id | Due(s, id) ensures id in s.h.appended { EndedMeans(capacity, run, id); }
      return run;
    }
    var t := OneStepOn(capacity, run);
    var next := run + [t];
    more := ItEnds(capacity, next);
    forall k | |run| - 1 <= k < |more| - 1 ensures StepBringsOn(capacity, more[k], more[k + 1]) {
      if k == |run| - 1 { assert more[k] == next[k] && more[k + 1] == next[k + 1]; }
    }
  }

  /** A closed queue whose appender has not begun to end can always be written out, and then every decision that waits
      is in the chain: no wake-up is missing, and nothing the appender does in between takes it off its way. */
  lemma AClosedQueueCanBeWrittenOut(capacity: nat, run: seq<State>) returns (more: seq<State>)
    requires Run(capacity, run) && WritingOut(run[|run| - 1])
    ensures Run(capacity, more) && BroughtOn(capacity, run, more) && more[|more| - 1].appender == Gone(true, true)
    ensures var s, t := run[|run| - 1], more[|more| - 1]; forall id :: id in s.q.waiting ==> id in t.h.appended
  {
    RunHasAState(capacity, run);
    var s := run[|run| - 1];
    assert AtItsEnd(s) && forall id :: id in s.q.waiting ==> Due(s, id);
    hide *;
    more := ItEnds(capacity, run);
  }
}
