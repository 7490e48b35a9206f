/**
  Which decisions are lost in silence: neither written nor reported once the appender and the last kernel
  handle are gone.

  The guard takes back what is owed when the appender's task ends. It cannot speak for a task that was never
  polled, nor for a decision accepted after it ran.
*/
module DenialSilence {
  import opened Wrappers
  import opened Queue
  import opened Denials
  import opened DenialSafety
  import opened DenialLaws

  /** The task has ended, or its guard is reporting. */
  predicate Ended(a: Appender) {
    a.Unwinding? || a.Gone?
  }

  predicate Unaccounted(s: State, id: Id) {
    id !in s.h.appended && !IsLost(s.h.losses, id)
  }

  /** A drain that had waited in vain took the decision back in this step. */
  predicate TookBack(s: State, t: State, id: Id) {
    exists i :: 0 <= i < |s.drains| && i < |t.drains| && s.drains[i].Expired? && t.drains[i].Reporting? &&
      id in t.drains[i].all
  }

  /** The decision was owed when a task that was never polled was dropped, or accepted after the task ended. */
  predicate Stranded(run: seq<State>, e: nat, k: nat, id: Id)
    requires e < |run| && k < |run|
  {
    || (run[e].appender.Unpolled? && id in Owed(run[e].q))
    || (id !in run[e].h.pushed && id in run[k].h.pushed)
  }

  predicate TookBackSince(run: seq<State>, e: nat, k: nat, id: Id)
    requires k < |run|
  {
    exists m :: e < m < k && TookBack(run[m], run[m + 1], id)
  }

  // ----- The steps

  lemma StepEnds(capacity: nat, s: State, step: Step)
    requires Enabled(s, step) && !Ended(s.appender) && Ended(Do(capacity, s, step).appender)
    ensures var t := Do(capacity, s, step);
            t.h.pushed == s.h.pushed && Owed(t.q) == if s.appender.Unpolled? then Owed(s.q) else []
  {}

  lemma EndIsFinal(capacity: nat, s: State, step: Step)
    requires Enabled(s, step) && Ended(s.appender)
    ensures Ended(Do(capacity, s, step).appender)
  {}

  lemma TakeBackEmpties(capacity: nat, s: State, i: nat, id: Id)
    requires Enabled(s, TakeBack(i))
    ensures var t := Do(capacity, s, TakeBack(i));
            t.h.pushed == s.h.pushed && Owed(t.q) == [] && (TookBack(s, t, id) <==> id in Owed(s.q))
  {
    var t := Do(capacity, s, TakeBack(i));
    assert s.drains[i].Expired? && t.drains[i] == Reporting(Owed(s.q), Owed(s.q));
    assert forall j :: 0 <= j < |s.drains| && j != i ==> t.drains[j] == s.drains[j];
  }

  lemma OtherStepsAccept(capacity: nat, s: State, step: Step)
    requires Enabled(s, step) && Ended(s.appender) && !step.TakeBack?
    ensures var t := Do(capacity, s, step);
            s.h.pushed <= t.h.pushed && Owed(t.q) == Owed(s.q) + t.h.pushed[|s.h.pushed|..]
  {}

  lemma OtherStepsTakeNothingBack(capacity: nat, s: State, step: Step, id: Id)
    requires Enabled(s, step) && !step.TakeBack?
    ensures !TookBack(s, Do(capacity, s, step), id)
  {}

  lemma OwedWasPushed(capacity: nat, s: State, id: Id)
    requires Inv(capacity, s) && id in Owed(s.q)
    ensures id in s.h.pushed
  {
    hide NoRepeats, InOrder, WakeOk, EndOk, DrainsOk, CausesOk, CountersOk, Conserved;
  }

  lemma PushedOnce(capacity: nat, s: State)
    requires Inv(capacity, s)
    ensures NoRepeats(s.h.pushed)
  {
    hide LineOk, NoRepeats, BegunOk, WriterOk, WakeOk, EndOk, DrainsOk, CausesOk, CountersOk, Conserved;
  }

  // ----- The runs

  lemma {:induction false} PushedGrows(capacity: nat, run: seq<State>, j: nat, k: nat)
    requires Run(capacity, run) && j <= k < |run|
    ensures run[j].h.pushed <= run[k].h.pushed
  {
    hide Run, Enabled, Do;
    if j < k {
      PushedGrows(capacity, run, j, k - 1);
      var step := StepOf(capacity, run, k);
      HistoryGrows(capacity, run[k - 1], step);
    }
  }

  lemma NewlyPushed(a: seq<Id>, b: seq<Id>, id: Id)
    requires a <= b && NoRepeats(b)
    ensures id in b <==> id in a || id in b[|a|..]
    ensures id in b[|a|..] ==> id !in a
  {
    assert b == a + b[|a|..];
  }

  lemma SinceSplits(run: seq<State>, e: nat, k: nat, id: Id)
    requires e < k < |run| - 1
    ensures TookBackSince(run, e, k + 1, id) <==> TookBackSince(run, e, k, id) || TookBack(run[k], run[k + 1], id)
  {
    hide TookBack;
  }

  /** After the end the queue owes exactly what was stranded and not taken back, and nothing is taken back that was
      never accepted. */
  lemma {:induction false} OwedAfterTheEnd(capacity: nat, run: seq<State>, e: nat, k: nat, id: Id)
    requires Run(capacity, run) && e < k < |run| && !Ended(run[e].appender) && Ended(run[e + 1].appender)
    ensures Ended(run[k].appender)
    ensures id in Owed(run[k].q) <==> Stranded(run, e, k, id) && !TookBackSince(run, e, k, id)
    ensures TookBackSince(run, e, k, id) ==> id in run[k].h.pushed
    decreases k
  {
    hide Run, Enabled, Do, Inv, Owed, TookBack, NoRepeats;
    var step := StepOf(capacity, run, k);
    if k == e + 1 {
      StepEnds(capacity, run[e], step);
    } else {
      var s, t := run[k - 1], run[k];
      OwedAfterTheEnd(capacity, run, e, k - 1, id);
      EndIsFinal(capacity, s, step);
      SinceSplits(run, e, k - 1, id);
      PushedGrows(capacity, run, e, k - 1);
      RunKeepsInv(capacity, run, k - 1);
      if id in Owed(s.q) { OwedWasPushed(capacity, s, id); }
      if step.TakeBack? {
        TakeBackEmpties(capacity, s, step.i, id);
      } else {
        OtherStepsAccept(capacity, s, step);
        OtherStepsTakeNothingBack(capacity, s, step, id);
        RunKeepsInv(capacity, run, k);
        PushedOnce(capacity, t);
        NewlyPushed(s.h.pushed, t.h.pushed, id);
      }
    }
  }

  lemma {:induction false} TheTaskEnded(capacity: nat, run: seq<State>, k: nat) returns (e: nat)
    requires Run(capacity, run) && k < |run| && Ended(run[k].appender)
    ensures e < k && !Ended(run[e].appender) && Ended(run[e + 1].appender)
  {
    if k == 0 {
      assert false;
    } else if Ended(run[k - 1].appender) {
      e := TheTaskEnded(capacity, run, k - 1);
    } else {
      e := k - 1;
    }
  }

  /** With the queue closed and the appender gone, a counted decision is neither written nor reported if and only if
      it was stranded by the end of the task (owed when a task that was never polled was dropped, or accepted after
      the task ended) and no later drain took it back. `e` is the step in which the task ended. */
  lemma LostInSilenceIff(capacity: nat, run: seq<State>, k: nat) returns (e: nat)
    requires Run(capacity, run) && k < |run| && run[k].q.closed && run[k].appender.Gone?
    ensures e < k && !Ended(run[e].appender) && Ended(run[e + 1].appender)
    ensures forall id :: id in run[k].h.counted ==>
              (Unaccounted(run[k], id) <==> Stranded(run, e, k, id) && !TookBackSince(run, e, k, id))
  {
    e := TheTaskEnded(capacity, run, k);
    AccountedExactlyWhenNothingIsOwed(capacity, run, k);
    hide Run, Stranded, TookBackSince, Owed, IsLost;
    forall id | id in run[k].h.counted
      ensures Unaccounted(run[k], id) <==> Stranded(run, e, k, id) && !TookBackSince(run, e, k, id)
    {
      OwedAfterTheEnd(capacity, run, e, k, id);
    }
  }

  // ----- The second way to be lost

  lemma TakeStep(run: seq<State>, step: Step) returns (more: seq<State>)
    requires Run(1, run) && Enabled(run[|run| - 1], step)
    ensures Run(1, more) && more == run + [Do(1, run[|run| - 1], step)]
  {
    hide Init, Enabled, Do;
    more := run + [Do(1, run[|run| - 1], step)];
    forall k | 0 <= k < |more| - 1 ensures Next(1, more[k], more[k + 1]) {
      if k < |run| - 1 { assert Next(1, run[k], run[k + 1]); }
    }
  }

  /** The runtime drops a task it did poll, and its guard finds nothing to report. */
  lemma AGuardedEnd() returns (run: seq<State>)
    ensures Run(1, run) && |run| == 4
    ensures run[3] == State(EMPTY, false, Gone(true, false), Alive, [], {}, {}, {}, Counters(0, 0, 0, 0),
                            History({}, [], [], {}, [], []))
  {
    run := [State(EMPTY, false, Unpolled, Alive, [], {}, {}, {}, Counters(0, 0, 0, 0),
      History({}, [], [], {}, [], []))];
    assert Run(1, run);
    hide Run;
    run := TakeStep(run, Poll);
    run := TakeStep(run, DropTask);
    run := TakeStep(run, ReportUnwinding);
  }

  /** A guard that ran is not enough: a refusal pushed by another worker after the runtime dropped the task is
      accepted by a queue that nobody reads, and is neither written nor reported. */
  lemma AcceptedAfterTheGuardIsLostInSilence() returns (run: seq<State>)
    ensures Run(1, run) && |run| == 8
    ensures var s := run[7]; s.q.closed && s.appender == Gone(true, false) && 0 in s.h.counted && 0 in s.h.pushed
    ensures Unaccounted(run[7], 0)
  {
    hide Run;
    run := AGuardedEnd();
    run := TakeStep(run, Count(0));
    run := TakeStep(run, Push(0));
    assert run[5].h.pushed == [0];
    run := TakeStep(run, NotifyPush(0));
    run := TakeStep(run, Close);
  }
}
