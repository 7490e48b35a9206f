/**
  What each step of the denial path does to the decision at hand, and how a close ends: everything accepted is
  written out before the appender goes.
*/
module DenialClose {
  import opened Wrappers
  import opened Queue
  import opened Denials
  import opened DenialSafety
  import opened DenialLaws

  /** A run with the steps it took. */
  ghost predicate Follows(capacity: nat, run: seq<State>, steps: seq<Step>) {
    && |run| == |steps| + 1 && Init(run[0])
    && forall k :: 0 <= k < |steps| ==> Enabled(run[k], steps[k]) && run[k + 1] == Do(capacity, run[k], steps[k])
  }

  lemma FollowedIsARun(capacity: nat, run: seq<State>, steps: seq<Step>)
    requires Follows(capacity, run, steps)
    ensures Run(capacity, run)
  {
    hide Enabled, Do, Init;
    forall k | 0 <= k < |run| - 1 ensures Next(capacity, run[k], run[k + 1]) {
      assert Enabled(run[k], steps[k]);
    }
  }

  // ----- One decision at a time

  /** A push is accepted behind everything waiting exactly when there is room, and then owes its notify; otherwise the
      decision is refused and changes nothing but its own standing. */
  lemma APushIsAcceptedIffThereIsRoom(capacity: nat, run: seq<State>, steps: seq<Step>, k: nat, id: Id)
    requires Follows(capacity, run, steps) && k < |steps| && steps[k] == Push(id)
    ensures var s, t := run[k], run[k + 1];
            && t.counting == s.counting - {id} && t.q.appending == s.q.appending && t.appender == s.appender
            && (if |s.q.waiting| < capacity
                then t.q.waiting == s.q.waiting + [id] && t.h.pushed == s.h.pushed + [id] && t.owing == s.owing + {id}
                     && t.refused == s.refused
                else t.q == s.q && t.h.pushed == s.h.pushed && t.owing == s.owing && t.refused == s.refused + {id})
  {
    hide Init;
  }

  /** A notify wakes the parked appender, and is kept as the one permit when none is parked. */
  lemma ANotifyIsNotLost(capacity: nat, run: seq<State>, steps: seq<Step>, k: nat)
    requires Follows(capacity, run, steps) && k < |steps| && (steps[k].NotifyPush? || steps[k].NotifyClose?)
    ensures var s, t := run[k], run[k + 1];
            if s.appender.Parked? then t.appender == Looking && t.permit == s.permit
            else t.appender == s.appender && t.permit
  {
    hide Init;
  }

  /** A kept permit is spent instead of parking. */
  lemma AKeptPermitIsSpent(capacity: nat, run: seq<State>, steps: seq<Step>, k: nat)
    requires Follows(capacity, run, steps) && k < |steps| && steps[k].Await?
    ensures !run[k + 1].permit && run[k + 1].appender == if run[k].permit then Looking else Parked
  {
    hide Init;
  }

  /** The append that returned is settled: still owed, it is counted as appended or about to be reported as failed by
      its answer; taken back meanwhile, it is nobody's business any more. */
  lemma AnAnswerIsSettled(capacity: nat, run: seq<State>, steps: seq<Step>, k: nat)
    requires Follows(capacity, run, steps) && k < |steps| && steps[k].Settle?
    ensures run[k].appender.Wrote?
    ensures var s, t := run[k], run[k + 1]; var id := s.appender.id;
            && t.h.losses == s.h.losses && t.q.waiting == s.q.waiting
            && (if s.q.appending != Some(id)
                then t.q == s.q && t.appender == Looking && t.h.appended == s.h.appended
                else t.q.appending == None && if s.appender.ok
                     then t.appender == Looking && t.h.appended == s.h.appended + [id]
                     else t.appender == Failing(id) && t.h.appended == s.h.appended)
  {
    hide Init;
  }

  function FirstTakenBack(left: seq<Id>): seq<Loss> {
    if left == [] then [] else [Loss(left[0], TakenBack)]
  }

  /** Every report names its decision and its cause, and nothing else is reported. */
  lemma AReportNamesItsCause(capacity: nat, run: seq<State>, steps: seq<Step>, k: nat)
    requires Follows(capacity, run, steps) && k < |steps|
    ensures var s, t, step := run[k], run[k + 1], steps[k];
            && (step.ReportDropped? ==> t.h.losses == s.h.losses + [Loss(step.id, Dropped)])
            && (step.ReportFailed? ==> s.appender.Failing? && t.h.losses == s.h.losses + [Loss(s.appender.id, Failed)])
            && (step.ReportUnwinding? ==>
                  s.appender.Unwinding? && t.h.losses == s.h.losses + FirstTakenBack(s.appender.left))
            && (step.ReportDrained? ==>
                  && step.i < |s.drains| && s.drains[step.i].Reporting?
                  && t.h.losses == s.h.losses + FirstTakenBack(s.drains[step.i].left))
            && (!step.ReportDropped? && !step.ReportFailed? && !step.ReportUnwinding? && !step.ReportDrained? ==>
                  t.h.losses == s.h.losses)
  {
    hide Init;
  }

  // ----- The close

  /** The appender ends by itself only on a closed queue with nothing waiting, and then hands nothing over. */
  lemma ItEndsOnlyWhenNothingWaits(capacity: nat, run: seq<State>, steps: seq<Step>, k: nat)
    requires Follows(capacity, run, steps) && k < |steps| && steps[k] != DropTask
    requires run[k + 1].appender.Unwinding? && !run[k].appender.Unwinding?
    ensures steps[k] == Look && run[k].q.closed && run[k].q.waiting == [] && run[k + 1].appender.left == []
  {
    FollowedIsARun(capacity, run, steps);
    RunKeepsInv(capacity, run, k);
    EndsByLooking(capacity, run[k], steps[k]);
  }

  lemma EndsByLooking(capacity: nat, s: State, step: Step)
    requires Inv(capacity, s) && Enabled(s, step) && step != DropTask
    requires Do(capacity, s, step).appender.Unwinding? && !s.appender.Unwinding?
    ensures step == Look && s.q.closed && s.q.waiting == [] && Do(capacity, s, step).appender.left == []
  {
    hide LineOk, PushesOk, BegunOk, WakeOk, EndOk, DrainsOk, CausesOk, Conserved, CountersOk;
  }

  /** What a run without a dropped task and without a drain that gave up keeps: everything taken off the line has
      begun, and nothing was taken back. */
  ghost predicate Undisturbed(s: State) {
    && 0 <= Out(s.q, s.h.pushed) && s.h.begun == s.h.pushed[..Out(s.q, s.h.pushed)]
    && (s.appender.Unwinding? ==> s.appender.left == [] && s.q.closed && s.q.waiting == [])
    && (s.appender.Gone? ==> s.q.closed && s.q.waiting == [])
    && (forall i :: 0 <= i < |s.drains| ==> !s.drains[i].Reporting?)
    && (forall l :: l in s.h.losses ==> l.cause != TakenBack)
    && (s.q.closed ==> s.counting == {})
  }

  lemma StepLeavesUndisturbed(capacity: nat, s: State, step: Step)
    requires Inv(capacity, s) && Enabled(s, step) && Undisturbed(s) && step != DropTask && !step.TakeBack?
    ensures Undisturbed(Do(capacity, s, step))
  {
    hide PushesOk, BegunOk, EndOk, DrainsOk, CausesOk, Conserved, CountersOk;
    var t := Do(capacity, s, step);
    if step.Look? && s.q.waiting != [] {
      var k := Out(s.q, s.h.pushed);
      assert s.q.waiting[0] == s.h.pushed[k] && s.h.pushed[..k + 1] == s.h.pushed[..k] + [s.h.pushed[k]];
    } else if step.Push? {
      assert t.h.pushed[..Out(s.q, s.h.pushed)] == s.h.pushed[..Out(s.q, s.h.pushed)];
    }
  }

  lemma {:induction false} RunIsUndisturbed(capacity: nat, run: seq<State>, steps: seq<Step>, k: nat)
    requires Follows(capacity, run, steps) && k < |run|
    requires forall m :: 0 <= m < k ==> steps[m] != DropTask && !steps[m].TakeBack?
    ensures Undisturbed(run[k])
  {
    if k > 0 {
      FollowedIsARun(capacity, run, steps);
      RunIsUndisturbed(capacity, run, steps, k - 1);
      RunKeepsInv(capacity, run, k - 1);
      hide Inv, Undisturbed, Enabled, Do, Init;
      StepLeavesUndisturbed(capacity, run[k - 1], steps[k - 1]);
    }
  }

  /** A close writes everything out: in a run whose task was not dropped and in which no drain gave up, an appender that
      is gone has begun the append of every decision the queue accepted, in order; none was taken back; and each of
      them is in the chain or was reported as failed. */
  lemma ACloseWritesEverythingOut(capacity: nat, run: seq<State>, steps: seq<Step>, k: nat)
    requires Follows(capacity, run, steps) && k < |run| && run[k].appender == Gone(true, true)
    requires forall m :: 0 <= m < k ==> steps[m] != DropTask && !steps[m].TakeBack?
    ensures run[k].h.begun == run[k].h.pushed
    ensures forall l :: l in run[k].h.losses ==> l.cause != TakenBack
    ensures forall id :: id in run[k].h.pushed ==> id in run[k].h.appended || Loss(id, Failed) in run[k].h.losses
  {
    FollowedIsARun(capacity, run, steps);
    RunIsUndisturbed(capacity, run, steps, k);
    RunKeepsInv(capacity, run, k);
    var s := run[k];
    assert s.h.pushed[..|s.h.pushed|] == s.h.pushed;
    forall id | id in s.h.pushed ensures id in s.h.appended || Loss(id, Failed) in s.h.losses {
      PushedWasCounted(capacity, s, id);
      EveryRefusalIsAccountedFor(capacity, run, k, id);
      if IsLost(s.h.losses, id) {
        var i :| 0 <= i < |s.h.losses| && s.h.losses[i].id == id;
        LostOnce(capacity, run, k, i);
        assert s.h.losses[i] in s.h.losses;
      }
    }
  }

  lemma PushedWasCounted(capacity: nat, s: State, id: Id)
    requires Inv(capacity, s) && id in s.h.pushed
    ensures id in s.h.counted
  {
    hide LineOk, NoRepeats, BegunOk, WriterOk, WakeOk, EndOk, DrainsOk, CausesOk, Conserved, CountersOk;
  }
}
