/**
  The promises of the denial path, over every run: any number of refused operations and drains, the
  appender, the close and the end of the runtime, interleaved in any way.
*/
module DenialLaws {
  import opened Wrappers
  import opened Queue
  import opened Denials
  import opened DenialSafety

  // ----- No lost wake-up

  /** The parked appender never sleeps on work: if the queue is non-empty or closed, someone who changed it is
      about to notify, and that very step wakes the appender. */
  lemma NoLostWakeUp(capacity: nat, run: seq<State>, k: nat)
    requires Run(capacity, run) && k < |run|
    requires run[k].appender.Parked? && (run[k].q.waiting != [] || run[k].q.closed)
    ensures exists step: Step :: (step.NotifyPush? || step.NotifyClose?) && Enabled(run[k], step)
                           && Do(capacity, run[k], step).appender.Looking?
  {
    RunKeepsInv(capacity, run, k);
    var s := run[k];
    assert s.owing != {} || s.closing == Unlocked by { hide Run; }
    hide Run, Inv;
    if s.closing == Unlocked {
      assert Do(capacity, s, NotifyClose).appender.Looking?;
    } else {
      var id :| id in s.owing;
      assert Do(capacity, s, NotifyPush(id)).appender.Looking?;
    }
  }

  // ----- Conservation

  function DrainsLeft(drains: seq<Drain>): seq<Id> {
    if drains == [] then [] else DrainsLeft(drains[..|drains| - 1]) + Left(drains[|drains| - 1])
  }

  lemma {:induction false} DrainsLeftHolds(drains: seq<Drain>, id: Id)
    ensures Times(DrainsLeft(drains), id) == DrainsHold(drains, id)
  {
    if drains != [] { DrainsLeftHolds(drains[..|drains| - 1], id); }
  }

  lemma {:induction false} CausesAddUp(losses: seq<Loss>)
    ensures CountOf(losses, Dropped) + CountOf(losses, Failed) + CountOf(losses, TakenBack) == |losses|
  {
    if losses != [] { CausesAddUp(losses[..|losses| - 1]); }
  }

  /** Decisions counted but still with whoever is about to push them or to report them. */
  function Passing(s: State): nat {
    |s.counting| + |s.refused| + |InHand(s.appender)| + |DrainsLeft(s.drains)|
  }

  lemma PlacesAddUp(s: State)
    requires Conserved(s)
    ensures |s.h.counted| == |s.h.appended| + |s.h.losses| + |Owed(s.q)| + Passing(s)
  {
    var all := multiset(s.counting) + multiset(s.refused) + multiset(Owed(s.q)) + multiset(InHand(s.appender))
               + multiset(DrainsLeft(s.drains)) + multiset(s.h.appended) + multiset(LossIds(s.h.losses));
    forall id ensures all[id] == multiset(s.h.counted)[id] {
      assert Places(s, id) == In(s.h.counted, id);
      hide InHand, Owed, LossIds, DrainsHold, Conserved;
      DrainsLeftHolds(s.drains, id);
    }
    hide InHand, Owed, LossIds, DrainsHold, Conserved;
    assert all == multiset(s.h.counted);
    LossIdsLength(s.h.losses);
    assert |all| == |s.h.counted|;
    assert |multiset(DrainsLeft(s.drains))| == |DrainsLeft(s.drains)|;
    assert |multiset(InHand(s.appender))| == |InHand(s.appender)| && |multiset(Owed(s.q))| == |Owed(s.q)|;
  }

  lemma LossIdsLength(losses: seq<Loss>)
    ensures |LossIds(losses)| == |losses|
  {}

  /** At every step of every run the counters balance: what was counted is appended, failed, dropped,
      abandoned, still owed, or in the hands of the task about to push or report it. */
  lemma CountersBalance(capacity: nat, run: seq<State>, k: nat)
    requires Run(capacity, run) && k < |run|
    ensures var s, c := run[k], run[k].counters;
            c.decisions == |s.h.appended| + c.failed + c.dropped + c.abandoned + |Owed(s.q)| + Passing(s)
  {
    RunKeepsInv(capacity, run, k);
    var s := run[k];
    assert Conserved(s) && CountersOk(s.counters, s.h) by { hide Run, Conserved, CountersOk; }
    hide Run, Inv;
    PlacesAddUp(s);
    CausesAddUp(s.h.losses);
  }

  lemma TwiceIsTwo(ids: seq<Id>, i: nat, j: nat)
    requires i < j < |ids| && ids[i] == ids[j]
    ensures Times(ids, ids[i]) >= 2
  {
    assert ids == ids[..j] + ids[j..];
    assert ids[i] in ids[..j] && ids[j] in ids[j..];
  }

  /** A lost decision is reported exactly once and under one cause, it was counted, it is not also counted as
      appended, and it is in nobody's hands any more. Dropped means the queue never accepted it, failed that its
      append began, abandoned that it had been accepted. */
  lemma LostOnce(capacity: nat, run: seq<State>, k: nat, i: nat)
    requires Run(capacity, run) && k < |run| && i < |run[k].h.losses|
    ensures var s, id := run[k], run[k].h.losses[i].id;
            && id in s.h.counted && id !in s.h.appended && id !in Owed(s.q)
            && (forall j :: 0 <= j < |s.h.losses| && s.h.losses[j].id == id ==> j == i)
            && match s.h.losses[i].cause
               case Dropped => id !in s.h.pushed
               case Failed => id in s.h.begun
               case TakenBack => id in s.h.pushed
  {
    RunKeepsInv(capacity, run, k);
    var s, id := run[k], run[k].h.losses[i].id;
    CauseSays(capacity, s, s.h.losses[i]);
    assert Places(s, id) == In(s.h.counted, id) by { hide Run; }
    hide Run, Inv, DrainsHold, InHand, Owed;
    var ids := LossIds(s.h.losses);
    assert ids[i] == id && id in ids;
    forall j | 0 <= j < |s.h.losses| && s.h.losses[j].id == id ensures j == i {
      if j < i { TwiceIsTwo(ids, j, i); } else if i < j { TwiceIsTwo(ids, i, j); }
    }
  }

  lemma CauseSays(capacity: nat, s: State, l: Loss)
    requires Inv(capacity, s) && l in s.h.losses
    ensures match l.cause
            case Dropped => l.id !in s.h.pushed
            case Failed => l.id in s.h.begun
            case TakenBack => l.id in s.h.pushed
  {
    hide LineOk, PushesOk, BegunOk, WriterOk, WakeOk, EndOk, DrainsOk, CountersOk, Conserved;
  }

  // ----- Order

  /** Appends begin in the order the queue accepted their decisions, none twice. */
  lemma AppendsBeginInOrder(capacity: nat, run: seq<State>, k: nat)
    requires Run(capacity, run) && k < |run|
    ensures NoRepeats(run[k].h.begun) && InOrder(run[k].h.begun, run[k].h.pushed)
  {
    RunKeepsInv(capacity, run, k);
    hide Run, InOrder, NoRepeats;
  }

  /** A drain that gave up returns ids in the order the queue accepted them, each reported as abandoned. */
  lemma DrainNamesOldestFirst(capacity: nat, run: seq<State>, k: nat, i: nat)
    requires Run(capacity, run) && k < |run| && i < |run[k].drains| && run[k].drains[i].Done?
    ensures InOrder(run[k].drains[i].all, run[k].h.pushed)
    ensures forall id :: id in run[k].drains[i].all ==> Loss(id, TakenBack) in run[k].h.losses
  {
    RunKeepsInv(capacity, run, k);
    assert DrainOk(run[k].drains[i], run[k].h.pushed, run[k].h.losses);
    hide Run, InOrder, NoRepeats, Inv;
  }

  // ----- What a drain leaves behind

  /** The decision was accepted and the appender no longer owes it. */
  predicate Handled(s: State, id: Id) {
    id in s.h.pushed && id !in Owed(s.q)
  }

  lemma HandledStays(capacity: nat, s: State, step: Step, id: Id)
    requires Inv(capacity, s) && Enabled(s, step) && Handled(s, id)
    ensures Handled(Do(capacity, s, step), id)
  {
    NotPushedAgain(capacity, s, step, id);
    OnlyPushesOwe(capacity, s, step, id);
    HistoryGrows(capacity, s, step);
    hide Inv, Do, Enabled, Owed;
  }

  lemma NotPushedAgain(capacity: nat, s: State, step: Step, id: Id)
    requires Inv(capacity, s) && Enabled(s, step) && id in s.h.pushed
    ensures step != Push(id)
  {
    hide LineOk, BegunOk, WriterOk, WakeOk, EndOk, DrainsOk, CausesOk, CountersOk, Conserved;
  }

  lemma OnlyPushesOwe(capacity: nat, s: State, step: Step, id: Id)
    requires Enabled(s, step) && id !in Owed(s.q) && step != Push(id)
    ensures id !in Owed(Do(capacity, s, step).q)
  {}

  predicate Past(drains: seq<Drain>, i: nat) {
    i < |drains| && (drains[i].Reporting? || drains[i].Done?)
  }

  lemma StepKeepsDrained(capacity: nat, s: State, step: Step, i: nat, id: Id)
    requires Inv(capacity, s) && Enabled(s, step) && id in s.h.pushed && i < |s.drains|
    requires Past(s.drains, i) ==> Handled(s, id)
    ensures var t := Do(capacity, s, step);
            id in t.h.pushed && i < |t.drains| && (Past(t.drains, i) ==> Handled(t, id))
  {
    HistoryGrows(capacity, s, step);
    if Past(s.drains, i) {
      HandledStays(capacity, s, step, id);
      DrainsOnlyGrow(capacity, s, step);
    } else {
      PassesByFindingNothing(capacity, s, step, i);
    }
    hide Inv, Do, Enabled;
  }

  lemma DrainsOnlyGrow(capacity: nat, s: State, step: Step)
    requires Enabled(s, step)
    ensures |s.drains| <= |Do(capacity, s, step).drains|
  {}

  /** A drain stops waiting on an empty queue, or empties it. */
  lemma PassesByFindingNothing(capacity: nat, s: State, step: Step, i: nat)
    requires Enabled(s, step) && i < |s.drains| && !Past(s.drains, i)
    ensures var t := Do(capacity, s, step); i < |t.drains| && (Past(t.drains, i) ==> Owed(t.q) == [])
  {}

  lemma {:induction false} RunKeepsDrained(capacity: nat, run: seq<State>, j: nat, k: nat, i: nat, id: Id)
    requires Run(capacity, run) && j <= k < |run|
    requires i < |run[j].drains| && !Past(run[j].drains, i) && id in run[j].h.pushed
    ensures id in run[k].h.pushed && i < |run[k].drains| && (Past(run[k].drains, i) ==> Handled(run[k], id))
  {
    hide Run, Inv, Enabled, Do, Handled;
    if j < k {
      RunKeepsDrained(capacity, run, j, k - 1, i, id);
      RunKeepsInv(capacity, run, k - 1);
      var step := StepOf(capacity, run, k);
      StepKeepsDrained(capacity, run[k - 1], step, i, id);
    }
  }

  /** Once a drain has returned, the appender owes nothing that was accepted while the drain was waiting:
      an empty answer means those decisions were handled, a non-empty one names those that were not. */
  lemma DrainLeavesNothingOwed(capacity: nat, run: seq<State>, j: nat, k: nat, i: nat, id: Id)
    requires Run(capacity, run) && j <= k < |run|
    requires i < |run[j].drains| && run[j].drains[i].Flushing? && id in run[j].h.pushed
    requires i < |run[k].drains| && run[k].drains[i].Done?
    ensures id !in Owed(run[k].q)
  {
    hide Run, Owed;
    RunKeepsDrained(capacity, run, j, k, i, id);
  }

  // ----- Only the decision being written can land after it was given up

  /** The decision left the waiting line without an append beginning for it. */
  predicate PassedOver(s: State, id: Id) {
    0 <= Out(s.q, s.h.pushed) && id in s.h.pushed[..Out(s.q, s.h.pushed)] && id !in s.h.begun
  }

  lemma PassedOverStays(capacity: nat, s: State, step: Step, id: Id)
    requires Inv(capacity, s) && Enabled(s, step) && PassedOver(s, id)
    ensures PassedOver(Do(capacity, s, step), id)
  {
    var t := Do(capacity, s, step);
    LineAndOrder(capacity, s);
    StepKeepsLine(capacity, s, step);
    OutOnlyGrows(capacity, s, step);
    HistoryGrows(capacity, s, step);
    StillOut(s.h.pushed, Out(s.q, s.h.pushed), t.h.pushed, Out(t.q, t.h.pushed), id);
    NotBegunNow(capacity, s, step, id);
    hide Inv, Do, Enabled, Out, LineOk;
  }

  lemma LineAndOrder(capacity: nat, s: State)
    requires Inv(capacity, s)
    ensures LineOk(capacity, s.q, s.h.pushed) && NoRepeats(s.h.pushed)
  {
    hide LineOk, NoRepeats, BegunOk, WriterOk, WakeOk, EndOk, DrainsOk, CausesOk, CountersOk, Conserved;
  }

  lemma OutOnlyGrows(capacity: nat, s: State, step: Step)
    requires Enabled(s, step) && LineOk(capacity, s.q, s.h.pushed)
    ensures var t := Do(capacity, s, step); Out(s.q, s.h.pushed) <= Out(t.q, t.h.pushed)
  {}

  lemma StillOut(pushed: seq<Id>, out: nat, pushed': seq<Id>, out': nat, id: Id)
    requires out <= |pushed| && out' <= |pushed'| && pushed <= pushed' && out <= out' && id in pushed[..out]
    ensures id in pushed'[..out']
  {
    var at :| 0 <= at < out && pushed[..out][at] == id;
    assert pushed'[..out'][at] == id;
  }

  lemma NotBegunNow(capacity: nat, s: State, step: Step, id: Id)
    requires Enabled(s, step) && LineOk(capacity, s.q, s.h.pushed) && NoRepeats(s.h.pushed) && PassedOver(s, id)
    ensures id !in Do(capacity, s, step).h.begun
  {
    var k := Out(s.q, s.h.pushed);
    var at :| 0 <= at < k && s.h.pushed[..k][at] == id;
    assert s.h.pushed[at] == id;
    if step.Look? && s.q.waiting != [] {
      assert s.q.waiting[0] == s.h.pushed[k];
      assert Do(capacity, s, step).h.begun == s.h.begun + [s.h.pushed[k]];
    } else {
      OnlyLookBegins(capacity, s, step);
    }
  }

  lemma OnlyLookBegins(capacity: nat, s: State, step: Step)
    requires Enabled(s, step) && !(step.Look? && s.q.waiting != [])
    ensures Do(capacity, s, step).h.begun == s.h.begun
  {}

  lemma {:induction false} RunPassesOver(capacity: nat, run: seq<State>, j: nat, k: nat, id: Id)
    requires Run(capacity, run) && j <= k < |run| && PassedOver(run[j], id)
    ensures PassedOver(run[k], id)
  {
    hide Run, Inv, Enabled, Do, PassedOver;
    if j < k {
      RunPassesOver(capacity, run, j, k - 1, id);
      RunKeepsInv(capacity, run, k - 1);
      var step := StepOf(capacity, run, k);
      PassedOverStays(capacity, run[k - 1], step, id);
    }
  }

  lemma TakenBackIsPassedOver(capacity: nat, s: State, t: State, id: Id)
    requires Inv(capacity, s) && id in Owed(s.q) && s.q.appending != Some(id)
    requires t.q == Abandoned(s.q) && t.h == s.h
    ensures PassedOver(t, id)
  {
    var k := Out(s.q, s.h.pushed);
    assert LineOk(capacity, s.q, s.h.pushed) && NoRepeats(s.h.pushed) && BegunOk(s.q, s.h.pushed, s.h.begun);
    hide Inv, InOrder;
    assert id in s.q.waiting;
    var at :| 0 <= at < |s.q.waiting| && s.q.waiting[at] == id;
    assert s.h.pushed[k + at] == id;
    forall b | 0 <= b < k ensures s.h.pushed[..k][b] != id {
      assert s.h.pushed[b] != s.h.pushed[k + at];
    }
  }

  /** When a drain or the guard takes the owed decisions back, the one being written is the only one of them
      that can be in the chain at any later time. */
  lemma OnlyTheOneBeingWrittenCanLand(capacity: nat, run: seq<State>, k: nat, m: nat, id: Id)
    requires Run(capacity, run) && k + 1 <= m < |run| && id in Owed(run[k].q)
    requires run[k + 1].q == Abandoned(run[k].q) && run[k + 1].h == run[k].h
    requires id in run[m].h.landed
    ensures run[k].q.appending == Some(id)
  {
    RunKeepsInv(capacity, run, k);
    RunKeepsInv(capacity, run, m);
    hide Run, Owed, NoRepeats, InOrder, Conserved, CountersOk, DrainsOk, WakeOk, EndOk, LineOk;
    if run[k].q.appending != Some(id) {
      TakenBackIsPassedOver(capacity, run[k], run[k + 1], id);
      RunPassesOver(capacity, run, k + 1, m, id);
    }
  }

  /** A count can overstate a loss but a refused push never lands: a decision in the chain and reported lost
      was reported as failed or abandoned, and its append had begun. */
  lemma OverstatedLosses(capacity: nat, run: seq<State>, k: nat, l: Loss)
    requires Run(capacity, run) && k < |run| && l in run[k].h.losses && l.id in run[k].h.landed
    ensures l.cause != Dropped && l.id in run[k].h.begun
  {
    RunKeepsInv(capacity, run, k);
    hide Run, NoRepeats, Conserved, CountersOk, DrainsOk, WakeOk, EndOk, LineOk;
    assert l.id in run[k].h.begun;
    assert forall i :: 0 <= i < |run[k].h.begun| ==> run[k].h.begun[i] in run[k].h.pushed;
  }

  // ----- The end

  predicate IsLost(losses: seq<Loss>, id: Id) {
    exists i :: 0 <= i < |losses| && losses[i].id == id
  }

  lemma InOnePlace(s: State, id: Id)
    requires Conserved(s) && id in s.h.counted && s.q.closed && s.appender.Gone? && EndOk(s)
    ensures id in s.h.appended || IsLost(s.h.losses, id) || id in Owed(s.q)
  {
    assert Places(s, id) == 1;
    NothingLeft(s.drains, id);
    hide Owed, Conserved, EndOk, DrainsHold;
    if id in LossIds(s.h.losses) {
      var i :| 0 <= i < |LossIds(s.h.losses)| && LossIds(s.h.losses)[i] == id;
      assert s.h.losses[i].id == id;
    }
  }

  lemma {:induction false} NothingLeft(drains: seq<Drain>, id: Id)
    requires forall i :: 0 <= i < |drains| ==> drains[i].Done? || drains[i].Cancelled?
    ensures DrainsHold(drains, id) == 0
  {
    if drains != [] { NothingLeft(drains[..|drains| - 1], id); }
  }

  /** Every refused operation lands or is counted once: when the appender ended under its guard after the last
      handle closed the queue, each counted decision is in the chain or reported lost, never both of
      `appended` and lost, and nothing is owed. */
  lemma EveryRefusalIsAccountedFor(capacity: nat, run: seq<State>, k: nat, id: Id)
    requires Run(capacity, run) && k < |run| && run[k].appender == Gone(true, true) && id in run[k].h.counted
    ensures Owed(run[k].q) == []
    ensures id in run[k].h.appended || IsLost(run[k].h.losses, id)
    ensures !(id in run[k].h.appended && IsLost(run[k].h.losses, id))
    ensures id in run[k].h.appended ==> id in run[k].h.landed
  {
    RunKeepsInv(capacity, run, k);
    var s := run[k];
    if IsLost(s.h.losses, id) {
      var i :| 0 <= i < |s.h.losses| && s.h.losses[i].id == id;
      LostOnce(capacity, run, k, i);
    }
    hide Run, NoRepeats, InOrder, CountersOk, DrainsOk, WakeOk, LineOk, Places, IsLost, Owed, BegunOk;
    InOnePlace(s, id);
  }

  /** However the appender ended, once the last handle is gone the decisions lost in silence are exactly those
      the queue still holds. */
  lemma AccountedExactlyWhenNothingIsOwed(capacity: nat, run: seq<State>, k: nat)
    requires Run(capacity, run) && k < |run| && run[k].q.closed && run[k].appender.Gone?
    ensures forall id :: id in run[k].h.counted ==>
              (id in Owed(run[k].q) <==> id !in run[k].h.appended && !IsLost(run[k].h.losses, id))
  {
    RunKeepsInv(capacity, run, k);
    var s := run[k];
    hide Run, NoRepeats, InOrder, CountersOk, DrainsOk, WakeOk, LineOk, IsLost, Owed, BegunOk;
    forall id | id in s.h.counted
      ensures id in Owed(s.q) <==> id !in s.h.appended && !IsLost(s.h.losses, id)
    {
      InOnePlace(s, id);
      if IsLost(s.h.losses, id) { LostIsTimes(s.h.losses, id); }
      assert Places(s, id) == In(s.h.counted, id);
    }
  }

  lemma LostIsTimes(losses: seq<Loss>, id: Id)
    requires IsLost(losses, id)
    ensures Times(LossIds(losses), id) >= 1
  {
    var i :| 0 <= i < |losses| && losses[i].id == id;
    assert LossIds(losses)[i] == id && id in LossIds(losses);
  }

  function SilentRun(): seq<State> {
    var s0 := State(EMPTY, false, Unpolled, Alive, [], {}, {}, {}, Counters(0, 0, 0, 0),
      History({}, [], [], {}, [], []));
    var s1 := s0.(counting := {0}, counters := Counters(1, 0, 0, 0), h := History({0}, [], [], {}, [], []));
    var s2 := s1.(counting := {}, q := Pending([0], None, false), owing := {0}, h := History({0}, [0], [], {}, [], []));
    var s3 := s2.(owing := {}, permit := true);
    var s4 := s3.(appender := Gone(false, false));
    [s0, s1, s2, s3, s4, s4.(q := Pending([0], None, true), closing := Unlocked)]
  }

  lemma SilentStep(k: nat, step: Step)
    requires k < 5 && step == [Count(0), Push(0), NotifyPush(0), DropTask, Close][k]
    ensures Next(1, SilentRun()[k], SilentRun()[k + 1])
  {
    var s, t := SilentRun()[k], SilentRun()[k + 1];
    match k {
      case 0 => assert CountDenial(s, 0) == t;
      case 1 => assert PushDenial(1, s, 0) == t;
      case 2 => assert Notify(s.(owing := s.owing - {0})) == t;
      case 3 => assert s.(appender := Gone(false, s.q.closed)) == t;
      case 4 => assert s.(q := s.q.(closed := true), closing := Unlocked) == t;
    }
    assert Enabled(s, step);
    hide Enabled, CountDenial, PushDenial, Notify;
    assert Do(1, s, step) == t;
  }

  predicate Silent(s: State) {
    && s.q.closed && s.appender.Gone? && 0 in s.h.counted && 0 in Owed(s.q)
    && s.h.appended == [] && s.h.losses == []
  }

  lemma SilentEnds()
    ensures |SilentRun()| == 6 && Init(SilentRun()[0]) && Silent(SilentRun()[5])
  {
    assert Owed(SilentRun()[5].q) == [0];
  }

  /** The promise needs the guard, which exists only once the task was polled: a runtime that ends before that
      leaves an accepted decision neither written nor reported, with nobody left to report it. */
  lemma AnUnpolledAppenderLosesInSilence()
    ensures exists run: seq<State> :: Run(1, run) && Silent(run[|run| - 1])
  {
    hide Next, SilentRun, Init, Silent;
    SilentEnds();
    SilentStep(0, Count(0));
    SilentStep(1, Push(0));
    SilentStep(2, NotifyPush(0));
    SilentStep(3, DropTask);
    SilentStep(4, Close);
    assert Run(1, SilentRun());
  }
}
