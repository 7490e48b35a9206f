/**
  What every step of the denial path keeps.
*/
module DenialSafety {
  import opened Wrappers
  import opened Queue
  import opened Denials

  // ----- The invariant

  predicate NoRepeats(s: seq<Id>) {
    forall i, j :: 0 <= i < j < |s| ==> s[i] != s[j]
  }

  /** `part` lists ids of `whole` in the order `whole` has them. */
  predicate InOrder(part: seq<Id>, whole: seq<Id>) {
    && (forall i :: 0 <= i < |part| ==> part[i] in whole)
    && forall i, j, a, b ::
         (0 <= i < j < |part| && 0 <= a < |whole| && 0 <= b < |whole| && whole[a] == part[i] && whole[b] == part[j])
         ==> a < b
  }

  /** How many accepted decisions have left the waiting line. */
  function Out(q: Pending, pushed: seq<Id>): int {
    |pushed| - |q.waiting|
  }

  predicate LineOk(capacity: nat, q: Pending, pushed: seq<Id>) {
    && |q.waiting| <= capacity && 0 <= Out(q, pushed)
    && q.waiting == pushed[Out(q, pushed)..]
  }

  predicate PushesOk(counting: set<Id>, refused: set<Id>, owing: set<Id>, counted: set<Id>, pushed: seq<Id>) {
    && NoRepeats(pushed)
    && counting + refused <= counted && counting !! refused
    && (forall id :: id in pushed ==> id in counted && id !in counting && id !in refused)
    && forall id :: id in owing ==> id in pushed
  }

  /** Appends begin in the order their decisions were accepted, each at most once. */
  predicate BegunOk(q: Pending, pushed: seq<Id>, begun: seq<Id>)
    requires 0 <= Out(q, pushed)
  {
    && NoRepeats(begun)
    && InOrder(begun, pushed)
    && forall id :: id in begun ==> id in pushed[..Out(q, pushed)]
  }

  predicate WriterOk(q: Pending, a: Appender, begun: seq<Id>, landed: set<Id>, appended: seq<Id>) {
    && (q.appending.Some? ==> (a.Writing? || a.Wrote?) && a.id == q.appending.value)
    && (a.Writing? || a.Wrote? ==> a.id in begun)
    && (a.Wrote? && a.ok ==> a.id in landed)
    && (forall id :: id in landed ==> id in begun)
    && forall id :: id in appended ==> id in landed
  }

  /** A permit is stored, or someone who changed the queue is still about to notify. */
  predicate WakeOwed(s: State) {
    s.permit || s.owing != {} || s.closing == Unlocked
  }

  predicate WakeOk(s: State) {
    && (s.q.closed <==> s.closing != Alive)
    && (s.appender.Parked? ==> !s.permit)
    && (s.appender.Parked? || s.appender.Awaiting? ==> (s.q.waiting == [] && !s.q.closed) || WakeOwed(s))
  }

  /** Once the last handle is gone nobody can push or drain, and a guarded end leaves nothing owed. */
  predicate EndOk(s: State) {
    && (s.q.closed ==>
          && s.counting == {} && s.refused == {}
          && forall i :: 0 <= i < |s.drains| ==> s.drains[i].Done? || s.drains[i].Cancelled?)
    && (s.appender.Unwinding? && s.appender.afterClose ==> s.q.closed && Owed(s.q) == [])
    && (s.appender.Gone? && s.appender.guarded && s.appender.afterClose ==> s.q.closed && Owed(s.q) == [])
  }

  predicate Reported(losses: seq<Loss>, ids: seq<Id>) {
    forall id :: id in ids ==> Loss(id, TakenBack) in losses
  }

  predicate DrainOk(d: Drain, pushed: seq<Id>, losses: seq<Loss>) {
    match d
    case Reporting(left, all) =>
      && InOrder(all, pushed) && |left| <= |all|
      && left == all[|all| - |left|..] && Reported(losses, all[..|all| - |left|])
    case Done(all) => InOrder(all, pushed) && Reported(losses, all)
    case _ => true
  }

  predicate DrainsOk(drains: seq<Drain>, pushed: seq<Id>, losses: seq<Loss>) {
    forall i :: 0 <= i < |drains| ==> DrainOk(drains[i], pushed, losses)
  }

  /** What each cause says of the decision. */
  predicate CausesOk(s: State) {
    && (forall l :: l in s.h.losses ==>
          match l.cause
          case Dropped => l.id in s.h.counted && l.id !in s.h.pushed && l.id !in s.counting
          case Failed => l.id in s.h.begun
          case TakenBack => l.id in s.h.pushed)
    && (s.appender.Failing? ==> s.appender.id in s.h.begun)
    && (s.appender.Unwinding? ==> forall id :: id in s.appender.left ==> id in s.h.pushed)
  }

  function InHand(a: Appender): seq<Id> {
    match a
    case Failing(id) => [id]
    case Unwinding(left, _) => left
    case _ => []
  }

  function Left(d: Drain): seq<Id> {
    if d.Reporting? then d.left else []
  }

  function Times(ids: seq<Id>, id: Id): nat {
    multiset(ids)[id]
  }

  function In(ids: set<Id>, id: Id): nat {
    if id in ids then 1 else 0
  }

  function DrainsHold(drains: seq<Drain>, id: Id): nat {
    if drains == [] then 0
    else DrainsHold(drains[..|drains| - 1], id) + Times(Left(drains[|drains| - 1]), id)
  }

  function LossIds(losses: seq<Loss>): seq<Id> {
    seq(|losses|, i requires 0 <= i < |losses| => losses[i].id)
  }

  /** In how many places a decision is: with its caller, in the queue, in the hands of whoever is about to
      report it, written, or reported lost. */
  function Places(s: State, id: Id): nat {
    In(s.counting, id) + In(s.refused, id) + Times(Owed(s.q), id) + Times(InHand(s.appender), id)
    + DrainsHold(s.drains, id) + Times(s.h.appended, id) + Times(LossIds(s.h.losses), id)
  }

  /** Every counted decision is in exactly one place, and nothing else is anywhere. */
  ghost predicate Conserved(s: State) {
    forall id :: Places(s, id) == In(s.h.counted, id)
  }

  function CountOf(losses: seq<Loss>, cause: Cause): nat {
    if losses == [] then 0
    else CountOf(losses[..|losses| - 1], cause) + if losses[|losses| - 1].cause == cause then 1 else 0
  }

  predicate CountersOk(c: Counters, h: History) {
    && c.decisions == |h.counted|
    && c.dropped == CountOf(h.losses, Dropped)
    && c.failed == CountOf(h.losses, Failed)
    && c.abandoned == CountOf(h.losses, TakenBack)
  }

  ghost predicate Inv(capacity: nat, s: State) {
    && LineOk(capacity, s.q, s.h.pushed)
    && PushesOk(s.counting, s.refused, s.owing, s.h.counted, s.h.pushed)
    && BegunOk(s.q, s.h.pushed, s.h.begun)
    && WriterOk(s.q, s.appender, s.h.begun, s.h.landed, s.h.appended)
    && WakeOk(s)
    && EndOk(s)
    && DrainsOk(s.drains, s.h.pushed, s.h.losses)
    && CausesOk(s)
    && Conserved(s)
    && CountersOk(s.counters, s.h)
  }

  // ----- Small facts

  lemma {:induction false} OneDrainChanges(drains: seq<Drain>, i: nat, d: Drain, id: Id)
    requires i < |drains|
    ensures DrainsHold(drains[i := d], id) + Times(Left(drains[i]), id) == DrainsHold(drains, id) + Times(Left(d), id)
  {
    hide Times, Left;
    var n, changed := |drains| - 1, drains[i := d];
    if i < n {
      OneDrainChanges(drains[..n], i, d, id);
      assert changed[..n] == drains[..n][i := d] && changed[n] == drains[n];
    } else {
      assert changed[..n] == drains[..n];
    }
  }

  lemma OneDrainMore(drains: seq<Drain>, id: Id)
    ensures DrainsHold(drains + [Flushing], id) == DrainsHold(drains, id)
  {
    assert (drains + [Flushing])[..|drains|] == drains;
  }

  lemma OneLossMore(losses: seq<Loss>, l: Loss, id: Id)
    ensures Times(LossIds(losses + [l]), id) == Times(LossIds(losses), id) + if id == l.id then 1 else 0
  {
    assert LossIds(losses + [l]) == LossIds(losses) + [l.id];
  }

  lemma HeadAndRest(s: seq<Id>, id: Id)
    requires s != []
    ensures Times(s, id) == Times(s[1..], id) + if id == s[0] then 1 else 0
  {
    assert s == [s[0]] + s[1..];
  }

  // ----- Each part survives each step

  predicate OfCallers(step: Step) {
    step.Count? || step.Push? || step.NotifyPush? || step.ReportDropped? || step.Close? || step.NotifyClose?
  }

  predicate OfAppender(step: Step) {
    || step.Poll? || step.Look? || step.Await? || step.Land? || step.Answer? || step.Settle? || step.ReportFailed?
    || step.DropTask? || step.ReportUnwinding?
  }

  predicate OfDrains(step: Step) {
    step.BeginDrain? || step.FindNothingOwed? || step.Expire? || step.TakeBack? || step.ReportDrained? ||
      step.CancelDrain?
  }

  lemma StepKeepsLine(capacity: nat, s: State, step: Step)
    requires Enabled(s, step) && LineOk(capacity, s.q, s.h.pushed)
    ensures var t := Do(capacity, s, step); LineOk(capacity, t.q, t.h.pushed)
  {}

  lemma StepKeepsPushes(capacity: nat, s: State, step: Step)
    requires Enabled(s, step) && PushesOk(s.counting, s.refused, s.owing, s.h.counted, s.h.pushed)
    ensures var t := Do(capacity, s, step); PushesOk(t.counting, t.refused, t.owing, t.h.counted, t.h.pushed)
  {}

  lemma PushKeepsBegun(q: Pending, pushed: seq<Id>, begun: seq<Id>, id: Id)
    requires 0 <= Out(q, pushed) && BegunOk(q, pushed, begun) && NoRepeats(pushed) && id !in pushed
    ensures BegunOk(q.(waiting := q.waiting + [id]), pushed + [id], begun)
  {
    var more := pushed + [id];
    assert more[..Out(q, pushed)] == pushed[..Out(q, pushed)];
    AppendKeepsOrder(begun, pushed, id);
    hide InOrder, NoRepeats;
  }

  lemma AppendKeepsOrder(part: seq<Id>, whole: seq<Id>, id: Id)
    requires InOrder(part, whole) && NoRepeats(whole) && id !in whole
    ensures InOrder(part, whole + [id])
  {
    assert NoRepeats(whole + [id]);
    OrderStands(part, whole, whole + [id]);
  }

  lemma BeginKeepsBegun(q: Pending, pushed: seq<Id>, begun: seq<Id>)
    requires 0 <= Out(q, pushed) && BegunOk(q, pushed, begun) && NoRepeats(pushed) && q.waiting != []
    requires q.waiting == pushed[Out(q, pushed)..]
    ensures BegunOk(Taken(q), pushed, begun + [q.waiting[0]])
  {
    var k := Out(q, pushed);
    assert Out(Taken(q), pushed) == k + 1 && q.waiting[0] == pushed[k];
    var more := begun + [pushed[k]];
    assert pushed[..k + 1] == pushed[..k] + [pushed[k]];
    forall i | 0 <= i < |begun| ensures begun[i] in pushed[..k] && begun[i] != pushed[k] {
      assert begun[i] in begun;
      var at :| 0 <= at < k && pushed[..k][at] == begun[i];
      assert pushed[at] == begun[i];
    }
    forall i, j, a, b | 0 <= i < j < |more| && 0 <= a < |pushed| && 0 <= b < |pushed| && pushed[a] == more[i] &&
      pushed[b] == more[j]
      ensures a < b
    {
      if j == |begun| {
        assert more[i] in pushed[..k];
        var at :| 0 <= at < k && pushed[..k][at] == more[i];
        assert pushed[at] == pushed[a] && at == a && b == k;
      } else {
        assert more[i] == begun[i] && more[j] == begun[j];
      }
    }
  }

  lemma TakeBackKeepsBegun(q: Pending, pushed: seq<Id>, begun: seq<Id>)
    requires 0 <= Out(q, pushed) && BegunOk(q, pushed, begun)
    ensures BegunOk(Abandoned(q), pushed, begun)
  {}

  lemma StepKeepsBegun(capacity: nat, s: State, step: Step)
    requires Enabled(s, step) && LineOk(capacity, s.q, s.h.pushed) && BegunOk(s.q, s.h.pushed, s.h.begun)
    requires PushesOk(s.counting, s.refused, s.owing, s.h.counted, s.h.pushed)
    ensures var t := Do(capacity, s, step);
            LineOk(capacity, t.q, t.h.pushed) && BegunOk(t.q, t.h.pushed, t.h.begun)
  {
    StepKeepsLine(capacity, s, step);
    hide InOrder, NoRepeats;
    TakeBackKeepsBegun(s.q, s.h.pushed, s.h.begun);
    match step {
      case Push(id) => PushKeepsBegun(s.q, s.h.pushed, s.h.begun, id);
      case Look => if s.q.waiting != [] { BeginKeepsBegun(s.q, s.h.pushed, s.h.begun); }
      case _ =>
    }
  }

  lemma StepKeepsWriter(capacity: nat, s: State, step: Step)
    requires Enabled(s, step) && WriterOk(s.q, s.appender, s.h.begun, s.h.landed, s.h.appended)
    ensures var t := Do(capacity, s, step); WriterOk(t.q, t.appender, t.h.begun, t.h.landed, t.h.appended)
  {}

  lemma EveryStepHasAnOwner(step: Step)
    ensures OfCallers(step) || OfAppender(step) || OfDrains(step)
  {}

  lemma CallersKeepWake(capacity: nat, s: State, step: Step)
    requires Enabled(s, step) && OfCallers(step) && WakeOk(s)
    ensures WakeOk(Do(capacity, s, step))
  {}

  lemma AppenderKeepWake(capacity: nat, s: State, step: Step)
    requires Enabled(s, step) && OfAppender(step) && WakeOk(s)
    ensures WakeOk(Do(capacity, s, step))
  {}

  lemma DrainsKeepWake(capacity: nat, s: State, step: Step)
    requires Enabled(s, step) && OfDrains(step) && WakeOk(s)
    ensures WakeOk(Do(capacity, s, step))
  {}

  lemma StepKeepsWake(capacity: nat, s: State, step: Step)
    requires Enabled(s, step) && WakeOk(s)
    ensures WakeOk(Do(capacity, s, step))
  {
    hide *;
    if OfCallers(step) { CallersKeepWake(capacity, s, step); }
    else if OfAppender(step) { AppenderKeepWake(capacity, s, step); }
    else { EveryStepHasAnOwner(step); DrainsKeepWake(capacity, s, step); }
  }

  lemma CallersKeepEnd(capacity: nat, s: State, step: Step)
    requires Enabled(s, step) && OfCallers(step) && EndOk(s) && WakeOk(s)
    ensures EndOk(Do(capacity, s, step))
  {}

  lemma AppenderKeepEnd(capacity: nat, s: State, step: Step)
    requires Enabled(s, step) && OfAppender(step) && EndOk(s) && WakeOk(s)
    ensures EndOk(Do(capacity, s, step))
  {}

  lemma DrainsKeepEnd(capacity: nat, s: State, step: Step)
    requires Enabled(s, step) && OfDrains(step) && EndOk(s) && WakeOk(s)
    ensures EndOk(Do(capacity, s, step))
  {}

  lemma StepKeepsEnd(capacity: nat, s: State, step: Step)
    requires Enabled(s, step) && EndOk(s) && WakeOk(s)
    ensures EndOk(Do(capacity, s, step))
  {
    hide *;
    if OfCallers(step) { CallersKeepEnd(capacity, s, step); }
    else if OfAppender(step) { AppenderKeepEnd(capacity, s, step); }
    else { EveryStepHasAnOwner(step); DrainsKeepEnd(capacity, s, step); }
  }

  lemma LosingKeepsCounters(s: State, id: Id, cause: Cause)
    requires CountersOk(s.counters, s.h)
    ensures CountersOk(Lose(s, id, cause).counters, Lose(s, id, cause).h)
  {
    var more := s.h.losses + [Loss(id, cause)];
    assert more[..|s.h.losses|] == s.h.losses;
  }

  lemma SameCounters(s: State, t: State)
    requires CountersOk(s.counters, s.h) && t.counters == s.counters && t.h.counted == s.h.counted &&
             t.h.losses == s.h.losses
    ensures CountersOk(t.counters, t.h)
  {}

  lemma CountingKeepsCounters(s: State, id: Id)
    requires CountersOk(s.counters, s.h) && id !in s.h.counted
    ensures CountersOk(CountDenial(s, id).counters, CountDenial(s, id).h)
  {
    hide CountOf;
  }

  predicate Loses(s: State, step: Step)
    requires Enabled(s, step)
  {
    || step.ReportDropped? || step.ReportFailed? || (step.ReportUnwinding? && s.appender.left != [])
    || (step.ReportDrained? && s.drains[step.i].left != [])
  }

  lemma QuietStepsLoseNothing(capacity: nat, s: State, step: Step)
    requires Enabled(s, step) && !Loses(s, step) && !step.Count?
    ensures var t := Do(capacity, s, step);
            t.counters == s.counters && t.h.counted == s.h.counted && t.h.losses == s.h.losses
  {}

  lemma StepKeepsCounters(capacity: nat, s: State, step: Step)
    requires Enabled(s, step) && CountersOk(s.counters, s.h)
    ensures var t := Do(capacity, s, step); CountersOk(t.counters, t.h)
  {
    hide CountersOk, Lose;
    match step {
      case Count(id) => CountingKeepsCounters(s, id);
      case ReportDropped(id) =>
        var u := s.(refused := s.refused - {id});
        SameCounters(s, u);
        LosingKeepsCounters(u, id, Dropped);
      case ReportFailed =>
        var u := s.(appender := Looking);
        SameCounters(s, u);
        LosingKeepsCounters(u, s.appender.id, Failed);
      case ReportUnwinding =>
        var a := s.appender;
        if a.left != [] {
          var u := s.(appender := a.(left := a.left[1..]));
          SameCounters(s, u);
          LosingKeepsCounters(u, a.left[0], TakenBack);
        } else {
          LoseNothingMore(capacity, s, step);
        }
      case ReportDrained(i) =>
        var d := s.drains[i];
        if d.left != [] {
          var u := WithDrain(s, i, d.(left := d.left[1..]));
          SameCounters(s, u);
          LosingKeepsCounters(u, d.left[0], TakenBack);
        } else {
          LoseNothingMore(capacity, s, step);
        }
      case _ => LoseNothingMore(capacity, s, step);
    }
  }

  lemma LoseNothingMore(capacity: nat, s: State, step: Step)
    requires Enabled(s, step) && CountersOk(s.counters, s.h) && !Loses(s, step) && !step.Count?
    ensures var t := Do(capacity, s, step); CountersOk(t.counters, t.h)
  {
    QuietStepsLoseNothing(capacity, s, step);
    hide Do, CountersOk;
    SameCounters(s, Do(capacity, s, step));
  }

  lemma OwedWerePushed(q: Pending, pushed: seq<Id>, begun: seq<Id>)
    requires 0 <= Out(q, pushed) && q.waiting == pushed[Out(q, pushed)..] && BegunOk(q, pushed, begun)
    requires q.appending.Some? ==> q.appending.value in begun
    requires NoRepeats(pushed)
    ensures InOrder(Owed(q), pushed)
  {
    var k := Out(q, pushed);
    forall i, j, a, b | 0 <= i < j < |Owed(q)| && 0 <= a < |pushed| && 0 <= b < |pushed| && pushed[a] == Owed(q)[i] &&
      pushed[b] == Owed(q)[j]
      ensures a < b
    {
      var shift := |Held(q.appending)|;
      assert Owed(q)[j] == q.waiting[j - shift] == pushed[k + j - shift];
      if i < shift {
        assert pushed[a] in pushed[..k];
        var at :| 0 <= at < k && pushed[..k][at] == pushed[a];
      } else {
        assert Owed(q)[i] == pushed[k + i - shift];
      }
    }
  }

  lemma CallersKeepCauses(capacity: nat, s: State, step: Step)
    requires Enabled(s, step) && OfCallers(step) && CausesOk(s)
    requires PushesOk(s.counting, s.refused, s.owing, s.h.counted, s.h.pushed)
    requires WriterOk(s.q, s.appender, s.h.begun, s.h.landed, s.h.appended)
    requires forall id :: id in Owed(s.q) ==> id in s.h.pushed
    ensures CausesOk(Do(capacity, s, step))
  {
    hide NoRepeats;
  }

  lemma AppenderKeepCauses(capacity: nat, s: State, step: Step)
    requires Enabled(s, step) && OfAppender(step) && CausesOk(s)
    requires PushesOk(s.counting, s.refused, s.owing, s.h.counted, s.h.pushed)
    requires WriterOk(s.q, s.appender, s.h.begun, s.h.landed, s.h.appended)
    requires forall id :: id in Owed(s.q) ==> id in s.h.pushed
    ensures CausesOk(Do(capacity, s, step))
  {
    hide NoRepeats;
  }

  lemma DrainsKeepCauses(capacity: nat, s: State, step: Step)
    requires Enabled(s, step) && OfDrains(step) && CausesOk(s)
    requires PushesOk(s.counting, s.refused, s.owing, s.h.counted, s.h.pushed)
    requires WriterOk(s.q, s.appender, s.h.begun, s.h.landed, s.h.appended)
    requires forall id :: id in Owed(s.q) ==> id in s.h.pushed
    requires step.ReportDrained? ==> forall id :: id in Left(s.drains[step.i]) ==> id in s.h.pushed
    ensures CausesOk(Do(capacity, s, step))
  {
    hide NoRepeats;
  }

  lemma StepKeepsCauses(capacity: nat, s: State, step: Step)
    requires Enabled(s, step) && CausesOk(s)
    requires PushesOk(s.counting, s.refused, s.owing, s.h.counted, s.h.pushed)
    requires WriterOk(s.q, s.appender, s.h.begun, s.h.landed, s.h.appended)
    requires forall id :: id in Owed(s.q) ==> id in s.h.pushed
    requires step.ReportDrained? ==> forall id :: id in Left(s.drains[step.i]) ==> id in s.h.pushed
    ensures CausesOk(Do(capacity, s, step))
  {
    hide *;
    if OfCallers(step) { CallersKeepCauses(capacity, s, step); }
    else if OfAppender(step) { AppenderKeepCauses(capacity, s, step); }
    else { EveryStepHasAnOwner(step); DrainsKeepCauses(capacity, s, step); }
  }

  lemma DrainStands(d: Drain, pushed: seq<Id>, pushed': seq<Id>, losses: seq<Loss>, losses': seq<Loss>)
    requires DrainOk(d, pushed, losses) && pushed <= pushed' && losses <= losses' && NoRepeats(pushed')
    ensures DrainOk(d, pushed', losses')
  {
    if d.Reporting? || d.Done? { OrderStands(d.all, pushed, pushed'); }
  }

  lemma OrderStands(part: seq<Id>, whole: seq<Id>, whole': seq<Id>)
    requires InOrder(part, whole) && whole <= whole' && NoRepeats(whole')
    ensures InOrder(part, whole')
  {
    forall i, a | 0 <= i < |part| && 0 <= a < |whole'| && whole'[a] == part[i]
      ensures a < |whole| && whole[a] == part[i]
    {
      var at :| 0 <= at < |whole| && whole[at] == part[i];
      assert whole'[at] == whole'[a];
    }
    forall i | 0 <= i < |part| ensures part[i] in whole' { assert part[i] in whole; }
  }

  lemma ReportedMoves(d: Drain, pushed: seq<Id>, losses: seq<Loss>)
    requires DrainOk(d, pushed, losses) && d.Reporting? && d.left != []
    ensures DrainOk(d.(left := d.left[1..]), pushed, losses + [Loss(d.left[0], TakenBack)])
  {
    hide InOrder;
    var done := |d.all| - |d.left|;
    assert d.all[..done + 1] == d.all[..done] + [d.left[0]];
  }

  /** What was accepted and what was reported stays so. */
  lemma HistoryGrows(capacity: nat, s: State, step: Step)
    requires Enabled(s, step)
    ensures var t := Do(capacity, s, step); s.h.pushed <= t.h.pushed && s.h.losses <= t.h.losses
    ensures !OfDrains(step) ==> Do(capacity, s, step).drains == s.drains
  {}

  /** The two lists of drains differ at `i` at most. */
  predicate OnlyAt(before: seq<Drain>, after: seq<Drain>, i: nat) {
    |before| <= |after| && forall k :: 0 <= k < |after| && k != i ==> k < |before| && after[k] == before[k]
  }

  lemma DrainsStand(s: State, t: State, i: nat)
    requires DrainsOk(s.drains, s.h.pushed, s.h.losses) && s.h.pushed <= t.h.pushed && s.h.losses <= t.h.losses
    requires NoRepeats(t.h.pushed) && OnlyAt(s.drains, t.drains, i)
    requires i < |t.drains| ==> DrainOk(t.drains[i], t.h.pushed, t.h.losses)
    ensures DrainsOk(t.drains, t.h.pushed, t.h.losses)
  {
    hide DrainOk, NoRepeats, InOrder;
    forall k | 0 <= k < |t.drains| ensures DrainOk(t.drains[k], t.h.pushed, t.h.losses) {
      if k != i {
        var d := t.drains[k];
        assert k < |s.drains| && d == s.drains[k];
        DrainStands(d, s.h.pushed, t.h.pushed, s.h.losses, t.h.losses);
      }
    }
  }

  lemma DrainStepMoves(capacity: nat, s: State, step: Step)
    requires Enabled(s, step) && OfDrains(step) && DrainsOk(s.drains, s.h.pushed, s.h.losses) &&
             InOrder(Owed(s.q), s.h.pushed)
    ensures var t := Do(capacity, s, step); var i := if step.BeginDrain? then |s.drains| else step.i;
            && i < |t.drains| && t.h.pushed == s.h.pushed && OnlyAt(s.drains, t.drains, i)
            && DrainOk(t.drains[i], t.h.pushed, t.h.losses)
  {
    if step.ReportDrained? && s.drains[step.i].left != [] {
      hide InOrder;
      ReportedMoves(s.drains[step.i], s.h.pushed, s.h.losses);
    } else if step.ReportDrained? {
      hide InOrder;
      assert DrainOk(s.drains[step.i], s.h.pushed, s.h.losses);
      assert s.drains[step.i].all[..|s.drains[step.i].all|] == s.drains[step.i].all;
    }
  }

  lemma StepKeepsDrains(capacity: nat, s: State, step: Step)
    requires Enabled(s, step) && DrainsOk(s.drains, s.h.pushed, s.h.losses)
    requires NoRepeats(Do(capacity, s, step).h.pushed) && InOrder(Owed(s.q), s.h.pushed)
    ensures var t := Do(capacity, s, step); DrainsOk(t.drains, t.h.pushed, t.h.losses)
  {
    hide Do, DrainOk, DrainsOk, InOrder, NoRepeats, Owed, Enabled;
    HistoryGrows(capacity, s, step);
    if OfDrains(step) {
      DrainStepMoves(capacity, s, step);
      DrainsStand(s, Do(capacity, s, step), if step.BeginDrain? then |s.drains| else step.i);
    } else {
      DrainsStand(s, Do(capacity, s, step), |s.drains|);
    }
  }

  // ----- Conservation

  lemma CountConserves(s: State, d: Id, id: Id)
    requires d !in s.h.counted && d !in s.counting && Places(s, id) == In(s.h.counted, id)
    ensures Places(CountDenial(s, d), id) == In(CountDenial(s, d).h.counted, id)
  {
    hide DrainsHold, LossIds, InHand, Owed, Times;
  }

  lemma PushConserves(capacity: nat, s: State, d: Id, id: Id)
    requires d in s.counting && d !in s.refused
    ensures Places(PushDenial(capacity, s, d), id) == Places(s, id)
  {
    OwedAfterPush(s.q, capacity, d, id);
    hide DrainsHold, LossIds, InHand, Owed, Pushed, Times;
  }

  lemma OwedAfterPush(q: Pending, capacity: nat, d: Id, id: Id)
    ensures Times(Owed(Pushed(q, capacity, d)), id) ==
            Times(Owed(q), id) + if |q.waiting| < capacity && id == d then 1 else 0
  {
    if |q.waiting| < capacity { assert Owed(Pushed(q, capacity, d)) == Owed(q) + [d]; }
  }

  lemma LossConserves(s: State, before: State, d: Id, cause: Cause, id: Id)
    requires Places(s, id) + (if id == d then 1 else 0) == Places(before, id)
    ensures Places(Lose(s, d, cause), id) == Places(before, id)
  {
    hide DrainsHold, LossIds, InHand, Owed, Times;
    OneLossMore(s.h.losses, Loss(d, cause), id);
  }

  lemma DroppedConserves(s: State, d: Id, id: Id)
    requires d in s.refused
    ensures Places(Lose(s.(refused := s.refused - {d}), d, Dropped), id) == Places(s, id)
  {
    hide DrainsHold, LossIds, InHand, Owed, Times, Lose;
    LossConserves(s.(refused := s.refused - {d}), s, d, Dropped, id);
  }

  lemma NoTimes(id: Id)
    ensures Times([], id) == 0
  {}

  lemma LookConserves(s: State, id: Id)
    requires s.q.appending == None && s.appender.Looking?
    ensures Places(LookInside(s), id) == Places(s, id)
  {
    NoTimes(id);
    if s.q.waiting != [] {
      assert Owed(Taken(s.q)) == Owed(s.q);
    } else {
      assert Owed(s.q) == [] == Owed(Abandoned(s.q));
    }
    hide DrainsHold, LossIds, Times, Owed;
  }

  lemma SettleConserves(s: State, id: Id)
    requires s.appender.Wrote?
    ensures Places(SettleWrite(s), id) == Places(s, id)
  {
    hide DrainsHold, LossIds;
    if s.q.appending == Some(s.appender.id) { HeadAndRest(Owed(s.q), id); }
  }

  lemma FailureConserves(s: State, id: Id)
    requires s.appender.Failing?
    ensures Places(Lose(s.(appender := Looking), s.appender.id, Failed), id) == Places(s, id)
  {
    hide DrainsHold, LossIds, Owed, Lose;
    LossConserves(s.(appender := Looking), s, s.appender.id, Failed, id);
  }

  lemma UnwindConserves(s: State, id: Id)
    requires InHand(s.appender) == []
    ensures Places(Unwind(s), id) == Places(s, id)
  {
    NoTimes(id);
    assert Owed(Abandoned(s.q)) == [];
    hide DrainsHold, LossIds, Times, Owed;
  }

  lemma ReportUnwoundConserves(s: State, id: Id)
    requires s.appender.Unwinding?
    ensures Places(ReportNextUnwound(s), id) == Places(s, id)
  {
    hide DrainsHold, LossIds, Owed, Lose;
    var a := s.appender;
    if a.left != [] {
      HeadAndRest(a.left, id);
      LossConserves(s.(appender := a.(left := a.left[1..])), s, a.left[0], TakenBack, id);
    }
  }

  lemma DrainConserves(s: State, i: nat, d: Drain, id: Id)
    requires i < |s.drains|
    ensures Places(WithDrain(s, i, d), id) + Times(Left(s.drains[i]), id) == Places(s, id) + Times(Left(d), id)
  {
    hide DrainsHold, LossIds, InHand, Owed, Times, Left;
    OneDrainChanges(s.drains, i, d, id);
  }

  lemma TakeBackConserves(s: State, i: nat, id: Id)
    requires i < |s.drains| && s.drains[i].Expired?
    ensures Places(TakeBackOwed(s, i), id) == Places(s, id)
  {
    NoTimes(id);
    assert Owed(Abandoned(s.q)) == [];
    hide DrainsHold, LossIds, InHand, Times, Owed;
    DrainConserves(s, i, Reporting(Owed(s.q), Owed(s.q)), id);
  }

  lemma ReportDrainedConserves(s: State, i: nat, id: Id)
    requires i < |s.drains| && s.drains[i].Reporting?
    ensures Places(ReportNextDrained(s, i), id) == Places(s, id)
  {
    hide DrainsHold, LossIds, InHand, Owed, Lose, Places;
    var d := s.drains[i];
    if d.left == [] {
      DrainConserves(s, i, Done(d.all), id);
    } else {
      var rest := d.(left := d.left[1..]);
      DrainConserves(s, i, rest, id);
      HeadAndRest(d.left, id);
      LossConserves(WithDrain(s, i, rest), s, d.left[0], TakenBack, id);
    }
  }

  lemma SamePlaces(s: State, t: State, id: Id)
    requires t.counting == s.counting && t.refused == s.refused && t.drains == s.drains
    requires Owed(t.q) == Owed(s.q) && InHand(t.appender) == InHand(s.appender)
    requires t.h.appended == s.h.appended && t.h.losses == s.h.losses
    ensures Places(t, id) == Places(s, id)
  {}

  lemma QuietStepsConserve(capacity: nat, s: State, step: Step, id: Id)
    requires Enabled(s, step)
    requires step.NotifyPush? || step.Poll? || step.Await? || step.Land? || step.Answer? || step.Close? ||
             step.NotifyClose?
    ensures var t := Do(capacity, s, step); Places(t, id) == Places(s, id) && t.h.counted == s.h.counted
  {
    hide DrainsHold, LossIds, Times, Places;
    SamePlaces(s, Do(capacity, s, step), id);
  }

  lemma DrainStepsConserve(capacity: nat, s: State, step: Step, id: Id)
    requires Enabled(s, step)
    requires step.BeginDrain? || step.FindNothingOwed? || step.Expire? || step.CancelDrain?
    ensures var t := Do(capacity, s, step); Places(t, id) == Places(s, id) && t.h.counted == s.h.counted
  {
    hide DrainsHold, LossIds, InHand, Owed, Times;
    NoTimes(id);
    match step {
      case BeginDrain => OneDrainMore(s.drains, id);
      case FindNothingOwed(i) => DrainConserves(s, i, Done([]), id);
      case Expire(i) => DrainConserves(s, i, Expired, id);
      case CancelDrain(i) => DrainConserves(s, i, Cancelled, id);
    }
  }

  lemma StepKeepsConserved(capacity: nat, s: State, step: Step, id: Id)
    requires Enabled(s, step) && Places(s, id) == In(s.h.counted, id)
    requires PushesOk(s.counting, s.refused, s.owing, s.h.counted, s.h.pushed)
    requires s.appender.Looking? ==> s.q.appending == None
    ensures var t := Do(capacity, s, step); Places(t, id) == In(t.h.counted, id)
  {
    hide DrainsHold, LossIds, InOrder, NoRepeats, Owed, Places, Pushed;
    match step {
      case Count(d) => CountConserves(s, d, id);
      case Push(d) => PushConserves(capacity, s, d, id);
      case ReportDropped(d) => DroppedConserves(s, d, id);
      case Look => LookConserves(s, id);
      case Settle => SettleConserves(s, id);
      case ReportFailed => FailureConserves(s, id);
      case DropTask => DropConserves(s, id);
      case ReportUnwinding => ReportUnwoundConserves(s, id);
      case TakeBack(i) => TakeBackConserves(s, i, id);
      case ReportDrained(i) => ReportDrainedConserves(s, i, id);
      case BeginDrain | FindNothingOwed(_) | Expire(_) | CancelDrain(_) => DrainStepsConserve(capacity, s, step, id);
      case _ => QuietStepsConserve(capacity, s, step, id);
    }
  }

  lemma DropConserves(s: State, id: Id)
    requires Droppable(s.appender)
    ensures Places(Unwind(s), id) == Places(s, id)
    ensures s.appender.Unpolled? ==> Places(s.(appender := Gone(false, s.q.closed)), id) == Places(s, id)
  {
    hide *;
    NothingInHand(s.appender);
    UnwindConserves(s, id);
    if s.appender.Unpolled? {
      NothingInHand(Gone(false, s.q.closed));
      SamePlaces(s, s.(appender := Gone(false, s.q.closed)), id);
    }
  }

  lemma NothingInHand(a: Appender)
    requires Droppable(a) || a.Gone?
    ensures InHand(a) == []
  {}

  // ----- The run

  lemma StepKeepsInv(capacity: nat, s: State, step: Step)
    requires Inv(capacity, s) && Enabled(s, step)
    ensures Inv(capacity, Do(capacity, s, step))
  {
    var t := Do(capacity, s, step);
    OwedWerePushed(s.q, s.h.pushed, s.h.begun);
    OwedIds(capacity, s, step);
    hide LineOk, PushesOk, BegunOk, WriterOk, WakeOk, EndOk, DrainsOk, CausesOk, CountersOk, Places, Do, InOrder,
      Owed, Left;
    StepKeepsPushes(capacity, s, step);
    StepKeepsBegun(capacity, s, step);
    StepKeepsWriter(capacity, s, step);
    StepKeepsWake(capacity, s, step);
    StepKeepsEnd(capacity, s, step);
    StepKeepsCounters(capacity, s, step);
    PushedOnce(t);
    StepKeepsDrains(capacity, s, step);
    StepKeepsCauses(capacity, s, step);
    forall id ensures Places(t, id) == In(t.h.counted, id) {
      StepKeepsConserved(capacity, s, step, id);
    }
  }

  lemma PushedOnce(s: State)
    requires PushesOk(s.counting, s.refused, s.owing, s.h.counted, s.h.pushed)
    ensures NoRepeats(s.h.pushed)
  {}

  /** Everything owed, or left for a drain to report, was accepted once; a looking appender holds nothing. */
  lemma OwedIds(capacity: nat, s: State, step: Step)
    requires Inv(capacity, s) && Enabled(s, step)
    ensures forall id :: id in Owed(s.q) ==> id in s.h.pushed
    ensures step.ReportDrained? ==> forall id :: id in Left(s.drains[step.i]) ==> id in s.h.pushed
    ensures s.appender.Looking? ==> s.q.appending == None
  {
    OwedWerePushed(s.q, s.h.pushed, s.h.begun);
    hide CausesOk, Conserved, CountersOk, EndOk, WakeOk, NoRepeats;
    if step.ReportDrained? {
      var d := s.drains[step.i];
      assert DrainOk(d, s.h.pushed, s.h.losses);
      forall id | id in d.left ensures id in s.h.pushed { assert id in d.all; }
    }
  }

  lemma StepOf(capacity: nat, run: seq<State>, k: nat) returns (step: Step)
    requires Run(capacity, run) && 0 < k < |run|
    ensures Enabled(run[k - 1], step) && run[k] == Do(capacity, run[k - 1], step)
  {
    hide Init, Enabled, Do;
    assert Next(capacity, run[k - 1], run[k - 1 + 1]);
    step :| Enabled(run[k - 1], step) && run[k] == Do(capacity, run[k - 1], step);
  }

  lemma {:induction false} RunKeepsInv(capacity: nat, run: seq<State>, k: nat)
    requires Run(capacity, run) && k < |run|
    ensures Inv(capacity, run[k])
  {
    hide Inv, Run, Enabled, Do;
    if k == 0 {
      StartHasInv(capacity, run);
    } else {
      RunKeepsInv(capacity, run, k - 1);
      var step := StepOf(capacity, run, k);
      StepKeepsInv(capacity, run[k - 1], step);
    }
  }

  lemma NothingAnywhere(s: State, id: Id)
    requires Init(s)
    ensures Places(s, id) == In(s.h.counted, id)
  {
    assert Owed(s.q) == [] && InHand(s.appender) == [] && LossIds(s.h.losses) == [];
    NoTimes(id);
    hide Times, LossIds, Owed, InHand;
  }

  lemma InitHasInv(capacity: nat, s: State)
    requires Init(s)
    ensures Inv(capacity, s)
  {
    forall id ensures Places(s, id) == In(s.h.counted, id) { NothingAnywhere(s, id); }
    hide Places, Times, LossIds, In, InHand;
  }

  lemma StartHasInv(capacity: nat, run: seq<State>)
    requires Run(capacity, run)
    ensures run != [] && Inv(capacity, run[0])
  {
    InitHasInv(capacity, run[0]);
    hide Next, Inv, Init;
  }
}
