/**
  Every append comes to its answer: over any run a call takes at most six steps for each of its twelve attempts, and on
  one list it never stands still, however the races go.
*/
module AppendEnds {
  import opened Wrappers
  import opened Chain
  import opened Append
  import opened AppendSafety
  import opened AppendLaws
  import opened AppendFork
  import opened AppendSteps

  // ----- How far a call is from its answer

  function PcLeft(pc: Pc): nat {
    match pc
    case Checking => 6
    case Reading => 5
    case Sending(_) => 4
    case Waiting(_, _) => 3
    case Classifying(_) | CheckingRows => 2
    case Rereading(_) | LookingUp(_) => 1
    case Returned(_) => 0
  }

  function StepsLeft(c: Call): nat {
    if c.pc.Returned? || c.attempt >= APPEND_ATTEMPTS then 0 else 6 * (11 - c.attempt) + PcLeft(c.pc)
  }

  /** Whatever step the run takes, a call either stands where it stood or is nearer to its answer. */
  lemma AStepBringsItNearer(policy: Policy, s: State, step: Step, i: nat)
    requires Enabled(policy, s, step) && i < |s.calls|
    requires s.calls[i].attempt < APPEND_ATTEMPTS || s.calls[i].pc.Returned?
    ensures i < |Do(policy, s, step).calls|
    ensures var c, c' := s.calls[i], Do(policy, s, step).calls[i]; c' == c || StepsLeft(c') < StepsLeft(c)
  {
    hide Orders, HeadIs, Admits, Insert, SealRun;
  }

  lemma NextBringsItNearer(policy: Policy, run: seq<State>, k: nat, i: nat)
    requires Run(policy, run) && k + 1 < |run| && i < |run[k].calls|
    ensures i < |run[k + 1].calls|
    ensures var c, c' := run[k].calls[i], run[k + 1].calls[i]; c' == c || StepsLeft(c') < StepsLeft(c)
  {
    CallCount(policy, run, k, i);
    assert Next(policy, run[k], run[k + 1]);
    var step :| Enabled(policy, run[k], step) && run[k + 1] == Do(policy, run[k], step);
    hide Run, Next, Enabled, Do, StepsLeft;
    AStepBringsItNearer(policy, run[k], step, i);
  }

  /** How many steps of the run between `j` and `k` moved call `i`. */
  ghost function Moves(run: seq<State>, i: nat, j: nat, k: nat): nat
    requires j <= k < |run| && forall m :: j <= m <= k ==> i < |run[m].calls|
  {
    if j == k then 0 else Moves(run, i, j, k - 1) + if run[k].calls[i] == run[k - 1].calls[i] then 0 else 1
  }

  lemma {:induction false} CallsStay(policy: Policy, run: seq<State>, i: nat, j: nat, k: nat)
    requires Run(policy, run) && j <= k < |run| && i < |run[j].calls|
    ensures forall m :: j <= m <= k ==> i < |run[m].calls|
  {
    hide Run, StepsLeft;
    if j < k {
      CallsStay(policy, run, i, j, k - 1);
      NextBringsItNearer(policy, run, k - 1, i);
    }
  }

  lemma AtMostSeventyTwo(c: Call)
    ensures StepsLeft(c) <= 72
  {}

  /** A call takes at most seventy-two steps, six for each of its twelve attempts, whatever the store, the sealers and
      the other calls do meanwhile. */
  lemma {:induction false} AnAppendTakesAtMostSeventyTwoSteps(policy: Policy, run: seq<State>, i: nat, j: nat, k: nat)
    requires Run(policy, run) && j <= k < |run| && i < |run[j].calls|
    ensures forall m :: j <= m <= k ==> i < |run[m].calls|
    ensures Moves(run, i, j, k) + StepsLeft(run[k].calls[i]) <= StepsLeft(run[j].calls[i]) <= 72
  {
    hide Run, StepsLeft;
    CallsStay(policy, run, i, j, k);
    AtMostSeventyTwo(run[j].calls[i]);
    if j < k {
      AnAppendTakesAtMostSeventyTwoSteps(policy, run, i, j, k - 1);
      NextBringsItNearer(policy, run, k - 1, i);
    }
  }

  // ----- On one list it never stands still

  /** The steps that bring call `i` on: its own, none of them a read that failed or an answer lost on its way, and the
      store's decision on the transaction it waits for. */
  ghost predicate BringsOn(s: State, i: nat, step: Step)
    requires i < |s.calls|
  {
    var pc := s.calls[i].pc;
    match step
    case Check(n) => n == i
    case CheckRows(n) => n == i
    case ReadHead(n, _) => n == i
    case Send(n) => n == i
    case Decide(t) => pc.Waiting? && pc.tx == t
    case Acknowledge(n) => n == i
    case LoseAcknowledgement(n) => n == i && pc.Waiting? && pc.tx < |s.w.txs| && s.w.txs[pc.tx].status == Rejected
    case Classify(n) => n == i
    case Reread(n, _) => n == i
    case LookUp(n) => n == i
    case _ => false
  }

  lemma WaitsForATx(policy: Policy, run: seq<State>, k: nat, i: nat)
    requires Run(policy, run) && k < |run| && i < |run[k].calls| && run[k].calls[i].pc.Waiting?
    ensures run[k].calls[i].pc.tx < |run[k].w.txs|
  {
    CallOf(policy, run, k, i);
    hide Run, ChainOk, LostOk;
  }

  function HeadOf(w: World): Hash {
    Tip(w.store.genesis, w.log, |w.log|)
  }

  /** The step that brings a call on. */
  ghost function StepFor(s: State, i: nat): Step
    requires i < |s.calls| && !s.calls[i].pc.Returned?
    requires s.calls[i].pc.Waiting? ==> s.calls[i].pc.tx < |s.w.txs|
  {
    match s.calls[i].pc
    case Checking => Check(i)
    case CheckingRows => CheckRows(i)
    case Reading => ReadHead(i, HeadOf(s.w))
    case Sending(_) => Send(i)
    case Waiting(_, t) =>
      if s.w.txs[t].status == InFlight then Decide(t)
      else if s.w.txs[t].status == Committed then Acknowledge(i) else LoseAcknowledgement(i)
    case Classifying(_) => Classify(i)
    case Rereading(_) => Reread(i, HeadOf(s.w))
    case LookingUp(_) => LookUp(i)
  }

  /** The head can be read, or the call need not read it any more. */
  ghost predicate CanGoOn(s: State, i: nat)
    requires i < |s.calls|
  {
    var pc := s.calls[i].pc;
    && (pc.Waiting? ==> pc.tx < |s.w.txs|)
    && (Linear(s.w.store, s.w.log) || pc.Returned? || (pc.Waiting? && s.w.txs[pc.tx].status == Committed))
  }

  lemma TheHead(w: World)
    requires Linear(w.store, w.log)
    ensures HeadIs(w.store, HeadOf(w))
  {
    hide Linear, HeadIs, Tip;
    LinearHead(w.store, w.log, HeadOf(w));
  }

  lemma StepForIsEnabled(policy: Policy, s: State, i: nat)
    requires i < |s.calls| && !s.calls[i].pc.Returned? && CanGoOn(s, i)
    ensures Enabled(policy, s, StepFor(s, i)) && BringsOn(s, i, StepFor(s, i))
  {
    hide Linear, HeadIs, HeadOf, Orders;
    if s.calls[i].pc.Reading? || s.calls[i].pc.Rereading? { TheHead(s.w); }
  }

  /** On one list a call that has not returned has a step that brings it on. */
  lemma ACallIsNeverStuck(policy: Policy, run: seq<State>, k: nat, i: nat) returns (step: Step)
    requires Run(policy, run) && k < |run| && i < |run[k].calls| && !run[k].calls[i].pc.Returned?
    requires Linear(run[k].w.store, run[k].w.log)
    ensures Enabled(policy, run[k], step) && BringsOn(run[k], i, step)
  {
    if run[k].calls[i].pc.Waiting? { WaitsForATx(policy, run, k, i); }
    hide Run, Linear, StepFor, Enabled, BringsOn;
    StepForIsEnabled(policy, run[k], i);
    step := StepFor(run[k], i);
  }

  // ----- And so it ends

  function Rank(s: State, i: nat): nat
    requires i < |s.calls|
  {
    var pc := s.calls[i].pc;
    2 * StepsLeft(s.calls[i]) +
    if pc.Waiting? && pc.tx < |s.w.txs| && s.w.txs[pc.tx].status == InFlight then 1 else 0
  }

  lemma StepForGoesOn(policy: Policy, s: State, i: nat)
    requires i < |s.calls| && !s.calls[i].pc.Returned? && CanGoOn(s, i) && s.calls[i].attempt < APPEND_ATTEMPTS
    requires Enabled(policy, s, StepFor(s, i))
    ensures var t := Do(policy, s, StepFor(s, i)); i < |t.calls| && CanGoOn(t, i) && Rank(t, i) < Rank(s, i)
  {
    hide Linear, HeadIs, HeadOf, Orders, Admits, Insert;
  }

  /** How `more` came from `run`: by steps that bring call `i` on. */
  ghost predicate BroughtOn(policy: Policy, run: seq<State>, i: nat, more: seq<State>) {
    && run != [] && run <= more
    && forall k :: |run| - 1 <= k < |more| - 1 ==> StepBringsOn(policy, more[k], i, more[k + 1])
  }

  ghost predicate StepBringsOn(policy: Policy, s: State, i: nat, t: State) {
    i < |s.calls| && exists step :: Enabled(policy, s, step) && BringsOn(s, i, step) && t == Do(policy, s, step)
  }

  lemma OneStepOn(policy: Policy, run: seq<State>, i: nat) returns (more: seq<State>)
    requires Run(policy, run) && run != [] && i < |Last(run).calls| && CanGoOn(Last(run), i)
    requires !Last(run).calls[i].pc.Returned?
    ensures more != [] && Run(policy, more) && more == run + [Last(more)]
    ensures StepBringsOn(policy, Last(run), i, Last(more))
    ensures i < |Last(more).calls| && CanGoOn(Last(more), i) && Rank(Last(more), i) < Rank(Last(run), i)
  {
    CallCount(policy, run, |run| - 1, i);
    hide Run, CanGoOn, Rank, StepFor, Enabled, Do, BringsOn;
    StepForIsEnabled(policy, Last(run), i);
    StepForGoesOn(policy, Last(run), i);
    more := TakeStep(policy, run, StepFor(Last(run), i));
  }

  lemma {:induction false} CallEnds(policy: Policy, run: seq<State>, i: nat) returns (more: seq<State>)
    requires Run(policy, run) && run != [] && i < |Last(run).calls| && CanGoOn(Last(run), i)
    ensures Run(policy, more) && BroughtOn(policy, run, i, more)
    ensures i < |Last(more).calls| && Last(more).calls[i].pc.Returned?
    decreases Rank(Last(run), i)
  {
    hide Run, CanGoOn, Rank, StepBringsOn;
    if Last(run).calls[i].pc.Returned? { return run; }
    var next := OneStepOn(policy, run, i);
    more := CallEnds(policy, next, i);
    forall k | |run| - 1 <= k < |more| - 1 ensures StepBringsOn(policy, more[k], i, more[k + 1]) {
      if k == |run| - 1 { assert more[k] == next[k] && more[k + 1] == next[k + 1]; }
    }
  }

  /** On one list every call can come to its answer by its own steps and the store's decisions on what it sent; a
      read that fails or an acknowledgement that is lost is never what it needs. */
  lemma AnAppendEnds(policy: Policy, run: seq<State>, i: nat) returns (more: seq<State>)
    requires Run(policy, run) && run != [] && i < |Last(run).calls|
    requires Linear(Last(run).w.store, Last(run).w.log)
    ensures Run(policy, more) && BroughtOn(policy, run, i, more)
    ensures i < |Last(more).calls| && Last(more).calls[i].pc.Returned?
  {
    if Last(run).calls[i].pc.Waiting? { WaitsForATx(policy, run, |run| - 1, i); }
    assert CanGoOn(Last(run), i);
    hide *;
    more := CallEnds(policy, run, i);
  }
}
