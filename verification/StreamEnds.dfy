/**
  How a stream ends: which terminal event its body carries, which outcome its close records, and what brought
  each about, told from the steps of the run.
*/
module StreamEnds {
  import opened Wrappers
  import opened Streams
  import opened StreamLaws

  /** A run with the steps it took. */
  ghost predicate Follows(capacity: nat, run: seq<State>, steps: seq<Step>) {
    && |run| == |steps| + 1 && run[0] == State([], map[])
    && forall k :: 0 <= k < |steps| ==> Enabled(run[k], steps[k]) && run[k + 1] == Do(capacity, run[k], steps[k])
  }

  /** Within the first `n` steps the hub's drain told stream `i` to shut down. */
  predicate Told(steps: seq<Step>, i: nat, n: nat)
    requires n <= |steps|
  {
    exists m :: 0 <= m < n && steps[m] == On(i, TellShutdown)
  }

  /** A producer of stream `i` signalled its overflow. */
  predicate Signalled(steps: seq<Step>, i: nat, n: nat)
    requires n <= |steps|
  {
    exists m :: 0 <= m < n && steps[m] == On(i, SignalOverflow)
  }

  /** Step `m` sent to stream `i`, whose receiver was there and whose channel was full. */
  predicate RefusedFull(capacity: nat, s: State, step: Step, i: nat) {
    && step.On? && step.i == i && step.action.Send? && i < |s.streams|
    && !s.streams[i].receiverClosed && |s.streams[i].queue| >= capacity
  }

  predicate FullBefore(capacity: nat, run: seq<State>, steps: seq<Step>, i: nat, n: nat)
    requires n <= |steps| <= |run|
  {
    exists m :: 0 <= m < n && RefusedFull(capacity, run[m], steps[m], i)
  }

  // ----- One step of one stream

  /** Another stream's step leaves this one alone, and its own step is its action. */
  lemma StreamMoves(capacity: nat, s: State, step: Step, i: nat)
    requires Enabled(s, step) && i < |s.streams|
    ensures i < |Do(capacity, s, step).streams|
    ensures step.On? && step.i == i ==>
              CanAct(s.streams[i], step.action) &&
              Do(capacity, s, step).streams[i] == Act(capacity, s.streams[i], step.action)
    ensures !(step.On? && step.i == i) ==> Do(capacity, s, step).streams[i] == s.streams[i]
  {
    hide Act, CanAct;
  }

  lemma StreamAppears(capacity: nat, s: State, step: Step, i: nat)
    requires Enabled(s, step) && |s.streams| <= i < |Do(capacity, s, step).streams|
    ensures Do(capacity, s, step).streams[i] == NewStream(Do(capacity, s, step).streams[i].identity) && step.Respond?
  {
    hide Act, CanAct;
  }

  lemma {:induction false} NotBeforeItAppears(capacity: nat, run: seq<State>, steps: seq<Step>, k: nat, i: nat)
    requires Follows(capacity, run, steps) && k < |run| && |run[k].streams| <= i
    ensures forall m :: 0 <= m < k ==> !(steps[m].On? && steps[m].i == i)
  {
    if k > 0 {
      assert |run[k - 1].streams| <= |run[k].streams| by { StreamsStay(capacity, run[k - 1], steps[k - 1]); }
      NotBeforeItAppears(capacity, run, steps, k - 1, i);
      assert Enabled(run[k - 1], steps[k - 1]);
      hide Do, CanAct;
    }
  }

  lemma StreamsStay(capacity: nat, s: State, step: Step)
    requires Enabled(s, step)
    ensures |s.streams| <= |Do(capacity, s, step).streams|
  {
    hide Act, CanAct;
  }

  predicate SameSignals(s: Stream, t: Stream) {
    t.flags.shutdown == s.flags.shutdown && t.flags.overflow == s.flags.overflow
  }

  lemma CloseKeepsSignals(s: Stream, outcome: Outcome)
    ensures SameSignals(s, CloseWith(s, outcome))
  {}

  lemma SendKeepsSignals(capacity: nat, s: Stream, k: nat)
    requires k < |s.emitting|
    ensures SameSignals(s, SendNext(capacity, s, k))
  {}

  lemma PollKeepsSignals(s: Stream)
    ensures SameSignals(s, LookAtFlags(s)) && SameSignals(s, ReceiveNext(s))
    ensures s.poller.Closing? ==> SameSignals(s, ClosePoll(s))
  {}

  lemma FlagsSay(capacity: nat, s: Stream, a: Action)
    requires CanAct(s, a)
    ensures var t := Act(capacity, s, a);
            && (t.flags.shutdown <==> s.flags.shutdown || a == TellShutdown)
            && (t.flags.overflow <==> s.flags.overflow || a == SignalOverflow)
            && (a == SignalOverflow ==> s.overflowing > 0)
  {
    hide SendNext, LookAtFlags, ReceiveNext, ClosePoll, CloseWith;
    match a {
      case Send(k) => SendKeepsSignals(capacity, s, k);
      case CheckPoll | Receive | FinishPoll => PollKeepsSignals(s);
      case DropBody => CloseKeepsSignals(s.(dropped := true, receiverClosed := true, queue := []), ClientGone);
      case CutShort => CloseKeepsSignals(s, Shutdown);
      case _ =>
    }
  }

  lemma RefusalsSay(capacity: nat, s: Stream, a: Action)
    requires CanAct(s, a)
    ensures Act(capacity, s, a).overflowing > s.overflowing ==>
              a.Send? && !s.receiverClosed && |s.queue| >= capacity
  {}

  lemma PollerSays(capacity: nat, s: Stream, a: Action)
    requires CanAct(s, a)
    ensures var t := Act(capacity, s, a);
            t.poller.Closing? && t.poller != s.poller && t.poller.outcome != Complete ==>
              && a == CheckPoll && (s.flags.shutdown || s.flags.overflow)
              && t.poller.outcome == if s.flags.shutdown then Shutdown else Overflow
  {}

  lemma OthersKeepTheBody(capacity: nat, s: Stream, a: Action)
    requires CanAct(s, a) && !a.Receive? && !a.FinishPoll?
    ensures Act(capacity, s, a).body == s.body
  {}

  lemma BodySays(capacity: nat, s: Stream, a: Action, item: Item)
    requires CanAct(s, a) && item in Act(capacity, s, a).body && item.Terminal?
    ensures item in s.body || (s.poller.Closing? && s.poller.outcome != Complete && item == Terminal(s.poller.outcome))
  {
    if !a.Receive? && !a.FinishPoll? {
      OthersKeepTheBody(capacity, s, a);
      hide *;
    }
  }

  lemma OutcomeSays(capacity: nat, s: Stream, a: Action)
    requires CanAct(s, a) && Act(capacity, s, a).outcome != s.outcome
    ensures !s.flags.closed && (a == FinishPoll || a == DropBody || a == CutShort)
  {}

  // ----- What the flags, the poller and the body go back to

  /** A look of the body at the flags, after this much had happened to stream `i`. */
  predicate LookedAt(capacity: nat, run: seq<State>, steps: seq<Step>, i: nat, p: nat, outcome: Outcome)
    requires p < |steps| <= |run|
  {
    && steps[p] == On(i, CheckPoll)
    && (outcome == Shutdown ==> Told(steps, i, p))
    && (outcome == Overflow ==> !Told(steps, i, p) && Signalled(steps, i, p) && FullBefore(capacity, run, steps, i, p))
    && (outcome == Shutdown || outcome == Overflow)
  }

  predicate EndsBy(capacity: nat, run: seq<State>, steps: seq<Step>, i: nat, k: nat, outcome: Outcome)
    requires k <= |steps| <= |run|
  {
    exists p :: 0 <= p < k && LookedAt(capacity, run, steps, i, p, outcome)
  }

  /** What stream `i` stands at goes back to the steps so far. */
  ghost predicate GoesBack(capacity: nat, run: seq<State>, steps: seq<Step>, k: nat, i: nat, s: Stream)
    requires k <= |steps| <= |run|
  {
    && (s.flags.shutdown <==> Told(steps, i, k)) && (s.flags.overflow <==> Signalled(steps, i, k))
    && (s.overflowing > 0 || s.flags.overflow ==> FullBefore(capacity, run, steps, i, k))
    && (s.poller.Closing? && s.poller.outcome != Complete ==> EndsBy(capacity, run, steps, i, k, s.poller.outcome))
    && forall item :: item in s.body && item.Terminal? ==> EndsBy(capacity, run, steps, i, k, item.outcome)
  }

  lemma OneMoreStep(capacity: nat, run: seq<State>, steps: seq<Step>, k: nat, i: nat)
    requires k < |steps| <= |run|
    ensures Told(steps, i, k + 1) <==> Told(steps, i, k) || steps[k] == On(i, TellShutdown)
    ensures Signalled(steps, i, k + 1) <==> Signalled(steps, i, k) || steps[k] == On(i, SignalOverflow)
    ensures FullBefore(capacity, run, steps, i, k + 1) <==>
            FullBefore(capacity, run, steps, i, k) || RefusedFull(capacity, run[k], steps[k], i)
    ensures forall outcome ::
              EndsBy(capacity, run, steps, i, k + 1, outcome) <==>
              EndsBy(capacity, run, steps, i, k, outcome) || LookedAt(capacity, run, steps, i, k, outcome)
  {
    hide RefusedFull, LookedAt;
  }

  lemma ActGoesBack(capacity: nat, run: seq<State>, steps: seq<Step>, k: nat, i: nat, s: Stream, t: Stream)
    requires k < |steps| <= |run| && i < |run[k].streams| && s == run[k].streams[i]
    requires GoesBack(capacity, run, steps, k, i, s)
    requires steps[k].On? && steps[k].i == i && CanAct(s, steps[k].action) && t == Act(capacity, s, steps[k].action)
    ensures GoesBack(capacity, run, steps, k + 1, i, t)
  {
    OneMoreStep(capacity, run, steps, k, i);
    FlagsSay(capacity, s, steps[k].action);
    RefusalsSay(capacity, s, steps[k].action);
    PollerSays(capacity, s, steps[k].action);
    hide Act, CanAct, Told, Signalled, FullBefore, EndsBy;
    if t.poller.Closing? && t.poller != s.poller && t.poller.outcome != Complete {
      assert LookedAt(capacity, run, steps, i, k, t.poller.outcome);
    }
    forall item | item in t.body && item.Terminal? ensures EndsBy(capacity, run, steps, i, k + 1, item.outcome) {
      BodySays(capacity, s, steps[k].action, item);
    }
  }

  lemma QuietGoesBack(capacity: nat, run: seq<State>, steps: seq<Step>, k: nat, i: nat, s: Stream)
    requires k < |steps| <= |run| && GoesBack(capacity, run, steps, k, i, s) && !(steps[k].On? && steps[k].i == i)
    ensures GoesBack(capacity, run, steps, k + 1, i, s)
  {
    OneMoreStep(capacity, run, steps, k, i);
    hide Told, Signalled, FullBefore, EndsBy;
  }

  lemma FreshGoesBack(capacity: nat, run: seq<State>, steps: seq<Step>, k: nat, i: nat, s: Stream)
    requires k <= |steps| <= |run| && s == NewStream(s.identity)
    requires forall m :: 0 <= m < k ==> !(steps[m].On? && steps[m].i == i)
    ensures GoesBack(capacity, run, steps, k, i, s)
  {}

  lemma {:induction false} StreamGoesBack(capacity: nat, run: seq<State>, steps: seq<Step>, k: nat, i: nat)
    requires Follows(capacity, run, steps) && k < |run| && i < |run[k].streams|
    ensures GoesBack(capacity, run, steps, k, i, run[k].streams[i])
  {
    hide GoesBack, Enabled, Do;
    if k > 0 {
      var s, step := run[k - 1], steps[k - 1];
      assert Enabled(s, step) && run[k] == Do(capacity, s, step);
      if i < |s.streams| {
        StreamGoesBack(capacity, run, steps, k - 1, i);
        StreamMoves(capacity, s, step, i);
        if step.On? && step.i == i {
          ActGoesBack(capacity, run, steps, k - 1, i, s.streams[i], run[k].streams[i]);
        } else {
          QuietGoesBack(capacity, run, steps, k - 1, i, s.streams[i]);
        }
      } else {
        StreamAppears(capacity, s, step, i);
        NotBeforeItAppears(capacity, run, steps, k - 1, i);
        FreshGoesBack(capacity, run, steps, k, i, run[k].streams[i]);
      }
    }
  }

  // ----- The laws

  /** A terminal event says what happened: a body that carries the shutdown event looked after the drain had told the
      stream, and one that carries the overflow event looked after a send was refused by the full channel and before
      any drain had told it. No other terminal event exists. */
  lemma TerminalMeans(capacity: nat, run: seq<State>, steps: seq<Step>, k: nat, i: nat, outcome: Outcome)
    requires Follows(capacity, run, steps) && k < |run| && i < |run[k].streams|
    requires Terminal(outcome) in run[k].streams[i].body
    ensures exists p :: 0 <= p < k && steps[p] == On(i, CheckPoll) &&
              if outcome == Shutdown then Told(steps, i, p)
              else outcome == Overflow && !Told(steps, i, p) && FullBefore(capacity, run, steps, i, p)
  {
    StreamGoesBack(capacity, run, steps, k, i);
    hide Follows, Told, FullBefore, Signalled;
    var p :| 0 <= p < k && LookedAt(capacity, run, steps, i, p, outcome);
  }

  /** And a look ends the body by what it finds: told to shut down it ends with that event, overflowed and not told with
      the overflow event, and otherwise it goes on to receive. Both endings close the channel for its producers. */
  lemma ALookEndsTheBody(capacity: nat, run: seq<State>, steps: seq<Step>, k: nat, i: nat)
    requires Follows(capacity, run, steps) && k < |steps| && steps[k] == On(i, CheckPoll)
    ensures i < |run[k].streams| && i < |run[k + 1].streams|
    ensures var t := run[k + 1].streams[i];
            && t.body == run[k].streams[i].body
            && (Told(steps, i, k) <==> t.poller == Closing(Shutdown))
            && (!Told(steps, i, k) && Signalled(steps, i, k) <==> t.poller == Closing(Overflow))
            && (!Told(steps, i, k) && !Signalled(steps, i, k) <==> t.poller == Receiving)
            && (t.poller != Receiving ==> t.ended && t.receiverClosed)
  {
    assert Enabled(run[k], steps[k]) && run[k + 1] == Do(capacity, run[k], steps[k]);
    StreamMoves(capacity, run[k], steps[k], i);
    StreamGoesBack(capacity, run, steps, k, i);
    hide Follows, Told, FullBefore, Signalled, EndsBy, Do;
  }

  /** The poll that found an ending sends its event, which a complete stream has none of, and closes the stream under
      that outcome unless it was closed before. */
  lemma AFinishedPollSaysWhy(capacity: nat, run: seq<State>, steps: seq<Step>, k: nat, i: nat)
    requires Follows(capacity, run, steps) && k < |steps| && steps[k] == On(i, FinishPoll)
    ensures i < |run[k].streams| && i < |run[k + 1].streams| && run[k].streams[i].poller.Closing?
    ensures var s, t := run[k].streams[i], run[k + 1].streams[i];
            && t.poller == Idle && t.flags.closed
            && t.body == s.body + (if s.poller.outcome == Complete then [] else [Terminal(s.poller.outcome)])
            && t.outcome == if s.flags.closed then s.outcome else Some(s.poller.outcome)
  {
    assert Enabled(run[k], steps[k]) && run[k + 1] == Do(capacity, run[k], steps[k]);
    StreamMoves(capacity, run[k], steps[k], i);
    hide Follows, Do;
  }

  /** The other closers say why as well: a dropped body is a client gone, a drain's deadline a shutdown. */
  lemma OtherClosersSayWhy(capacity: nat, run: seq<State>, steps: seq<Step>, k: nat, i: nat)
    requires Follows(capacity, run, steps) && k < |steps| &&
             (steps[k] == On(i, DropBody) || steps[k] == On(i, CutShort))
    ensures i < |run[k].streams| && i < |run[k + 1].streams|
    ensures var s, t := run[k].streams[i], run[k + 1].streams[i];
            && t.flags.closed && t.body == s.body
            && t.outcome == if s.flags.closed then s.outcome
                            else Some(if steps[k].action == DropBody then ClientGone else Shutdown)
  {
    assert Enabled(run[k], steps[k]) && run[k + 1] == Do(capacity, run[k], steps[k]);
    StreamMoves(capacity, run[k], steps[k], i);
    hide Follows, Do;
  }

  /** Nothing else closes a stream or changes its outcome. */
  lemma OnlyClosersClose(capacity: nat, run: seq<State>, steps: seq<Step>, k: nat, i: nat)
    requires Follows(capacity, run, steps) && k < |steps| && i < |run[k].streams| && i < |run[k + 1].streams|
    requires run[k + 1].streams[i].outcome != run[k].streams[i].outcome
    ensures steps[k] == On(i, FinishPoll) || steps[k] == On(i, DropBody) || steps[k] == On(i, CutShort)
    ensures run[k].streams[i].outcome == None
  {
    assert Enabled(run[k], steps[k]) && run[k + 1] == Do(capacity, run[k], steps[k]);
    StreamMoves(capacity, run[k], steps[k], i);
    hide Follows, Do, Act;
    FollowedIsARun(capacity, run, steps);
    RunKeepsInv(capacity, run, k);
    ClosedHasOutcome(capacity, run[k], i);
    OutcomeSays(capacity, run[k].streams[i], steps[k].action);
  }

  lemma ClosedHasOutcome(capacity: nat, s: State, i: nat)
    requires Inv(capacity, s) && i < |s.streams|
    ensures s.streams[i].outcome.Some? <==> s.streams[i].flags.closed
  {
    hide PipeOk, CountsOk;
    assert StreamOk(capacity, s.streams[i]);
  }

  lemma FollowedIsARun(capacity: nat, run: seq<State>, steps: seq<Step>)
    requires Follows(capacity, run, steps)
    ensures Run(capacity, run)
  {
    hide Enabled, Do;
    forall k | 0 <= k < |run| - 1 ensures Next(capacity, run[k], run[k + 1]) {
      assert Enabled(run[k], steps[k]);
    }
  }

  /** A producer's emit: a cancelled stream takes nothing; a send is accepted behind everything accepted before exactly
      when the receiver is there and has room, and a full channel is what it goes on to signal. */
  lemma AnEmitIsAcceptedIffThereIsRoom(capacity: nat, run: seq<State>, steps: seq<Step>, k: nat, i: nat)
    requires Follows(capacity, run, steps) && k < |steps| && steps[k].On? && steps[k].i == i
    ensures i < |run[k].streams| && i < |run[k + 1].streams|
    ensures var s, t, a := run[k].streams[i], run[k + 1].streams[i], steps[k].action;
            && (a.CheckEmit? ==>
                  t == if s.flags.overflow || s.flags.shutdown || s.flags.closed then s
                       else s.(emitting := s.emitting + [a.event]))
            && (a.Send? ==>
                  && a.k < |s.emitting| && t.emitting == s.emitting[..a.k] + s.emitting[a.k + 1..]
                  && (if !s.receiverClosed && |s.queue| < capacity
                      then t.accepted == s.accepted + [s.emitting[a.k]] && t.queue == s.queue + [s.emitting[a.k]]
                      else t.accepted == s.accepted && t.queue == s.queue)
                  && (t.overflowing == s.overflowing + if !s.receiverClosed && |s.queue| >= capacity then 1 else 0))
  {
    assert Enabled(run[k], steps[k]) && run[k + 1] == Do(capacity, run[k], steps[k]);
    StreamMoves(capacity, run[k], steps[k], i);
    hide Follows, Do;
  }

  /** A poll that went on to receive carries the oldest accepted event; an empty channel ends it as complete just when
      its last producer is gone, and otherwise it waits. */
  lemma AReceiveCarriesTheOldest(capacity: nat, run: seq<State>, steps: seq<Step>, k: nat, i: nat)
    requires Follows(capacity, run, steps) && k < |steps| && steps[k] == On(i, Receive)
    ensures i < |run[k].streams| && i < |run[k + 1].streams|
    ensures var s, t := run[k].streams[i], run[k + 1].streams[i];
            && (s.queue != [] ==>
                  t.body == s.body + [Data(s.queue[0])] && t.queue == s.queue[1..] && t.poller == Idle)
            && (s.queue == [] ==> t.body == s.body && t.poller == if s.sendersGone then Closing(Complete) else Idle)
  {
    assert Enabled(run[k], steps[k]) && run[k + 1] == Do(capacity, run[k], steps[k]);
    StreamMoves(capacity, run[k], steps[k], i);
    hide Follows, Do;
  }

  // ----- The hub's drain reaches every stream it lists

  lemma OneAction(capacity: nat, run: seq<State>, i: nat, a: Action) returns (t: State)
    requires run != [] && Run(capacity, run) && i < |run[|run| - 1].streams|
    requires CanAct(run[|run| - 1].streams[i], a)
    ensures Run(capacity, run + [t]) && i < |t.streams|
    ensures t.streams[i] == Act(capacity, run[|run| - 1].streams[i], a)
  {
    hide Act, CanAct;
    var s := run[|run| - 1];
    assert Enabled(s, On(i, a));
    t := Do(capacity, s, On(i, a));
    var more := run + [t];
    forall k | 0 <= k < |more| - 1 ensures Next(capacity, more[k], more[k + 1]) {
      if k < |run| - 1 { assert Next(capacity, run[k], run[k + 1]); }
    }
  }

  /** A stream stands in the hub's list from the middle of its `attach` on; a pass of the drain can tell it and the
      drain's deadline can close it from then on, whether or not its attachment is held. */
  lemma ADeadlineCloses(capacity: nat, run: seq<State>, i: nat) returns (t: State)
    requires run != [] && Run(capacity, run) && i < |run[|run| - 1].streams|
    requires run[|run| - 1].streams[i].progress.Listed? || run[|run| - 1].streams[i].progress.Attached?
    ensures Run(capacity, run + [t]) && i < |t.streams| && t.streams[i].flags.closed
    ensures t.streams[i].body == run[|run| - 1].streams[i].body
  {
    t := OneAction(capacity, run, i, CutShort);
  }

  /** And a body that waits for its next poll is ended by a pass of the drain, whatever its channel still holds: told,
      it looks, sends the shutdown event and closes. */
  lemma APassEndsAWaitingBody(capacity: nat, run: seq<State>, i: nat) returns (more: seq<State>)
    requires run != [] && Run(capacity, run) && i < |run[|run| - 1].streams|
    requires var s := run[|run| - 1].streams[i];
             (s.progress.Listed? || s.progress.Attached?) && s.poller.Idle? && !s.ended && !s.dropped
    ensures Run(capacity, more) && |more| == |run| + 3 && run <= more && i < |more[|run| + 2].streams|
    ensures var s, t := run[|run| - 1].streams[i], more[|run| + 2].streams[i];
            && t.body == s.body + [Terminal(Shutdown)] && t.flags.closed && t.ended && t.poller.Idle?
            && (!s.flags.closed ==> t.outcome == Some(Shutdown))
  {
    hide Run;
    var told := OneAction(capacity, run, i, TellShutdown);
    var looked := OneAction(capacity, run + [told], i, CheckPoll);
    var closed := OneAction(capacity, run + [told] + [looked], i, FinishPoll);
    more := run + [told] + [looked] + [closed];
  }
}
