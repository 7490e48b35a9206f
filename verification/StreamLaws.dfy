/**
  The promises of the stream lifecycle, over every run of any number of streams and closers.
*/
module StreamLaws {
  import opened Wrappers
  import opened Streams

  // ----- What each stream keeps

  /** How many events the body has carried. */
  function Carried(s: Stream): nat {
    if s.body != [] && s.body[|s.body| - 1].Terminal? then |s.body| - 1 else |s.body|
  }

  predicate HasTerminal(s: Stream) {
    Carried(s) < |s.body|
  }

  predicate BodyOk(s: Stream) {
    && Carried(s) <= |s.accepted|
    && (forall k :: 0 <= k < Carried(s) ==> s.body[k] == Data(s.accepted[k]))
    && (!s.dropped ==> s.queue == s.accepted[Carried(s)..])
    && (HasTerminal(s) ==> s.ended && s.poller.Idle?)
  }

  predicate PollOk(s: Stream) {
    && (s.poller.Receiving? ==> !s.ended && !s.dropped)
    && (s.poller.Closing? ==> s.ended && !s.dropped && s.poller.outcome != ClientGone)
    && (s.sendersGone ==> s.emitting == [] && s.overflowing == 0)
    && (s.poller == Closing(Complete) || s.outcome == Some(Complete) ==>
          s.sendersGone && Carried(s) == |s.accepted|)
  }

  /** One place, held by exactly one of: the stream's attachment, a closer about to release, the past. */
  predicate PlaceOk(s: Stream) {
    && (s.outcome.Some? <==> s.flags.closed)
    && (s.progress.Attached? ==> (if s.flags.attachment.Some? then 1 else 0) + s.owed + s.released == 1)
    && (!s.progress.Attached? ==> s.flags.attachment == None && s.owed == 0 && s.released == 0 && !s.lateAttach)
    && (s.progress.Attached? && s.flags.attachment.None? ==> s.flags.closed)
    && (s.flags.attachment.Some? && s.flags.closed <==> s.lateAttach)
    && (s.flags.attachment.Some? ==> s.flags.attachment.value == s.identity)
  }

  predicate StreamOk(capacity: nat, s: Stream) {
    PipeOk(capacity, s) && PlaceOk(s) && (s.dropped ==> s.receiverClosed)
  }

  /** The channel and the body side of a stream. */
  predicate PipeOk(capacity: nat, s: Stream) {
    |s.queue| <= capacity && BodyOk(s) && PollOk(s)
  }

  lemma SamePipe(capacity: nat, s: Stream, t: Stream)
    requires PipeOk(capacity, s)
    requires t.queue == s.queue && t.body == s.body && t.accepted == s.accepted && t.dropped == s.dropped &&
             t.ended == s.ended
    requires t.poller == s.poller && t.sendersGone == s.sendersGone
    requires t.outcome == Some(Complete) ==> t.outcome == s.outcome
    requires t.sendersGone ==> t.emitting == s.emitting && t.overflowing == s.overflowing
    ensures PipeOk(capacity, t)
  {}

  lemma SamePlace(s: Stream, t: Stream)
    requires PlaceOk(s)
    requires t.identity == s.identity && t.progress == s.progress && t.owed == s.owed && t.released == s.released
    requires t.lateAttach == s.lateAttach && t.outcome == s.outcome
    requires t.flags.closed == s.flags.closed && t.flags.attachment == s.flags.attachment
    ensures PlaceOk(t)
  {}

  lemma CloseKeepsPlace(s: Stream, outcome: Outcome)
    requires PlaceOk(s)
    ensures PlaceOk(CloseWith(s, outcome))
  {}

  lemma CloseKeepsPipe(capacity: nat, s: Stream, outcome: Outcome)
    requires PipeOk(capacity, s) && (outcome == Complete ==> s.sendersGone && Carried(s) == |s.accepted|)
    ensures PipeOk(capacity, CloseWith(s, outcome))
  {
    hide BodyOk;
    assert BodyOk(CloseWith(s, outcome)) by { BodyStands(s, CloseWith(s, outcome)); }
  }

  lemma BodyStands(s: Stream, t: Stream)
    requires BodyOk(s) && t.queue == s.queue && t.body == s.body && t.accepted == s.accepted && t.dropped == s.dropped
    requires t.ended == s.ended && t.poller == s.poller
    ensures BodyOk(t) && Carried(t) == Carried(s)
  {}

  lemma AcceptKeepsBody(s: Stream, event: Event, rest: seq<Event>)
    requires BodyOk(s) && !s.dropped
    ensures BodyOk(s.(emitting := rest, queue := s.queue + [event], accepted := s.accepted + [event]))
  {
    var t := s.(emitting := rest, queue := s.queue + [event], accepted := s.accepted + [event]);
    assert Carried(t) == Carried(s);
    assert t.accepted[Carried(s)..] == s.accepted[Carried(s)..] + [event];
  }

  lemma SendKeepsPipe(capacity: nat, s: Stream, k: nat)
    requires PipeOk(capacity, s) && k < |s.emitting| && (s.dropped ==> s.receiverClosed)
    ensures PipeOk(capacity, SendNext(capacity, s, k))
  {
    var event, rest := s.emitting[k], s.emitting[..k] + s.emitting[k + 1..];
    hide BodyOk;
    if !s.receiverClosed && |s.queue| < capacity {
      AcceptKeepsBody(s, event, rest);
    } else {
      BodyStands(s, SendNext(capacity, s, k));
    }
  }

  lemma LookKeepsPipe(capacity: nat, s: Stream)
    requires PipeOk(capacity, s) && s.poller.Idle? && !s.ended && !s.dropped
    ensures PipeOk(capacity, LookAtFlags(s))
  {}

  lemma ReceiveKeepsPipe(capacity: nat, s: Stream)
    requires PipeOk(capacity, s) && s.poller.Receiving?
    ensures PipeOk(capacity, ReceiveNext(s))
  {
    if s.queue != [] {
      var t := ReceiveNext(s);
      assert !HasTerminal(s) && Carried(t) == Carried(s) + 1;
      assert s.accepted[Carried(s)] == s.queue[0];
    }
  }

  lemma FinishKeepsPipe(capacity: nat, s: Stream)
    requires PipeOk(capacity, s) && s.poller.Closing?
    ensures PipeOk(capacity, ClosePoll(s))
  {
    var outcome := s.poller.outcome;
    var t := s.(poller := Idle, body := s.body + if outcome == Complete then [] else [Terminal(outcome)]);
    assert Carried(t) == Carried(s) && PipeOk(capacity, t);
    CloseKeepsPipe(capacity, t, outcome);
  }

  lemma DropKeepsPipe(capacity: nat, s: Stream)
    requires PipeOk(capacity, s) && s.poller.Idle?
    ensures PipeOk(capacity, CloseWith(s.(dropped := true, receiverClosed := true, queue := []), ClientGone))
  {
    var t := s.(dropped := true, receiverClosed := true, queue := []);
    assert PipeOk(capacity, t);
    CloseKeepsPipe(capacity, t, ClientGone);
  }

  lemma ActKeepsPipe(capacity: nat, s: Stream, a: Action)
    requires PipeOk(capacity, s) && CanAct(s, a) && (s.dropped ==> s.receiverClosed)
    ensures PipeOk(capacity, Act(capacity, s, a))
  {
    hide PipeOk, CloseWith, SendNext, LookAtFlags, ReceiveNext, ClosePoll;
    match a {
      case Send(k) => SendKeepsPipe(capacity, s, k);
      case CheckPoll => LookKeepsPipe(capacity, s);
      case Receive => ReceiveKeepsPipe(capacity, s);
      case FinishPoll => FinishKeepsPipe(capacity, s);
      case DropBody => DropKeepsPipe(capacity, s);
      case CutShort => CloseKeepsPipe(capacity, s, Shutdown);
      case DropSenders => SendersGoneKeepsPipe(capacity, s);
      case SignalOverflow => SignalKeepsPipe(capacity, s);
      case _ => SamePipe(capacity, s, Act(capacity, s, a));
    }
  }

  lemma SendersGoneKeepsPipe(capacity: nat, s: Stream)
    requires PipeOk(capacity, s) && s.emitting == [] && s.overflowing == 0
    ensures PipeOk(capacity, s.(sendersGone := true))
  {}

  lemma SignalKeepsPipe(capacity: nat, s: Stream)
    requires PipeOk(capacity, s) && s.overflowing > 0
    ensures PipeOk(capacity, s.(overflowing := s.overflowing - 1, flags := s.flags.(overflow := true)))
  {}

  lemma FinishKeepsPlace(s: Stream)
    requires PlaceOk(s) && s.poller.Closing?
    ensures PlaceOk(ClosePoll(s))
  {
    hide PlaceOk, CloseWith;
    var outcome := s.poller.outcome;
    var t := s.(poller := Idle, body := s.body + if outcome == Complete then [] else [Terminal(outcome)]);
    SamePlace(s, t);
    CloseKeepsPlace(t, outcome);
  }

  lemma DropKeepsPlace(s: Stream)
    requires PlaceOk(s)
    ensures PlaceOk(CloseWith(s.(dropped := true, receiverClosed := true, queue := []), ClientGone))
  {
    hide PlaceOk, CloseWith;
    var t := s.(dropped := true, receiverClosed := true, queue := []);
    SamePlace(s, t);
    CloseKeepsPlace(t, ClientGone);
  }

  lemma LookKeepsPlace(s: Stream)
    requires PlaceOk(s)
    ensures PlaceOk(LookAtFlags(s))
  {
    SamePlace(s, LookAtFlags(s));
    hide PlaceOk;
  }

  lemma ReceiveKeepsPlace(s: Stream)
    requires PlaceOk(s)
    ensures PlaceOk(ReceiveNext(s))
  {
    SamePlace(s, ReceiveNext(s));
    hide PlaceOk;
  }

  lemma SendKeepsPlace(capacity: nat, s: Stream, k: nat)
    requires PlaceOk(s) && k < |s.emitting|
    ensures PlaceOk(SendNext(capacity, s, k))
  {
    SamePlace(s, SendNext(capacity, s, k));
    hide PlaceOk;
  }

  lemma ActKeepsPlace(capacity: nat, s: Stream, a: Action)
    requires PlaceOk(s) && CanAct(s, a)
    ensures PlaceOk(Act(capacity, s, a))
  {
    hide PlaceOk, CloseWith, ClosePoll, LookAtFlags, ReceiveNext, SendNext;
    match a {
      case Send(k) => SendKeepsPlace(capacity, s, k);
      case CheckPoll => LookKeepsPlace(s);
      case Receive => ReceiveKeepsPlace(s);
      case FinishPoll => FinishKeepsPlace(s);
      case DropBody => DropKeepsPlace(s);
      case CutShort => CloseKeepsPlace(s, Shutdown);
      case CountIn | List | Hold | Release => AttachKeepsPlace(capacity, s, a);
      case _ => SamePlace(s, Act(capacity, s, a));
    }
  }

  lemma AttachKeepsPlace(capacity: nat, s: Stream, a: Action)
    requires PlaceOk(s) && CanAct(s, a) && (a.CountIn? || a.List? || a.Hold? || a.Release?)
    ensures PlaceOk(Act(capacity, s, a))
  {
    hide CloseWith, SendNext, LookAtFlags, ReceiveNext, ClosePoll;
  }

  lemma ActKeepsOk(capacity: nat, s: Stream, a: Action)
    requires StreamOk(capacity, s) && CanAct(s, a)
    ensures StreamOk(capacity, Act(capacity, s, a))
  {
    hide Act, PipeOk, PlaceOk, CanAct;
    ActKeepsPlace(capacity, s, a);
    ActKeepsPipe(capacity, s, a);
    DroppedStaysClosed(capacity, s, a);
  }

  lemma DroppedStaysClosed(capacity: nat, s: Stream, a: Action)
    requires CanAct(s, a) && (s.dropped ==> s.receiverClosed)
    ensures var t := Act(capacity, s, a); t.dropped ==> t.receiverClosed
  {}

  // ----- The open counts

  /** The stream was counted in and its place not given back yet. */
  predicate Holding(s: Stream) {
    !s.progress.Bare? && s.released == 0
  }

  function Of(b: bool): nat {
    if b then 1 else 0
  }

  function HoldingBy(streams: seq<Stream>, identity: string): nat {
    if streams == [] then 0
    else HoldingBy(streams[..|streams| - 1], identity)
         + Of(streams[|streams| - 1].identity == identity && Holding(streams[|streams| - 1]))
  }

  lemma {:induction false} OneStreamChanges(streams: seq<Stream>, i: nat, s: Stream, identity: string)
    requires i < |streams|
    ensures HoldingBy(streams[i := s], identity) + Of(streams[i].identity == identity && Holding(streams[i]))
            == HoldingBy(streams, identity) + Of(s.identity == identity && Holding(s))
  {
    hide Holding;
    var n := |streams| - 1;
    if i < n {
      OneStreamChanges(streams[..n], i, s, identity);
      assert streams[i := s][..n] == streams[..n][i := s];
    } else {
      assert streams[i := s][..n] == streams[..n];
    }
  }

  ghost predicate CountsOk(streams: seq<Stream>, open: map<string, nat>) {
    forall identity :: OpenOf(open, identity) == HoldingBy(streams, identity)
  }

  ghost predicate Inv(capacity: nat, s: State) {
    CountsOk(s.streams, s.open) && forall i :: 0 <= i < |s.streams| ==> StreamOk(capacity, s.streams[i])
  }

  lemma ActMovesTheCount(capacity: nat, s: Stream, a: Action)
    requires PlaceOk(s) && CanAct(s, a)
    ensures var t := Act(capacity, s, a);
            && t.identity == s.identity
            && Of(Holding(t)) == Of(Holding(s)) + Of(a.CountIn?) - Of(a.Release?)
            && (a.Release? ==> Holding(s))
  {
    ActKeepsBudget(capacity, s, a);
    hide Act;
  }

  lemma ActKeepsBudget(capacity: nat, s: Stream, a: Action)
    requires CanAct(s, a)
    ensures var t := Act(capacity, s, a);
            && t.identity == s.identity
            && (t.progress.Bare? <==> s.progress.Bare? && !a.CountIn?)
            && t.released == s.released + Of(a.Release?)
  {
    hide SendNext, LookAtFlags, ReceiveNext, ClosePoll, CloseWith;
    match a {
      case Send(k) => SendKeepsBudget(capacity, s, k);
      case CheckPoll | Receive | FinishPoll => PollKeepsBudget(s);
      case DropBody => CloseKeepsBudget(s.(dropped := true, receiverClosed := true, queue := []), ClientGone);
      case CutShort => CloseKeepsBudget(s, Shutdown);
      case _ =>
    }
  }

  /** The budget side of a stream, which only `attach` and a release move. */
  predicate SameBudget(s: Stream, t: Stream) {
    t.identity == s.identity && t.progress == s.progress && t.released == s.released && t.lateAttach == s.lateAttach
  }

  lemma CloseKeepsBudget(s: Stream, outcome: Outcome)
    ensures SameBudget(s, CloseWith(s, outcome))
  {}

  lemma SendKeepsBudget(capacity: nat, s: Stream, k: nat)
    requires k < |s.emitting|
    ensures SameBudget(s, SendNext(capacity, s, k))
  {}

  lemma PollKeepsBudget(s: Stream)
    ensures SameBudget(s, LookAtFlags(s)) && SameBudget(s, ReceiveNext(s))
    ensures s.poller.Closing? ==> SameBudget(s, ClosePoll(s))
  {}

  lemma HoldersAreCounted(streams: seq<Stream>, i: nat)
    requires i < |streams| && Holding(streams[i])
    ensures HoldingBy(streams, streams[i].identity) >= 1
  {
    OneStreamChanges(streams, i, NewStream(""), streams[i].identity);
  }

  lemma ActKeepsCounts(capacity: nat, s: State, i: nat, a: Action)
    requires Inv(capacity, s) && Enabled(s, On(i, a))
    ensures var t := Do(capacity, s, On(i, a)); CountsOk(t.streams, t.open)
  {
    var stream := s.streams[i];
    var next := Act(capacity, stream, a);
    assert PlaceOk(stream) by { hide PlaceOk, BodyOk, PollOk, CountsOk; assert StreamOk(capacity, stream); }
    ActMovesTheCount(capacity, stream, a);
    hide Act, Holding, HoldingBy, StreamOk;
    if a.Release? { HoldersAreCounted(s.streams, i); }
    forall identity ensures OpenOf(OpenAfter(s.open, stream.identity, a), identity) ==
      HoldingBy(s.streams[i := next], identity) {
      OneStreamChanges(s.streams, i, next, identity);
    }
  }

  lemma StepKeepsInv(capacity: nat, s: State, step: Step)
    requires Inv(capacity, s) && Enabled(s, step)
    ensures Inv(capacity, Do(capacity, s, step))
  {
    match step {
      case On(i, a) =>
        ActKeepsCounts(capacity, s, i, a);
        ActKeepsOk(capacity, s.streams[i], a);
        hide Act, StreamOk, CountsOk;
      case Respond(identity) =>
        var t := Do(capacity, s, step);
        assert t.streams[..|s.streams|] == s.streams;
    }
  }

  lemma StepOf(capacity: nat, run: seq<State>, k: nat) returns (step: Step)
    requires Run(capacity, run) && 0 < k < |run|
    ensures Enabled(run[k - 1], step) && run[k] == Do(capacity, run[k - 1], step)
  {
    hide Enabled, Do;
    assert Next(capacity, run[k - 1], run[k - 1 + 1]);
    step :| Enabled(run[k - 1], step) && run[k] == Do(capacity, run[k - 1], step);
  }

  lemma {:induction false} RunKeepsInv(capacity: nat, run: seq<State>, k: nat)
    requires Run(capacity, run) && k < |run|
    ensures Inv(capacity, run[k])
  {
    if k > 0 {
      hide Run, Inv, Enabled, Do;
      RunKeepsInv(capacity, run, k - 1);
      var step := StepOf(capacity, run, k);
      StepKeepsInv(capacity, run[k - 1], step);
    }
  }

  // ----- The laws

  /** No `attach` is half done and no closer still owes a release. */
  predicate Settled(s: Stream) {
    (s.progress.Bare? || s.progress.Attached?) && s.owed == 0
  }

  /** At every moment an identity's open count is the number of its streams counted in whose place was not
      given back. However many closers race, an attached stream's place is given back at most once; and once
      the stream is closed and nothing is in flight, exactly once, unless it was closed before its attachment
      was set. */
  lemma PlacesAreGivenBackOnce(capacity: nat, run: seq<State>, k: nat)
    requires Run(capacity, run) && k < |run|
    ensures forall identity :: OpenOf(run[k].open, identity) == HoldingBy(run[k].streams, identity)
    ensures forall i :: 0 <= i < |run[k].streams| ==> GivenBackOnce(run[k].streams[i])
  {
    RunKeepsInv(capacity, run, k);
    hide Run, BodyOk, PollOk;
    forall i | 0 <= i < |run[k].streams| ensures GivenBackOnce(run[k].streams[i]) {
      assert StreamOk(capacity, run[k].streams[i]);
    }
  }

  predicate GivenBackOnce(s: Stream) {
    && s.owed + s.released <= 1
    && (s.released == 1 ==> s.progress.Attached? && s.flags.closed && !s.lateAttach)
    && (Settled(s) && s.progress.Attached? && s.flags.closed ==> s.released == if s.lateAttach then 0 else 1)
  }

  function UnclosedBy(streams: seq<Stream>, identity: string): nat {
    if streams == [] then 0
    else
      var s := streams[|streams| - 1];
      UnclosedBy(streams[..|streams| - 1], identity) + Of(s.identity == identity && s.progress.Attached? &&
        !s.flags.closed)
  }

  function StrandedBy(streams: seq<Stream>, identity: string): nat {
    if streams == [] then 0
    else StrandedBy(streams[..|streams| - 1], identity) + Of(streams[|streams| - 1].identity == identity &&
      streams[|streams| - 1].lateAttach)
  }

  lemma {:induction false} SettledHoldersAreUnclosed(streams: seq<Stream>, identity: string)
    requires forall i :: 0 <= i < |streams| ==> PlaceOk(streams[i]) && Settled(streams[i])
    ensures HoldingBy(streams, identity) == UnclosedBy(streams, identity) + StrandedBy(streams, identity)
  {
    if streams != [] {
      SettledHoldersAreUnclosed(streams[..|streams| - 1], identity);
      assert PlaceOk(streams[|streams| - 1]) && Settled(streams[|streams| - 1]);
    }
  }

  /** Between steps in flight, an identity's open count is its attached, unclosed streams plus those that were
      already closed when `attach` handed them their attachment; without such a stream it is exactly the
      promised number. */
  lemma OpenCountIsUnclosedStreams(capacity: nat, run: seq<State>, k: nat, identity: string)
    requires Run(capacity, run) && k < |run| && forall i :: 0 <= i < |run[k].streams| ==> Settled(run[k].streams[i])
    ensures OpenOf(run[k].open, identity) == UnclosedBy(run[k].streams, identity) + StrandedBy(run[k].streams, identity)
    ensures OpenOf(run[k].open, identity) == UnclosedBy(run[k].streams, identity) <==>
            forall i :: 0 <= i < |run[k].streams| && run[k].streams[i].identity == identity ==>
              !run[k].streams[i].lateAttach
  {
    RunKeepsInv(capacity, run, k);
    var streams := run[k].streams;
    forall i | 0 <= i < |streams| ensures PlaceOk(streams[i]) {
      assert StreamOk(capacity, streams[i]);
    }
    hide Run, PlaceOk, Settled, StreamOk;
    SettledHoldersAreUnclosed(streams, identity);
    NoneStranded(streams, identity);
  }

  lemma {:induction false} NoneStranded(streams: seq<Stream>, identity: string)
    ensures StrandedBy(streams, identity) == 0 <==>
            forall i :: 0 <= i < |streams| && streams[i].identity == identity ==> !streams[i].lateAttach
  {
    if streams != [] {
      var n := |streams| - 1;
      NoneStranded(streams[..n], identity);
      assert forall i :: 0 <= i < n ==> streams[..n][i] == streams[i];
    }
  }

  lemma StrandedStays(capacity: nat, s: State, step: Step, i: nat)
    requires Inv(capacity, s) && Enabled(s, step) && i < |s.streams| && s.streams[i].progress.Attached?
    ensures var t := Do(capacity, s, step);
            && i < |t.streams| && t.streams[i].progress.Attached?
            && t.streams[i].lateAttach == s.streams[i].lateAttach && t.streams[i].identity == s.streams[i].identity
  {
    hide CountsOk, StreamOk, Act, CanAct;
    if step.On? && step.i == i { AttachedStays(capacity, s.streams[i], step.action); }
  }

  lemma AttachedStays(capacity: nat, s: Stream, a: Action)
    requires CanAct(s, a) && s.progress.Attached?
    ensures var t := Act(capacity, s, a);
            t.progress.Attached? && t.lateAttach == s.lateAttach &&
            t.identity == s.identity
  {
    hide SendNext, LookAtFlags, ReceiveNext, ClosePoll, CloseWith;
    match a {
      case Send(k) => SendKeepsBudget(capacity, s, k);
      case CheckPoll | Receive | FinishPoll => PollKeepsBudget(s);
      case DropBody => CloseKeepsBudget(s.(dropped := true, receiverClosed := true, queue := []), ClientGone);
      case CutShort => CloseKeepsBudget(s, Shutdown);
      case _ =>
    }
  }

  /** A stream closed before its attachment was set keeps its place for ever: no later step of any run gives it
      back. One attached while open is never in that state. */
  lemma {:induction false} StrandedForGood(capacity: nat, run: seq<State>, j: nat, k: nat, i: nat)
    requires Run(capacity, run) && j <= k < |run| && i < |run[j].streams| && run[j].streams[i].progress.Attached?
    ensures i < |run[k].streams| && run[k].streams[i].progress.Attached?
    ensures run[k].streams[i].lateAttach == run[j].streams[i].lateAttach
    ensures run[j].streams[i].lateAttach ==> Holding(run[k].streams[i])
  {
    RunKeepsInv(capacity, run, k);
    if j < k {
      StrandedForGood(capacity, run, j, k - 1, i);
      RunKeepsInv(capacity, run, k - 1);
      hide Run, Inv, Enabled, Do;
      var step := StepOf(capacity, run, k);
      StrandedStays(capacity, run[k - 1], step, i);
    }
    assert StreamOk(capacity, run[k].streams[i]) by { hide Run, StreamOk; }
  }

  /** A body is the accepted events in order, a prefix of them, then at most one terminal event; the channel
      never holds more than its capacity. */
  lemma BodyIsAPrefix(capacity: nat, run: seq<State>, k: nat, i: nat)
    requires Run(capacity, run) && k < |run| && i < |run[k].streams|
    ensures var s := run[k].streams[i];
            && |s.queue| <= capacity
            && Carried(s) <= |s.accepted| && Carried(s) <= |s.body| <= Carried(s) + 1
            && (forall n :: 0 <= n < Carried(s) ==> s.body[n] == Data(s.accepted[n]))
            && (|s.body| == Carried(s) + 1 ==> s.body[Carried(s)].Terminal?)
  {
    RunKeepsInv(capacity, run, k);
    hide Run;
    assert StreamOk(capacity, run[k].streams[i]);
  }

  /** A stream that closed as complete delivered every event its producers got accepted, and none can follow. */
  lemma CompleteDeliveredEverything(capacity: nat, run: seq<State>, k: nat, i: nat)
    requires Run(capacity, run) && k < |run| && i < |run[k].streams| && run[k].streams[i].outcome == Some(Complete)
    ensures var s := run[k].streams[i];
            && s.sendersGone && s.emitting == [] && Carried(s) == |s.accepted|
            && forall n :: 0 <= n < |s.accepted| ==> s.body[n] == Data(s.accepted[n])
  {
    RunKeepsInv(capacity, run, k);
    hide Run;
    assert StreamOk(capacity, run[k].streams[i]);
  }

  // ----- A drain can strand a place

  /** Where the stream of the stranding run stands: answered, counted in, listed, cut short, attached. */
  function Stranding(k: nat): Stream {
    var s := NewStream("a");
    match k
    case 0 => s
    case 1 => s.(progress := Counted)
    case 2 => s.(progress := Listed)
    case 3 => s.(progress := Listed, flags := FRESH.(closed := true), outcome := Some(Shutdown))
    case _ => s.(progress := Attached, flags := Flags(false, false, true, Some("a")), outcome := Some(Shutdown),
      lateAttach := true)
  }

  function StrandingState(k: nat): State {
    if k == 0 then State([], map[])
    else State([Stranding(k - 1)], if k == 1 then map[] else map["a" := 1])
  }

  lemma StrandingStep(k: nat, step: Step)
    requires k < 5 && step == [Respond("a"), On(0, CountIn), On(0, List), On(0, CutShort), On(0, Hold)][k]
    ensures Next(1, StrandingState(k), StrandingState(k + 1))
  {
    var s, t := StrandingState(k), StrandingState(k + 1);
    if k > 0 {
      assert Act(1, Stranding(k - 1), step.action) == Stranding(k);
      hide Act, Stranding;
    }
    assert Do(1, s, step) == t;
  }

  /** The hub's drain can close a listed stream before its attachment is set; its place is then counted with
      nobody left to give it back. */
  lemma ADrainCanStrandAPlace()
    ensures exists run: seq<State> :: Run(1, run) && |run| == 6 && |run[5].streams| == 1 &&
              run[5].streams[0].lateAttach && OpenOf(run[5].open, "a") == 1 && UnclosedBy(run[5].streams, "a") == 0
  {
    var run := seq(6, k requires 0 <= k < 6 => StrandingState(k));
    StrandingEnds();
    StrandingStep(0, Respond("a"));
    StrandingStep(1, On(0, CountIn));
    StrandingStep(2, On(0, List));
    StrandingStep(3, On(0, CutShort));
    StrandingStep(4, On(0, Hold));
    hide Next, StrandingState, UnclosedBy;
    assert Run(1, run);
  }

  lemma StrandingEnds()
    ensures StrandingState(0) == State([], map[])
    ensures var s := StrandingState(5);
            |s.streams| == 1 && s.streams[0].lateAttach && OpenOf(s.open, "a") == 1 && UnclosedBy(s.streams, "a") == 0
  {
    assert StrandingState(5).streams == [Stranding(4)] && [Stranding(4)][..0] == [];
    assert Stranding(4).flags.closed;
  }
}
