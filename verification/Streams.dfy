/**
  The stream lifecycle of crates/rahi-edge/src/stream.rs.

  A stream's producers, its body, the hub's drain and whoever drops the body race on one set of flags. `emit`,
  `poll_next` and `attach` are several steps each, one per lock they take; the release a closer owes the hub
  is a step after the flip of `closed` it belongs to.
*/
module Streams {
  import opened Wrappers

  type Event = nat

  datatype Outcome = Complete | Overflow | Shutdown | ClientGone

  datatype Item = Data(event: Event) | Terminal(outcome: Outcome)

  /** What the stream's mutex guards: the flags, and whose budget the stream holds. */
  datatype Flags = Flags(overflow: bool, shutdown: bool, closed: bool, attachment: Option<string>)

  const FRESH := Flags(false, false, false, None)

  predicate IsCancelled(f: Flags) {
    f.overflow || f.shutdown || f.closed
  }

  /** The locked part of `close`: the first closer takes the attachment, any other finds nothing to do. */
  function Closed(f: Flags): Flags {
    if f.closed then f else f.(closed := true, attachment := None)
  }

  /** The attachment this closer walks away with, whose budget it must give back. */
  function TakenBy(f: Flags): Option<string> {
    if f.closed then None else f.attachment
  }

  class Shared {
    var overflow: bool
    var shutdown: bool
    var closed: bool
    var attachment: Option<string>

    function State(): Flags
      reads this
    {
      Flags(overflow, shutdown, closed, attachment)
    }

    constructor ()
      ensures State() == FRESH
    {
      overflow, shutdown, closed, attachment := false, false, false, None;
    }

    method SignalOverflow()
      modifies this
      ensures State() == old(State()).(overflow := true)
    {
      overflow := true;
    }

    method SignalShutdown()
      modifies this
      ensures State() == old(State()).(shutdown := true)
    {
      shutdown := true;
    }

    /** However often it is called, one call at most walks away with the attachment. */
    method Close() returns (owed: Option<string>)
      modifies this
      ensures State() == Closed(old(State())) && owed == TakenBy(old(State()))
      ensures closed && (owed.Some? ==> !old(closed) && attachment == None)
    {
      if closed {
        return None;
      }
      closed := true;
      owed := attachment;
      attachment := None;
    }
  }

  // ----- The hub's counts

  function OpenOf(open: map<string, nat>, identity: string): nat {
    if identity in open then open[identity] else 0
  }

  function CountedIn(open: map<string, nat>, identity: string): map<string, nat> {
    open[identity := OpenOf(open, identity) + 1]
  }

  function CountedOut(open: map<string, nat>, identity: string): map<string, nat> {
    if identity !in open then open
    else if open[identity] <= 1 then open - {identity}
    else open[identity := open[identity] - 1]
  }

  class StreamHub {
    var open: map<string, nat>

    constructor ()
      ensures open == map[]
    {
      open := map[];
    }

    /** The first step of `attach`. */
    method CountIn(identity: string)
      modifies this
      ensures open == CountedIn(old(open), identity)
      ensures forall other :: OpenOf(open, other) == OpenOf(old(open), other) + if other == identity then 1 else 0
    {
      if identity !in open {
        open := open[identity := 0];
      }
      open := open[identity := open[identity] + 1];
      assert open == CountedIn(old(open), identity);
    }

    /** Gives one place back; an identity with none left has no entry, and none goes below zero. */
    method Release(identity: string)
      modifies this
      ensures open == CountedOut(old(open), identity)
      ensures OpenOf(open, identity) == if OpenOf(old(open), identity) == 0 then 0 else OpenOf(old(open), identity) - 1
      ensures forall other :: other != identity ==> OpenOf(open, other) == OpenOf(old(open), other)
    {
      if identity in open {
        var count := if open[identity] == 0 then 0 else open[identity] - 1;
        open := if count == 0 then open - {identity} else open[identity := count];
      }
    }
  }

  // ----- One stream

  /** How far `attach` has got: counted in, then listed with the hub, then holding its attachment. */
  datatype Progress = Bare | Counted | Listed | Attached

  /** Where the body's poll stands between its locks. */
  datatype Poller = Idle | Receiving | Closing(outcome: Outcome)

  /** One stream. `emitting` and `overflowing` are producers between their check and their send, and between a
      refused send and its signal; `owed` counts closers about to release; `lateAttach`, `accepted`, `body`,
      `outcome` and `released` are history. */
  datatype Stream = Stream(
    identity: string, progress: Progress, flags: Flags, owed: nat,
    emitting: seq<Event>, overflowing: nat, sendersGone: bool,
    queue: seq<Event>, receiverClosed: bool, poller: Poller, ended: bool, dropped: bool,
    lateAttach: bool, accepted: seq<Event>, body: seq<Item>, outcome: Option<Outcome>, released: nat)

  function NewStream(identity: string): Stream {
    Stream(identity, Bare, FRESH, 0, [], 0, false, [], false, Idle, false, false, false, [], [], None, 0)
  }

  datatype Action =
    | CheckEmit(event: Event)      // `emit` looks at the flags
    | Send(k: nat)                 // its `try_send`
    | SignalOverflow               // its signal after a full channel
    | DropSenders                  // the last producer is gone
    | CheckPoll                    // `poll_next` looks at the flags
    | Receive                      // its `poll_recv`
    | FinishPoll                   // its `close`, and the poll returns
    | DropBody                     // the response is dropped
    | CountIn                      // `attach`, step by step
    | List
    | Hold
    | TellShutdown                 // a pass of the hub's drain
    | CutShort                     // the drain's deadline
    | Release                      // a closer gives the place back

  predicate CanAct(s: Stream, a: Action) {
    match a
    case CheckEmit(_) => !s.sendersGone
    case Send(k) => k < |s.emitting|
    case SignalOverflow => s.overflowing > 0
    case DropSenders => !s.sendersGone && s.emitting == [] && s.overflowing == 0
    case CheckPoll => s.poller.Idle? && !s.ended && !s.dropped
    case Receive => s.poller.Receiving?
    case FinishPoll => s.poller.Closing?
    case DropBody => s.poller.Idle? && !s.dropped
    case CountIn => s.progress.Bare?
    case List => s.progress.Counted?
    case Hold => s.progress.Listed?
    case TellShutdown => s.progress.Listed? || s.progress.Attached?
    case CutShort => s.progress.Listed? || s.progress.Attached?
    case Release => s.owed > 0
  }

  /** `close`, by whoever calls it. */
  function CloseWith(s: Stream, outcome: Outcome): Stream {
    if s.flags.closed then s
    else s.(flags := Closed(s.flags), outcome := Some(outcome),
            owed := s.owed + if TakenBy(s.flags).Some? then 1 else 0)
  }

  function SendNext(capacity: nat, s: Stream, k: nat): Stream
    requires k < |s.emitting|
  {
    var event, rest := s.emitting[k], s.emitting[..k] + s.emitting[k + 1..];
    if s.receiverClosed then s.(emitting := rest)
    else if |s.queue| >= capacity then s.(emitting := rest, overflowing := s.overflowing + 1)
    else s.(emitting := rest, queue := s.queue + [event], accepted := s.accepted + [event])
  }

  function LookAtFlags(s: Stream): Stream {
    if s.flags.shutdown then s.(ended := true, receiverClosed := true, poller := Closing(Shutdown))
    else if s.flags.overflow then s.(ended := true, receiverClosed := true, poller := Closing(Overflow))
    else s.(poller := Receiving)
  }

  function ReceiveNext(s: Stream): Stream {
    if s.queue != [] then s.(poller := Idle, queue := s.queue[1..], body := s.body + [Data(s.queue[0])])
    else if s.sendersGone then s.(ended := true, poller := Closing(Complete))
    else s.(poller := Idle)
  }

  function ClosePoll(s: Stream): Stream
    requires s.poller.Closing?
  {
    var outcome := s.poller.outcome;
    CloseWith(s.(poller := Idle, body := s.body + if outcome == Complete then [] else [Terminal(outcome)]), outcome)
  }

  function Act(capacity: nat, s: Stream, a: Action): Stream
    requires CanAct(s, a)
  {
    match a
    case CheckEmit(event) => if IsCancelled(s.flags) then s else s.(emitting := s.emitting + [event])
    case Send(k) => SendNext(capacity, s, k)
    case SignalOverflow => s.(overflowing := s.overflowing - 1, flags := s.flags.(overflow := true))
    case DropSenders => s.(sendersGone := true)
    case CheckPoll => LookAtFlags(s)
    case Receive => ReceiveNext(s)
    case FinishPoll => ClosePoll(s)
    case DropBody => CloseWith(s.(dropped := true, receiverClosed := true, queue := []), ClientGone)
    case CountIn => s.(progress := Counted)
    case List => s.(progress := Listed)
    case Hold => s.(progress := Attached, flags := s.flags.(attachment := Some(s.identity)),
      lateAttach := s.flags.closed)
    case TellShutdown => s.(flags := s.flags.(shutdown := true))
    case CutShort => CloseWith(s, Shutdown)
    case Release => s.(owed := s.owed - 1, released := s.released + 1)
  }

  // ----- The hub

  datatype State = State(streams: seq<Stream>, open: map<string, nat>)

  datatype Step = Respond(identity: string) | On(i: nat, action: Action)

  predicate Enabled(s: State, step: Step) {
    step.On? ==> step.i < |s.streams| && CanAct(s.streams[step.i], step.action)
  }

  function OpenAfter(open: map<string, nat>, identity: string, a: Action): map<string, nat> {
    if a.CountIn? then CountedIn(open, identity)
    else if a.Release? then CountedOut(open, identity)
    else open
  }

  function Do(capacity: nat, s: State, step: Step): State
    requires Enabled(s, step)
  {
    match step
    case Respond(identity) => s.(streams := s.streams + [NewStream(identity)])
    case On(i, action) =>
      State(s.streams[i := Act(capacity, s.streams[i], action)], OpenAfter(s.open, s.streams[i].identity, action))
  }

  ghost predicate Next(capacity: nat, s: State, t: State) {
    exists step :: Enabled(s, step) && t == Do(capacity, s, step)
  }

  /** Any finite run over any number of streams. */
  ghost predicate Run(capacity: nat, run: seq<State>) {
    && run != [] && run[0] == State([], map[])
    && forall k :: 0 <= k < |run| - 1 ==> Next(capacity, run[k], run[k + 1])
  }
}
