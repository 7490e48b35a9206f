/**
  The life of `serve` from its setup to its ordered stop (crates/rahi-cli/src/serve.rs): every early exit, and
  the listening path on which the server, the stop future, each service's task and the join loop race.

  Deadlines are steps that may happen once they are armed; how long anything took is not part of the model.
*/
module Stop {
  import opened Wrappers
  import opened Services

  datatype Phase =
    | SettingUp
    | Opening          // the store and the chain
    | Composing
    | Declaring        // the cell's services
    | Binding          // the listener, then its address
    | Looping          // the join loop
    | DrainingDenials
    | ShuttingStore
    | Done

  /** The last phase of the start that succeeded and leaves something to stop. */
  datatype Reached = Nothing | Booted | Composed | Listening

  /** A service's task. One that returned `Ok` reads the broadcast next, which is what `sawStop` keeps. */
  datatype Task =
    | Live(aborted: bool)
    | Returning(aborted: bool)
    | Finished(end: TaskEnd)
    | Joined(end: TaskEnd)

  datatype Server = Up | Returned(ok: bool) | Cut

  /** The stop future, which lives and dies with the server. */
  datatype Until = Watching | Draining | Over

  /** What causes and broadcasts the stop. `failed` is the service whose failure was its first cause, if one was. */
  datatype Halt = Halt(cancelled: bool, until: Until, wake: bool, fault: bool, failed: Option<nat>)

  datatype Failure =
    | SetupFailed
    | BootFailed
    | ComposeFailed
    | DeclarationFailed
    | BindFailed
    | ListenerFailed
    | StorageFailed

  datatype Observation =
    | OfService(reason: Reason)
    | ConnectionDrainOverrun
    | DenialsAbandoned
    | StoreTimeout
    | StoreError
    | StorageTerminal
    | ServeError
    | StreamDrainOverrun

  datatype StoreAnswer = Confirmed | TimedOut | Refused

  /** What a stop does, in the order it did it. */
  datatype Event = Broadcast | ServerOver | JoinedService(service: nat) | DenialsDrained | StoreShut

  /** History: whether streams outlived their drain, the tasks aborted at the bound, how the denial drain and
      the store's shutdown went, and what was done. */
  datatype Notes = Notes(overran: bool, aborted: set<nat>, drained: Option<bool>, shut: Option<StoreAnswer>)

  datatype State = State(phase: Phase, reached: Reached, early: Option<Failure>, tasks: seq<Task>, halt: Halt,
                         server: Server, timedOut: bool, reasons: set<Observation>, notes: Notes, trace: seq<Event>)

  const START := State(SettingUp, Nothing, None, [], Halt(false, Watching, false, false, None), Up, false, {},
                       Notes(false, {}, None, None), [])

  datatype Step =
    | Advance(services: nat)          // this phase of the start succeeded; `services` counts the declared ones
    | Fail                            // it failed
    | StopSignal
    | StoreFault                      // the watch reports a terminal store failure
    | WakeForService
    | StreamsDrained(overrun: bool)
    | ServerReturns(ok: bool)
    | CutServer
    | ReturnOk(i: nat)                // the service's future returned `Ok`
    | ReadStop(i: nat)                // its task looks whether the stop was broadcast
    | Finish(i: nat, end: TaskEnd)    // any other end
    | Join(i: nat)
    | Deadline
    | LeaveLoop
    | DrainDenials(complete: bool)
    | ShutStore(answer: StoreAnswer)

  predicate Starting(phase: Phase) {
    phase.SettingUp? || phase.Opening? || phase.Composing? || phase.Declaring? || phase.Binding?
  }

  predicate Serving(s: State) {
    s.phase.Looping? && s.server.Up?
  }

  predicate AllJoined(tasks: seq<Task>) {
    forall i :: 0 <= i < |tasks| ==> tasks[i].Joined?
  }

  /** How a live task can end without an `Ok`: by itself, or cancelled after an abort. */
  predicate CanEnd(task: Task, end: TaskEnd) {
    task.Live? && !end.ReturnedOk? && (end.Cancelled? ==> task.aborted)
  }

  predicate Unfinished(task: Task) {
    task.Live? || task.Returning?
  }

  predicate Enabled(s: State, step: Step) {
    match step
    case Advance(_) => Starting(s.phase)
    case Fail => Starting(s.phase)
    case StopSignal => Serving(s) && s.halt.until.Watching?
    case StoreFault => Serving(s) && s.halt.until.Watching?
    case WakeForService => Serving(s) && s.halt.until.Watching? && s.halt.wake
    case StreamsDrained(_) => Serving(s) && s.halt.until.Draining?
    case ServerReturns(ok) => Serving(s) && (ok ==> s.halt.until.Over?)
    case CutServer => Serving(s) && s.halt.until.Over?
    case ReturnOk(i) => s.phase.Looping? && i < |s.tasks| && s.tasks[i].Live?
    case ReadStop(i) => s.phase.Looping? && i < |s.tasks| && s.tasks[i].Returning?
    case Finish(i, end) => s.phase.Looping? && i < |s.tasks| && CanEnd(s.tasks[i], end)
    case Join(i) => s.phase.Looping? && i < |s.tasks| && s.tasks[i].Finished?
    case Deadline => s.phase.Looping? && s.halt.cancelled && !s.timedOut && !AllJoined(s.tasks)
    case LeaveLoop => s.phase.Looping? && !s.server.Up? && AllJoined(s.tasks)
    case DrainDenials(_) => s.phase.DrainingDenials?
    case ShutStore(_) => s.phase.ShuttingStore?
  }

  /** `Cancel::broadcast`: the first call tells everyone, any later one does nothing. */
  function BroadcastTrace(halt: Halt): seq<Event> {
    if halt.cancelled then [] else [Broadcast]
  }

  function HaltBy(s: State, halt: Halt): State {
    s.(halt := halt.(cancelled := true), trace := s.trace + BroadcastTrace(s.halt))
  }

  /** One phase of the start succeeded. */
  function Started(s: State, services: nat): State {
    match s.phase
    case SettingUp => s.(phase := Opening)
    case Opening => s.(phase := Composing, reached := Booted)
    case Composing => s.(phase := Declaring, reached := Composed)
    case Declaring => s.(phase := Binding)
    case Binding => s.(phase := Looping, reached := Listening,
      tasks := seq(services, i requires 0 <= i < services => Live(false)))
    case _ => s
  }

  /** It failed: nothing to undo before the store is open, the store to shut after, and the denials to drain
      first once the kernel is composed. */
  function FailedToStart(s: State): State {
    match s.phase
    case SettingUp => s.(phase := Done, early := Some(SetupFailed))
    case Opening => s.(phase := Done, early := Some(BootFailed))
    case Composing => s.(phase := ShuttingStore, early := Some(ComposeFailed))
    case Declaring => s.(phase := DrainingDenials, early := Some(DeclarationFailed))
    case Binding => s.(phase := DrainingDenials, early := Some(BindFailed))
    case _ => s
  }

  /** A listener that failed is itself a stop cause. */
  function ServerAnswers(s: State, ok: bool): State {
    var t := if ok then s else HaltBy(s, s.halt);
    t.(server := Returned(ok), trace := t.trace + [ServerOver])
  }

  function CutOff(s: State): State {
    s.(server := Cut, reasons := s.reasons + {ConnectionDrainOverrun}, trace := s.trace + [ServerOver])
  }

  /** The loop joins a service: a failure is observed, and the first stop cause of all wakes the stop future. */
  function JoinService(s: State, i: nat): State
    requires i < |s.tasks| && s.tasks[i].Finished?
  {
    var end := s.tasks[i].end;
    var t := s.(tasks := s.tasks[i := Joined(end)], trace := s.trace + [JoinedService(i)]);
    match Judge(i, end)
    case Failed(reason) =>
      var u := t.(reasons := t.reasons + {OfService(reason)});
      if u.halt.cancelled then u else HaltBy(u, u.halt.(failed := Some(i), wake := true))
    case _ => t
  }

  function Overdue(tasks: seq<Task>): set<nat> {
    set i | 0 <= i < |tasks| && Unfinished(tasks[i])
  }

  /** The bound: every task that has not finished is aborted and named. */
  function AbortLive(s: State): State {
    s.(timedOut := true, notes := s.notes.(aborted := s.notes.aborted + Overdue(s.tasks)),
       reasons := s.reasons + (set i | i in Overdue(s.tasks) :: OfService(ServiceJoinTimeout(i))),
       tasks := seq(|s.tasks|, i requires 0 <= i < |s.tasks| => if Unfinished(s.tasks[i]) then
         s.tasks[i].(aborted := true) else s.tasks[i]))
  }

  function DrainQueue(s: State, complete: bool): State {
    s.(phase := ShuttingStore, notes := s.notes.(drained := Some(complete)), trace := s.trace + [DenialsDrained],
       reasons := s.reasons + if complete then {} else {DenialsAbandoned})
  }

  /** The reasons only the end can tell: how the store answered, a terminal fault, and a listener failure that
      a service's failure already explains. */
  function LastReasons(s: State, answer: StoreAnswer): set<Observation> {
    (match answer case Confirmed => {} case TimedOut => {StoreTimeout} case Refused => {StoreError})
    + (if s.reached.Listening? && s.halt.fault && (s.server != Returned(false) || s.halt.failed.Some?)
       then {StorageTerminal} else {})
    + (if s.reached.Listening? && s.server == Returned(false) && s.halt.failed.Some? then {ServeError} else {})
  }

  function StoreIsShut(s: State, answer: StoreAnswer): State {
    s.(phase := Done, notes := s.notes.(shut := Some(answer)), trace := s.trace + [StoreShut],
       reasons := s.reasons + LastReasons(s, answer))
  }

  /** What `serve` answers once it is done. */
  function Answer(s: State): Result<(), Failure> {
    if s.early.Some? then Err(s.early.value)
    else if s.server == Returned(false) && !s.halt.failed.Some? then Err(ListenerFailed)
    else if s.server != Returned(false) && s.halt.fault then Err(StorageFailed)
    else Ok(())
  }

  function Do(s: State, step: Step): State
    requires Enabled(s, step)
  {
    match step
    case Advance(services) => Started(s, services)
    case Fail => FailedToStart(s)
    case StopSignal => HaltBy(s, s.halt.(until := Draining))
    case StoreFault => HaltBy(s, s.halt.(until := Draining, fault := true))
    case WakeForService => HaltBy(s, s.halt.(until := Draining, wake := false))
    case StreamsDrained(overrun) =>
      s.(halt := s.halt.(until := Over), notes := s.notes.(overran := overrun),
         reasons := s.reasons + if overrun then {StreamDrainOverrun} else {})
    case ServerReturns(ok) => ServerAnswers(s, ok)
    case CutServer => CutOff(s)
    case ReturnOk(i) => s.(tasks := s.tasks[i := Returning(s.tasks[i].aborted)])
    case ReadStop(i) => s.(tasks := s.tasks[i := Finished(ReturnedOk(s.halt.cancelled))])
    case Finish(i, end) => s.(tasks := s.tasks[i := Finished(end)])
    case Join(i) => JoinService(s, i)
    case Deadline => AbortLive(s)
    case LeaveLoop => s.(phase := DrainingDenials)
    case DrainDenials(complete) => DrainQueue(s, complete)
    case ShutStore(answer) => StoreIsShut(s, answer)
  }

  ghost predicate Next(s: State, t: State) {
    exists step :: Enabled(s, step) && t == Do(s, step)
  }

  /** Any finite run of one process. */
  ghost predicate Run(run: seq<State>) {
    run != [] && run[0] == START && forall k :: 0 <= k < |run| - 1 ==> Next(run[k], run[k + 1])
  }
}
