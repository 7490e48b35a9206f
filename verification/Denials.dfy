/**
  The denial path of crates/rahi-kernel/src/lib.rs as a state machine: any number of refused operations
  pushing, the one appender task, any number of drains, the close of the last kernel handle, and the guard
  that runs when the runtime ends the task.

  "Unlock" and "notify" are separate steps, and `Notify` is its one stored permit plus the parked appender.
*/
module Denials {
  import opened Wrappers
  import opened Queue

  datatype Cause = Dropped | Failed | TakenBack

  datatype Loss = Loss(id: Id, cause: Cause)

  /** Where the appender task stands. Only at `Unpolled`, `Looking`, `Awaiting`, `Parked` and `Writing` can
      the runtime drop it; `Unpolled` has not entered the body, so no guard exists yet. */
  datatype Appender =
    | Unpolled
    | Looking                       // about to lock the queue
    | Awaiting                      // found nothing; has not polled `notified` yet
    | Parked                        // enrolled with the notifier
    | Writing(id: Id)               // the append is under way
    | Wrote(id: Id, ok: bool)       // the append returned
    | Failing(id: Id)               // settled a failed append; about to report it
    | Unwinding(left: seq<Id>, afterClose: bool)  // the guard took back what was owed and reports it
    | Gone(guarded: bool, afterClose: bool)

  /** One call of `drain`. */
  datatype Drain =
    | Flushing
    | Expired
    | Reporting(left: seq<Id>, all: seq<Id>)
    | Done(all: seq<Id>)
    | Cancelled                     // the caller stopped polling it while it waited

  datatype Closing = Alive | Unlocked | Notified

  /** The four process-wide counters. */
  datatype Counters = Counters(decisions: nat, dropped: nat, failed: nat, abandoned: nat)

  /** What happened so far: ids counted, accepted (in queue order) and begun (in order), the appends the
      chain holds, the appends settled as written, and the losses the observers were told. */
  datatype History = History(counted: set<Id>, pushed: seq<Id>, begun: seq<Id>, landed: set<Id>,
                             appended: seq<Id>, losses: seq<Loss>)

  datatype State = State(q: Pending, permit: bool, appender: Appender, closing: Closing, drains: seq<Drain>,
                         counting: set<Id>, refused: set<Id>, owing: set<Id>, counters: Counters, h: History)

  datatype Step =
    | Count(id: Id)           // `record_decision`
    | Push(id: Id)            // the locked part of `push`
    | NotifyPush(id: Id)      // its `notify_one`
    | ReportDropped(id: Id)
    | Poll                    // the runtime polls the task for the first time
    | Look                    // the locked part of `next`
    | Await                   // the first poll of `notified`
    | Land(id: Id)            // the chain takes a begun append, perhaps long after its task is gone
    | Answer(ok: bool)        // the append returns
    | Settle
    | ReportFailed
    | DropTask
    | ReportUnwinding
    | BeginDrain
    | FindNothingOwed(i: nat)
    | Expire(i: nat)
    | TakeBack(i: nat)
    | ReportDrained(i: nat)
    | CancelDrain(i: nat)
    | Close                   // the locked part of `close`
    | NotifyClose

  /** `notify_one`: wakes the parked appender, or stores the one permit. */
  function Notify(s: State): State {
    if s.appender.Parked? then s.(appender := Looking) else s.(permit := true)
  }

  function Lose(s: State, id: Id, cause: Cause): State {
    var c := s.counters;
    s.(h := s.h.(losses := s.h.losses + [Loss(id, cause)]),
       counters := match cause
                   case Dropped => c.(dropped := c.dropped + 1)
                   case Failed => c.(failed := c.failed + 1)
                   case TakenBack => c.(abandoned := c.abandoned + 1))
  }

  function WithDrain(s: State, i: nat, d: Drain): State
    requires i < |s.drains|
  {
    s.(drains := s.drains[i := d])
  }

  predicate Droppable(a: Appender) {
    a.Unpolled? || a.Looking? || a.Awaiting? || a.Parked? || a.Writing?
  }

  predicate Enabled(s: State, step: Step) {
    match step
    case Count(id) => id !in s.h.counted && s.closing == Alive
    case Push(id) => id in s.counting
    case NotifyPush(id) => id in s.owing
    case ReportDropped(id) => id in s.refused
    case Poll => s.appender.Unpolled?
    case Look => s.appender.Looking?
    case Await => s.appender.Awaiting?
    case Land(id) => id in s.h.begun && id !in s.h.landed
    case Answer(ok) => s.appender.Writing? && (ok ==> s.appender.id in s.h.landed)
    case Settle => s.appender.Wrote?
    case ReportFailed => s.appender.Failing?
    case DropTask => Droppable(s.appender)
    case ReportUnwinding => s.appender.Unwinding?
    case BeginDrain => s.closing == Alive
    case FindNothingOwed(i) => i < |s.drains| && s.drains[i].Flushing? && Owed(s.q) == []
    case Expire(i) => i < |s.drains| && s.drains[i].Flushing? && Owed(s.q) != []
    case TakeBack(i) => i < |s.drains| && s.drains[i].Expired?
    case ReportDrained(i) => i < |s.drains| && s.drains[i].Reporting?
    case CancelDrain(i) => i < |s.drains| && s.drains[i].Flushing?
    case Close =>
      // The last handle is gone, so no call that borrows one is under way.
      && s.closing == Alive && s.counting == {} && s.refused == {} && s.owing == {}
      && forall i :: 0 <= i < |s.drains| ==> s.drains[i].Done? || s.drains[i].Cancelled?
    case NotifyClose => s.closing == Unlocked
  }

  // ----- What each step does

  function CountDenial(s: State, id: Id): State {
    s.(counting := s.counting + {id}, counters := s.counters.(decisions := s.counters.decisions + 1),
       h := s.h.(counted := s.h.counted + {id}))
  }

  function PushDenial(capacity: nat, s: State, id: Id): State {
    if |s.q.waiting| >= capacity then
      s.(counting := s.counting - {id}, q := Pushed(s.q, capacity, id), refused := s.refused + {id})
    else
      s.(counting := s.counting - {id}, q := Pushed(s.q, capacity, id), owing := s.owing + {id},
         h := s.h.(pushed := s.h.pushed + [id]))
  }

  function LookInside(s: State): State {
    if s.q.waiting != [] then
      s.(q := Taken(s.q), appender := Writing(s.q.waiting[0]), h := s.h.(begun := s.h.begun + [s.q.waiting[0]]))
    else if s.q.closed then Unwind(s)
    else s.(appender := Awaiting)
  }

  /** The guard's locked part: it takes back whatever is owed, which is nothing when `next` returned `None`. */
  function Unwind(s: State): State {
    s.(appender := Unwinding(Owed(s.q), s.q.closed), q := Abandoned(s.q))
  }

  function SettleWrite(s: State): State
    requires s.appender.Wrote?
  {
    var id := s.appender.id;
    if s.q.appending != Some(id) then s.(appender := Looking)
    else if s.appender.ok then
      s.(q := Settled(s.q, id), appender := Looking, h := s.h.(appended := s.h.appended + [id]))
    else s.(q := Settled(s.q, id), appender := Failing(id))
  }

  function ReportNextUnwound(s: State): State
    requires s.appender.Unwinding?
  {
    var a := s.appender;
    if a.left == [] then s.(appender := Gone(true, a.afterClose))
    else Lose(s.(appender := a.(left := a.left[1..])), a.left[0], TakenBack)
  }

  function TakeBackOwed(s: State, i: nat): State
    requires i < |s.drains|
  {
    WithDrain(s, i, Reporting(Owed(s.q), Owed(s.q))).(q := Abandoned(s.q))
  }

  function ReportNextDrained(s: State, i: nat): State
    requires i < |s.drains| && s.drains[i].Reporting?
  {
    var d := s.drains[i];
    if d.left == [] then WithDrain(s, i, Done(d.all))
    else Lose(WithDrain(s, i, d.(left := d.left[1..])), d.left[0], TakenBack)
  }

  function Do(capacity: nat, s: State, step: Step): State
    requires Enabled(s, step)
  {
    match step
    case Count(id) => CountDenial(s, id)
    case Push(id) => PushDenial(capacity, s, id)
    case NotifyPush(id) => Notify(s.(owing := s.owing - {id}))
    case ReportDropped(id) => Lose(s.(refused := s.refused - {id}), id, Dropped)
    case Poll => s.(appender := Looking)
    case Look => LookInside(s)
    case Await => if s.permit then s.(permit := false, appender := Looking) else s.(appender := Parked)
    case Land(id) => s.(h := s.h.(landed := s.h.landed + {id}))
    case Answer(ok) => s.(appender := Wrote(s.appender.id, ok))
    case Settle => SettleWrite(s)
    case ReportFailed => Lose(s.(appender := Looking), s.appender.id, Failed)
    case DropTask => if s.appender.Unpolled? then s.(appender := Gone(false, s.q.closed)) else Unwind(s)
    case ReportUnwinding => ReportNextUnwound(s)
    case BeginDrain => s.(drains := s.drains + [Flushing])
    case FindNothingOwed(i) => WithDrain(s, i, Done([]))
    case Expire(i) => WithDrain(s, i, Expired)
    case TakeBack(i) => TakeBackOwed(s, i)
    case ReportDrained(i) => ReportNextDrained(s, i)
    case CancelDrain(i) => WithDrain(s, i, Cancelled)
    case Close => s.(q := s.q.(closed := true), closing := Unlocked)
    case NotifyClose => Notify(s.(closing := Notified))
  }

  ghost predicate Next(capacity: nat, s: State, t: State) {
    exists step :: Enabled(s, step) && t == Do(capacity, s, step)
  }

  predicate Init(s: State) {
    s == State(EMPTY, false, Unpolled, Alive, [], {}, {}, {}, Counters(0, 0, 0, 0), History({}, [], [], {}, [], []))
  }

  /** Any finite run: every interleaving of every task. */
  ghost predicate Run(capacity: nat, run: seq<State>) {
    && run != [] && Init(run[0])
    && forall k :: 0 <= k < |run| - 1 ==> Next(capacity, run[k], run[k + 1])
  }
}
