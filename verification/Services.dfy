/**
  Managed services as crates/rahi-cli/src/service.rs runs them: their declaration, the one-shot stop broadcast,
  and the join that judges how each one ended.
*/
module Services {
  import opened Wrappers
  import opened Lexing

  // ----- Declaration

  datatype Fault = EmptyName | IllFormed(name: string) | DeclaredTwice(name: string)

  predicate NameChar(c: char) {
    'a' <= c <= 'z' || 'A' <= c <= 'Z' || '0' <= c <= '9' || c == '.' || c == '_' || c == '-'
  }

  predicate GoodName(name: string) {
    Trim(name) != "" && forall i :: 0 <= i < |name| ==> NameChar(name[i])
  }

  predicate Declarable(names: seq<string>) {
    && (forall i :: 0 <= i < |names| ==> GoodName(names[i]))
    && forall i, j :: 0 <= i < j < |names| ==> names[i] != names[j]
  }

  predicate RealFault(names: seq<string>, fault: Fault) {
    match fault
    case EmptyName => exists i :: 0 <= i < |names| && Trim(names[i]) == ""
    case IllFormed(name) => name in names && exists i :: 0 <= i < |name| && !NameChar(name[i])
    case DeclaredTwice(name) => exists i, j :: 0 <= i < j < |names| && names[i] == name && names[j] == name
  }

  /** Accepts a declaration exactly when every name is well formed and none repeats. */
  method Validate(names: seq<string>) returns (fault: Option<Fault>)
    ensures fault == None <==> Declarable(names)
    ensures fault.Some? ==> RealFault(names, fault.value)
  {
    hide Trim, NameChar;
    var seen := {};
    for i := 0 to |names|
      invariant forall name :: name in seen <==> name in names[..i]
      invariant Declarable(names[..i])
    {
      var name := names[i];
      if Trim(name) == "" {
        assert !GoodName(name);
        return Some(EmptyName);
      }
      if exists k :: 0 <= k < |name| && !NameChar(name[k]) {
        assert !GoodName(name);
        return Some(IllFormed(name));
      }
      if name in seen {
        assert name in names[..i];
        return Some(DeclaredTwice(name));
      }
      seen := seen + {name};
      assert names[..i + 1] == names[..i] + [name];
    }
    assert names[..|names|] == names;
    return None;
  }

  // ----- The broadcast

  class Cancel {
    var at: Option<nat>
    var told: bool

    /** Services are told exactly when the instant is set. */
    ghost predicate Valid()
      reads this
    {
      told == at.Some?
    }

    constructor ()
      ensures Valid() && at == None
    {
      at, told := None, false;
    }

    /** Only the first call does anything, and it answers whether it was the first. */
    method Broadcast(now: nat) returns (first: bool)
      requires Valid()
      modifies this
      ensures Valid() && told
      ensures first <==> old(at) == None
      ensures at == if first then Some(now) else old(at)
    {
      first := at == None;
      if first {
        at := Some(now);
        told := true;
      }
    }

    /** The join bound's end, measured from the broadcast. */
    function Deadline(bound: nat): Option<nat>
      reads this
    {
      match at case Some(instant) => Some(instant + bound) case None => None
    }
  }

  // ----- How a service ended

  /** A task's end as its join handle gives it: the service's own result with whether it saw the broadcast, or
      the runtime's word. */
  datatype TaskEnd = ReturnedOk(sawStop: bool) | ReturnedErr | Panicked | Cancelled

  datatype Reason =
    | ServiceExited(service: nat)
    | ServiceError(service: nat)
    | ServicePanicked(service: nat)
    | ServiceJoinTimeout(service: nat)

  datatype Ended = Completed | Failed(reason: Reason) | Aborted

  function Judge(service: nat, end: TaskEnd): Ended {
    match end
    case ReturnedOk(sawStop) => if sawStop then Completed else Failed(ServiceExited(service))
    case ReturnedErr => Failed(ServiceError(service))
    case Panicked => Failed(ServicePanicked(service))
    case Cancelled => Aborted
  }

  /** The services started and not yet joined, in declaration order, by their task's id. */
  class Running {
    var pending: seq<nat>
    var timedOut: bool
    const started: bool

    ghost predicate Valid()
      reads this
    {
      forall i, j :: 0 <= i < j < |pending| ==> pending[i] != pending[j]
    }

    constructor (count: nat)
      ensures Valid() && pending == seq(count, i requires 0 <= i < count => i)
      ensures !timedOut && started == (count > 0)
    {
      pending := seq(count, i requires 0 <= i < count => i);
      timedOut := false;
      started := count > 0;
    }

    /** Judges the task that ended, and removes it from wherever it stands among the pending ones. */
    method Join(id: nat, end: TaskEnd) returns (known: bool, ended: Ended)
      requires Valid()
      modifies this
      ensures Valid() && timedOut == old(timedOut)
      ensures ended == Judge(id, end)
      ensures ended == Completed <==> end == ReturnedOk(true)
      ensures ended == Failed(ServiceExited(id)) <==> end == ReturnedOk(false)
      ensures ended == Failed(ServiceError(id)) <==> end == ReturnedErr
      ensures ended == Failed(ServicePanicked(id)) <==> end == Panicked
      ensures ended == Aborted <==> end == Cancelled
      ensures known <==> id in old(pending)
      ensures multiset(pending) == multiset(old(pending)) - multiset{id} && id !in pending
      ensures known ==> exists at :: 0 <= at < |old(pending)| && old(pending)[at] == id &&
                                     pending == old(pending)[..at] + old(pending)[at + 1..]
      ensures !known ==> pending == old(pending)
    {
      ended := Judge(id, end);
      for at := 0 to |pending|
        invariant pending == old(pending) && timedOut == old(timedOut)
        invariant id !in pending[..at]
      {
        if pending[at] == id {
          RemovedAt(pending, at);
          pending := pending[..at] + pending[at + 1..];
          return true, ended;
        }
        assert pending[..at + 1] == pending[..at] + [pending[at]];
      }
      assert pending[..|pending|] == pending;
      return false, ended;
    }

    /** The unfinished ones, in declaration order; each of them is told to stop, and none is forgotten. */
    method AbortRemaining(finished: set<nat>) returns (aborted: seq<nat>)
      modifies this`timedOut
      ensures timedOut
      ensures aborted == Unfinished(pending, finished)
      ensures forall id :: id in aborted <==> id in pending && id !in finished
    {
      timedOut := true;
      aborted := [];
      for k := 0 to |pending|
        invariant timedOut && aborted == Unfinished(pending[..k], finished)
        invariant forall id :: id in aborted <==> id in pending[..k] && id !in finished
      {
        assert pending[..k + 1][..k] == pending[..k];
        if pending[k] !in finished {
          aborted := aborted + [pending[k]];
        }
      }
      assert pending[..|pending|] == pending;
    }
  }

  lemma RemovedAt(ids: seq<nat>, at: nat)
    requires at < |ids| && forall i, j :: 0 <= i < j < |ids| ==> ids[i] != ids[j]
    ensures var rest := ids[..at] + ids[at + 1..];
            && multiset(rest) == multiset(ids) - multiset{ids[at]} && ids[at] !in rest
            && forall i, j :: 0 <= i < j < |rest| ==> rest[i] != rest[j]
  {
    var rest := ids[..at] + ids[at + 1..];
    assert multiset(rest) == multiset(ids) - multiset{ids[at]} by {
      assert ids == ids[..at] + [ids[at]] + ids[at + 1..];
    }
    forall i | 0 <= i < |rest| ensures rest[i] == ids[if i < at then i else i + 1] {}
  }

  function Unfinished(ids: seq<nat>, finished: set<nat>): seq<nat> {
    if ids == [] then []
    else Unfinished(ids[..|ids| - 1], finished) + if ids[|ids| - 1] in finished then [] else [ids[|ids| - 1]]
  }
}
