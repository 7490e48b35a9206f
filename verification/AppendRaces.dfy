/**
  A race and its end: two appends read one head, one wins it, and the other lands behind it.
*/
module AppendRaces {
  import opened Wrappers
  import opened Chain
  import opened ChainLaws
  import opened Append
  import opened AppendSeals
  import opened AppendSafety
  import opened AppendLaws
  import opened AppendFork

  function HeadOf(w: World): Hash {
    Tip(w.store.genesis, w.log, |w.log|)
  }

  /** Call `j` waits for a transaction the store will refuse, its id is free and it may still try again. */
  ghost predicate AboutToLose(s: State, j: nat, t: nat) {
    && j < |s.calls| && t < |s.w.txs| && s.w.txs[t].status == InFlight && !Admits(s.w.store, s.w.txs[t].record)
    && var c := s.calls[j];
       && c.pc.Waiting? && c.pc.tx == t && c.pc.parent != HeadOf(s.w) && c.gate == Backstopped && c.attempt < 11
       && c.node !in s.degraded
       && c.decision.id !in s.w.store.books.identity && c.decision.id !in s.w.store.books.collisions
  }

  /** The refused call reads its rows, finds the head moved, is charged one attempt and sends again on the new head. */
  lemma ALoserSendsAgain(policy: Policy, run: seq<State>, j: nat, t: nat) returns (more: seq<State>)
    requires run != [] && Run(policy, run) && Linear(Last(run).w.store, Last(run).w.log) && AboutToLose(Last(run), j, t)
    ensures more != [] && Run(policy, more)
    ensures var s, s' := Last(run), Last(more); var c := s.calls[j];
            && s'.w.store == s.w.store && s'.w.log == s.w.log && s'.degraded == s.degraded
            && s'.w.txs == s.w.txs[t := s.w.txs[t].(status := Rejected)] +
                           [Tx(j, c.attempt + 1, Record(HeadOf(s.w), c.decision), |s.w.log|, InFlight)]
            && |s'.calls| == |s.calls| && (forall i :: 0 <= i < |s.calls| && i != j ==> s'.calls[i] == s.calls[i])
            && s'.calls[j].pc == Waiting(HeadOf(s.w), |s.w.txs|) && s'.calls[j].once == c.once
            && s'.calls[j].lost == c.lost + [c.seen] && s'.calls[j].attempt == c.attempt + 1
  {
    var s := Last(run);
    LinearHead(s.w.store, s.w.log, HeadOf(s.w));
    hide Run, Linear, HeadIs, HeadOf, Admits;
    var again := LoserRereads(policy, run, j, t);
    assert HeadOf(Last(again).w) == HeadOf(s.w) by { SameHead(s.w, Last(again).w); }
    more := CheckedCallSends(policy, again, j);
  }

  lemma SameHead(w: World, w': World)
    requires w'.store == w.store && w'.log == w.log
    ensures HeadOf(w') == HeadOf(w)
  {}

  lemma UpdatedTwice<T>(list: seq<T>, j: nat, a: T, b: T)
    requires j < |list|
    ensures list[j := a][j := b] == list[j := b]
  {}

  lemma CheckPasses(policy: Policy, run: seq<State>, j: nat) returns (more: seq<State>)
    requires run != [] && Run(policy, run) && j < |Last(run).calls|
    requires Last(run).calls[j].pc == Checking && Last(run).calls[j].node !in Last(run).degraded
    ensures more != [] && Run(policy, more)
    ensures var s := Last(run); var c := s.calls[j];
            Last(more) == s.(calls := s.calls[j := c.(pc := Reading, cleared := c.cleared + {c.attempt})])
  {
    hide Run;
    more := TakeStep(policy, run, Check(j));
  }

  lemma HeadIsRead(policy: Policy, run: seq<State>, j: nat, head: Hash) returns (more: seq<State>)
    requires run != [] && Run(policy, run) && j < |Last(run).calls|
    requires Last(run).calls[j].pc == Reading && HeadIs(Last(run).w.store, head)
    ensures more != [] && Run(policy, more)
    ensures var s := Last(run);
            Last(more) == s.(calls := s.calls[j := s.calls[j].(pc := Sending(head), seen := |s.w.log|)])
  {
    hide Run, HeadIs;
    more := TakeStep(policy, run, ReadHead(j, head));
  }

  lemma RecordIsSent(policy: Policy, run: seq<State>, j: nat) returns (more: seq<State>)
    requires run != [] && Run(policy, run) && j < |Last(run).calls| && Last(run).calls[j].pc.Sending?
    ensures more != [] && Run(policy, more)
    ensures var s := Last(run); var c := s.calls[j]; var parent := c.pc.parent;
            var tx := Tx(j, c.attempt, Record(parent, c.decision), c.seen, InFlight);
            Last(more) == s.(w := s.w.(txs := s.w.txs + [tx]),
              calls := s.calls[j := c.(pc := Waiting(parent, |s.w.txs|))])
  {
    hide Run;
    more := TakeStep(policy, run, Send(j));
  }

  /** From its check on a node with a complete verdict, a call reads the head and sends onto it. */
  lemma CheckedCallSends(policy: Policy, run: seq<State>, j: nat) returns (more: seq<State>)
    requires run != [] && Run(policy, run) && Linear(Last(run).w.store, Last(run).w.log) && j < |Last(run).calls|
    requires Last(run).calls[j].pc == Checking && Last(run).calls[j].node !in Last(run).degraded
    ensures more != [] && Run(policy, more)
    ensures var s, s' := Last(run), Last(more); var c := s.calls[j]; var head := HeadOf(s.w);
            && s'.w == s.w.(txs := s.w.txs + [Tx(j, c.attempt, Record(head, c.decision), |s.w.log|, InFlight)])
            && s'.degraded == s.degraded
            && s'.calls == s.calls[j := c.(pc := Waiting(head, |s.w.txs|), seen := |s.w.log|,
                                           cleared := c.cleared + {c.attempt})]
  {
    var s := Last(run);
    var c, head := s.calls[j], HeadOf(s.w);
    LinearHead(s.w.store, s.w.log, head);
    hide *;
    more := CheckPasses(policy, run, j);
    more := HeadIsRead(policy, more, j, head);
    more := RecordIsSent(policy, more, j);
    var checked := c.(pc := Reading, cleared := c.cleared + {c.attempt});
    var read := checked.(pc := Sending(head), seen := |s.w.log|);
    UpdatedTwice(s.calls, j, checked, read);
    UpdatedTwice(s.calls, j, read, read.(pc := Waiting(head, |s.w.txs|)));
  }

  lemma LoserRereads(policy: Policy, run: seq<State>, j: nat, t: nat) returns (more: seq<State>)
    requires run != [] && Run(policy, run) && AboutToLose(Last(run), j, t) &&
             HeadIs(Last(run).w.store, HeadOf(Last(run).w))
    ensures more != [] && Run(policy, more)
    ensures var s, s' := Last(run), Last(more); var c := s.calls[j];
            && s'.w == s.w.(txs := s.w.txs[t := s.w.txs[t].(status := Rejected)]) && s'.degraded == s.degraded
            && s'.calls == s.calls[j := c.(pc := Checking, attempt := c.attempt + 1, lost := c.lost + [c.seen])]
  {
    hide Run, HeadIs, HeadOf, Admits;
    more := TakeStep(policy, run, Decide(t));
    more := TakeStep(policy, more, LoseAcknowledgement(j));
    more := TakeStep(policy, more, Classify(j));
    more := TakeStep(policy, more, Reread(j, HeadOf(Last(run).w)));
  }

  lemma AdmittedAtHead(policy: Policy, run: seq<State>, r: Record)
    requires run != [] && Run(policy, run) && Linear(Last(run).w.store, Last(run).w.log)
    requires r.prev == HeadOf(Last(run).w) && r.Id() !in Last(run).w.store.books.identity
    ensures Admits(Last(run).w.store, r) && Linear(Insert(Last(run).w.store, r), Last(run).w.log + [r])
  {
    hide Run, Linear, Inv, Admits, Insert;
    RunKeepsInv(policy, run, |run| - 1);
    FreeIdIsAdmitted(Last(run), r);
    InsertOntoHead(Last(run).w.store, Last(run).w.log, r);
  }

  /** The state of a call that just sent its first transaction. */
  function JustSent(d: Decision, head: Hash, tx: nat, length: nat): Call {
    Call(d, 0, Backstopped, false, 0, Waiting(head, tx), length, length, [], {0})
  }

  /** Two calls sent onto one head, and the first one's transaction committed and was acknowledged. */
  ghost predicate FirstWon(s: State, s': State, d: Decision, e: Decision) {
    var n, t, head := |s.calls|, |s.w.txs|, HeadOf(s.w);
    var first := Record(head, d);
    && s'.w.store == Insert(s.w.store, first) && s'.w.log == s.w.log + [first] && s'.degraded == s.degraded
    && |s'.w.txs| == t + 2 && s'.w.txs[t + 1] == Tx(n + 1, 0, Record(head, e), |s.w.log|, InFlight)
    && |s'.calls| == n + 2 && s'.calls[n + 1] == JustSent(e, head, t + 1, |s.w.log|)
    && s'.calls[n].pc == Returned(Landed(first.Hash(), true, None))
  }

  lemma FirstWins(policy: Policy, run: seq<State>, d: Decision, e: Decision) returns (more: seq<State>)
    requires Run(policy, run) && run != [] && Linear(Last(run).w.store, Last(run).w.log) && 0 !in Last(run).degraded
    requires d.id != "" && e.id != "" && d.id !in Last(run).w.store.books.identity
    ensures more != [] && Run(policy, more) && FirstWon(Last(run), Last(more), d, e)
    ensures Linear(Last(more).w.store, Last(more).w.log)
  {
    var s := Last(run);
    var n, t := |s.calls|, |s.w.txs|;
    hide Run, Linear, Admits, Insert;
    var one := CallSends(policy, run, d);
    var two := CallSends(policy, one, e);
    AdmittedAtHead(policy, two, Record(HeadOf(s.w), d));
    assert Last(two).calls[n] == Last(two).calls[..n + 1][n];
    more := CommitAndAnswer(policy, two, n, t);
  }

  lemma SecondLoses(s: State, s': State, d: Decision, e: Decision)
    requires FirstWon(s, s', d, e) && 0 !in s.degraded && d.id != e.id && e.id !in s.w.store.books.identity
    requires s.w.store.books.collisions <= s.w.store.books.identity.Keys
    ensures AboutToLose(s', |s.calls| + 1, |s.w.txs| + 1) && HeadOf(s'.w) == Record(HeadOf(s.w), d).Hash()
  {
    var first := Record(HeadOf(s.w), d);
    assert first in s'.w.store.resident && first.prev == HeadOf(s.w);
    assert HeadOf(s'.w) == first.Hash();
    NotItsOwnParent(first);
  }

  lemma NotItsOwnParent(r: Record)
    ensures r.Hash() != r.prev
  {
    assert Depth(r.Hash()) == 1 + Depth(r.prev);
  }

  lemma CollisionsHaveRows(policy: Policy, run: seq<State>)
    requires run != [] && Run(policy, run)
    ensures Last(run).w.store.books.collisions <= Last(run).w.store.books.identity.Keys
  {
    assert Covered(Last(run).w.store, Last(run).w.log) by {
      hide *;
      RunKeepsInv(policy, run, |run| - 1);
      CoveredNow(Last(run));
    }
    hide Run, Partition;
  }

  /** A transaction in flight onto the head, for a free id, commits and is acknowledged. */
  lemma OntoTheHeadLands(policy: Policy, run: seq<State>, j: nat, t: nat) returns (more: seq<State>)
    requires run != [] && Run(policy, run) && Linear(Last(run).w.store, Last(run).w.log)
    requires j < |Last(run).calls| && t < |Last(run).w.txs| && Last(run).w.txs[t].status == InFlight
    requires Last(run).calls[j].pc.Waiting? && Last(run).calls[j].pc.tx == t
    requires Last(run).w.txs[t].record.prev == HeadOf(Last(run).w)
    requires Last(run).w.txs[t].record.Id() !in Last(run).w.store.books.identity
    ensures more != [] && Run(policy, more)
    ensures var s, s' := Last(run), Last(more); var r := s.w.txs[t].record;
            && s'.w.log == s.w.log + [r] && Linear(s'.w.store, s'.w.log) && |s'.calls| == |s.calls|
            && s'.calls[j].pc == Returned(Landed(r.Hash(), true, None))
            && forall i :: 0 <= i < |s.calls| && i != j ==> s'.calls[i] == s.calls[i]
  {
    hide *;
    AdmittedAtHead(policy, run, Last(run).w.txs[t].record);
    more := CommitAndAnswer(policy, run, j, t);
  }

  /** Left alone after its loss, a call lands in its next attempt, onto the head as it is then. */
  lemma ALoserLandsNext(policy: Policy, run: seq<State>, j: nat, t: nat) returns (more: seq<State>)
    requires run != [] && Run(policy, run) && Linear(Last(run).w.store, Last(run).w.log) && AboutToLose(Last(run), j, t)
    ensures more != [] && Run(policy, more)
    ensures var s, s' := Last(run), Last(more); var r := Record(HeadOf(s.w), s.calls[j].decision);
            && s'.w.log == s.w.log + [r] && Linear(s'.w.store, s'.w.log) && |s'.calls| == |s.calls|
            && s'.calls[j].pc == Returned(Landed(r.Hash(), true, None))
            && forall i :: 0 <= i < |s.calls| && i != j ==> s'.calls[i] == s.calls[i]
  {
    var s := Last(run);
    assert s.calls[j].decision.id !in s.w.store.books.identity;
    hide Run, Linear, AboutToLose, HeadOf;
    var sent := ALoserSendsAgain(policy, run, j, t);
    assert HeadOf(Last(sent).w) == HeadOf(s.w) by { SameHead(s.w, Last(sent).w); }
    more := OntoTheHeadLands(policy, sent, j, |s.w.txs|);
  }

  /** Two appends of free ids read the same head and both send. Whoever's transaction arrives second is refused, tries
      again, and lands behind the first: both end as appended just now, and both records are in the chain. */
  lemma TwoRacersBothLand(policy: Policy, run: seq<State>, d: Decision, e: Decision) returns (more: seq<State>)
    requires Run(policy, run) && run != [] && Linear(Last(run).w.store, Last(run).w.log) && 0 !in Last(run).degraded
    requires d.id != "" && e.id != "" && d.id != e.id
    requires d.id !in Last(run).w.store.books.identity && e.id !in Last(run).w.store.books.identity
    ensures more != [] && Run(policy, more)
    ensures var s, s' := Last(run), Last(more);
            var n, first := |s.calls|, Record(HeadOf(s.w), d);
            var second := Record(first.Hash(), e);
            && s'.w.log == s.w.log + [first, second] && Linear(s'.w.store, s'.w.log) && |s'.calls| == n + 2
            && s'.calls[n].pc == Returned(Landed(first.Hash(), true, None))
            && s'.calls[n + 1].pc == Returned(Landed(second.Hash(), true, None))
  {
    hide *;
    var s := Last(run);
    var n, t, first := |s.calls|, |s.w.txs|, Record(HeadOf(s.w), d);
    var won := FirstWins(policy, run, d, e);
    CollisionsHaveRows(policy, run);
    SecondLoses(s, Last(won), d, e);
    FirstWonIs(s, Last(won), d, e);
    more := ALoserLandsNext(policy, won, n + 1, t + 1);
    assert s.w.log + [first] + [Record(first.Hash(), e)] == s.w.log + [first, Record(first.Hash(), e)];
  }

  lemma FirstWonIs(s: State, s': State, d: Decision, e: Decision)
    requires FirstWon(s, s', d, e)
    ensures var n, first := |s.calls|, Record(HeadOf(s.w), d);
            && s'.w.log == s.w.log + [first] && |s'.calls| == n + 2 && s'.calls[n + 1].decision == e
            && s'.calls[n].pc == Returned(Landed(first.Hash(), true, None))
  {
    hide HeadOf, Insert;
  }
}
