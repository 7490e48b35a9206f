/**
  The promises of the append protocol, over every run.
*/
module AppendLaws {
  import opened Wrappers
  import opened Chain
  import opened ChainLaws
  import opened Append
  import opened AppendSafety

  // ----- One record per id

  ghost predicate SpentOnceSince(base: nat, w: World) {
    forall a, b :: 0 <= a < b < |w.log| && base <= b ==> w.log[a].Id() != w.log[b].Id()
  }

  lemma DecideSpendsOnce(base: nat, w: World, t: nat)
    requires SpentOnceSince(base, w) && Covered(w.store, w.log) && t < |w.txs|
    ensures SpentOnceSince(base, DecideTx(w, t))
  {
    hide Covered;
    var r := w.txs[t].record;
    if Admits(w.store, r) {
      InsertKeepsCoverage(w.store, w.log, r);
      forall a, b | 0 <= a < b < |w.log + [r]| && base <= b ensures (w.log + [r])[a].Id() != (w.log + [r])[b].Id() {
        assert w.log[a] in w.log;
      }
    }
  }

  lemma StepSpendsOnce(base: nat, policy: Policy, s: State, step: Step)
    requires Inv(s) && Enabled(policy, s, step) && SpentOnceSince(base, s.w)
    ensures SpentOnceSince(base, Do(policy, s, step).w)
  {
    hide *;
    if step.Decide? {
      CoveredNow(s);
      DecideIs(policy, s, step.t);
      DecideSpendsOnce(base, s.w, step.t);
    } else {
      SameLog(policy, s, step, base);
    }
  }

  lemma CoveredNow(s: State)
    requires Inv(s)
    ensures Covered(s.w.store, s.w.log)
  {
    hide Covered, CallsOk, TxsOk, CommitsDiffer, Rooted, Linear, Forked;
  }

  lemma DecideIs(policy: Policy, s: State, t: nat)
    requires Enabled(policy, s, Decide(t))
    ensures t < |s.w.txs| && s.w.txs[t].status == InFlight && Do(policy, s, Decide(t)).w == DecideTx(s.w, t)
  {
    hide DecideTx;
  }

  lemma {:induction false} RunSpendsOnce(policy: Policy, run: seq<State>, k: nat)
    requires Run(policy, run) && k < |run|
    ensures SpentOnceSince(|run[0].w.log|, run[k].w)
  {
    if k == 0 {
      hide Init;
    } else {
      hide Run, Inv, Enabled, Do, SpentOnceSince;
      RunSpendsOnce(policy, run, k - 1);
      RunKeepsInv(policy, run, k - 1);
      var step := StepOf(policy, run, k);
      StepSpendsOnce(|run[0].w.log|, policy, run[k - 1], step);
    }
  }

  lemma SameLog(policy: Policy, s: State, step: Step, base: nat)
    requires Enabled(policy, s, step) && !step.Decide? && SpentOnceSince(base, s.w)
    ensures Do(policy, s, step).w.log == s.w.log && SpentOnceSince(base, Do(policy, s, step).w)
  {}

  /** At every point of every run: each record stands in the tables exactly once, resident or in one sealed
      segment; an id has a record exactly when it has an identity row; and no record that landed during the
      run reused an id, of the run or of history. Nothing is assumed of the parents transactions claim. */
  lemma OneRecordPerId(policy: Policy, run: seq<State>, k: nat)
    requires Run(policy, run) && k < |run|
    ensures var w := run[k].w;
            && Partition(w.store, w.log)
            && (forall id :: id in w.store.books.identity <==> exists a :: 0 <= a < |w.log| && w.log[a].Id() == id)
            && forall a, b :: 0 <= a < b < |w.log| && w.log[a].Id() == w.log[b].Id() ==> b < |run[0].w.log|
  {
    RunKeepsInv(policy, run, k);
    RunSpendsOnce(policy, run, k);
    hide Run, Partition, CallsOk, TxsOk, Rooted, Linear, Forked;
    var w := run[k].w;
    forall id | id in w.store.books.identity ensures exists a :: 0 <= a < |w.log| && w.log[a].Id() == id {
      assert Vouched(w.store, w.log, id);
    }
  }

  // ----- What a successful return means

  lemma CallOf(policy: Policy, run: seq<State>, k: nat, i: nat)
    requires Run(policy, run) && k < |run| && i < |run[k].calls|
    ensures CallOk(run[k].w, i, run[k].calls[i])
    ensures ChainOk(run[k].w.store, run[k].w.log)
  {
    RunKeepsInv(policy, run, k);
    hide Run, ChainOk, CallOk, TxsOk;
  }

  lemma HoldsNamesOne(st: Store, log: seq<Record>, d: Decision, hash: Hash) returns (a: nat)
    requires Covered(st, log) && Holds(st.books, d, hash)
    ensures a < |log| && log[a].Hash() == hash && log[a].decision == d
    ensures forall b :: 0 <= b < |log| && log[b].Id() == d.id ==> b == a
  {
    hide Partition;
    assert Vouched(st, log, d.id);
    a :| 0 <= a < |log| && log[a].Id() == d.id && Names(st.books.identity[d.id], st, log[a]);
  }

  /** Whatever way a call got its success (its own commit, one that landed late, or a verified retry through
      the backstop), the hash it returns names the one record of that id, and that record holds exactly the
      decision it was given. A segment it names holds that record. */
  lemma SuccessNamesTheOneRecord(policy: Policy, run: seq<State>, k: nat, i: nat) returns (a: nat)
    requires Run(policy, run) && k < |run| && i < |run[k].calls|
    requires run[k].calls[i].pc.Returned? && run[k].calls[i].pc.answer.Landed?
    ensures var c, log := run[k].calls[i], run[k].w.log;
            && a < |log| && log[a].Hash() == c.pc.answer.hash && log[a].decision == c.decision
            && (forall b :: 0 <= b < |log| && log[b].Id() == c.decision.id ==> b == a)
    ensures SealedThere(run[k].w.store, run[k].calls[i].pc.answer.sealedIn, run[k].calls[i].pc.answer.hash)
  {
    CallOf(policy, run, k, i);
    hide Run, CallOk, ChainOk, Holds, SealedThere;
    CoveredOf(run[k].w.store, run[k].w.log);
    LandedHolds(run[k].w, i, run[k].calls[i]);
    a := HoldsNamesOne(run[k].w.store, run[k].w.log, run[k].calls[i].decision, run[k].calls[i].pc.answer.hash);
  }

  lemma CoveredOf(st: Store, log: seq<Record>)
    requires ChainOk(st, log)
    ensures Covered(st, log)
  {
    hide Covered, Rooted, Linear, Forked;
  }

  lemma LandedHolds(w: World, i: nat, c: Call)
    requires CallOk(w, i, c) && c.pc.Returned? && c.pc.answer.Landed?
    ensures Holds(w.store.books, c.decision, c.pc.answer.hash)
    ensures SealedThere(w.store, c.pc.answer.sealedIn, c.pc.answer.hash)
  {
    hide LostOk, Holds, SealedThere, OwnCommit;
  }

  /** And it stays named: a later state of the run still holds that record, under that id alone. */
  lemma SuccessIsDurable(policy: Policy, run: seq<State>, j: nat, k: nat, i: nat) returns (a: nat)
    requires Run(policy, run) && j <= k < |run| && i < |run[j].calls|
    requires run[j].calls[i].pc.Returned? && run[j].calls[i].pc.answer.Landed?
    ensures var c, log := run[j].calls[i], run[k].w.log;
            && a < |log| && log[a].Hash() == c.pc.answer.hash && log[a].decision == c.decision
            && (forall b :: 0 <= b < |log| && log[b].Id() == c.decision.id ==> b == a)
  {
    CallOf(policy, run, j, i);
    RunGrows(policy, run, j, k);
    RunKeepsInv(policy, run, k);
    assert ChainOk(run[k].w.store, run[k].w.log) by { hide ChainOk; }
    hide Run, Covered, LostOk, Inv, TxsGrow;
    a := HoldsNamesOne(run[k].w.store, run[k].w.log, run[j].calls[i].decision, run[j].calls[i].pc.answer.hash);
  }

  /** `appended_now` is said only by the call whose own transaction committed that record. */
  lemma AppendedNowIsOwn(policy: Policy, run: seq<State>, k: nat, i: nat) returns (t: nat)
    requires Run(policy, run) && k < |run| && i < |run[k].calls|
    requires run[k].calls[i].pc.Returned? && run[k].calls[i].pc.answer.Landed?
    requires run[k].calls[i].pc.answer.appendedNow
    ensures OwnCommit(run[k].w, i, t, run[k].calls[i].pc.answer.hash)
    ensures run[k].w.txs[t].record.decision == run[k].calls[i].decision
  {
    CallOf(policy, run, k, i);
    hide Run, ChainOk, TxOk, CallOk;
    t := OwnOf(run[k].w, i, run[k].calls[i]);
    TxOf(policy, run, k, t);
    TxNamesIt(run[k].w, run[k].w.txs[t], run[k].calls[i]);
  }

  lemma TxOf(policy: Policy, run: seq<State>, k: nat, t: nat)
    requires Run(policy, run) && k < |run| && t < |run[k].w.txs|
    ensures run[k].w.txs[t].owner < |run[k].calls|
    ensures TxOk(run[k].w, run[k].w.txs[t], run[k].calls[run[k].w.txs[t].owner])
  {
    RunKeepsInv(policy, run, k);
    hide Run, ChainOk, CallsOk, CommitsDiffer, TxOk;
  }

  lemma TxNamesIt(w: World, tx: Tx, c: Call)
    requires TxOk(w, tx, c)
    ensures tx.record.decision == c.decision
  {
    hide Holds;
  }

  lemma OwnOf(w: World, i: nat, c: Call) returns (t: nat)
    requires CallOk(w, i, c) && c.pc.Returned? && c.pc.answer.Landed? && c.pc.answer.appendedNow
    ensures OwnCommit(w, i, t, c.pc.answer.hash)
  {
    hide LostOk, Holds, SealedThere, OwnCommit;
    t :| OwnCommit(w, i, t, c.pc.answer.hash);
  }

  /** Across every call of the run, at most one return per id says `appended_now`. */
  lemma AppendedNowOncePerId(policy: Policy, run: seq<State>, k: nat, i: nat, j: nat)
    requires Run(policy, run) && k < |run| && i < j < |run[k].calls|
    requires run[k].calls[i].pc.Returned? && run[k].calls[i].pc.answer.Landed?
    requires run[k].calls[j].pc.Returned? && run[k].calls[j].pc.answer.Landed?
    requires run[k].calls[i].pc.answer.appendedNow && run[k].calls[j].pc.answer.appendedNow
    ensures run[k].calls[i].decision.id != run[k].calls[j].decision.id
  {
    var t := AppendedNowIsOwn(policy, run, k, i);
    var u := AppendedNowIsOwn(policy, run, k, j);
    RunKeepsInv(policy, run, k);
    hide Run, ChainOk, CallsOk, TxsOk;
    assert t != u;
  }

  // ----- What a lost attempt costs

  /** Every lost attempt is charged to a record of its own: the records come later and later in the chain,
      all landed after the call began, each claimed the very parent that attempt's transaction carried, and
      only the last can be a late commit of the call itself. */
  lemma EachLostAttemptIsCharged(policy: Policy, run: seq<State>, k: nat, i: nat)
    requires Run(policy, run) && k < |run| && i < |run[k].calls|
    ensures var c, w := run[k].calls[i], run[k].w;
            && |c.lost| == c.attempt <= APPEND_ATTEMPTS
            && (forall n :: 0 <= n < |c.lost| ==> c.began <= c.lost[n] < |w.log|)
            && (forall m, n :: 0 <= m < n < |c.lost| ==> c.lost[m] < c.lost[n])
            && (forall n :: 0 <= n < |c.lost| - 1 ==> w.log[c.lost[n]].Id() != c.decision.id)
            && forall t :: 0 <= t < |w.txs| && w.txs[t].owner == i && w.txs[t].attempt < |c.lost| ==>
                 w.log[c.lost[w.txs[t].attempt]].prev == w.txs[t].record.prev
  {
    var c, w := run[k].calls[i], run[k].w;
    CallOf(policy, run, k, i);
    RunKeepsInv(policy, run, k);
    AttemptsBounded(w, i, c);
    hide Run, ChainOk, PcOk, CommitsDiffer;
    forall n | 0 <= n < |c.lost| ensures Charged(w, c, c.lost[n]) {}
    forall t | 0 <= t < |w.txs| && w.txs[t].owner == i && w.txs[t].attempt < |c.lost|
      ensures w.log[c.lost[w.txs[t].attempt]].prev == w.txs[t].record.prev
    {
      assert TxOk(w, w.txs[t], c);
    }
  }

  lemma AttemptsBounded(w: World, i: nat, c: Call)
    requires CallOk(w, i, c)
    ensures c.attempt <= APPEND_ATTEMPTS
  {
    hide LostOk, Holds, SealedThere, ParentOk, OthersOnly;
  }

  /** Positions that only rise need room. */
  lemma {:induction false} RisingNeedsRoom(at: seq<nat>, low: nat, high: nat)
    requires forall n :: 0 <= n < |at| ==> low <= at[n] < high
    requires forall m, n :: 0 <= m < n < |at| ==> at[m] < at[n]
    requires low <= high
    ensures low + |at| <= high
  {
    if at != [] {
      var last := |at| - 1;
      RisingNeedsRoom(at[..last], low, at[last]);
    }
  }

  lemma GaveUpAfterAll(w: World, i: nat, c: Call)
    requires CallOk(w, i, c) && c.pc == Returned(Refused(LostEveryAttempt))
    ensures c.attempt == APPEND_ATTEMPTS && c.began <= |w.log|
  {
    hide LostOk;
  }

  /** Giving up after twelve attempts means twelve records landed meanwhile, eleven of them at least
      for other decisions. */
  lemma GivingUpCostsTwelve(policy: Policy, run: seq<State>, k: nat, i: nat)
    requires Run(policy, run) && k < |run| && i < |run[k].calls|
    requires run[k].calls[i].pc == Returned(Refused(LostEveryAttempt))
    ensures run[k].calls[i].began + APPEND_ATTEMPTS <= |run[k].w.log|
    ensures exists others: seq<nat> ::
              && |others| == APPEND_ATTEMPTS - 1
              && (forall m, n :: 0 <= m < n < |others| ==> others[m] < others[n])
              && forall n :: 0 <= n < |others| ==>
                   && run[k].calls[i].began <= others[n] < |run[k].w.log|
                   && run[k].w.log[others[n]].Id() != run[k].calls[i].decision.id
  {
    hide *;
    var c := run[k].calls[i];
    EachLostAttemptIsCharged(policy, run, k, i);
    CallOf(policy, run, k, i);
    GaveUpAfterAll(run[k].w, i, c);
    RisingNeedsRoom(c.lost, c.began, |run[k].w.log|);
    ElevenOthers(run[k].w, c);
  }

  lemma ElevenOthers(w: World, c: Call)
    requires |c.lost| == APPEND_ATTEMPTS && forall n :: 0 <= n < |c.lost| ==> c.began <= c.lost[n] < |w.log|
    requires forall m, n :: 0 <= m < n < |c.lost| ==> c.lost[m] < c.lost[n]
    requires forall n :: 0 <= n < |c.lost| - 1 ==> w.log[c.lost[n]].Id() != c.decision.id
    ensures exists others: seq<nat> ::
              && |others| == APPEND_ATTEMPTS - 1
              && (forall m, n :: 0 <= m < n < |others| ==> others[m] < others[n])
              && forall n :: 0 <= n < |others| ==>
                 c.began <= others[n] < |w.log| && w.log[others[n]].Id() != c.decision.id
  {
    var others := c.lost[..APPEND_ATTEMPTS - 1];
    assert forall n :: 0 <= n < |others| ==> others[n] == c.lost[n];
  }

  // ----- The backstop

  /** Whatever attempt a call has on record as cleared, the run went through the moment that cleared it: its
      node's verdict was complete then, and the call had sent nothing for that attempt. */
  lemma {:induction false} ClearedByACompleteVerdict(policy: Policy, run: seq<State>, k: nat, i: nat, attempt: nat)
      returns (j: nat)
    requires Run(policy, run) && k < |run| && i < |run[k].calls| && attempt in run[k].calls[i].cleared
    ensures j < k && i < |run[j].calls| && run[j].calls[i].pc.Checking? && run[j].calls[i].attempt == attempt
    ensures run[j].calls[i].node == run[k].calls[i].node && run[j].calls[i].node !in run[j].degraded
  {
    assert k > 0;
    hide Run, Enabled, Do;
    var step := StepOf(policy, run, k);
    if i < |run[k - 1].calls| && attempt in run[k - 1].calls[i].cleared {
      CallKeepsNode(policy, run[k - 1], step, i);
      j := ClearedByACompleteVerdict(policy, run, k - 1, i, attempt);
    } else {
      ClearedNow(policy, run[k - 1], step, i, attempt);
      j := k - 1;
    }
  }

  lemma CallKeepsNode(policy: Policy, s: State, step: Step, i: nat)
    requires Enabled(policy, s, step) && i < |s.calls|
    ensures i < |Do(policy, s, step).calls| && Do(policy, s, step).calls[i].node == s.calls[i].node
  {
    hide Orders, HeadIs, Admits, Insert, SealRun;
  }

  lemma ClearedNow(policy: Policy, s: State, step: Step, i: nat, attempt: nat)
    requires Enabled(policy, s, step) && i < |Do(policy, s, step).calls| &&
             attempt in Do(policy, s, step).calls[i].cleared
    requires i < |s.calls| ==> attempt !in s.calls[i].cleared
    ensures i < |s.calls| && s.calls[i].pc.Checking? && s.calls[i].attempt == attempt && s.calls[i].node !in s.degraded
    ensures Do(policy, s, step).calls[i].node == s.calls[i].node
  {
    hide Orders, HeadIs, Admits, Insert, SealRun;
  }

  /** Every transaction an ordinary append sends was preceded, in the same attempt, by a check that saw a
      complete verdict on that node, before the transaction existed. */
  lemma NothingSentUnchecked(policy: Policy, run: seq<State>, k: nat, t: nat) returns (j: nat)
    requires Run(policy, run) && k < |run| && t < |run[k].w.txs|
    requires run[k].w.txs[t].owner < |run[k].calls| && run[k].calls[run[k].w.txs[t].owner].gate == Backstopped
    ensures var tx := run[k].w.txs[t];
            && j < k && tx.owner < |run[j].calls|
            && run[j].calls[tx.owner].pc.Checking? && run[j].calls[tx.owner].attempt == tx.attempt
            && run[j].calls[tx.owner].node !in run[j].degraded
            && |run[j].w.txs| <= t
  {
    var tx := run[k].w.txs[t];
    RunKeepsInv(policy, run, k);
    assert TxOk(run[k].w, tx, run[k].calls[tx.owner]) by { hide ChainOk, CallsOk, CommitsDiffer, TxOk, Run; }
    j := ClearedByACompleteVerdict(policy, run, k, tx.owner, tx.attempt);
    RunKeepsInv(policy, run, j);
    RunGrows(policy, run, j, k);
    AttemptsMatch(run[j].w, tx.owner, run[j].calls[tx.owner]) by { hide Run, ChainOk, TxsOk, CommitsDiffer, CallOk; }
    hide Run, ChainOk, CallOk, CommitsDiffer;
  }

  lemma AttemptsMatch(w: World, i: nat, c: Call)
    requires CallOk(w, i, c)
    ensures |c.lost| == c.attempt
  {
    hide PcOk, Charged;
  }

  /** Where a call can be once its check met an incomplete verdict. */
  predicate HeldBack(c: Call) {
    match c.pc
    case Checking => true
    case CheckingRows => true
    case LookingUp(_) => true
    case Returned(Landed(_, now, _)) => !now
    case Returned(Refused(why)) => why != LostEveryAttempt
    case _ => false
  }

  lemma HeldBackStays(policy: Policy, s: State, step: Step, i: nat)
    requires Enabled(policy, s, step) && i < |s.calls| && HeldBack(s.calls[i]) && s.calls[i].node in s.degraded
    ensures var s' := Do(policy, s, step);
            && i < |s'.calls| && HeldBack(s'.calls[i]) && s'.calls[i].node in s'.degraded
            && |s.w.txs| <= |s'.w.txs|
            && (forall t :: 0 <= t < |s.w.txs| ==> s'.w.txs[t].owner == s.w.txs[t].owner)
            && forall t :: |s.w.txs| <= t < |s'.w.txs| ==> s'.w.txs[t].owner != i
  {
    hide Orders, HeadIs, Admits, Insert, SealRun;
  }

  lemma {:induction false} HeldBackForGood(policy: Policy, run: seq<State>, j: nat, k: nat, i: nat)
    requires Run(policy, run) && j <= k < |run| && i < |run[j].calls|
    requires HeldBack(run[j].calls[i]) && run[j].calls[i].node in run[j].degraded
    ensures i < |run[k].calls| && HeldBack(run[k].calls[i]) && run[k].calls[i].node in run[k].degraded
    ensures |run[j].w.txs| <= |run[k].w.txs|
    ensures forall t :: |run[j].w.txs| <= t < |run[k].w.txs| ==> run[k].w.txs[t].owner != i
  {
    hide *;
    if j < k {
      HeldBackForGood(policy, run, j, k - 1, i);
      var step := StepOf(policy, run, k);
      HeldBackStays(policy, run[k - 1], step, i);
    }
  }

  /** A call that stands at its check on a degraded node sends nothing from there on. The only success left
      to it is the verified retry: the stored hash of an id whose digest matches and that carries no
      collision row. */
  lemma DegradedNodeSendsNothing(policy: Policy, run: seq<State>, j: nat, k: nat, i: nat)
    requires Run(policy, run) && j <= k < |run| && i < |run[j].calls|
    requires run[j].calls[i].pc.Checking? || run[j].calls[i].pc.CheckingRows?
    requires run[j].calls[i].node in run[j].degraded
    ensures i < |run[k].calls| && HeldBack(run[k].calls[i]) && run[k].calls[i].node in run[k].degraded
    ensures |run[j].w.txs| <= |run[k].w.txs|
    ensures forall t :: |run[j].w.txs| <= t < |run[k].w.txs| ==> run[k].w.txs[t].owner != i
    ensures run[k].calls[i].pc.Returned? && run[k].calls[i].pc.answer.Landed? ==>
              Holds(run[k].w.store.books, run[k].calls[i].decision, run[k].calls[i].pc.answer.hash)
  {
    assert HeldBack(run[j].calls[i]) by { hide Run; }
    hide *;
    HeldBackForGood(policy, run, j, k, i);
    CallOf(policy, run, k, i);
    if run[k].calls[i].pc.Returned? && run[k].calls[i].pc.answer.Landed? { LandedHolds(run[k].w, i, run[k].calls[i]); }
  }
}
