/**
  Where a record appended just now stands when the call that appended it returns.
*/
module AppendResident {
  import opened Wrappers
  import opened Chain
  import opened ChainLaws
  import opened Append
  import opened AppendSeals
  import opened AppendSafety
  import opened AppendLaws
  import opened AppendFork

  predicate SaysAppendedNow(c: Call) {
    c.pc.Returned? && c.pc.answer.Landed? && c.pc.answer.appendedNow
  }

  /** On a linear chain the parent a record carries is its position. */
  lemma ParentIsPosition(st: Store, log: seq<Record>, a: nat, seen: nat)
    requires Linear(st, log) && a < |log| && seen <= |log| && log[a].prev == Tip(st.genesis, log, seen)
    ensures a == seen
  {
    assert log[a].prev == Tip(st.genesis, log, a);
    TipsDiffer(st.genesis, log, a, seen);
  }

  lemma ResidentIsTheRest(st: Store, log: seq<Record>, a: nat)
    requires Linear(st, log) && a < |log|
    ensures log[a] in st.resident <==> |Flatten(st.segments)| <= a
  {
    var n := |Flatten(st.segments)|;
    LinkedNoRepeats(st.genesis, log);
    hide Flatten, LinkedFrom;
    if n <= a { assert log[n..][a - n] == log[a]; }
  }

  /** The record a call appended just now landed in the run, at the position its transaction had read. */
  lemma AppendedInTheRun(policy: Policy, run: seq<State>, k: nat, i: nat) returns (a: nat)
    requires Run(policy, run) && k < |run| && i < |run[k].calls| && SaysAppendedNow(run[k].calls[i])
    ensures var log, c := run[k].w.log, run[k].calls[i];
            a < |log| && log[a].Hash() == c.pc.answer.hash && log[a].decision == c.decision
    ensures Linear(run[k].w.store, run[k].w.log) ==> |run[0].w.log| <= run[k].calls[i].began <= a
  {
    var pc := run[k].calls[i].pc;
    assert pc.Returned? && pc.answer.Landed? && pc.answer.appendedNow;
    hide *;
    a := SuccessNamesTheOneRecord(policy, run, k, i);
    var t := AppendedNowIsOwn(policy, run, k, i);
    var w := run[k].w;
    OwnRecord(w, i, t, run[k].calls[i].pc.answer.hash, w.log[a]);
    RunKeepsInv(policy, run, k);
    TxKnown(run[k], t);
    CallsBeganInTheRun(policy, run, k, i);
    if Linear(w.store, w.log) { ParentIsPosition(w.store, w.log, a, w.txs[t].seen); }
  }

  lemma OwnRecord(w: World, i: nat, t: nat, hash: Hash, r: Record)
    requires OwnCommit(w, i, t, hash) && r.Hash() == hash
    ensures t < |w.txs| && w.txs[t].owner == i && w.txs[t].record == r
  {}

  /** The record a call says it appended now is resident if and only if no segment holds it; on a linear chain that
      is if and only if the sealed prefix has not reached its position. If it has, at least a hot window of records
      landed behind it, less what was sealed since the last sealer's count. */
  lemma AppendedNowIsResidentIff(policy: Policy, run: seq<State>, k: nat, i: nat) returns (a: nat)
    requires Run(policy, run) && k < |run| && i < |run[k].calls| && SaysAppendedNow(run[k].calls[i])
    ensures var log, c := run[k].w.log, run[k].calls[i];
            a < |log| && log[a].Hash() == c.pc.answer.hash && log[a].decision == c.decision
    ensures var w := run[k].w;
            w.log[a] in w.store.resident <==>
              forall n :: 0 <= n < |w.store.segments| ==> w.log[a] !in w.store.segments[n]
    ensures var w := run[k].w; Linear(w.store, w.log) ==>
              && (w.log[a] in w.store.resident <==> |Flatten(w.store.segments)| <= a)
              && (w.log[a] !in w.store.resident ==> a + 1 + policy.hotWindow + 1 <= |w.log| + run[k].crowd)
  {
    hide *;
    a := AppendedInTheRun(policy, run, k, i);
    var w := run[k].w;
    RunKeepsInv(policy, run, k);
    PartitionOf(run[k]);
    ResidentIffUnsealed(w.store, w.log, w.log[a]);
    if Linear(w.store, w.log) {
      ResidentIsTheRest(w.store, w.log, a);
      if w.log[a] !in w.store.resident { SealedNeedsAWindow(policy, run, k, a); }
    }
  }

  lemma {:induction false} FlatIsSealed(segments: seq<seq<Record>>, r: Record) returns (n: nat)
    requires r in Flatten(segments)
    ensures n < |segments| && r in segments[n]
  {
    var last := |segments| - 1;
    if r in segments[last] { n := last; } else { n := FlatIsSealed(segments[..last], r); }
  }

  lemma ResidentIffUnsealed(st: Store, log: seq<Record>, r: Record)
    requires Partition(st, log) && r in log
    ensures r in st.resident <==> forall n :: 0 <= n < |st.segments| ==> r !in st.segments[n]
  {
    hide Flatten, NoRepeats;
    if r in Flatten(st.segments) { var n := FlatIsSealed(st.segments, r); }
    forall n | 0 <= n < |st.segments| && r in st.segments[n] ensures r in Flatten(st.segments) {
      SealedIsFlat(st.segments, n, r);
    }
  }

  /** A record that landed in the run and is archived has a window behind it. */
  lemma SealedNeedsAWindow(policy: Policy, run: seq<State>, k: nat, a: nat)
    requires Run(policy, run) && k < |run| && Linear(run[k].w.store, run[k].w.log)
    requires |run[0].w.log| <= a < |Flatten(run[k].w.store.segments)|
    ensures a + 1 + policy.hotWindow + 1 <= |run[k].w.log| + run[k].crowd
  {
    assert Linear(run[0].w.store, run[0].w.log) by { hide Linear; }
    RunGrows(policy, run, 0, k);
    RunKeepsWindow(policy, run, k);
    hide Run, Linear, BooksGrow, TxsGrow, CountsOk, Flatten;
    SealedSince(run[0].w, run[k].w, a);
  }

  /** And it can be reached: a transaction commits, one more append lands, two seals run, and only then does the
      acknowledgement arrive. The call answers that it appended the record now; the record is in a segment. Fewer
      records could not have landed behind it. */
  lemma AppendedNowCanBeArchived() returns (run: seq<State>)
    ensures run != [] && Run(TIGHT, run)
    ensures var s := Last(run);
            && |s.calls| > 0 && s.calls[0].pc == Returned(Landed(SECOND.Hash(), true, None))
            && s.w.store.segments == [[FIRST], [SECOND]] && SECOND !in s.w.store.resident
            && s.w.log == [FIRST, SECOND, THIRD] && Linear(s.w.store, s.w.log)
            && 1 + 1 + TIGHT.hotWindow + 1 == |s.w.log| + TIGHT.segmentSize
  {
    hide Run, Linear, Admits;
    run := CommittedUnacknowledged();
    run := UncontendedAppendLands(TIGHT, run, THIRD.decision);
    run := SealTwo(run);
    assert Last(run).calls[0].pc.tx == 0;
    run := TakeStep(TIGHT, run, Acknowledge(0));
  }

  /** The transaction is committed and its acknowledgement is still on the way. */
  lemma CommittedUnacknowledged() returns (run: seq<State>)
    ensures run != [] && Run(TIGHT, run) && Last(run).degraded == {} && |Last(run).calls| == 1
    ensures Last(run).calls[0].pc == Waiting(FIRST.Hash(), 0) && !Last(run).calls[0].once
    ensures var w := Last(run).w;
            && w.log == [FIRST, SECOND] && Linear(w.store, w.log) && w.txs == [Tx(0, 0, SECOND, 1, Committed)]
            && w.store.resident == {FIRST, SECOND} && w.store.segments == []
            && w.store.books.identity.Keys == {FIRST.Id(), SECOND.Id()}
  {
    hide Run, Linear, Inv;
    var s := FreshChain(FIRST, FIRST.prev);
    run := [s];
    assert Run(TIGHT, run) && Linear(s.w.store, s.w.log) by { StartsARun(s); }
    run := CallSends(TIGHT, run, SECOND.decision);
    var w := Last(run).w;
    RunKeepsInv(TIGHT, run, |run| - 1);
    FreeIdIsAdmitted(Last(run), SECOND);
    InsertOntoHead(w.store, w.log, SECOND);
    run := TakeStep(TIGHT, run, Decide(0));
  }
}
