/**
  What each answer a call reads leads to, over every run: which rows end it and how, what a moved head costs,
  and that whoever loses a race tries again.
*/
module AppendSteps {
  import opened Wrappers
  import opened Chain
  import opened ChainLaws
  import opened Append
  import opened AppendSeals
  import opened AppendSafety
  import opened AppendLaws
  import opened AppendFork

  /** Step `k` of the run is `step`. */
  ghost predicate Takes(policy: Policy, run: seq<State>, k: nat, step: Step) {
    Run(policy, run) && k + 1 < |run| && Enabled(policy, run[k], step) && run[k + 1] == Do(policy, run[k], step)
  }

  // ----- The head read again

  /** The head did not move: the store's error was the last word. It moved with fewer than eleven losses behind the
      call: the loss is recorded and the call tries again, from its check. It moved for the twelfth time: the call
      gives up. */
  lemma AMovedHeadIsRetried(policy: Policy, run: seq<State>, k: nat, i: nat, head: Hash)
    requires Takes(policy, run, k, Reread(i, head))
    ensures i < |run[k].calls| && i < |run[k + 1].calls| && run[k].calls[i].pc.Rereading?
    ensures var c, c' := run[k].calls[i], run[k + 1].calls[i];
            && |c.lost| < 12 && c'.decision == c.decision && c'.gate == c.gate && c'.once == c.once
            && (head == c.pc.parent ==> c'.pc == Returned(Refused(StoreFailed)) && c'.lost == c.lost)
            && (head != c.pc.parent ==> c'.lost == c.lost + [c.seen] && c'.attempt == |c.lost| + 1)
            && (head != c.pc.parent && |c.lost| < 11 ==> c'.pc == if c.gate == Backstopped then Checking else Reading)
            && (head != c.pc.parent && |c.lost| == 11 ==> c'.pc == Returned(Refused(LostEveryAttempt)))
  {
    CallCount(policy, run, k, i);
    hide Run, HeadIs;
  }

  lemma CallCount(policy: Policy, run: seq<State>, k: nat, i: nat)
    requires Run(policy, run) && k < |run| && i < |run[k].calls|
    ensures |run[k].calls[i].lost| == run[k].calls[i].attempt <= 12
    ensures run[k].calls[i].attempt == 12 ==> run[k].calls[i].pc == Returned(Refused(LostEveryAttempt))
    ensures run[k].calls[i].pc == Returned(Refused(LostEveryAttempt)) ==> run[k].calls[i].attempt == 12
  {
    hide *;
    CallOf(policy, run, k, i);
    CountOf(run[k].w, i, run[k].calls[i]);
  }

  lemma CountOf(w: World, i: nat, c: Call)
    requires CallOk(w, i, c)
    ensures |c.lost| == c.attempt <= 12 && (c.attempt == 12 <==> c.pc == Returned(Refused(LostEveryAttempt)))
  {
    AttemptsBounded(w, i, c);
    AttemptsMatch(w, i, c);
    if c.pc == Returned(Refused(LostEveryAttempt)) { GaveUpAfterAll(w, i, c); }
    hide LostOk, PcOk;
  }

  /** A call answers that it lost every attempt exactly when it has lost twelve. */
  lemma GivesUpExactlyAtTwelve(policy: Policy, run: seq<State>, k: nat, i: nat)
    requires Run(policy, run) && k < |run| && i < |run[k].calls|
    ensures run[k].calls[i].pc == Returned(Refused(LostEveryAttempt)) <==> |run[k].calls[i].lost| == 12
  {
    CallCount(policy, run, k, i);
  }

  /** Only a read that failed, or a head that answered the call's own parent, ends a call with the store's error. */
  lemma StoreFailedMeans(policy: Policy, run: seq<State>, k: nat, step: Step, i: nat)
    requires Takes(policy, run, k, step) && i < |run[k + 1].calls|
    requires run[k + 1].calls[i].pc == Returned(Refused(StoreFailed))
    requires i < |run[k].calls| ==> run[k].calls[i].pc != Returned(Refused(StoreFailed))
    ensures i < |run[k].calls|
    ensures step == FailRead(i) || (run[k].calls[i].pc.Rereading? && step == Reread(i, run[k].calls[i].pc.parent))
  {
    hide Run, Orders, HeadIs, Admits, Insert, SealRun;
  }

  // ----- The rows

  /** What the chain says of an id: spent twice in its history, held by this very decision, by another one, or
      by none. */
  ghost predicate SpentBy(w: World, d: Decision, a: nat) {
    && d.id !in w.store.books.collisions && a < |w.log| && w.log[a].decision == d
    && forall b :: 0 <= b < |w.log| && w.log[b].Id() == d.id ==> b == a
  }

  ghost predicate SpentByAnother(w: World, d: Decision) {
    && d.id !in w.store.books.collisions
    && exists a :: 0 <= a < |w.log| && w.log[a].Id() == d.id && w.log[a].decision != d
  }

  ghost predicate Unspent(w: World, d: Decision) {
    d.id !in w.store.books.collisions && forall a :: 0 <= a < |w.log| ==> w.log[a].Id() != d.id
  }

  /** The rows a call reads are the chain's word on its id. */
  lemma RowsSpeakForTheChain(st: Store, log: seq<Record>, txs: seq<Tx>, d: Decision)
    requires Covered(st, log)
    ensures var w := World(st, log, txs);
            && (d.id in st.books.collisions || d.id !in st.books.identity <==>
                d.id in st.books.collisions || Unspent(w, d))
            && (d.id !in st.books.collisions && d.id in st.books.identity ==>
                  var row := st.books.identity[d.id];
                  if row.digest == Digest(d) then exists a: nat :: SpentBy(w, d, a) && log[a].Hash() == row.hash
                  else SpentByAnother(w, d))
  {
    hide Partition;
    if d.id in st.books.identity && d.id !in st.books.collisions {
      assert Vouched(st, log, d.id);
      var a :| 0 <= a < |log| && log[a].Id() == d.id && Names(st.books.identity[d.id], st, log[a]);
      if st.books.identity[d.id].digest == Digest(d) { assert SpentBy(World(st, log, txs), d, a); }
    }
  }

  /** How a call ends on the rows of its id, whichever read it was: an id history spent twice is ambiguous, one that
      another decision holds is reused, and one that holds this very decision is a success under its hash; a call
      that must say where the record is asks that next. */
  ghost predicate EndsOnRows(w: World, c: Call, pc: Pc) {
    && (c.decision.id in w.store.books.collisions <==> pc == Returned(Refused(Ambiguous)))
    && (SpentByAnother(w, c.decision) <==> pc == Returned(Refused(Reused)))
    && forall a: nat :: SpentBy(w, c.decision, a) ==>
         pc == if c.once then LookingUp(w.log[a].Hash()) else Returned(Landed(w.log[a].Hash(), false, None))
  }

  /** A node whose verdict is incomplete ends every append on the id's rows, and refuses an id the chain does not hold
      as unproven. */
  lemma RowsDecideADegradedAppend(policy: Policy, run: seq<State>, k: nat, i: nat)
    requires Takes(policy, run, k, CheckRows(i))
    ensures i < |run[k].calls| && i < |run[k + 1].calls|
    ensures EndsOnRows(run[k].w, run[k].calls[i], run[k + 1].calls[i].pc)
    ensures Unspent(run[k].w, run[k].calls[i].decision) <==> run[k + 1].calls[i].pc == Returned(Refused(Unproven))
  {
    CoveredAt(policy, run, k);
    hide Run, Covered, SpentBy, SpentByAnother, Unspent;
    RowsEnd(run[k].w, run[k].calls[i]);
  }

  /** And after a failed send: the same ends, but an id the chain does not hold yet sends the call back to the head. */
  lemma RowsDecideAFailedSend(policy: Policy, run: seq<State>, k: nat, i: nat)
    requires Takes(policy, run, k, Classify(i))
    ensures i < |run[k].calls| && i < |run[k + 1].calls| && run[k].calls[i].pc.Classifying?
    ensures EndsOnRows(run[k].w, run[k].calls[i], run[k + 1].calls[i].pc)
    ensures Unspent(run[k].w, run[k].calls[i].decision) <==>
            run[k + 1].calls[i].pc == Rereading(run[k].calls[i].pc.parent)
  {
    CoveredAt(policy, run, k);
    hide Run, Covered, SpentBy, SpentByAnother, Unspent;
    RowsEnd(run[k].w, run[k].calls[i]);
  }

  lemma RowsEnd(w: World, c: Call)
    requires Covered(w.store, w.log)
    ensures c.pc.CheckingRows? ==> var pc := ReadRowsToCheck(c, w.store.books).pc;
              EndsOnRows(w, c, pc) && (Unspent(w, c.decision) <==> pc == Returned(Refused(Unproven)))
    ensures c.pc.Classifying? ==> var pc := ReadRowsToClassify(c, w.store.books).pc;
              EndsOnRows(w, c, pc) && (Unspent(w, c.decision) <==> pc == Rereading(c.pc.parent))
  {
    RowsSpeakForTheChain(w.store, w.log, w.txs, c.decision);
    assert w == World(w.store, w.log, w.txs);
    RowsExclude(w, c.decision);
    assert Unspent(w, c.decision) ==> c.decision.id !in w.store.books.collisions;
    assert SpentByAnother(w, c.decision) ==> c.decision.id !in w.store.books.collisions;
    assert forall a: nat :: SpentBy(w, c.decision, a) ==> c.decision.id !in w.store.books.collisions;
    hide Covered, Unspent, SpentBy, SpentByAnother;
  }

  lemma RowsExclude(w: World, d: Decision)
    ensures forall a: nat :: SpentBy(w, d, a) ==> !SpentByAnother(w, d) && !Unspent(w, d)
    ensures SpentByAnother(w, d) ==> !Unspent(w, d)
    ensures forall a: nat, b: nat :: SpentBy(w, d, a) && SpentBy(w, d, b) ==> a == b
  {}

  lemma CoveredAt(policy: Policy, run: seq<State>, k: nat)
    requires Run(policy, run) && k < |run|
    ensures Covered(run[k].w.store, run[k].w.log)
  {
    hide *;
    RunKeepsInv(policy, run, k);
    CoveredNow(run[k]);
  }

  // ----- Where the record is

  /** What a call is told about a record it did not append now: the segment that holds it, and none exactly when it
      is still resident. */
  lemma LookUpSaysWhere(policy: Policy, run: seq<State>, k: nat, i: nat) returns (a: nat)
    requires Takes(policy, run, k, LookUp(i))
    ensures i < |run[k].calls| && i < |run[k + 1].calls| && run[k].calls[i].pc.LookingUp?
    ensures var w, c, pc := run[k].w, run[k].calls[i], run[k + 1].calls[i].pc;
            && a < |w.log| && w.log[a].decision == c.decision && w.log[a].Hash() == c.pc.hash
            && pc.Returned? && pc.answer.Landed? && pc.answer.hash == c.pc.hash && !pc.answer.appendedNow
            && (pc.answer.sealedIn == None <==> w.log[a] in w.store.resident)
            && (pc.answer.sealedIn.Some? ==> pc.answer.sealedIn.value < |w.store.segments| &&
                                             w.log[a] in w.store.segments[pc.answer.sealedIn.value])
  {
    hide *;
    LookUpIs(policy, run, k, i);
    CallOf(policy, run, k, i);
    CoveredAt(policy, run, k);
    a := FoundSaysWhere(run[k].w, i, run[k].calls[i]);
  }

  lemma LookUpIs(policy: Policy, run: seq<State>, k: nat, i: nat)
    requires Takes(policy, run, k, LookUp(i))
    ensures Run(policy, run) && k < |run| && i < |run[k].calls| && i < |run[k + 1].calls| &&
            run[k].calls[i].pc.LookingUp?
    ensures run[k + 1].calls[i] == FoundAt(run[k].calls[i], run[k].w.store.books)
  {
    hide Run, FoundAt;
  }

  lemma FoundSaysWhere(w: World, i: nat, c: Call) returns (a: nat)
    requires CallOk(w, i, c) && c.pc.LookingUp? && Covered(w.store, w.log)
    ensures a < |w.log| && w.log[a].decision == c.decision && w.log[a].Hash() == c.pc.hash
    ensures var pc := FoundAt(c, w.store.books).pc;
            && pc.Returned? && pc.answer.Landed? && pc.answer.hash == c.pc.hash && !pc.answer.appendedNow
            && (pc.answer.sealedIn == None <==> w.log[a] in w.store.resident)
            && (pc.answer.sealedIn.Some? ==> pc.answer.sealedIn.value < |w.store.segments| &&
                                             w.log[a] in w.store.segments[pc.answer.sealedIn.value])
  {
    assert Holds(w.store.books, c.decision, c.pc.hash) by { hide LostOk, Covered; }
    hide CallOk, Partition;
    assert Vouched(w.store, w.log, c.decision.id);
    var row := w.store.books.identity[c.decision.id];
    a :| 0 <= a < |w.log| && w.log[a].Id() == c.decision.id && Names(row, w.store, w.log[a]);
    NamedWhere(w.store, w.log, row, w.log[a]);
  }

  lemma NamedWhere(st: Store, log: seq<Record>, row: Copy, r: Record)
    requires Partition(st, log) && Names(row, st, r)
    ensures row.segment == None <==> r in st.resident
  {
    hide NoRepeats, Flatten;
    if row.segment.Some? { SealedIsFlat(st.segments, row.segment.value, r); }
  }

  // ----- How a call begins, checks and is acknowledged

  /** The genesis append goes straight to the head; any other needs an id and a handle not opened for repair. */
  lemma ACallBegins(policy: Policy, run: seq<State>, k: nat, d: Decision, node: nat, gate: Gate, once: bool,
                    repair: bool)
    requires Takes(policy, run, k, Invoke(d, node, gate, once, repair))
    ensures |run[k + 1].calls| == |run[k].calls| + 1 && run[k + 1].calls[..|run[k].calls|] == run[k].calls
    ensures var c := run[k + 1].calls[|run[k].calls|];
            && c.decision == d && c.node == node && c.gate == gate && c.once == once && c.lost == []
            && (gate == Ungated <==> c.pc == Reading)
            && (gate == Backstopped && d.id == "" <==> c.pc == Returned(Refused(NoId)))
            && (gate == Backstopped && d.id != "" && repair <==> c.pc == Returned(Refused(RepairHandle)))
            && (gate == Backstopped && d.id != "" && !repair <==> c.pc == Checking)
  {
    hide Run;
  }

  /** A complete verdict lets the call read the head; an incomplete one sends it to its rows. */
  lemma TheVerdictDecides(policy: Policy, run: seq<State>, k: nat, i: nat)
    requires Takes(policy, run, k, Check(i))
    ensures i < |run[k].calls| && i < |run[k + 1].calls|
    ensures run[k + 1].calls[i].pc == if run[k].calls[i].node in run[k].degraded then CheckingRows else Reading
  {
    hide Run;
  }

  /** An acknowledgement is a success of the call's own, under the hash of the record it sent. */
  lemma AnAcknowledgementLands(policy: Policy, run: seq<State>, k: nat, i: nat)
    requires Takes(policy, run, k, Acknowledge(i))
    ensures i < |run[k].calls| && i < |run[k + 1].calls| && run[k].calls[i].pc.Waiting?
    ensures run[k].calls[i].pc.tx < |run[k].w.txs|
    ensures run[k + 1].calls[i].pc == Returned(Landed(run[k].w.txs[run[k].calls[i].pc.tx].record.Hash(), true, None))
  {
    hide Run;
  }

  /** The record a call sends holds its own decision and names the head it read. */
  lemma ASentRecordIsItsOwn(policy: Policy, run: seq<State>, k: nat, i: nat)
    requires Takes(policy, run, k, Send(i))
    ensures i < |run[k].calls| && run[k].calls[i].pc.Sending?
    ensures var c, tx := run[k].calls[i], |run[k].w.txs|;
            && |run[k + 1].w.txs| == tx + 1 && run[k + 1].calls[i].pc == Waiting(c.pc.parent, tx)
            && run[k + 1].w.txs[tx].record == Record(c.pc.parent, c.decision)
            && run[k + 1].w.txs[tx].status == InFlight && run[k + 1].w.txs[tx].owner == i
  {
    hide Run;
  }
}
