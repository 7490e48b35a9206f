/**
  What every run of the append protocol keeps: the invariant, and that each step keeps it.
*/
module AppendSafety {
  import opened Wrappers
  import opened Chain
  import opened ChainLaws
  import opened Append
  import opened AppendSeals

  // ----- The invariant

  /** The identity tables name `hash`, and only `hash`, for exactly this decision. */
  ghost predicate Holds(books: Books, d: Decision, hash: Hash) {
    && d.id in books.identity && d.id !in books.collisions
    && books.identity[d.id].hash == hash && books.identity[d.id].digest == Digest(d)
  }

  /** The tables are one list, or they have forked for good. */
  ghost predicate ChainOk(st: Store, log: seq<Record>) {
    && Covered(st, log) && Rooted(st, log)
    && (Linear(st, log) || Forked(st))
  }

  predicate Sent(pc: Pc) {
    !pc.Checking? && !pc.CheckingRows? && !pc.Reading? && !pc.Sending?
  }

  /** The parent a try stands on is the head it read, and that read came after every lost attempt. */
  ghost predicate ParentOk(w: World, c: Call, parent: Hash) {
    && c.began <= c.seen <= |w.log|
    && parent == Tip(w.store.genesis, w.log, c.seen)
    && (c.lost != [] ==> c.lost[|c.lost| - 1] < c.seen)
    && (c.gate == Backstopped ==> c.attempt in c.cleared)
  }

  /** The record at `at` landed during the call and claimed the head that stood there before it. */
  ghost predicate Charged(w: World, c: Call, at: nat) {
    c.began <= at < |w.log| && w.log[at].prev == Tip(w.store.genesis, w.log, at)
  }

  /** The first `count` charges are to other decisions' records. */
  ghost predicate OthersOnly(w: World, c: Call, count: int) {
    forall k :: 0 <= k < count && k < |c.lost| && c.lost[k] < |w.log| ==> w.log[c.lost[k]].Id() != c.decision.id
  }

  ghost predicate LostOk(w: World, c: Call) {
    && |c.lost| == c.attempt
    && (forall k :: 0 <= k < |c.lost| ==> Charged(w, c, c.lost[k]))
    && (forall j, k :: 0 <= j < k < |c.lost| ==> c.lost[j] < c.lost[k])
    && OthersOnly(w, c, |c.lost| - 1)
  }

  /** `t` is a transaction of call `i`, and it committed the record `hash`. */
  ghost predicate OwnCommit(w: World, i: nat, t: nat, hash: Hash) {
    t < |w.txs| && w.txs[t].owner == i && w.txs[t].status == Committed && w.txs[t].record.Hash() == hash
  }

  ghost predicate SealedThere(st: Store, sealedIn: Option<nat>, hash: Hash) {
    sealedIn.Some? ==>
      sealedIn.value < |st.segments| && exists r :: r in st.segments[sealedIn.value] && r.Hash() == hash
  }

  ghost predicate AnswerOk(w: World, i: nat, c: Call, answer: Return) {
    match answer
    case Landed(hash, now, sealedIn) =>
      && Holds(w.store.books, c.decision, hash)
      && (now ==> exists t :: OwnCommit(w, i, t, hash))
      && SealedThere(w.store, sealedIn, hash)
    case Refused(why) => why == LostEveryAttempt ==> c.attempt == APPEND_ATTEMPTS
  }

  ghost predicate PcOk(w: World, i: nat, c: Call) {
    match c.pc
    case Checking => c.gate == Backstopped
    case CheckingRows => c.gate == Backstopped
    case Reading => c.gate == Backstopped ==> c.attempt in c.cleared
    case Sending(parent) => ParentOk(w, c, parent)
    case Waiting(parent, t) => ParentOk(w, c, parent) && t < |w.txs| && w.txs[t].owner == i
    case Classifying(parent) => ParentOk(w, c, parent)
    case Rereading(parent) => ParentOk(w, c, parent) && OthersOnly(w, c, |c.lost|)
    case LookingUp(hash) => Holds(w.store.books, c.decision, hash)
    case Returned(answer) => AnswerOk(w, i, c, answer)
  }

  ghost predicate CallOk(w: World, i: nat, c: Call) {
    && c.began <= |w.log| && LostOk(w, c) && PcOk(w, i, c)
    && (c.attempt < APPEND_ATTEMPTS || c.pc == Returned(Refused(LostEveryAttempt)))
  }

  ghost predicate TxOk(w: World, tx: Tx, c: Call) {
    && tx.record.decision == c.decision
    && c.began <= tx.seen <= |w.log| && tx.record.prev == Tip(w.store.genesis, w.log, tx.seen)
    && (c.gate == Backstopped ==> tx.attempt in c.cleared)
    && (if tx.attempt < |c.lost| then tx.seen == c.lost[tx.attempt]
        else tx.attempt == c.attempt && tx.seen == c.seen && Sent(c.pc))
    && (tx.status == Committed ==> Holds(w.store.books, tx.record.decision, tx.record.Hash()))
  }

  ghost predicate CallsOk(w: World, calls: seq<Call>) {
    forall i :: 0 <= i < |calls| ==> CallOk(w, i, calls[i])
  }

  ghost predicate TxsOk(w: World, calls: seq<Call>) {
    forall t :: 0 <= t < |w.txs| ==> w.txs[t].owner < |calls| && TxOk(w, w.txs[t], calls[w.txs[t].owner])
  }

  /** No two commits of the run spent one id. */
  ghost predicate CommitsDiffer(txs: seq<Tx>) {
    forall t, u :: 0 <= t < u < |txs| && txs[t].status == Committed && txs[u].status == Committed ==>
      txs[t].record.Id() != txs[u].record.Id()
  }

  ghost predicate Inv(s: State) {
    && ChainOk(s.w.store, s.w.log) && CallsOk(s.w, s.calls) && TxsOk(s.w, s.calls) && CommitsDiffer(s.w.txs)
  }

  // ----- What every step leaves standing

  ghost predicate BooksGrow(a: Books, b: Books) {
    && a.collisions == b.collisions
    && forall id :: id in a.identity ==>
         && id in b.identity
         && b.identity[id].hash == a.identity[id].hash && b.identity[id].digest == a.identity[id].digest
  }

  ghost predicate TxsGrow(a: seq<Tx>, b: seq<Tx>) {
    && |a| <= |b|
    && forall t :: 0 <= t < |a| ==>
         b[t] == a[t] || (a[t].status == InFlight && b[t] == a[t].(status := b[t].status))
  }

  /** Nothing that was committed, answered or recorded is taken back. */
  ghost predicate Grows(w: World, w': World) {
    && w.log <= w'.log
    && w'.store.genesis == w.store.genesis
    && w.store.segments <= w'.store.segments
    && BooksGrow(w.store.books, w'.store.books)
    && TxsGrow(w.txs, w'.txs)
  }

  lemma LostStands(w: World, w': World, c: Call)
    requires Grows(w, w') && LostOk(w, c)
    ensures LostOk(w', c)
    ensures OthersOnly(w, c, |c.lost|) ==> OthersOnly(w', c, |c.lost|)
  {
    hide BooksGrow, TxsGrow;
    forall k | 0 <= k < |c.lost| ensures Charged(w', c, c.lost[k]) && w'.log[c.lost[k]] == w.log[c.lost[k]] {
      assert Charged(w, c, c.lost[k]);
    }
  }

  lemma AnswerStands(w: World, w': World, i: nat, c: Call, answer: Return)
    requires Grows(w, w') && AnswerOk(w, i, c, answer)
    ensures AnswerOk(w', i, c, answer)
  {
    if answer.Landed? {
      if answer.appendedNow {
        var t :| OwnCommit(w, i, t, answer.hash);
        assert OwnCommit(w', i, t, answer.hash);
      }
      if answer.sealedIn.Some? {
        assert w'.store.segments[answer.sealedIn.value] == w.store.segments[answer.sealedIn.value];
      }
    }
  }

  lemma CallStands(w: World, w': World, i: nat, c: Call)
    requires Grows(w, w') && CallOk(w, i, c)
    ensures CallOk(w', i, c)
  {
    hide LostOk, AnswerOk;
    LostStands(w, w', c);
    if c.pc.Returned? { AnswerStands(w, w', i, c, c.pc.answer); }
  }

  /** How a call may move while its transactions keep what is said of them. */
  ghost predicate CallMoves(c: Call, c': Call) {
    && c'.decision == c.decision && c'.gate == c.gate && c'.began == c.began && c.cleared <= c'.cleared
    && if c'.attempt == c.attempt then c'.lost == c.lost && (Sent(c.pc) ==> Sent(c'.pc) && c'.seen == c.seen)
       else Sent(c.pc) && c'.attempt == c.attempt + 1 && c'.lost == c.lost + [c.seen]
  }

  lemma TxStands(w: World, w': World, tx: Tx, c: Call, c': Call)
    requires Grows(w, w') && TxOk(w, tx, c) && CallMoves(c, c') && |c.lost| == c.attempt
    ensures TxOk(w', tx, c')
  {
    hide TxsGrow;
  }

  /** The invariant survives a step of the calls over a store that only grew. */
  lemma StepFrame(s: State, s': State)
    requires Inv(s) && Grows(s.w, s'.w)
    requires ChainOk(s'.w.store, s'.w.log) && CommitsDiffer(s'.w.txs)
    requires |s.calls| <= |s'.calls|
    requires forall i :: 0 <= i < |s'.calls| ==>
               if i < |s.calls| && s'.calls[i] == s.calls[i] then true else CallOk(s'.w, i, s'.calls[i])
    requires forall i :: 0 <= i < |s.calls| ==> CallMoves(s.calls[i], s'.calls[i])
    requires forall t :: 0 <= t < |s'.w.txs| ==>
               if t < |s.w.txs| && s'.w.txs[t] == s.w.txs[t] then true
               else s'.w.txs[t].owner < |s'.calls| && TxOk(s'.w, s'.w.txs[t], s'.calls[s'.w.txs[t].owner])
    ensures Inv(s')
  {
    hide ChainOk, CommitsDiffer, Grows, CallMoves, TxOk, PcOk;
    forall i | 0 <= i < |s'.calls| ensures CallOk(s'.w, i, s'.calls[i]) {
      if i < |s.calls| && s'.calls[i] == s.calls[i] { CallStands(s.w, s'.w, i, s.calls[i]); }
    }
    forall t | 0 <= t < |s'.w.txs|
      ensures s'.w.txs[t].owner < |s'.calls| && TxOk(s'.w, s'.w.txs[t], s'.calls[s'.w.txs[t].owner])
    {
      if t < |s.w.txs| && s'.w.txs[t] == s.w.txs[t] {
        var i := s.w.txs[t].owner;
        assert CallOk(s.w, i, s.calls[i]);
        TxStands(s.w, s'.w, s.w.txs[t], s.calls[i], s'.calls[i]);
      }
    }
  }

  lemma CallMovesNot(c: Call)
    ensures CallMoves(c, c)
  {}

  /** One call moved, the store did not. */
  lemma MoveFrame(s: State, i: nat, c': Call)
    requires Inv(s) && i < |s.calls| && CallOk(s.w, i, c') && CallMoves(s.calls[i], c')
    ensures Inv(WithCall(s, i, c'))
  {
    hide ChainOk, CommitsDiffer, CallOk, TxOk, CallMoves, Inv, TxsGrow;
    forall j | 0 <= j < |s.calls| ensures CallMoves(s.calls[j], s.calls[i := c'][j]) {
      CallMovesNot(s.calls[j]);
    }
    assert Grows(s.w, s.w) by { GrowsNot(s.w); }
    assert ChainOk(s.w.store, s.w.log) && CommitsDiffer(s.w.txs) by { InvParts(s); }
    StepFrame(s, WithCall(s, i, c'));
  }

  lemma GrowsNot(w: World)
    ensures Grows(w, w)
  {}

  lemma InvParts(s: State)
    requires Inv(s)
    ensures ChainOk(s.w.store, s.w.log) && CommitsDiffer(s.w.txs)
    ensures forall i :: 0 <= i < |s.calls| ==> CallOk(s.w, i, s.calls[i])
  {
    hide ChainOk, CommitsDiffer, CallOk, TxOk;
  }

  // ----- The store's steps

  lemma TipIsKnown(st: Store, log: seq<Record>, k: nat)
    requires k <= |log|
    ensures Known(st, log, Tip(st.genesis, log, k))
  {
    if k > 0 { assert log[k - 1] in log; }
  }

  lemma InsertKeepsChain(st: Store, log: seq<Record>, r: Record)
    requires ChainOk(st, log) && Known(st, log, r.prev) && Admits(st, r)
    ensures ChainOk(Insert(st, r), log + [r])
  {
    hide Covered, Rooted, Linear, Forked, Known, Admits, Insert, Stale;
    InsertKeepsCoverage(st, log, r);
    InsertKeepsRooted(st, log, r);
    if Forked(st) {
      InsertKeepsFork(st, log, r);
    } else {
      AdmittedOntoHeadOrStale(st, log, r);
      if Stale(st, r.prev) {
        InsertOntoStale(st, log, r);
      } else {
        InsertOntoHead(st, log, r);
      }
    }
  }

  lemma DecideGrows(w: World, t: nat)
    requires t < |w.txs| && w.txs[t].status == InFlight
    ensures Grows(w, DecideTx(w, t))
  {}

  lemma DecideKeepsTx(w: World, t: nat, c: Call)
    requires t < |w.txs| && w.txs[t].status == InFlight && TxOk(w, w.txs[t], c)
    requires Covered(w.store, w.log)
    ensures TxOk(DecideTx(w, t), DecideTx(w, t).txs[t], c)
  {
    hide Partition, Sent;
  }

  lemma DecideKeepsCommits(w: World, t: nat)
    requires t < |w.txs| && w.txs[t].status == InFlight && CommitsDiffer(w.txs)
    requires forall u :: 0 <= u < |w.txs| && w.txs[u].status == Committed ==>
               w.txs[u].record.Id() in w.store.books.identity
    ensures CommitsDiffer(DecideTx(w, t).txs)
  {}

  lemma CommittedIdsHaveRows(s: State)
    requires Inv(s)
    ensures forall u :: 0 <= u < |s.w.txs| && s.w.txs[u].status == Committed ==>
              s.w.txs[u].record.Id() in s.w.store.books.identity
  {
    hide ChainOk, CommitsDiffer, CallOk;
  }

  lemma DecideKeepsChain(w: World, t: nat)
    requires t < |w.txs| && ChainOk(w.store, w.log) && Known(w.store, w.log, w.txs[t].record.prev)
    ensures ChainOk(DecideTx(w, t).store, DecideTx(w, t).log)
  {
    hide ChainOk, Known;
    if Admits(w.store, w.txs[t].record) { InsertKeepsChain(w.store, w.log, w.txs[t].record); }
  }

  lemma DecideKeepsInv(s: State, t: nat)
    requires Inv(s) && t < |s.w.txs| && s.w.txs[t].status == InFlight
    ensures Inv(s.(w := DecideTx(s.w, t))) && Grows(s.w, DecideTx(s.w, t))
  {
    var c := s.calls[s.w.txs[t].owner];
    CommittedIdsHaveRows(s);
    InvParts(s);
    DecidedTx(s, t);
    hide *;
    TipIsKnown(s.w.store, s.w.log, s.w.txs[t].seen);
    DecideKeepsChain(s.w, t);
    DecideKeepsCommits(s.w, t);
    DecideKeepsTx(s.w, t, c);
    DecideGrows(s.w, t);
    forall j | 0 <= j < |s.calls| ensures CallMoves(s.calls[j], s.calls[j]) { CallMovesNot(s.calls[j]); }
    DecideTouches(s.w, t);
    StepFrame(s, s.(w := DecideTx(s.w, t)));
  }

  lemma DecideTouches(w: World, t: nat)
    requires t < |w.txs|
    ensures var txs := DecideTx(w, t).txs;
            && |txs| == |w.txs| && txs[t].owner == w.txs[t].owner
            && forall u :: 0 <= u < |txs| && u != t ==> txs[u] == w.txs[u]
  {
    hide Admits, Insert;
  }

  lemma DecidedTx(s: State, t: nat)
    requires Inv(s) && t < |s.w.txs|
    ensures var tx := s.w.txs[t];
            && tx.owner < |s.calls| && TxOk(s.w, tx, s.calls[tx.owner]) && Covered(s.w.store, s.w.log)
            && tx.seen <= |s.w.log| && tx.record.prev == Tip(s.w.store.genesis, s.w.log, tx.seen)
  {
    hide Covered, CallsOk, CommitsDiffer, Rooted, Linear, Forked, Holds, Sent;
  }

  lemma AccountingGrows(books: Books, run: seq<Record>, segment: nat)
    requires Accountable(books, run)
    ensures BooksGrow(books, AccountAll(books, run, segment))
  {
    AccountingOnlyStamps(books, run, segment);
    hide Accountable, AccountAll;
  }

  lemma OldestParts(st: Store, run: seq<Record>)
    requires Oldest(st, run)
    ensures NoRepeats(run) && forall r :: r in run ==> r in st.resident
  {
    hide LinkedFrom, NoRepeats, Root;
  }

  lemma SealGrows(w: World, run: seq<Record>)
    requires Covered(w.store, w.log) && Oldest(w.store, run)
    ensures Grows(w, w.(store := SealRun(w.store, run)))
  {
    hide Covered, Oldest, Accountable, AccountAll, BooksGrow;
    OldestParts(w.store, run);
    CoveredIsAccountable(w.store, w.log, run);
    AccountingGrows(w.store.books, run, |w.store.segments|);
  }

  lemma SealKeepsChain(st: Store, log: seq<Record>, run: seq<Record>)
    requires ChainOk(st, log) && Oldest(st, run)
    ensures ChainOk(SealRun(st, run), log)
  {
    hide Covered, Linear, Rooted, Oldest, Forked;
    OldestParts(st, run);
    SealKeepsCoverage(st, log, run);
    SealKeepsRooted(st, log, run);
    if Linear(st, log) { SealKeepsLinear(st, log, run); } else { SealKeepsFork(st, run); }
  }

  lemma SealKeepsRooted(st: Store, log: seq<Record>, run: seq<Record>)
    requires Rooted(st, log)
    ensures Rooted(SealRun(st, run), log)
  {
    forall k | 0 <= k < |log| ensures Known(SealRun(st, run), log[..k], log[k].prev) {
      assert Known(st, log[..k], log[k].prev);
    }
  }

  lemma CommitKeepsInv(policy: Policy, s: State, n: nat)
    requires Inv(s) && policy.Valid() && n < |s.sealers| && s.sealers[n].Holding? &&
             SealerOk(policy, s.w.store, s.sealers[n])
    ensures Inv(CommitSeal(s, n)) && Grows(s.w, CommitSeal(s, n).w)
  {
    var run := s.sealers[n].run;
    InvParts(s);
    GrowsNot(s.w);
    assert Covered(s.w.store, s.w.log) by { hide Covered, Rooted, Linear, Forked; }
    assert Partition(s.w.store, s.w.log);
    hide TxOk, ChainOk, CommitsDiffer, CallOk, Grows, Covered, CallMoves, Oldest, SealRun, Flatten, SealedIn;
    hide Inv, SealerOk, KeyTaken, Partition;
    RefusedIffOvertaken(policy, s.w.store, s.w.log, s.sealers[n]);
    if !KeyTaken(s.w.store, s.sealers[n]) {
      SealKeepsChain(s.w.store, s.w.log, run);
      SealGrows(s.w, run);
      forall j | 0 <= j < |s.calls| ensures CallMoves(s.calls[j], s.calls[j]) { CallMovesNot(s.calls[j]); }
      StepFrame(s, CommitSeal(s, n));
    }
  }

  // ----- The calls' steps

  /** The call at `i` as the invariant leaves it to the step that moves it. */
  lemma TheCall(s: State, i: nat)
    requires Inv(s) && i < |s.calls|
    ensures CallOk(s.w, i, s.calls[i])
  {
    hide ChainOk, CommitsDiffer, CallOk, TxsOk;
  }

  lemma VerdictMoves(w: World, i: nat, c: Call, complete: bool)
    requires CallOk(w, i, c) && c.pc.Checking?
    ensures var c' := ReadVerdict(c, complete); CallOk(w, i, c') && CallMoves(c, c')
  {}

  lemma CheckRowsMoves(w: World, i: nat, c: Call)
    requires CallOk(w, i, c) && c.pc.CheckingRows?
    ensures var c' := ReadRowsToCheck(c, w.store.books); CallOk(w, i, c') && CallMoves(c, c')
  {}

  /** A head that answered is the end of the one list. */
  lemma HeadIsTip(w: World, head: Hash)
    requires ChainOk(w.store, w.log) && HeadIs(w.store, head)
    ensures LinkedFrom(w.store.genesis, w.log) && head == Tip(w.store.genesis, w.log, |w.log|)
    ensures Linear(w.store, w.log)
  {
    hide Covered, Rooted, Linear, Forked, HeadIs;
    if Forked(w.store) { ForkStopsTheChain(w.store, head, []); }
    LinearHead(w.store, w.log, head);
    LinearIsLinked(w.store, w.log);
  }

  lemma LinearIsLinked(st: Store, log: seq<Record>)
    requires Linear(st, log)
    ensures LinkedFrom(st.genesis, log)
  {
    hide LinkedFrom;
  }

  lemma ReadHeadMoves(w: World, i: nat, c: Call, head: Hash)
    requires CallOk(w, i, c) && c.pc.Reading? && head == Tip(w.store.genesis, w.log, |w.log|)
    ensures var c' := c.(pc := Sending(head), seen := |w.log|); CallOk(w, i, c') && CallMoves(c, c')
  {
    if c.lost != [] { assert Charged(w, c, c.lost[|c.lost| - 1]); }
  }

  lemma SendMoves(w: World, i: nat, c: Call)
    requires CallOk(w, i, c) && c.pc.Sending?
    ensures Grows(w, SendTx(w, i, c))
    ensures var c' := c.(pc := Waiting(c.pc.parent, |w.txs|));
            && CallMoves(c, c') && CallOk(SendTx(w, i, c), i, c')
            && TxOk(SendTx(w, i, c), SendTx(w, i, c).txs[|w.txs|], c')
  {
    assert Grows(w, SendTx(w, i, c));
    LostStands(w, SendTx(w, i, c), c);
  }

  lemma AckMoves(w: World, i: nat, c: Call)
    requires CallOk(w, i, c) && c.pc.Waiting? && w.txs[c.pc.tx].status == Committed && TxOk(w, w.txs[c.pc.tx], c)
    ensures var c' := c.(pc := Land(c, w.txs[c.pc.tx].record.Hash(), true)); CallOk(w, i, c') && CallMoves(c, c')
  {
    assert OwnCommit(w, i, c.pc.tx, w.txs[c.pc.tx].record.Hash());
  }

  lemma LoseAckMoves(w: World, i: nat, c: Call)
    requires CallOk(w, i, c) && c.pc.Waiting?
    ensures var c' := c.(pc := Classifying(c.pc.parent)); CallOk(w, i, c') && CallMoves(c, c')
  {}

  /** Without a row the id is nowhere in the chain, so every charge so far is another decision's. */
  lemma NoRowNoRecord(w: World, c: Call)
    requires Covered(w.store, w.log) && c.decision.id !in w.store.books.identity
    ensures OthersOnly(w, c, |c.lost|)
  {
    hide Partition;
  }

  lemma LostOkStays(w: World, c: Call, c': Call)
    requires LostOk(w, c) && c' == c.(pc := c'.pc)
    ensures LostOk(w, c')
    ensures forall parent :: ParentOk(w, c, parent) ==> ParentOk(w, c', parent)
    ensures forall count :: OthersOnly(w, c, count) ==> OthersOnly(w, c', count)
  {}

  lemma ClassifyMoves(w: World, i: nat, c: Call)
    requires CallOk(w, i, c) && c.pc.Classifying? && Covered(w.store, w.log)
    ensures var c' := ReadRowsToClassify(c, w.store.books); CallOk(w, i, c') && CallMoves(c, c')
  {
    hide Covered, LostOk, ParentOk, Charged;
    if c.decision.id !in w.store.books.identity { NoRowNoRecord(w, c); }
    hide OthersOnly;
    LostOkStays(w, c, ReadRowsToClassify(c, w.store.books));
  }

  /** The head moved off the parent this try read, so the record that took its place landed since. */
  lemma LostTryIsCharged(w: World, c: Call, head: Hash)
    requires LinkedFrom(w.store.genesis, w.log) && head == Tip(w.store.genesis, w.log, |w.log|)
    requires c.pc.Rereading? && ParentOk(w, c, c.pc.parent) && head != c.pc.parent
    ensures Charged(w, c, c.seen)
  {
    assert w.log[c.seen].prev == Tip(w.store.genesis, w.log, c.seen);
  }

  /** One more charge, later than every charge before it, to a record no earlier try was charged to. */
  lemma OneMoreCharge(w: World, c: Call, c': Call)
    requires c.pc.Rereading? && ParentOk(w, c, c.pc.parent) && Charged(w, c, c.seen)
    requires LostOk(w, c) && OthersOnly(w, c, |c.lost|) && c'.began == c.began && c'.decision == c.decision
    requires c'.attempt == c.attempt + 1 && c'.lost == c.lost + [c.seen]
    ensures LostOk(w, c')
  {
    forall k | 0 <= k < |c'.lost| ensures Charged(w, c', c'.lost[k]) {
      assert k < |c.lost| ==> Charged(w, c, c.lost[k]);
    }
    forall j, k | 0 <= j < k < |c'.lost| ensures c'.lost[j] < c'.lost[k] {
      assert k < |c.lost| || c.lost[j] <= c.lost[|c.lost| - 1] < c.seen;
    }
  }

  lemma RereadMoves(w: World, i: nat, c: Call, head: Hash)
    requires CallOk(w, i, c) && c.pc.Rereading?
    requires LinkedFrom(w.store.genesis, w.log) && head == Tip(w.store.genesis, w.log, |w.log|)
    ensures var c' := ReadHeadAgain(c, head); CallOk(w, i, c') && CallMoves(c, c')
  {
    hide LinkedFrom, LostOk, OthersOnly, Charged;
    if head != c.pc.parent {
      LostTryIsCharged(w, c, head);
      OneMoreCharge(w, c, ReadHeadAgain(c, head));
    } else {
      SamePlace(w, c, ReadHeadAgain(c, head));
    }
  }

  lemma SamePlace(w: World, c: Call, c': Call)
    requires LostOk(w, c) && c' == c.(pc := c'.pc)
    ensures LostOk(w, c')
  {}

  lemma LookUpMoves(w: World, i: nat, c: Call)
    requires CallOk(w, i, c) && c.pc.LookingUp? && Covered(w.store, w.log)
    ensures var c' := FoundAt(c, w.store.books); CallOk(w, i, c') && CallMoves(c, c')
  {
    assert Vouched(w.store, w.log, c.decision.id);
    hide Partition;
  }

  lemma FailMoves(w: World, i: nat, c: Call)
    requires CallOk(w, i, c) && ReadsStore(c.pc)
    ensures var c' := c.(pc := Returned(Refused(StoreFailed))); CallOk(w, i, c') && CallMoves(c, c')
  {}

  lemma SentIsUndecided(w: World, i: nat, c: Call)
    requires c.pc.Sending? && CommitsDiffer(w.txs)
    ensures CommitsDiffer(SendTx(w, i, c).txs)
  {}

  lemma SendKeepsInv(s: State, i: nat)
    requires Inv(s) && i < |s.calls| && s.calls[i].pc.Sending?
    ensures var c := s.calls[i]; var c' := c.(pc := Waiting(c.pc.parent, |s.w.txs|));
            Inv(WithCall(s, i, c').(w := SendTx(s.w, i, c))) && Grows(s.w, SendTx(s.w, i, c))
  {
    var c := s.calls[i];
    var c' := c.(pc := Waiting(c.pc.parent, |s.w.txs|));
    hide TxOk, ChainOk, CommitsDiffer, CallOk, Grows, CallMoves, Inv;
    TheCall(s, i);
    InvParts(s);
    SendMoves(s.w, i, c);
    SentIsUndecided(s.w, i, c);
    forall j | 0 <= j < |s.calls| ensures CallMoves(s.calls[j], s.calls[i := c'][j]) { CallMovesNot(s.calls[j]); }
    StepFrame(s, WithCall(s, i, c').(w := SendTx(s.w, i, c)));
  }

  lemma AckKeepsInv(s: State, i: nat)
    requires Inv(s) && i < |s.calls| && s.calls[i].pc.Waiting? && s.calls[i].pc.tx < |s.w.txs|
    requires s.w.txs[s.calls[i].pc.tx].status == Committed
    ensures Inv(WithCall(s, i, s.calls[i].(pc := Land(s.calls[i], s.w.txs[s.calls[i].pc.tx].record.Hash(), true))))
  {
    var c := s.calls[i];
    TheCall(s, i);
    assert TxOk(s.w, s.w.txs[c.pc.tx], c);
    AckMoves(s.w, i, c);
    hide Inv, CallOk, CallMoves, TxOk;
    MoveFrame(s, i, c.(pc := Land(c, s.w.txs[c.pc.tx].record.Hash(), true)));
  }

  lemma FreshCallOk(w: World, i: nat, c: Call)
    requires c.began == |w.log| && c.attempt == 0 && c.lost == [] && PcOk(w, i, c)
    ensures CallOk(w, i, c)
  {}

  lemma InvokeKeepsInv(s: State, c: Call)
    requires Inv(s) && c.began == |s.w.log| && c.attempt == 0 && c.lost == []
    requires PcOk(s.w, |s.calls|, c)
    ensures Inv(s.(calls := s.calls + [c]))
  {
    var s' := s.(calls := s.calls + [c]);
    hide TxOk, ChainOk, CommitsDiffer, CallOk, Grows, CallMoves, Inv, PcOk;
    FreshCallOk(s.w, |s.calls|, c);
    InvParts(s);
    GrowsNot(s.w);
    forall j | 0 <= j < |s.calls| ensures CallMoves(s.calls[j], s'.calls[j]) { CallMovesNot(s.calls[j]); }
    StepFrame(s, s');
  }

  /** A step of one call that leaves the store alone. */
  lemma CallStepKeepsInv(policy: Policy, s: State, step: Step)
    requires Inv(s) && Enabled(policy, s, step)
    requires step.Check? || step.CheckRows? || step.ReadHead? || step.LoseAcknowledgement? ||
             step.Classify? || step.Reread? || step.LookUp? || step.FailRead?
    ensures Inv(Do(policy, s, step)) && Do(policy, s, step).w == s.w
  {
    var i := step.i;
    var c, c' := s.calls[i], Do(policy, s, step).calls[i];
    TheCall(s, i);
    InvParts(s);
    assert Covered(s.w.store, s.w.log);
    hide Inv, CallOk, CallMoves, Covered, ChainOk, HeadIs, Linear;
    match step {
      case Check(_) => VerdictMoves(s.w, i, c, c.node !in s.degraded);
      case CheckRows(_) => CheckRowsMoves(s.w, i, c);
      case ReadHead(_, head) => HeadIsTip(s.w, head); ReadHeadMoves(s.w, i, c, head);
      case LoseAcknowledgement(_) => LoseAckMoves(s.w, i, c);
      case Classify(_) => ClassifyMoves(s.w, i, c);
      case Reread(_, head) => HeadIsTip(s.w, head); RereadMoves(s.w, i, c, head);
      case LookUp(_) => LookUpMoves(s.w, i, c);
      case FailRead(_) => FailMoves(s.w, i, c);
    }
    MoveFrame(s, i, c');
  }

  lemma DegradeKeepsInv(s: State, degraded: set<nat>)
    requires Inv(s)
    ensures Inv(s.(degraded := degraded))
  {
    hide ChainOk, CommitsDiffer, CallsOk, TxsOk;
  }

  lemma SealerMovesKeepInv(s: State, sealers: seq<Sealer>)
    requires Inv(s)
    ensures Inv(s.(sealers := sealers))
  {
    hide ChainOk, CommitsDiffer, CallsOk, TxsOk;
  }

  lemma PartitionOf(s: State)
    requires Inv(s)
    ensures Partition(s.w.store, s.w.log)
  {
    hide Partition, Rooted, Linear, Forked, CallsOk, TxsOk, CommitsDiffer;
  }

  lemma CommitKeepsSealers(policy: Policy, s: State, n: nat)
    requires Inv(s) && policy.Valid() && SealersOk(policy, s.w.store, s.sealers) && n < |s.sealers| &&
             s.sealers[n].Holding?
    ensures SealersOk(policy, CommitSeal(s, n).w.store, CommitSeal(s, n).sealers)
  {
    PartitionOf(s);
    assert SealerOk(policy, s.w.store, s.sealers[n]);
    assert |s.sealers[n].run| == policy.segmentSize;
    hide *;
    RefusedIffOvertaken(policy, s.w.store, s.w.log, s.sealers[n]);
    CommitSealIs(s, n);
    if !KeyTaken(s.w.store, s.sealers[n]) { SealKeepsSealers(policy, s.w.store, s.sealers, s.sealers[n].run); }
  }

  lemma CommitSealIs(s: State, n: nat)
    requires n < |s.sealers| && s.sealers[n].Holding?
    ensures CommitSeal(s, n).sealers == s.sealers
    ensures CommitSeal(s, n).w.store ==
            if KeyTaken(s.w.store, s.sealers[n]) then s.w.store else SealRun(s.w.store, s.sealers[n].run)
  {
    hide KeyTaken, SealRun, SealedIn;
  }

  /** The sealers' part of the invariant. */
  lemma StepKeepsSealers(policy: Policy, s: State, step: Step)
    requires Inv(s) && policy.Valid() && SealersOk(policy, s.w.store, s.sealers) && Enabled(policy, s, step)
    ensures SealersOk(policy, Do(policy, s, step).w.store, Do(policy, s, step).sealers)
  {
    var st := s.w.store;
    hide Inv, Orders, HeadIs, Admits, Insert, CommitSeal, ParentsDiffer, SealerOk;
    match step {
      case Decide(t) => if Admits(st, s.w.txs[t].record) {
        InsertKeepsSealers(policy, st, s.w.txs[t].record, s.sealers);
      }
      case ReadRun(n, order) => ReadRunKeepsSealers(policy, st, s.sealers, n, order);
      case ReadSegments(n) => ReadSegmentsKeepsSealers(policy, st, s.sealers, n);
      case CommitRun(n) => CommitKeepsSealers(policy, s, n);
      case CountRows => assert SealerOk(policy, st, Counted(|st.segments|)) by { CountIsSealer(policy, st); }
      case _ =>
    }
  }

  lemma CountIsSealer(policy: Policy, st: Store)
    ensures SealerOk(policy, st, Counted(|st.segments|))
  {}

  // ----- The run

  lemma StepKeepsInv(policy: Policy, s: State, step: Step)
    requires Inv(s) && policy.Valid() && SealersOk(policy, s.w.store, s.sealers) && Enabled(policy, s, step)
    ensures Inv(Do(policy, s, step)) && Grows(s.w, Do(policy, s, step).w)
  {
    GrowsNot(s.w);
    hide Inv, Grows, Orders, PcOk, HeadIs, CommitSeal, ParentsDiffer, SealerOk;
    match step {
      case Invoke(d, node, gate, once, repair) =>
        var c := Enter(d, node, gate, once, repair, |s.w.log|);
        assert PcOk(s.w, |s.calls|, c) by { EnterOk(s.w, |s.calls|, d, node, gate, once, repair); }
        InvokeKeepsInv(s, c);
      case Send(i) => SendKeepsInv(s, i);
      case Decide(t) => DecideKeepsInv(s, t);
      case Acknowledge(i) => AckKeepsInv(s, i);
      case CountRows => SealerMovesKeepInv(s, Do(policy, s, step).sealers);
      case ReadRun(_, _) => SealerMovesKeepInv(s, Do(policy, s, step).sealers);
      case ReadSegments(_) => SealerMovesKeepInv(s, Do(policy, s, step).sealers);
      case CommitRun(n) => CommitKeepsInv(policy, s, n);
      case DegradeVerdict(node) => DegradeKeepsInv(s, s.degraded + {node});
      case _ => CallStepKeepsInv(policy, s, step);
    }
  }

  lemma EnterOk(w: World, i: nat, d: Decision, node: nat, gate: Gate, once: bool, repair: bool)
    ensures PcOk(w, i, Enter(d, node, gate, once, repair, |w.log|))
  {}

  /** The step a run took to reach its state `k`. */
  lemma StepOf(policy: Policy, run: seq<State>, k: nat) returns (step: Step)
    requires Run(policy, run) && 0 < k < |run|
    ensures Enabled(policy, run[k - 1], step) && run[k] == Do(policy, run[k - 1], step)
  {
    hide Init, Enabled, Do;
    assert Next(policy, run[k - 1], run[k - 1 + 1]);
    step :| Enabled(policy, run[k - 1], step) && run[k] == Do(policy, run[k - 1], step);
  }

  lemma RunIsValid(policy: Policy, run: seq<State>)
    requires Run(policy, run)
    ensures policy.Valid()
  {
    hide Init, Next;
  }

  lemma {:induction false} RunKeepsInv(policy: Policy, run: seq<State>, k: nat)
    requires Run(policy, run) && k < |run|
    ensures Inv(run[k]) && SealersOk(policy, run[k].w.store, run[k].sealers)
  {
    if k == 0 {
      InitHasInv(policy, run[0]);
    } else {
      hide Inv, Run, Grows, Enabled, Do, SealersOk;
      RunIsValid(policy, run);
      RunKeepsInv(policy, run, k - 1);
      var step := StepOf(policy, run, k);
      StepKeepsInv(policy, run[k - 1], step);
      StepKeepsSealers(policy, run[k - 1], step);
    }
  }

  lemma InitHasInv(policy: Policy, s: State)
    requires Init(s)
    ensures Inv(s) && SealersOk(policy, s.w.store, s.sealers)
  {
    hide Linear, Rooted, Covered;
    LinearParentsDiffer(s.w.store, s.w.log);
  }

  lemma GrowsOn(a: World, b: World, c: World)
    requires Grows(a, b) && Grows(b, c)
    ensures Grows(a, c)
  {
    assert forall t :: 0 <= t < |a.txs| ==> (b.txs[t] == a.txs[t] || a.txs[t].status == InFlight);
  }

  lemma {:induction false} RunGrows(policy: Policy, run: seq<State>, j: nat, k: nat)
    requires Run(policy, run) && j <= k < |run|
    ensures Grows(run[j].w, run[k].w)
  {
    hide Inv, Run, Grows, Enabled, Do, SealersOk;
    RunIsValid(policy, run);
    if j == k {
      GrowsNot(run[j].w);
    } else {
      RunGrows(policy, run, j, k - 1);
      RunKeepsInv(policy, run, k - 1);
      var step := StepOf(policy, run, k);
      StepKeepsInv(policy, run[k - 1], step);
      GrowsOn(run[j].w, run[k - 1].w, run[k].w);
    }
  }
}
