/**
  When the resident parent index keeps the chain one list, and when it does not.

  The unique index over `prev_hash` ranges over resident rows, and a seal deletes rows. A transaction
  whose parent's child was sealed away while it was in flight therefore meets no rival claim. The laws
  here say exactly when that happens, how far the chain must have moved first, and what it leads to.
*/
module AppendFork {
  import opened Wrappers
  import opened Chain
  import opened ChainLaws
  import opened Append
  import opened AppendSeals
  import opened AppendSafety
  import opened AppendLaws

  // ----- The exact condition

  /** The store decides an admitted transaction: the chain stays one list if the parent is still guarded,
      that is, the root or the hash of a resident record, and forks if it is not. */
  lemma CommitKeepsTheChainIff(policy: Policy, run: seq<State>, k: nat, t: nat)
    requires Run(policy, run) && k < |run| && Linear(run[k].w.store, run[k].w.log)
    requires t < |run[k].w.txs| && Admits(run[k].w.store, run[k].w.txs[t].record)
    ensures var w, w' := run[k].w, DecideTx(run[k].w, t);
            && (Guarded(w.store, w.txs[t].record.prev) <==> Linear(w'.store, w'.log))
            && (Guarded(w.store, w.txs[t].record.prev) <==> !Forked(w'.store))
            && (Guarded(w.store, w.txs[t].record.prev) <==>
               w.txs[t].record.prev == Tip(w.store.genesis, w.log, |w.log|))
  {
    var w, r := run[k].w, run[k].w.txs[t].record;
    RunKeepsInv(policy, run, k);
    TxKnown(run[k], t);
    assert ChainOk(w.store, w.log) by { hide ChainOk, Run; }
    hide Run, Inv, Covered, Rooted, Linear, Known, Guarded, Forked, Stale, SealersOk;
    AdmittedCommit(w.store, w.log, r);
  }

  lemma TxKnown(s: State, t: nat)
    requires Inv(s) && t < |s.w.txs|
    ensures var tx := s.w.txs[t];
            && Known(s.w.store, s.w.log, tx.record.prev)
            && tx.seen <= |s.w.log| && tx.record.prev == Tip(s.w.store.genesis, s.w.log, tx.seen)
            && tx.owner < |s.calls| && s.calls[tx.owner].began <= tx.seen
  {
    hide ChainOk, CommitsDiffer, CallsOk;
    assert TxOk(s.w, s.w.txs[t], s.calls[s.w.txs[t].owner]);
    TipIsKnown(s.w.store, s.w.log, s.w.txs[t].seen);
  }

  lemma AdmittedCommit(st: Store, log: seq<Record>, r: Record)
    requires Linear(st, log) && Covered(st, log) && Rooted(st, log) && Admits(st, r) && Known(st, log, r.prev)
    ensures Guarded(st, r.prev) <==> Linear(Insert(st, r), log + [r])
    ensures Guarded(st, r.prev) <==> !Forked(Insert(st, r))
    ensures Guarded(st, r.prev) <==> r.prev == Tip(st.genesis, log, |log|)
  {
    StaleIsUnguarded(st, log, r.prev);
    TipIsGuarded(st, log);
    hide Covered, Rooted, Linear, Known, Guarded, Forked, Stale;
    AdmittedOntoHeadOrStale(st, log, r);
    if Stale(st, r.prev) {
      InsertOntoStale(st, log, r);
      if Linear(Insert(st, r), log + [r]) { LinearHead(Insert(st, r), log + [r], r.prev); }
    } else {
      InsertOntoHead(st, log, r);
      LinearHead(Insert(st, r), log + [r], r.prev);
    }
  }

  lemma TipIsGuarded(st: Store, log: seq<Record>)
    requires Linear(st, log)
    ensures Guarded(st, Tip(st.genesis, log, |log|))
  {
    var n := |Flatten(st.segments)|;
    LinearOrders(st, log);
    if n < |log| {
      assert log[n..][|log| - 1 - n] == log[|log| - 1];
      assert log[|log| - 1] in st.resident;
    }
  }

  /** The step wrote a record onto a parent the chain no longer guards. */
  ghost predicate StaleCommit(s: State, s': State) {
    |s.w.log| < |s'.w.log| && !Guarded(s.w.store, s'.w.log[|s.w.log|].prev)
  }

  lemma StepKeepsTheChainIff(policy: Policy, run: seq<State>, k: nat)
    requires Run(policy, run) && k + 1 < |run| && Linear(run[k].w.store, run[k].w.log)
    ensures Linear(run[k + 1].w.store, run[k + 1].w.log) <==> !StaleCommit(run[k], run[k + 1])
  {
    var s := run[k];
    hide Run, Linear, Orders, Guarded, HeadIs, Forked, Admits, Insert, SealRun, Enabled, Do, SealersOk;
    var step := StepOf(policy, run, k + 1);
    if step.Decide? && Admits(s.w.store, s.w.txs[step.t].record) {
      DecideIs(policy, s, step.t);
      CommitKeepsTheChainIff(policy, run, k, step.t);
    } else if step.CommitRun? {
      RunKeepsInv(policy, run, k);
      RunIsValid(policy, run);
      SealIsNoCommit(policy, s, step.n);
      if run[k + 1].w != s.w { SealKeepsLinear(s.w.store, s.w.log, s.sealers[step.n].run); }
    } else {
      OtherStepsKeepTables(policy, s, step);
    }
  }

  /** A seal's transaction leaves the log alone, and what it archives is the oldest run, or nothing. */
  lemma SealIsNoCommit(policy: Policy, s: State, n: nat)
    requires Inv(s) && policy.Valid() && SealersOk(policy, s.w.store, s.sealers) && Enabled(policy, s, CommitRun(n))
    ensures n < |s.sealers| && s.sealers[n].Holding?
    ensures var s' := Do(policy, s, CommitRun(n));
            && s'.w.log == s.w.log && s'.sealers == s.sealers
            && ((s'.w == s.w && s'.crowd == s.crowd) ||
                (!KeyTaken(s.w.store, s.sealers[n]) && s' == CommitSeal(s, n) &&
                 s'.w.store == SealRun(s.w.store, s.sealers[n].run) && Oldest(s.w.store, s.sealers[n].run)))
  {
    hide *;
    CommitRunIs(policy, s, n);
    PartitionOf(s);
    SealerAt(policy, s, n);
    RefusedIffOvertaken(policy, s.w.store, s.w.log, s.sealers[n]);
  }

  lemma SealerAt(policy: Policy, s: State, n: nat)
    requires SealersOk(policy, s.w.store, s.sealers) && n < |s.sealers|
    ensures SealerOk(policy, s.w.store, s.sealers[n])
  {
    hide SealerOk, ParentsDiffer;
  }

  lemma CommitRunIs(policy: Policy, s: State, n: nat)
    requires Enabled(policy, s, CommitRun(n))
    ensures n < |s.sealers| && s.sealers[n].Holding?
    ensures var s' := Do(policy, s, CommitRun(n));
            && s'.w.log == s.w.log && s'.sealers == s.sealers && s' == CommitSeal(s, n)
            && s'.w.store == (if KeyTaken(s.w.store, s.sealers[n]) then s.w.store
                               else SealRun(s.w.store, s.sealers[n].run))
            && (KeyTaken(s.w.store, s.sealers[n]) ==> s' == s)
  {
    hide KeyTaken, SealRun, SealedIn;
  }

  lemma OtherStepsKeepTables(policy: Policy, s: State, step: Step)
    requires Enabled(policy, s, step) && !step.CommitRun?
    requires step.Decide? ==> !Admits(s.w.store, s.w.txs[step.t].record)
    ensures Do(policy, s, step).w.store == s.w.store && Do(policy, s, step).w.log == s.w.log
  {
    hide HeadIs, Admits, Insert;
  }

  lemma StepKeepsFork(policy: Policy, s: State, step: Step)
    requires Inv(s) && policy.Valid() && SealersOk(policy, s.w.store, s.sealers) && Enabled(policy, s, step) &&
             Forked(s.w.store)
    ensures Forked(Do(policy, s, step).w.store)
  {
    hide Inv, Covered, Rooted, Forked, Orders, HeadIs, Insert, SealRun, Admits, Do, Enabled, Oldest, CommitSeal;
    if step.Decide? {
      ForkedParts(s);
      DecideIs(policy, s, step.t);
      if Admits(s.w.store, s.w.txs[step.t].record) { InsertKeepsFork(s.w.store, s.w.log, s.w.txs[step.t].record); }
    } else if step.CommitRun? {
      SealIsNoCommit(policy, s, step.n);
      if Do(policy, s, step).w != s.w { SealKeepsFork(s.w.store, s.sealers[step.n].run); }
    } else {
      OtherStepsKeepTables(policy, s, step);
    }
  }

  lemma ForkedParts(s: State)
    requires Inv(s)
    ensures Covered(s.w.store, s.w.log) && Rooted(s.w.store, s.w.log)
  {
    hide Covered, Rooted, Linear, Forked, CallsOk, TxsOk, CommitsDiffer;
  }

  /** A forked table never answers a head or an order again, and neither a commit nor a seal that read it before
      takes a head away, so what follows cannot mend it. */
  lemma ForkStays(policy: Policy, run: seq<State>, k: nat)
    requires Run(policy, run) && k + 1 < |run| && Forked(run[k].w.store)
    ensures Forked(run[k + 1].w.store)
  {
    hide Run, Inv, Forked, Enabled, Do, SealersOk;
    RunKeepsInv(policy, run, k);
    RunIsValid(policy, run);
    var step := StepOf(policy, run, k + 1);
    StepKeepsFork(policy, run[k], step);
  }

  ghost predicate NoStaleCommit(run: seq<State>, k: nat)
    requires k < |run|
  {
    forall m :: 0 <= m < k ==> !StaleCommit(run[m], run[m + 1])
  }

  /** At every point of every run the sealed and resident records are one hash-linked list from genesis
      exactly as long as no stale commit has happened; otherwise the resident table has two heads. */
  lemma {:induction false} OneListIffNoStaleCommit(policy: Policy, run: seq<State>, k: nat)
    requires Run(policy, run) && k < |run|
    ensures Linear(run[k].w.store, run[k].w.log) <==> NoStaleCommit(run, k)
    ensures Forked(run[k].w.store) <==> !NoStaleCommit(run, k)
  {
    var w := run[k].w;
    if k == 0 {
      hide Linear, Forked;
      LinearHead(w.store, w.log, w.store.genesis);
    } else {
      hide Linear, Forked, Run, Init, StaleCommit;
      OneListIffNoStaleCommit(policy, run, k - 1);
      assert NoStaleCommit(run, k) <==> NoStaleCommit(run, k - 1) && !StaleCommit(run[k - 1], run[k]) by {
        assert run[k - 1 + 1] == run[k];
      }
      if NoStaleCommit(run, k - 1) {
        StepKeepsTheChainIff(policy, run, k - 1);
      } else {
        ForkStays(policy, run, k - 1);
      }
      ListOrFork(policy, run, k);
    }
  }

  lemma ListOrFork(policy: Policy, run: seq<State>, k: nat)
    requires Run(policy, run) && k < |run|
    ensures Linear(run[k].w.store, run[k].w.log) <==> !Forked(run[k].w.store)
  {
    var w := run[k].w;
    RunKeepsInv(policy, run, k);
    hide Linear, Forked, Run, Covered, Rooted, CallsOk, TxsOk, CommitsDiffer;
    if Linear(w.store, w.log) { LinearHead(w.store, w.log, w.store.genesis); }
  }

  // ----- How far the chain must move first

  /** Whatever was sealed since the run began left a hot window's worth of records resident, but for what was
      sealed behind the back of the last sealer's count. */
  ghost predicate WindowKept(policy: Policy, base: nat, w: World, crowd: int) {
    && base <= |w.store.segments|
    && (base < |w.store.segments| && Linear(w.store, w.log) ==>
          |Flatten(w.store.segments)| + policy.hotWindow + 1 <= |w.log| + crowd)
  }

  /** When a sealer counted, more than a hot window's worth of records was resident. */
  ghost predicate CountedOk(policy: Policy, w: World, sealer: Sealer) {
    && sealer.from <= |w.store.segments|
    && (Linear(w.store, w.log) ==> SealedIn(w.store.segments, sealer.from) + policy.hotWindow + 1 <= |w.log|)
    && (!sealer.Counted? ==> sealer.from <= sealer.base && |sealer.run| == policy.segmentSize)
  }

  ghost predicate CountsOk(policy: Policy, s: State) {
    forall n :: 0 <= n < |s.sealers| ==> CountedOk(policy, s.w, s.sealers[n])
  }

  lemma {:induction false} SetOfList(rows: set<Record>, list: seq<Record>)
    requires forall r :: r in rows ==> r in list
    ensures |rows| <= |list|
    decreases |list|
  {
    if list == [] {
      assert rows == {};
    } else {
      var last, front := list[|list| - 1], list[..|list| - 1];
      assert list == front + [last];
      SetOfList(rows - {last}, front);
    }
  }

  lemma CountIsOk(policy: Policy, w: World)
    requires |w.store.resident| > policy.hotWindow
    ensures CountedOk(policy, w, Counted(|w.store.segments|))
  {
    if Linear(w.store, w.log) {
      var rest := LinearRest(w.store, w.log);
      SetOfList(w.store.resident, rest);
      assert w.store.segments[..|w.store.segments|] == w.store.segments;
    }
    hide Linear, Flatten;
  }

  lemma CountStands(policy: Policy, w: World, w': World, sealer: Sealer)
    requires CountedOk(policy, w, sealer) && w.store.segments <= w'.store.segments && w.log <= w'.log
    requires Linear(w'.store, w'.log) ==> Linear(w.store, w.log)
    ensures CountedOk(policy, w', sealer)
  {
    hide Linear, Flatten;
    assert w'.store.segments[..sealer.from] == w.store.segments[..sealer.from];
  }

  lemma SealKeepsWindow(policy: Policy, base: nat, s: State, n: nat)
    requires n < |s.sealers| && s.sealers[n].Holding? && !KeyTaken(s.w.store, s.sealers[n])
    requires CountedOk(policy, s.w, s.sealers[n]) && Linear(s.w.store, s.w.log) && base <= |s.w.store.segments|
    ensures WindowKept(policy, base, CommitSeal(s, n).w, CommitSeal(s, n).crowd)
  {
    hide Linear, Flatten, SealedIn, AccountAll;
  }

  lemma SealsGrow(policy: Policy, s: State, step: Step)
    requires Inv(s) && policy.Valid() && SealersOk(policy, s.w.store, s.sealers) && Enabled(policy, s, step)
    ensures var s' := Do(policy, s, step); s.w.store.segments <= s'.w.store.segments && s.w.log <= s'.w.log
  {
    StepKeepsInv(policy, s, step);
    hide BooksGrow, TxsGrow, Inv, Do, Enabled;
  }

  /** A step leaves every sealer that stood before it where it was, or lets it read the chain. */
  lemma SealersMove(policy: Policy, s: State, step: Step, n: nat)
    requires Enabled(policy, s, step) && n < |Do(policy, s, step).sealers|
    ensures var s' := Do(policy, s, step);
            || (n < |s.sealers| && s'.sealers[n] == s.sealers[n])
            || (n < |s.sealers| && s'.w == s.w && s.sealers[n].Counted? && policy.segmentSize < |step.order| &&
                s'.sealers[n] == Ordered(s.sealers[n].from, |s.w.store.segments|, step.order[..policy.segmentSize]))
            || (n < |s.sealers| && s'.w == s.w && s.sealers[n].Ordered? &&
                s'.sealers[n] == Holding(s.sealers[n].from, s.sealers[n].base, s.sealers[n].run, |s.w.store.segments|))
            || (n == |s.sealers| && s'.w == s.w && |s.w.store.resident| > policy.hotWindow &&
               s'.sealers[n] == Counted(|s.w.store.segments|))
  {
    hide Orders, HeadIs, Admits, Insert, SealRun, SealedIn, Flatten;
  }

  lemma StepKeepsCounts(policy: Policy, run: seq<State>, k: nat)
    requires Run(policy, run) && k + 1 < |run| && CountsOk(policy, run[k])
    ensures CountsOk(policy, run[k + 1])
  {
    hide Run, Forked, Linear, Enabled, Do, SealedIn, Inv, SealersOk;
    var s, s' := run[k], run[k + 1];
    var step := StepOf(policy, run, k + 1);
    RunKeepsInv(policy, run, k);
    RunIsValid(policy, run);
    SealsGrow(policy, s, step);
    LinearBefore(policy, run, k);
    forall n | 0 <= n < |s'.sealers| ensures CountedOk(policy, s'.w, s'.sealers[n]) {
      SealersMove(policy, s, step, n);
      if n < |s.sealers| { CountStands(policy, s.w, s'.w, s.sealers[n]); } else { CountIsOk(policy, s.w); }
    }
  }

  lemma LinearBefore(policy: Policy, run: seq<State>, k: nat)
    requires Run(policy, run) && k + 1 < |run|
    ensures Linear(run[k + 1].w.store, run[k + 1].w.log) ==> Linear(run[k].w.store, run[k].w.log)
  {
    hide Run, Forked, Linear;
    ListOrFork(policy, run, k);
    ListOrFork(policy, run, k + 1);
    if Forked(run[k].w.store) { ForkStays(policy, run, k); }
  }

  lemma OtherStepsKeepWindow(policy: Policy, base: nat, s: State, step: Step)
    requires Enabled(policy, s, step) && !step.CommitRun? && WindowKept(policy, base, s.w, s.crowd) &&
             Linear(s.w.store, s.w.log)
    ensures WindowKept(policy, base, Do(policy, s, step).w, Do(policy, s, step).crowd)
  {
    hide Linear, Orders, HeadIs, Admits, Flatten;
  }

  lemma ForkKeepsWindow(policy: Policy, base: nat, w: World, w': World, crowd: int, crowd': int)
    requires WindowKept(policy, base, w, crowd) && w.store.segments <= w'.store.segments && !Linear(w'.store, w'.log)
    ensures WindowKept(policy, base, w', crowd')
  {
    hide Linear;
  }

  lemma StepKeepsWindow(policy: Policy, base: nat, run: seq<State>, k: nat)
    requires Run(policy, run) && k + 1 < |run| && WindowKept(policy, base, run[k].w, run[k].crowd) &&
             CountsOk(policy, run[k])
    ensures WindowKept(policy, base, run[k + 1].w, run[k + 1].crowd)
  {
    hide Run, Forked, Linear, Enabled, Do, WindowKept, Inv, CommitSeal, CountedOk, Oldest, SealersOk;
    var s, s' := run[k], run[k + 1];
    var step := StepOf(policy, run, k + 1);
    RunKeepsInv(policy, run, k);
    RunIsValid(policy, run);
    SealsGrow(policy, s, step);
    LinearBefore(policy, run, k);
    if !Linear(s'.w.store, s'.w.log) {
      ForkKeepsWindow(policy, base, s.w, s'.w, s.crowd, s'.crowd);
    } else if step.CommitRun? {
      SealIsNoCommit(policy, s, step.n);
      assert base <= |s.w.store.segments| by { WindowBase(policy, base, s.w, s.crowd); }
      if s'.w != s.w || s'.crowd != s.crowd { SealKeepsWindow(policy, base, s, step.n); }
    } else {
      OtherStepsKeepWindow(policy, base, s, step);
    }
  }

  lemma WindowBase(policy: Policy, base: nat, w: World, crowd: int)
    requires WindowKept(policy, base, w, crowd)
    ensures base <= |w.store.segments|
  {
    hide Linear;
  }

  lemma {:induction false} RunKeepsWindow(policy: Policy, run: seq<State>, k: nat)
    requires Run(policy, run) && k < |run|
    ensures WindowKept(policy, |run[0].w.store.segments|, run[k].w, run[k].crowd) && CountsOk(policy, run[k])
  {
    if k == 0 {
      hide WindowKept, CountedOk;
      NothingSealedYet(policy, run[0].w, run[0].crowd);
    } else {
      hide Run, WindowKept, CountsOk;
      RunKeepsWindow(policy, run, k - 1);
      StepKeepsWindow(policy, |run[0].w.store.segments|, run, k - 1);
      StepKeepsCounts(policy, run, k - 1);
    }
  }

  lemma NothingSealedYet(policy: Policy, w: World, crowd: int)
    ensures WindowKept(policy, |w.store.segments|, w, crowd)
  {}

  /** Sealers race safely: a sealer's transaction is refused exactly when another seal came between its read of the
      chain and its commit, and otherwise it seals the run the chain begins with. */
  lemma ASealIsRefusedIffOvertaken(policy: Policy, run: seq<State>, k: nat, n: nat)
    requires Run(policy, run) && k < |run| && n < |run[k].sealers| && run[k].sealers[n].Holding?
    ensures KeyTaken(run[k].w.store, run[k].sealers[n]) <==> run[k].sealers[n].base < |run[k].w.store.segments|
    ensures !KeyTaken(run[k].w.store, run[k].sealers[n]) ==> Oldest(run[k].w.store, run[k].sealers[n].run)
  {
    var s := run[k];
    RunKeepsInv(policy, run, k);
    RunIsValid(policy, run);
    hide *;
    SealerAt(policy, s, n);
    PartitionOf(s);
    RefusedIffOvertaken(policy, s.w.store, s.w.log, s.sealers[n]);
  }

  /** A sealer nobody overtook between its count and its commit crowds out nothing but its own run. */
  lemma AloneASealerCrowdsNothing(policy: Policy, run: seq<State>, k: nat, n: nat)
    requires Run(policy, run) && k < |run| && n < |run[k].sealers| && run[k].sealers[n].Holding?
    requires run[k].sealers[n].from == |run[k].w.store.segments|
    ensures CommitSeal(run[k], n).crowd == policy.segmentSize
  {
    var s := run[k];
    RunKeepsWindow(policy, run, k);
    RunKeepsInv(policy, run, k);
    SealersAt(policy, s, n);
    hide *;
    ASealIsRefusedIffOvertaken(policy, run, k, n);
    CrowdOf(s, n);
  }

  lemma SealersAt(policy: Policy, s: State, n: nat)
    requires SealersOk(policy, s.w.store, s.sealers) && CountsOk(policy, s) && n < |s.sealers| && s.sealers[n].Holding?
    ensures s.sealers[n].from <= s.sealers[n].base <= |s.w.store.segments| && |s.sealers[n].run| == policy.segmentSize
  {
    hide Linear, Oldest, ParentsDiffer, SealedIn;
    assert SealerOk(policy, s.w.store, s.sealers[n]) && CountedOk(policy, s.w, s.sealers[n]);
  }

  lemma CrowdOf(s: State, n: nat)
    requires n < |s.sealers| && s.sealers[n].Holding? && !KeyTaken(s.w.store, s.sealers[n])
    requires s.sealers[n].from == |s.w.store.segments|
    ensures CommitSeal(s, n).crowd == |s.sealers[n].run|
  {
    hide Flatten, KeyTaken, AccountAll;
    SealedFlat(s.w.store, s.sealers[n].run);
    assert s.w.store.segments[..|s.w.store.segments|] == s.w.store.segments;
  }

  lemma LogGrows(policy: Policy, run: seq<State>, j: nat, k: nat)
    requires Run(policy, run) && j <= k < |run|
    ensures |run[j].w.log| <= |run[k].w.log|
  {
    hide Run;
    RunGrows(policy, run, j, k);
    hide BooksGrow, TxsGrow;
  }

  lemma NoCallsYet(policy: Policy, run: seq<State>)
    requires Run(policy, run)
    ensures run != [] && run[0].calls == []
  {
    hide Linear, Rooted, Covered, Next;
  }

  lemma {:induction false} CallsBeganInTheRun(policy: Policy, run: seq<State>, k: nat, i: nat)
    requires Run(policy, run) && k < |run| && i < |run[k].calls|
    ensures |run[0].w.log| <= run[k].calls[i].began
  {
    hide *;
    if k == 0 {
      NoCallsYet(policy, run);
    } else {
      var step := StepOf(policy, run, k);
      LogGrows(policy, run, 0, k - 1);
      if i < |run[k - 1].calls| { CallsBeganInTheRun(policy, run, k - 1, i); }
      StepKeepsBegan(policy, run[k - 1], step, |run[0].w.log|, i);
    }
  }

  lemma StepKeepsBegan(policy: Policy, s: State, step: Step, base: nat, i: nat)
    requires Enabled(policy, s, step) && base <= |s.w.log| && i < |Do(policy, s, step).calls|
    requires i < |s.calls| ==> base <= s.calls[i].began
    ensures base <= Do(policy, s, step).calls[i].began
  {
    hide Orders, HeadIs, Admits, Insert, SealRun;
  }

  /** A parent that is no longer guarded has its child in the sealed prefix. */
  lemma UnguardedIsSealedPast(st: Store, log: seq<Record>, seen: nat)
    requires Linear(st, log) && seen <= |log| && !Guarded(st, Tip(st.genesis, log, seen))
    ensures seen < |Flatten(st.segments)|
  {
    var sealed, h := Flatten(st.segments), Tip(st.genesis, log, seen);
    TipIsKnown(st, log, seen);
    StaleIsUnguarded(st, log, h);
    var r :| r in sealed && r.prev == h;
    var j :| 0 <= j < |sealed| && sealed[j] == r;
    assert log[j] == r && log[j].prev == Tip(st.genesis, log, j);
    TipsDiffer(st.genesis, log, j, seen);
  }

  lemma SealedSince(a: World, b: World, seen: nat)
    requires Linear(a.store, a.log) && a.store.segments <= b.store.segments
    requires |a.log| <= seen < |Flatten(b.store.segments)|
    ensures |a.store.segments| < |b.store.segments|
  {
    hide LinkedFrom;
    assert |a.store.segments| == |b.store.segments| ==> a.store.segments == b.store.segments;
  }

  /** A stale commit takes a transaction in flight while a hot window landed, less what the last sealer and those
      that overtook it sealed since its count: with sealers that do not overtake each other, and at the defaults,
      9002 records between the head read and the commit. */
  lemma StaleCommitNeedsAWindow(policy: Policy, run: seq<State>, k: nat, t: nat)
    requires Run(policy, run) && k < |run| && Linear(run[k].w.store, run[k].w.log)
    requires t < |run[k].w.txs| && !Guarded(run[k].w.store, run[k].w.txs[t].record.prev)
    ensures run[k].w.txs[t].seen + policy.hotWindow + 2 <= |run[k].w.log| + run[k].crowd
  {
    var w, tx := run[k].w, run[k].w.txs[t];
    assert Linear(run[0].w.store, run[0].w.log) by { hide Linear; }
    RunKeepsInv(policy, run, k);
    RunGrows(policy, run, 0, k);
    hide Run, Linear, Guarded, Inv, Known, BooksGrow, TxsGrow, CountsOk, Flatten;
    TxKnown(run[k], t);
    CallsBeganInTheRun(policy, run, k, tx.owner);
    RunKeepsWindow(policy, run, k);
    UnguardedIsSealedPast(w.store, w.log, tx.seen);
    SealedSince(run[0].w, w, tx.seen);
  }

  // ----- A run that gets there

  ghost function Last(run: seq<State>): State
    requires run != []
  {
    run[|run| - 1]
  }

  lemma TakeStep(policy: Policy, run: seq<State>, step: Step) returns (more: seq<State>)
    requires Run(policy, run) && Enabled(policy, Last(run), step)
    ensures Run(policy, more) && more == run + [Do(policy, Last(run), step)]
  {
    hide Init, Enabled, Do;
    more := run + [Do(policy, Last(run), step)];
    forall k | 0 <= k < |more| - 1 ensures Next(policy, more[k], more[k + 1]) {
      if k < |run| - 1 { assert Next(policy, run[k], run[k + 1]); }
    }
  }

  lemma RunHasAState(policy: Policy, run: seq<State>)
    requires Run(policy, run)
    ensures run != []
  {}

  /** A call on a node with a complete verdict reads the head of a linear chain and sends its record. */
  lemma CallSends(policy: Policy, run: seq<State>, d: Decision) returns (more: seq<State>)
    requires Run(policy, run) && Linear(Last(run).w.store, Last(run).w.log)
    requires 0 !in Last(run).degraded && d.id != ""
    ensures more != [] && Run(policy, more)
    ensures var s, s' := Last(run), Last(more);
            var r := Record(Tip(s.w.store.genesis, s.w.log, |s.w.log|), d);
            && s'.w == s.w.(txs := s.w.txs + [Tx(|s.calls|, 0, r, |s.w.log|, InFlight)])
            && s'.degraded == s.degraded && |s'.calls| == |s.calls| + 1 && s'.calls[..|s.calls|] == s.calls
            && s'.calls[|s.calls|] ==
               Call(d, 0, Backstopped, false, 0, Waiting(r.prev, |s.w.txs|), |s.w.log|, |s.w.log|, [], {0})
  {
    hide Run, Linear, HeadIs;
    RunHasAState(policy, run);
    var s := Last(run);
    var head := Tip(s.w.store.genesis, s.w.log, |s.w.log|);
    LinearHead(s.w.store, s.w.log, head);
    more := TakeStep(policy, run, Invoke(d, 0, Backstopped, false, false));
    more := TakeStep(policy, more, Check(|s.calls|));
    more := TakeStep(policy, more, ReadHead(|s.calls|, head));
    more := TakeStep(policy, more, Send(|s.calls|));
  }

  /** Left alone, an append of a free id lands in its first attempt, on the head it read. */
  lemma UncontendedAppendLands(policy: Policy, run: seq<State>, d: Decision) returns (more: seq<State>)
    requires Run(policy, run) && Linear(Last(run).w.store, Last(run).w.log)
    requires 0 !in Last(run).degraded && d.id != "" && d.id !in Last(run).w.store.books.identity
    ensures more != [] && Run(policy, more)
    ensures var s, s' := Last(run), Last(more);
            var r := Record(Tip(s.w.store.genesis, s.w.log, |s.w.log|), d);
            && s'.w.store == Insert(s.w.store, r) && s'.w.log == s.w.log + [r] && Linear(s'.w.store, s'.w.log)
            && s'.w.txs == s.w.txs + [Tx(|s.calls|, 0, r, |s.w.log|, Committed)]
            && s'.degraded == s.degraded && |s'.calls| == |s.calls| + 1 && s'.calls[..|s.calls|] == s.calls
            && s'.calls[|s.calls|].pc == Returned(Landed(r.Hash(), true, None))
  {
    var s := Last(run);
    var r := Record(Tip(s.w.store.genesis, s.w.log, |s.w.log|), d);
    RunKeepsInv(policy, run, |run| - 1);
    FreeIdIsAdmitted(s, r);
    hide *;
    var sent := CallSends(policy, run, d);
    more := CommitAndAnswer(policy, sent, |s.calls|, |s.w.txs|);
    LastChanged(s.w.txs, Tx(|s.calls|, 0, r, |s.w.log|, InFlight), Tx(|s.calls|, 0, r, |s.w.log|, Committed));
    FrontKept(s.calls, Last(sent).calls, Last(more).calls);
    InsertOntoHead(s.w.store, s.w.log, r);
  }

  lemma LastChanged<T>(front: seq<T>, a: T, b: T)
    ensures (front + [a])[|front| := b] == front + [b]
  {}

  lemma FrontKept<T>(front: seq<T>, a: seq<T>, b: seq<T>)
    requires |a| == |b| == |front| + 1 && a[..|front|] == front
    requires forall j :: 0 <= j < |a| && j != |front| ==> b[j] == a[j]
    ensures b[..|front|] == front
  {
    assert forall j :: 0 <= j < |front| ==> a[..|front|][j] == a[j];
  }

  /** The store decides a sent transaction it admits, and the acknowledgement arrives. */
  lemma CommitAndAnswer(policy: Policy, run: seq<State>, i: nat, t: nat) returns (more: seq<State>)
    requires run != [] && Run(policy, run) && i < |Last(run).calls| && t < |Last(run).w.txs|
    requires Last(run).calls[i].pc.Waiting? && Last(run).calls[i].pc.tx == t && Last(run).w.txs[t].status == InFlight
    requires Admits(Last(run).w.store, Last(run).w.txs[t].record)
    ensures more != [] && Run(policy, more)
    ensures var s, s' := Last(run), Last(more); var r := s.w.txs[t].record;
            && s'.w == World(Insert(s.w.store, r), s.w.log + [r], s.w.txs[t := s.w.txs[t].(status := Committed)])
            && s'.degraded == s.degraded && |s'.calls| == |s.calls| &&
               s'.calls[i].pc == Returned(Landed(r.Hash(), true, None))
            && forall j :: 0 <= j < |s.calls| && j != i ==> s'.calls[j] == s.calls[j]
  {
    hide Run, Admits, Insert;
    more := TakeStep(policy, run, Decide(t));
    more := TakeStep(policy, more, Acknowledge(i));
  }

  lemma HeadIsUnclaimed(st: Store, log: seq<Record>, q: Record)
    requires Linear(st, log) && q in st.resident
    ensures q in log && q.prev != Tip(st.genesis, log, |log|)
  {
    var n := |Flatten(st.segments)|;
    assert q in log[n..];
    var i :| 0 <= i < |log[n..]| && log[n..][i] == q;
    assert log[n + i] == q && q.prev == Tip(st.genesis, log, n + i);
    hide Linear;
    if q.prev == Tip(st.genesis, log, |log|) { TipsDiffer(st.genesis, log, n + i, |log|); }
  }

  lemma FreeIdIsAdmitted(s: State, r: Record)
    requires Inv(s) && Linear(s.w.store, s.w.log) && r.Id() !in s.w.store.books.identity
    requires r.prev == Tip(s.w.store.genesis, s.w.log, |s.w.log|)
    ensures Admits(s.w.store, r)
  {
    var st, log := s.w.store, s.w.log;
    assert forall k :: 0 <= k < |log| ==> log[k].Id() in st.books.identity by {
      hide Partition, Rooted, Linear, Forked, CallsOk, TxsOk, CommitsDiffer;
    }
    hide Inv, Linear, Flatten;
    forall q | q in st.resident ensures q.Id() != r.Id() && q.prev != r.prev { HeadIsUnclaimed(st, log, q); }
  }

  /** What the rest of a chain needs to know of a single-record start. */
  lemma FreshChain(first: Record, genesis: Hash) returns (s: State)
    requires genesis.Genesis? && first.prev == genesis
    ensures Init(s) && s.degraded == {} && s.w.log == [first]
    ensures s.w.store == Store(genesis, {first}, [],
            Books(map[first.Id() := Copy(Digest(first.decision), first.Hash(), None)], {}))
  {
    var books := Books(map[first.Id() := Copy(Digest(first.decision), first.Hash(), None)], {});
    var st := Store(genesis, {first}, [], books);
    var log := [first];
    assert Flatten(st.segments) == [];
    assert log[0..] == log;
    assert Linear(st, log);
    assert Rooted(st, log) by { assert log[..0] == []; }
    assert Covered(st, log) by {
      assert Names(books.identity[first.Id()], st, log[0]);
      assert Vouched(st, log, first.Id());
    }
    s := State(World(st, log, []), [], {}, [], 0);
  }

  function Named(id: string): Decision {
    Decision(id, Content("db.write", "system", None, Deny, "", "", 0))
  }

  /** The window smallest of all: one record resident before sealing starts, one record a segment. */
  const TIGHT: Policy := Policy(1, 1)

  const FIRST: Record := Record(Genesis("manifest"), Named("first"))
  const SECOND: Record := Record(FIRST.Hash(), Named("b"))
  const THIRD: Record := Record(SECOND.Hash(), Named("c"))
  const LATE: Record := Record(FIRST.Hash(), Named("late"))

  /** The late transaction is in flight, and two rivals have landed since it read the head. */
  lemma TwoRivalsLand() returns (run: seq<State>)
    ensures run != [] && Run(TIGHT, run)
    ensures var w := Last(run).w;
            && w.log == [FIRST, SECOND, THIRD] && Linear(w.store, w.log)
            && w.store.genesis == FIRST.prev && w.store.resident == {FIRST, SECOND, THIRD} && w.store.segments == []
            && w.store.books.identity.Keys == {FIRST.Id(), SECOND.Id(), THIRD.Id()}
            && |w.txs| == 3 && w.txs[0] == Tx(0, 0, LATE, 1, InFlight)
  {
    hide Run, Linear;
    var s := FreshChain(FIRST, FIRST.prev);
    run := [s];
    assert Run(TIGHT, run) && Linear(s.w.store, s.w.log) by { StartsARun(s); }
    run := CallSends(TIGHT, run, LATE.decision);
    assert Last(run).w.txs[0].record == LATE;
    run := UncontendedAppendLands(TIGHT, run, SECOND.decision);
    run := UncontendedAppendLands(TIGHT, run, THIRD.decision);
  }

  lemma StartsARun(s: State)
    requires Init(s)
    ensures Run(TIGHT, [s]) && Linear(s.w.store, s.w.log)
  {
    hide Linear, Rooted, Covered;
  }

  lemma RestCanBeSealed(st: Store, log: seq<Record>, order: seq<Record>)
    requires Linear(st, log) && order == log[|Flatten(st.segments)|..]
    ensures Orders(st, order)
  {
    hide Linear, Orders;
    LinearOrders(st, log);
  }

  lemma CoveredAtTheEnd(run: seq<State>)
    requires run != [] && Run(TIGHT, run)
    ensures Covered(Last(run).w.store, Last(run).w.log)
  {
    hide Run, Covered, Rooted, Linear, Forked, CallsOk, TxsOk, CommitsDiffer;
    RunKeepsInv(TIGHT, run, |run| - 1);
  }

  /** One sealer counts, reads and commits with nobody in between. */
  lemma SealOne(run: seq<State>, order: seq<Record>) returns (more: seq<State>)
    requires run != [] && Run(TIGHT, run) && Linear(Last(run).w.store, Last(run).w.log) && |order| > 1
    requires order == Last(run).w.log[|Flatten(Last(run).w.store.segments)|..] && |Last(run).w.store.resident| > 1
    ensures more != [] && Run(TIGHT, more)
    ensures var w, w' := Last(run).w, Last(more).w;
            && w' == w.(store := SealRun(w.store, order[..1])) && Linear(w'.store, w'.log)
            && w'.store.books.identity.Keys == w.store.books.identity.Keys
    ensures Last(more).calls == Last(run).calls
  {
    hide Run, Linear, Orders, Covered, SealRun, Flatten, Oldest, SealedIn;
    var w, n := Last(run).w, |Last(run).sealers|;
    CoveredAtTheEnd(run);
    RestCanBeSealed(w.store, w.log, order);
    OrderBeginsOldest(w.store, order, 1);
    OldestParts(w.store, order[..1]);
    more := TakeStep(TIGHT, run, CountRows);
    more := TakeStep(TIGHT, more, ReadRun(n, order));
    more := TakeStep(TIGHT, more, ReadSegments(n));
    ASealIsRefusedIffOvertaken(TIGHT, more, |more| - 1, n);
    more := TakeStep(TIGHT, more, CommitRun(n));
    SealKeepsLinear(w.store, w.log, order[..1]);
    SealKeepsCoverage(w.store, w.log, order[..1]);
  }

  /** Two seals archive all of a three-record chain but its head. */
  lemma SealTwo(run: seq<State>) returns (more: seq<State>)
    requires run != [] && Run(TIGHT, run)
    requires var w := Last(run).w;
             && w.log == [FIRST, SECOND, THIRD] && Linear(w.store, w.log)
             && w.store.resident == {FIRST, SECOND, THIRD} && w.store.segments == []
    ensures more != [] && Run(TIGHT, more) && Last(more).calls == Last(run).calls
    ensures var w, w' := Last(run).w, Last(more).w;
            && w'.log == w.log && w'.txs == w.txs && Linear(w'.store, w'.log)
            && w'.store.resident == {THIRD} && w'.store.segments == [[FIRST], [SECOND]]
            && w'.store.books.identity.Keys == w.store.books.identity.Keys
  {
    hide Run, Linear, AccountAll;
    var order := [FIRST, SECOND, THIRD];
    assert Flatten(Last(run).w.store.segments) == [];
    assert order == Last(run).w.log[0..];
    more := SealOne(run, order);
    assert order[..1] == [FIRST];
    assert Flatten(Last(more).w.store.segments) == [FIRST] by { FlattenAppend([], [FIRST]); }
    assert Last(more).w.log[1..] == [SECOND, THIRD];
    assert Last(more).w.store.resident == {SECOND, THIRD} && |{SECOND, THIRD}| == 2;
    more := SealOne(more, [SECOND, THIRD]);
    assert [SECOND, THIRD][..1] == [SECOND];
  }

  /** So the record that claimed the late transaction's parent is archived. */
  lemma TheRivalIsSealed() returns (run: seq<State>)
    ensures run != [] && Run(TIGHT, run)
    ensures var w := Last(run).w;
            && w.log == [FIRST, SECOND, THIRD] && Linear(w.store, w.log)
            && w.store.resident == {THIRD} && w.store.segments == [[FIRST], [SECOND]]
            && w.store.books.identity.Keys == {FIRST.Id(), SECOND.Id(), THIRD.Id()}
            && |w.txs| == 3 && w.txs[0] == Tx(0, 0, LATE, 1, InFlight)
  {
    hide Run, Linear;
    run := TwoRivalsLand();
    run := SealTwo(run);
  }

  lemma FlattenTwo(segments: seq<seq<Record>>, a: Record, b: Record)
    requires segments == [[a], [b]]
    ensures Flatten(segments) == [a, b]
  {
    assert segments[..1] == [[a]] && segments[..1][..0] == [];
    assert Flatten(segments[..1]) == [a];
  }

  lemma TwoSealed(st: Store, a: Record, b: Record)
    requires st.segments == [[a], [b]]
    ensures Root(st) == b.Hash()
  {
    FlattenTwo(st.segments, a, b);
    hide Flatten;
  }

  lemma LateIsUnguarded(st: Store)
    requires st.segments == [[FIRST], [SECOND]] && st.resident == {THIRD}
    requires st.books.identity.Keys == {FIRST.Id(), SECOND.Id(), THIRD.Id()}
    ensures !Guarded(st, LATE.prev) && Admits(st, LATE)
  {
    TwoSealed(st, FIRST, SECOND);
    hide Root, Flatten;
  }

  /** A transaction sent onto the first record, then two rival appends, then two seals: the late record is
      admitted and the resident table has two heads. The gap is the least `StaleCommitNeedsAWindow` allows. */
  lemma TheChainCanFork() returns (run: seq<State>)
    ensures Run(TIGHT, run) && |run| > 1 && Forked(Last(run).w.store)
    ensures var w := run[|run| - 2].w;
            && Linear(w.store, w.log) && |w.txs| > 0 && Last(run).w == DecideTx(w, 0)
            && w.txs[0].seen + TIGHT.hotWindow + 2 == |w.log| + TIGHT.segmentSize
  {
    hide Run, Linear, Forked, Guarded, Admits;
    run := TheRivalIsSealed();
    LateIsUnguarded(Last(run).w.store);
    CommitKeepsTheChainIff(TIGHT, run, |run| - 1, 0);
    run := TakeStep(TIGHT, run, Decide(0));
  }
}
