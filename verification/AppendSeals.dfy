/**
  Sealers that race. Each reads the chain, then the segments, then sends its transaction, and any of the
  three may straddle another sealer's commit. What keeps a record in one segment is the key of the segment
  table: a segment is keyed by the digest of its records, and every sealer takes the same oldest run.
*/
module AppendSeals {
  import opened Chain
  import opened ChainLaws
  import opened Append

  /** No two resident records claim one parent: what the unique parent index says of the table. */
  ghost predicate ParentsDiffer(st: Store) {
    forall a, b :: a in st.resident && b in st.resident && a.prev == b.prev ==> a == b
  }

  /** The run a sealer read is still the oldest one, or it is the segment that another sealer made of it. */
  ghost predicate SealerOk(policy: Policy, st: Store, sealer: Sealer) {
    sealer.Counted? ||
    (&& sealer.base <= |st.segments| && |sealer.run| == policy.segmentSize
     && (if sealer.base == |st.segments| then Oldest(st, sealer.run) else st.segments[sealer.base] == sealer.run)
     && (sealer.Holding? ==> sealer.base <= sealer.previous <= |st.segments|))
  }

  ghost predicate SealersOk(policy: Policy, st: Store, sealers: seq<Sealer>) {
    && ParentsDiffer(st)
    && forall n :: 0 <= n < |sealers| ==> SealerOk(policy, st, sealers[n])
  }

  lemma OldestAt(st: Store, run: seq<Record>, k: nat)
    requires Oldest(st, run) && k < |run|
    ensures run[k] in st.resident && run[k].prev == Tip(Root(st), run, k)
  {
    hide NoRepeats, Root;
  }

  lemma OneChild(st: Store, a: Record, b: Record)
    requires ParentsDiffer(st) && a in st.resident && b in st.resident && a.prev == b.prev
    ensures a == b
  {}

  /** Two oldest runs of one table agree as far as both go. */
  lemma {:induction false} OldestAgree(st: Store, a: seq<Record>, b: seq<Record>, k: nat)
    requires ParentsDiffer(st) && Oldest(st, a) && Oldest(st, b) && k <= |a| && k <= |b|
    ensures a[..k] == b[..k]
  {
    hide *;
    if k > 0 {
      OldestAgree(st, a, b, k - 1);
      SameTip(Root(st), a, b, k - 1);
      OldestAt(st, a, k - 1);
      OldestAt(st, b, k - 1);
      OneChild(st, a[k - 1], b[k - 1]);
      assert a[..k] == a[..k - 1] + [a[k - 1]] && b[..k] == b[..k - 1] + [b[k - 1]];
    }
  }

  lemma LinearParentsDiffer(st: Store, log: seq<Record>)
    requires Linear(st, log)
    ensures ParentsDiffer(st)
  {
    forall a, b | a in st.resident && b in st.resident && a.prev == b.prev ensures a == b {
      assert a in log && b in log;
      hide Linear;
      assert LinkedFrom(st.genesis, log);
      OneClaim(st.genesis, log, a, b);
    }
  }

  lemma InsertKeepsSealers(policy: Policy, st: Store, r: Record, sealers: seq<Sealer>)
    requires SealersOk(policy, st, sealers) && Admits(st, r)
    ensures SealersOk(policy, Insert(st, r), sealers)
  {
    hide Oldest;
    forall n | 0 <= n < |sealers| ensures SealerOk(policy, Insert(st, r), sealers[n]) {
      assert SealerOk(policy, st, sealers[n]);
      if !sealers[n].Counted? && sealers[n].base == |st.segments| { InsertKeepsOldest(st, r, sealers[n].run); }
    }
  }

  /** A sealed run turns every sealer that held it into one that was overtaken. */
  lemma SealKeepsSealers(policy: Policy, st: Store, sealers: seq<Sealer>, run: seq<Record>)
    requires SealersOk(policy, st, sealers) && Oldest(st, run) && |run| == policy.segmentSize
    ensures SealersOk(policy, SealRun(st, run), sealers)
  {
    hide Oldest, AccountAll;
    forall n | 0 <= n < |sealers| ensures SealerOk(policy, SealRun(st, run), sealers[n]) {
      var sealer := sealers[n];
      assert SealerOk(policy, st, sealer);
      if !sealer.Counted? && sealer.base == |st.segments| {
        OldestAgree(st, run, sealer.run, |run|);
        assert run[..|run|] == run && sealer.run[..|run|] == sealer.run;
      }
    }
  }

  lemma ReadRunKeepsSealers(policy: Policy, st: Store, sealers: seq<Sealer>, n: nat, order: seq<Record>)
    requires SealersOk(policy, st, sealers) && n < |sealers| && Orders(st, order) && policy.segmentSize < |order|
    ensures SealersOk(policy, st, sealers[n := Ordered(sealers[n].from, |st.segments|, order[..policy.segmentSize])])
  {
    OrderBeginsOldest(st, order, policy.segmentSize);
    hide Oldest, Orders;
  }

  lemma ReadSegmentsKeepsSealers(policy: Policy, st: Store, sealers: seq<Sealer>, n: nat)
    requires SealersOk(policy, st, sealers) && n < |sealers| && sealers[n].Ordered?
    ensures var was := sealers[n];
            SealersOk(policy, st, sealers[n := Holding(was.from, was.base, was.run, |st.segments|)])
  {
    hide Oldest;
    assert SealerOk(policy, st, sealers[n]);
  }

  lemma {:induction false} SegmentIsFlat(segments: seq<seq<Record>>, run: seq<Record>, r: Record)
    requires run in segments && r in run
    ensures r in Flatten(segments)
  {
    var j :| 0 <= j < |segments| && segments[j] == run;
    SealedIsFlat(segments, j, r);
  }

  /** The transaction is refused exactly when another sealer's seal came between the read of the chain and it;
      otherwise what it seals is the oldest run of the table it meets. */
  lemma RefusedIffOvertaken(policy: Policy, st: Store, log: seq<Record>, sealer: Sealer)
    requires SealerOk(policy, st, sealer) && sealer.Holding? && Partition(st, log) && policy.Valid()
    ensures KeyTaken(st, sealer) <==> sealer.base < |st.segments|
    ensures !KeyTaken(st, sealer) ==> Oldest(st, sealer.run)
  {
    hide Flatten, NoRepeats, LinkedFrom, Root;
    if sealer.base == |st.segments| && sealer.run in st.segments {
      SegmentIsFlat(st.segments, sealer.run, sealer.run[0]);
    }
  }
}
