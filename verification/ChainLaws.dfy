/**
  What the two transactions that write the chain keep: the append of `append.rs` and the seal of
  `seal.rs`, over every store.
*/
module ChainLaws {
  import opened Wrappers
  import opened Chain

  // ----- The append transaction

  lemma InsertKeepsPartition(st: Store, log: seq<Record>, r: Record)
    requires Partition(st, log) && r !in log
    ensures Partition(Insert(st, r), log + [r])
  {
    var after, more := Insert(st, r), log + [r];
    assert r !in Flatten(st.segments) && after.segments == st.segments;
    hide Flatten;
    forall q ensures q in more <==> q in after.resident || q in Flatten(after.segments) {
      assert q in more <==> q in log || q == r;
    }
  }

  lemma InsertKeepsVouched(st: Store, log: seq<Record>, r: Record, id: string)
    requires id == r.Id() || (id in st.books.identity && Vouched(st, log, id))
    requires forall q :: q in log ==> q.Id() != r.Id()
    ensures Vouched(Insert(st, r), log + [r], id)
  {
    var after, more := Insert(st, r), log + [r];
    if id == r.Id() {
      assert more[|log|] == r && Names(after.books.identity[id], after, r);
    } else {
      var k :| 0 <= k < |log| && log[k].Id() == id && Names(st.books.identity[id], st, log[k]);
      assert more[k] == log[k] && Names(after.books.identity[id], after, more[k]);
    }
  }

  /** An admitted record takes an id the chain never spent, and coverage survives it. */
  lemma InsertKeepsCoverage(st: Store, log: seq<Record>, r: Record)
    requires Covered(st, log) && Admits(st, r)
    ensures forall q :: q in log ==> q.Id() != r.Id()
    ensures Covered(Insert(st, r), log + [r])
  {
    var after, more := Insert(st, r), log + [r];
    forall q | q in log ensures q.Id() != r.Id() {
      var k :| 0 <= k < |log| && log[k] == q;
    }
    hide Partition, Vouched;
    InsertKeepsPartition(st, log, r);
    forall id | id in after.books.identity ensures Vouched(after, more, id) { InsertKeepsVouched(st, log, r, id); }
    assert forall k :: 0 <= k < |more| ==> more[k] == if k < |log| then log[k] else r;
    forall k | 0 <= k < |log| ensures log[k].Id() != r.Id() { assert log[k] in log; }
  }

  lemma InsertKeepsRooted(st: Store, log: seq<Record>, r: Record)
    requires Rooted(st, log) && Known(st, log, r.prev)
    ensures Rooted(Insert(st, r), log + [r])
  {
    var more := log + [r];
    forall k | 0 <= k < |more| ensures Known(Insert(st, r), more[..k], more[k].prev) {
      if k < |log| {
        assert more[..k] == log[..k];
        assert Known(st, log[..k], log[k].prev);
      } else {
        assert more[..k] == log;
      }
    }
  }

  /** On a linear chain, what the resident index admits onto a known parent either extends the head, or
      chains onto a parent whose child was sealed away. */
  lemma AdmittedOntoHeadOrStale(st: Store, log: seq<Record>, r: Record)
    requires Linear(st, log) && Known(st, log, r.prev) && Admits(st, r)
    ensures Stale(st, r.prev) || r.prev == Tip(st.genesis, log, |log|)
  {
    var n := |Flatten(st.segments)|;
    var k := KnownPosition(st, log, r.prev);
    if k < |log| {
      assert log[k].prev == Tip(st.genesis, log, k);
      if k < n { assert Flatten(st.segments)[k] == log[k]; }
    }
  }

  lemma KnownPosition(st: Store, log: seq<Record>, h: Hash) returns (k: nat)
    requires Known(st, log, h)
    ensures k <= |log| && h == Tip(st.genesis, log, k)
  {
    if h == st.genesis {
      k := 0;
    } else {
      var r :| r in log && r.Hash() == h;
      var j :| 0 <= j < |log| && log[j] == r;
      k := j + 1;
    }
  }

  /** A parent the chain still guards: the head query can see whether it is claimed. */
  predicate Guarded(st: Store, h: Hash) {
    h == Root(st) || exists r :: r in st.resident && r.Hash() == h
  }

  /** On a linear chain the parents that are not stale are exactly the guarded ones. */
  lemma StaleIsUnguarded(st: Store, log: seq<Record>, h: Hash)
    requires Linear(st, log) && Known(st, log, h)
    ensures Stale(st, h) <==> !Guarded(st, h)
  {
    var n := |Flatten(st.segments)|;
    var k := KnownPosition(st, log, h);
    if k < n { SealedPast(st, log, k); } else { NotSealedPast(st, log, k); }
  }

  lemma SealedPast(st: Store, log: seq<Record>, k: nat)
    requires Linear(st, log) && k < |Flatten(st.segments)|
    ensures k <= |log| && Stale(st, Tip(st.genesis, log, k)) && !Guarded(st, Tip(st.genesis, log, k))
  {
    var sealed, h := Flatten(st.segments), Tip(st.genesis, log, k);
    var n := |sealed|;
    assert sealed[k] == log[k] && log[k].prev == h && sealed[k] in sealed;
    LinearOrders(st, log);
    hide Flatten, Orders;
    if h == Tip(st.genesis, log, n) { TipsDiffer(st.genesis, log, k, n); }
    forall r | r in st.resident ensures r.Hash() != h {
      var i :| 0 <= i < |log[n..]| && log[n..][i] == r;
      assert r == log[n + i];
      if h == r.Hash() { TipsDiffer(st.genesis, log, k, n + i + 1); }
    }
  }

  lemma NotSealedPast(st: Store, log: seq<Record>, k: nat)
    requires Linear(st, log) && |Flatten(st.segments)| <= k <= |log|
    ensures !Stale(st, Tip(st.genesis, log, k)) && Guarded(st, Tip(st.genesis, log, k))
  {
    var sealed, h := Flatten(st.segments), Tip(st.genesis, log, k);
    var n := |sealed|;
    LinearOrders(st, log);
    hide Flatten, Orders;
    forall r | r in sealed ensures r.prev != h {
      var j :| 0 <= j < n && sealed[j] == r;
      assert log[j] == r && r.prev == Tip(st.genesis, log, j);
      if r.prev == h { TipsDiffer(st.genesis, log, j, k); }
    }
    if k > n {
      assert log[k - 1] == log[n..][k - 1 - n] && log[k - 1].Hash() == h;
    }
  }

  /** A commit onto the head extends the one list by one record. */
  lemma InsertOntoHead(st: Store, log: seq<Record>, r: Record)
    requires Linear(st, log) && r.prev == Tip(st.genesis, log, |log|)
    ensures Linear(Insert(st, r), log + [r])
  {
    var n := |Flatten(st.segments)|;
    Extend(st.genesis, log, r);
    assert (log + [r])[n..] == log[n..] + [r];
  }

  lemma LastIsTip(st: Store, log: seq<Record>)
    requires Linear(st, log) && log != []
    ensures log[|log| - 1] in Tips(st)
  {
    var n := |Flatten(st.segments)|;
    assert n < |log| by { hide LinkedFrom, Flatten; }
    hide *;
    LinearOrders(st, log);
    OrderedLastIsTip(st, log[n..]);
    assert log[n..][|log[n..]| - 1] == log[|log| - 1];
  }

  /** A head that the new record does not claim stays a head beside it. */
  lemma SecondHead(st: Store, log: seq<Record>, r: Record, head: Record)
    requires Covered(st, log) && Rooted(st, log) && Admits(st, r)
    requires head in Tips(st) && head.Hash() != r.prev
    ensures Forked(Insert(st, r))
  {
    var after := Insert(st, r);
    NothingLinksFresh(st, log, r);
    InsertKeepsCoverage(st, log, r);
    assert head in log && head != r;
    assert head in Tips(after) && r in Tips(after);
  }

  /** A commit onto a parent whose child is sealed leaves two heads. */
  lemma InsertOntoStale(st: Store, log: seq<Record>, r: Record)
    requires Linear(st, log) && Covered(st, log) && Rooted(st, log) && Admits(st, r)
    requires Known(st, log, r.prev) && Stale(st, r.prev)
    ensures Forked(Insert(st, r))
  {
    var last := log[|log| - 1];
    LastIsTip(st, log);
    StaleIsUnguarded(st, log, r.prev);
    SecondHead(st, log, r, last);
  }

  /** No resident record links to a record that is not in the chain yet. */
  lemma NothingLinksFresh(st: Store, log: seq<Record>, r: Record)
    requires Covered(st, log) && Rooted(st, log) && Admits(st, r)
    ensures forall q :: q in st.resident + {r} ==> q.prev != r.Hash()
  {
    InsertKeepsCoverage(st, log, r);
    forall q | q in st.resident ensures q.prev != r.Hash() {
      assert q in log;
      var k :| 0 <= k < |log| && log[k] == q;
      assert Known(st, log[..k], q.prev);
    }
    assert Depth(r.Hash()) == 1 + Depth(r.prev);
  }

  /** A fork is for good: no later commit removes the second head. */
  lemma InsertKeepsFork(st: Store, log: seq<Record>, r: Record)
    requires Forked(st) && Covered(st, log) && Rooted(st, log) && Admits(st, r)
    ensures Forked(Insert(st, r))
  {
    var a, b :| a in Tips(st) && b in Tips(st) && a != b;
    SecondHead(st, log, r, if a.Hash() == r.prev then b else a);
  }

  /** What a forked table answers: no head, and no order either, so neither an append nor a seal can go on. */
  lemma ForkStopsTheChain(st: Store, h: Hash, order: seq<Record>)
    requires Forked(st)
    ensures !HeadIs(st, h) && !Orders(st, order)
  {
    var a, b :| a in Tips(st) && b in Tips(st) && a != b;
    if Orders(st, order) {
      assert a in order;
      OrderedTips(st, order);
    }
  }

  // ----- The seal transaction

  function Stamped(row: Copy, run: seq<Record>, segment: nat): Copy {
    if exists r :: r in run && r.Hash() == row.hash then row.(segment := Some(segment)) else row
  }

  /** What one sealed record's accounting leaves, whatever it finds: the id has a row; the row that stood is kept but
      for the segment; it is stamped exactly when it names this record and was not stamped for another segment, an id
      without a row gets one, and every other find is a collision. Nothing else changes, and doing it twice is doing
      it once. */
  lemma AccountingOfOne(books: Books, r: Record, segment: nat)
    ensures var after := Account(books, r, segment); var id := r.Id();
            && id in after.identity && after.identity.Keys == books.identity.Keys + {id}
            && (forall other :: other in books.identity && other != id ==>
               after.identity[other] == books.identity[other])
            && (id !in books.identity ==>
                  after.identity[id] == Copy(Digest(r.decision), r.Hash(), Some(segment)) &&
                  after.collisions == books.collisions)
            && (id in books.identity ==>
                  var row := books.identity[id];
                  if row.hash == r.Hash() && (row.segment == None || row.segment == Some(segment))
                  then after.identity[id] == row.(segment := Some(segment)) && after.collisions == books.collisions
                  else after.identity[id] == row && after.collisions == books.collisions + {id})
    ensures Account(Account(books, r, segment), r, segment) == Account(books, r, segment)
  {}

  /** What the accounting needs to find on a covered chain: each record's row stands unstamped and names
      it, or its id carries a collision row already. */
  ghost predicate Accountable(books: Books, run: seq<Record>) {
    && NoRepeats(run)
    && (forall id :: id in books.identity ==>
          books.identity[id].hash.Link? && books.identity[id].hash.decision.id == id)
    && forall r :: r in run ==>
         && r.Id() in books.identity
         && (books.identity[r.Id()].hash == r.Hash() ==> books.identity[r.Id()].segment == None)
         && (books.identity[r.Id()].hash != r.Hash() ==> r.Id() in books.collisions)
  }

  lemma LastOf(run: seq<Record>) returns (front: seq<Record>, r: Record)
    requires NoRepeats(run) && run != []
    ensures front == run[..|run| - 1] && r == run[|run| - 1] && NoRepeats(front)
    ensures r !in front && forall q :: q in run <==> q in front || q == r
  {
    front, r := run[..|run| - 1], run[|run| - 1];
    assert run == front + [r];
  }

  /** The rows after `front` was accounted for are stamped by `front` alone. */
  ghost predicate OnlyStamped(books: Books, after: Books, run: seq<Record>, segment: nat) {
    && after.collisions == books.collisions
    && after.identity.Keys == books.identity.Keys
    && forall id :: id in books.identity ==> after.identity[id] == Stamped(books.identity[id], run, segment)
  }

  lemma AccountLast(books: Books, mid: Books, run: seq<Record>, front: seq<Record>, r: Record, segment: nat)
    requires Accountable(books, run) && OnlyStamped(books, mid, front, segment)
    requires r !in front && forall q :: q in run <==> q in front || q == r
    ensures OnlyStamped(books, Account(mid, r, segment), run, segment)
  {
    hide NoRepeats;
    assert mid.identity[r.Id()] == books.identity[r.Id()] || books.identity[r.Id()].hash != r.Hash();
    forall id | id in books.identity
      ensures Account(mid, r, segment).identity[id] == Stamped(books.identity[id], run, segment)
    {
      if id != r.Id() { assert books.identity[id].hash != r.Hash(); }
    }
  }

  /** On a covered chain sealing creates no row and records no collision: it stamps, and only the rows
      that name what it sealed. */
  lemma {:induction false} AccountingOnlyStamps(books: Books, run: seq<Record>, segment: nat)
    requires Accountable(books, run)
    ensures OnlyStamped(books, AccountAll(books, run, segment), run, segment)
  {
    if run != [] {
      var front, r := LastOf(run);
      hide Stamped, Account, OnlyStamped;
      AccountingOnlyStamps(books, front, segment);
      AccountLast(books, AccountAll(books, front, segment), run, front, r, segment);
    }
  }

  lemma CoveredIsAccountable(st: Store, log: seq<Record>, run: seq<Record>)
    requires Covered(st, log) && NoRepeats(run) && forall r :: r in run ==> r in st.resident
    ensures Accountable(st.books, run)
  {
    forall r | r in run
      ensures r.Id() in st.books.identity
      ensures st.books.identity[r.Id()].hash == r.Hash() ==> st.books.identity[r.Id()].segment == None
      ensures st.books.identity[r.Id()].hash != r.Hash() ==> r.Id() in st.books.collisions
    {
      assert r in st.resident && r in log;
      var m :| 0 <= m < |log| && log[m] == r;
      var id := r.Id();
      assert Vouched(st, log, id);
      var k :| 0 <= k < |log| && log[k].Id() == id && Names(st.books.identity[id], st, log[k]);
      if log[k] == r {
        if st.books.identity[id].segment.Some? {
          SealedIsFlat(st.segments, st.books.identity[id].segment.value, r);
        }
      } else {
        assert k != m;
      }
    }
    forall id | id in st.books.identity
      ensures st.books.identity[id].hash.Link? && st.books.identity[id].hash.decision.id == id
    {
      assert Vouched(st, log, id);
    }
  }

  lemma {:induction false} SealedIsFlat(segments: seq<seq<Record>>, j: nat, r: Record)
    requires j < |segments| && r in segments[j]
    ensures r in Flatten(segments)
  {
    if j < |segments| - 1 { SealedIsFlat(segments[..|segments| - 1], j, r); }
  }

  lemma SealedFlat(st: Store, run: seq<Record>)
    ensures Flatten(SealRun(st, run).segments) == Flatten(st.segments) + run
  {
    FlattenAppend(st.segments, run);
  }

  lemma NoRepeatsJoin(was: seq<Record>, run: seq<Record>)
    requires NoRepeats(was) && NoRepeats(run) && forall r :: r in run ==> r !in was
    ensures NoRepeats(was + run)
  {
    var now := was + run;
    forall j, k | 0 <= j < k < |now| ensures now[j] != now[k] {
      if k >= |was| { assert now[k] in run; }
    }
  }

  lemma SealKeepsPartition(st: Store, log: seq<Record>, run: seq<Record>)
    requires Partition(st, log) && NoRepeats(run) && forall r :: r in run ==> r in st.resident
    ensures Partition(SealRun(st, run), log)
  {
    var was := Flatten(st.segments);
    SealedFlat(st, run);
    hide Flatten, AccountAll, NoRepeats;
    NoRepeatsJoin(was, run);
    assert forall r :: r in was + run <==> r in was || r in run;
  }

  lemma SealKeepsVouched(st: Store, log: seq<Record>, run: seq<Record>, id: string)
    requires id in st.books.identity && Vouched(st, log, id)
    requires OnlyStamped(st.books, SealRun(st, run).books, run, |st.segments|)
    ensures Vouched(SealRun(st, run), log, id)
  {
    hide AccountAll, OnlyStamped;
    var after, seg, row := SealRun(st, run), |st.segments|, st.books.identity[id];
    var k :| 0 <= k < |log| && log[k].Id() == id && Names(row, st, log[k]);
    assert after.books.identity[id] == Stamped(row, run, seg) by { RowAfter(st.books, after.books, run, seg, id); }
    if r :| r in run && r.Hash() == row.hash {
      assert r == log[k] && after.segments[seg] == run;
    } else {
      assert log[k] !in run;
      if row.segment.Some? { assert after.segments[row.segment.value] == st.segments[row.segment.value]; }
    }
    assert Names(after.books.identity[id], after, log[k]);
  }

  lemma RowAfter(books: Books, after: Books, run: seq<Record>, segment: nat, id: string)
    requires OnlyStamped(books, after, run, segment) && id in books.identity
    ensures id in after.identity && after.identity[id] == Stamped(books.identity[id], run, segment)
  {
    hide Stamped;
  }

  /** Sealing loses nothing, renames nothing and spends no id: coverage survives it. */
  lemma SealKeepsCoverage(st: Store, log: seq<Record>, run: seq<Record>)
    requires Covered(st, log) && NoRepeats(run) && forall r :: r in run ==> r in st.resident
    ensures Covered(SealRun(st, run), log)
    ensures SealRun(st, run).books.collisions == st.books.collisions
    ensures SealRun(st, run).books.identity.Keys == st.books.identity.Keys
  {
    var after := SealRun(st, run);
    CoveredIsAccountable(st, log, run);
    AccountingOnlyStamps(st.books, run, |st.segments|);
    SealKeepsPartition(st, log, run);
    hide AccountAll, Stamped, Vouched, NoRepeats, Flatten;
    forall id | id in after.books.identity ensures Vouched(after, log, id) { SealKeepsVouched(st, log, run, id); }
  }

  /** What an order of the table begins with is its oldest run, as long as it is not the whole of it. */
  lemma OrderBeginsOldest(st: Store, order: seq<Record>, size: nat)
    requires Orders(st, order) && size < |order|
    ensures Oldest(st, order[..size])
  {
    var run, q := order[..size], order[size];
    assert q in order && q.prev == Tip(Root(st), order, size);
    assert forall k :: 0 <= k <= size ==> Tip(Root(st), run, k) == Tip(Root(st), order, k);
    hide Root;
    forall k | 0 <= k < |run| ensures run[k].prev == Tip(Root(st), run, k) { assert run[k] == order[k]; }
    forall r | r in run ensures r in st.resident && r != q { assert r in order; }
  }

  /** A run stays the oldest while records are only inserted. */
  lemma InsertKeepsOldest(st: Store, r: Record, run: seq<Record>)
    requires Oldest(st, run) && forall q :: q in st.resident ==> q.Id() != r.Id()
    ensures Oldest(Insert(st, r), run)
  {
    assert Root(Insert(st, r)) == Root(st);
    hide Root, LinkedFrom, NoRepeats;
  }

  lemma NextInRest(root: Hash, rest: seq<Record>, k: nat, next: Record)
    requires LinkedFrom(root, rest) && k <= |rest| && next in rest && next.prev == Tip(root, rest, k)
    ensures k < |rest| && rest[k] == next
  {
    var m :| 0 <= m < |rest| && rest[m] == next;
    assert rest[m].prev == Tip(root, rest, m);
    TipsDiffer(root, rest, m, k);
  }

  lemma {:induction false} RunIsPrefix(root: Hash, rest: seq<Record>, run: seq<Record>, q: Record, k: nat)
    requires LinkedFrom(root, rest) && LinkedFrom(root, run) && k <= |run|
    requires (forall r :: r in run ==> r in rest) && q in rest && q.prev == Tip(root, run, |run|)
    ensures k < |rest| && rest[..k] == run[..k]
  {
    hide LinkedFrom, Tip;
    if k > 0 {
      RunIsPrefix(root, rest, run, q, k - 1);
      SameTip(root, rest, run, k - 1);
      LinkAt(root, run, k - 1);
      NextInRest(root, rest, k - 1, run[k - 1]);
      assert rest[..k] == rest[..k - 1] + [rest[k - 1]] && run[..k] == run[..k - 1] + [run[k - 1]];
    }
    SameTip(root, rest, run, k);
    if k < |run| {
      LinkAt(root, run, k);
      NextInRest(root, rest, k, run[k]);
    } else {
      NextInRest(root, rest, k, q);
    }
  }

  lemma LinkAt(root: Hash, run: seq<Record>, k: nat)
    requires LinkedFrom(root, run) && k < |run|
    ensures run[k].prev == Tip(root, run, k) && run[k] in run
  {}

  lemma SameTip(root: Hash, a: seq<Record>, b: seq<Record>, k: nat)
    requires k <= |a| && k <= |b| && a[..k] == b[..k]
    ensures Tip(root, a, k) == Tip(root, b, k)
  {
    if k > 0 { assert a[k - 1] == a[..k][k - 1] == b[..k][k - 1] == b[k - 1]; }
  }

  /** The oldest run of a linear chain is where the resident part of the list begins, and not all of it. */
  lemma OldestIsNext(st: Store, log: seq<Record>, run: seq<Record>)
    requires Linear(st, log) && Oldest(st, run)
    ensures |Flatten(st.segments)| + |run| < |log|
    ensures log[|Flatten(st.segments)|..][..|run|] == run
  {
    var rest := log[|Flatten(st.segments)|..];
    LinearOrders(st, log);
    var q :| q in st.resident && q !in run && q.prev == Tip(Root(st), run, |run|);
    hide Flatten, Root;
    RunIsPrefix(Root(st), rest, run, q, |run|);
    assert run[..|run|] == run;
  }

  /** Sealing moves the seam of a linear chain and nothing else. */
  lemma SealKeepsLinear(st: Store, log: seq<Record>, run: seq<Record>)
    requires Linear(st, log) && Oldest(st, run)
    ensures Linear(SealRun(st, run), log)
  {
    hide *;
    var sealed := Flatten(st.segments);
    var rest := LinearRest(st, log);
    OldestIsNext(st, log, run);
    assert log == sealed + run + rest[|run|..] by { assert rest == run + rest[|run|..]; }
    RestOf(rest, |run|);
    SealedFlat(st, run);
    ResidentAfter(st, run);
    LinearFrom(SealRun(st, run), log, rest[|run|..]);
  }

  lemma ResidentAfter(st: Store, run: seq<Record>)
    ensures SealRun(st, run).genesis == st.genesis
    ensures forall r :: r in SealRun(st, run).resident <==> r in st.resident && r !in run
  {
    hide AccountAll;
  }

  /** A linear chain is its sealed prefix and its resident rest. */
  lemma LinearRest(st: Store, log: seq<Record>) returns (rest: seq<Record>)
    requires Linear(st, log)
    ensures |Flatten(st.segments)| <= |log| && rest == log[|Flatten(st.segments)|..] &&
            log == Flatten(st.segments) + rest
    ensures LinkedFrom(st.genesis, log) && NoRepeats(rest) && forall r :: r in st.resident <==> r in rest
  {
    rest := log[|Flatten(st.segments)|..];
    LinkedNoRepeats(st.genesis, log);
    hide Flatten, LinkedFrom;
  }

  lemma LinearFrom(st: Store, log: seq<Record>, rest: seq<Record>)
    requires LinkedFrom(st.genesis, log) && log == Flatten(st.segments) + rest && rest != []
    requires forall r :: r in st.resident <==> r in rest
    ensures Linear(st, log)
  {
    hide Flatten, LinkedFrom;
    assert log[|Flatten(st.segments)|..] == rest;
  }

  lemma RestOf(order: seq<Record>, size: nat)
    requires NoRepeats(order) && size <= |order|
    ensures forall r :: r in order[size..] <==> r in order && r !in order[..size]
  {
    assert order == order[..size] + order[size..];
    forall r | r in order[size..] ensures r !in order[..size] {
      var j :| 0 <= j < |order[size..]| && order[size..][j] == r;
      assert order[size + j] == r;
    }
  }

  /** No record of the oldest run is a head, so sealing it takes neither head of a fork away. */
  lemma SealKeepsFork(st: Store, run: seq<Record>)
    requires Forked(st) && Oldest(st, run)
    ensures Forked(SealRun(st, run))
  {
    var a, b :| a in Tips(st) && b in Tips(st) && a != b;
    OldestIsClaimed(st, run, a);
    OldestIsClaimed(st, run, b);
    hide Root, LinkedFrom, AccountAll;
    assert a in Tips(SealRun(st, run)) && b in Tips(SealRun(st, run));
  }

  lemma ClaimantOf(st: Store, run: seq<Record>, k: nat) returns (q: Record)
    requires Oldest(st, run) && k < |run|
    ensures q in st.resident && q.prev == run[k].Hash()
  {
    hide LinkedFrom, NoRepeats, Root;
    if k + 1 < |run| {
      LinkAt(Root(st), run, k + 1);
      q := run[k + 1];
    } else {
      q :| q in st.resident && q !in run && q.prev == Tip(Root(st), run, |run|);
    }
  }

  lemma OldestIsClaimed(st: Store, run: seq<Record>, r: Record)
    requires Oldest(st, run) && r in Tips(st)
    ensures r !in run
  {
    hide Oldest;
    if k: nat :| k < |run| && run[k] == r {
      var q := ClaimantOf(st, run, k);
    }
  }
}
