/**
  The decision chain as its tables hold it (crates/rahi-ledger/src/chain.rs, seal.rs, identity.rs).

  A hash is a term: a record's hash is the constructor `Link` over the parent and the decision it
  was taken over, so hashes are injective and no record can be its own ancestor. The digest of
  `identity_digest` is a term over the decision alone, because the parent is not part of it.
*/
module Chain {
  import opened Wrappers

  datatype Outcome = Allow | Deny | Degrade

  /** Every field of a decision except its id and its parent. */
  datatype Content = Content(kind: string, actor: string, capability: Option<string>, outcome: Outcome,
                             reason: string, payload: string, at: nat)

  datatype Decision = Decision(id: string, content: Content)

  datatype Hash = Genesis(manifest: string) | Link(parent: Hash, decision: Decision)

  datatype Digest = Digest(decision: Decision)

  datatype Record = Record(prev: Hash, decision: Decision) {
    function Id(): string { decision.id }

    function Hash(): Hash { Link(prev, decision) }
  }

  /** One identity row: what an id names, and the segment that holds it once it is archived. */
  datatype Copy = Copy(digest: Digest, hash: Hash, segment: Option<nat>)

  /** The identity table, and the ids that carry at least one collision row. */
  datatype Books = Books(identity: map<string, Copy>, collisions: set<string>)

  /** `kernel_decisions`, the sealed segments oldest first, and the identity tables. */
  datatype Store = Store(genesis: Hash, resident: set<Record>, segments: seq<seq<Record>>, books: Books)

  datatype Policy = Policy(hotWindow: nat, segmentSize: nat) {
    /** What `SealPolicy::new` accepts. */
    predicate Valid() { 1 <= segmentSize <= hotWindow && segmentSize <= 10_000 }
  }

  // ----- Reading the tables

  function Flatten(segments: seq<seq<Record>>): (run: seq<Record>) {
    if segments == [] then [] else Flatten(segments[..|segments| - 1]) + segments[|segments| - 1]
  }

  /** The hash the oldest resident record links to. */
  function Root(st: Store): Hash {
    var sealed := Flatten(st.segments);
    if sealed == [] then st.genesis else sealed[|sealed| - 1].Hash()
  }

  /** The resident records no resident record claims as a parent: what the head query returns. */
  function Tips(st: Store): set<Record> {
    set r | r in st.resident && forall q :: q in st.resident ==> q.prev != r.Hash()
  }

  /** The head query answered `h`. It answers nothing when two records are heads, or none is. */
  ghost predicate HeadIs(st: Store, h: Hash) {
    if st.resident == {} then h == Root(st) else exists r :: Tips(st) == {r} && h == r.Hash()
  }

  /** Two records are heads at once. */
  ghost predicate Forked(st: Store) {
    exists a, b :: a in Tips(st) && b in Tips(st) && a != b
  }

  // ----- The append transaction

  /** Both primary keys and the unique parent index admit `r`. All three range over stored rows, and
      the two of `kernel_decisions` over resident ones only. */
  predicate Admits(st: Store, r: Record) {
    && (forall q :: q in st.resident ==> q.Id() != r.Id() && q.prev != r.prev)
    && r.Id() !in st.books.identity
  }

  /** The record and its identity row, inserted in one transaction. */
  function Insert(st: Store, r: Record): Store {
    st.(resident := st.resident + {r},
    books := st.books.(identity := st.books.identity[r.Id() := Copy(Digest(r.decision), r.Hash(), None)]))
  }

  // ----- The seal transaction

  /** One record's accounting: stamp its row, or create it, or record the copy the row declined. */
  function Account(books: Books, r: Record, segment: nat): Books {
    if r.Id() !in books.identity then
      books.(identity := books.identity[r.Id() := Copy(Digest(r.decision), r.Hash(), Some(segment))])
    else
      var row := books.identity[r.Id()];
      if row.hash == r.Hash() && row.segment == None then
        books.(identity := books.identity[r.Id() := row.(segment := Some(segment))])
      else if row.hash == r.Hash() && row.segment == Some(segment) then books
      else books.(collisions := books.collisions + {r.Id()})
  }

  function AccountAll(books: Books, run: seq<Record>, segment: nat): Books {
    if run == [] then books
    else Account(AccountAll(books, run[..|run| - 1], segment), run[|run| - 1], segment)
  }

  /** `seq` links `from`: each record names its predecessor, and the first names `from`. */
  ghost predicate LinkedFrom(from: Hash, run: seq<Record>) {
    forall k :: 0 <= k < |run| ==> run[k].prev == Tip(from, run, k)
  }

  /** What a record placed at `k` links to. */
  function Tip(from: Hash, run: seq<Record>, k: nat): Hash
    requires k <= |run|
  {
    if k == 0 then from else run[k - 1].Hash()
  }

  ghost predicate NoRepeats<T>(run: seq<T>) {
    forall j, k :: 0 <= j < k < |run| ==> run[j] != run[k]
  }

  /** `order` is the resident table as one list from its root. */
  ghost predicate Orders(st: Store, order: seq<Record>) {
    && LinkedFrom(Root(st), order)
    && NoRepeats(order)
    && forall r :: r in order <==> r in st.resident
  }

  /** `run` is where the resident table begins: linked from its root, with a resident record left to follow. */
  ghost predicate Oldest(st: Store, run: seq<Record>) {
    && LinkedFrom(Root(st), run)
    && NoRepeats(run)
    && (forall r :: r in run ==> r in st.resident)
    && exists q :: q in st.resident && q !in run && q.prev == Tip(Root(st), run, |run|)
  }

  /** The header, the deletion and the accounting of one run, in one transaction. */
  function SealRun(st: Store, run: seq<Record>): Store {
    st.(resident := (set r | r in st.resident && r !in run),
    segments := st.segments + [run],
    books := AccountAll(st.books, run, |st.segments|))
  }

  // ----- Linear chains

  /** The tables hold exactly `log`, one list hash-linked from genesis: a sealed prefix and a resident
      rest that is never empty once anything was written. */
  ghost predicate Linear(st: Store, log: seq<Record>) {
    && LinkedFrom(st.genesis, log)
    && Flatten(st.segments) <= log
    && (log != [] ==> |Flatten(st.segments)| < |log|)
    && forall r :: r in st.resident <==> r in log[|Flatten(st.segments)|..]
  }

  function Depth(h: Hash): nat {
    match h
    case Genesis(_) => 0
    case Link(parent, _) => 1 + Depth(parent)
  }

  /** A linked list numbers its own records: the depth of a record's parent is its position. */
  lemma {:induction false} DepthIsPosition(from: Hash, run: seq<Record>, k: nat)
    requires LinkedFrom(from, run) && k <= |run|
    ensures Depth(Tip(from, run, k)) == Depth(from) + k
  {
    if k > 0 {
      DepthIsPosition(from, run, k - 1);
      assert run[k - 1].prev == Tip(from, run, k - 1);
    }
  }

  /** So no two places of a linked list offer the same parent, and no record repeats. */
  lemma TipsDiffer(from: Hash, run: seq<Record>, j: nat, k: nat)
    requires LinkedFrom(from, run) && j <= |run| && k <= |run|
    requires Tip(from, run, j) == Tip(from, run, k)
    ensures j == k
  {
    DepthIsPosition(from, run, j);
    DepthIsPosition(from, run, k);
  }

  lemma LinkedNoRepeats(from: Hash, run: seq<Record>)
    requires LinkedFrom(from, run)
    ensures NoRepeats(run)
  {
    forall j, k | 0 <= j < k < |run| ensures run[j] != run[k] {
      if run[j] == run[k] {
        assert run[j].prev == Tip(from, run, j) && run[k].prev == Tip(from, run, k);
        TipsDiffer(from, run, j, k);
      }
    }
  }

  lemma FlattenAppend(segments: seq<seq<Record>>, run: seq<Record>)
    ensures Flatten(segments + [run]) == Flatten(segments) + run
  {
    assert (segments + [run])[..|segments|] == segments;
  }

  lemma OrderedLastIsTip(st: Store, order: seq<Record>)
    requires Orders(st, order) && order != []
    ensures order[|order| - 1] in Tips(st)
  {
    var root, last := Root(st), order[|order| - 1];
    assert last in order;
    forall q | q in st.resident ensures q.prev != last.Hash() {
      assert q in order;
      var k :| 0 <= k < |order| && order[k] == q;
      assert q.prev == Tip(root, order, k);
      if q.prev == Tip(root, order, |order|) { TipsDiffer(root, order, k, |order|); }
    }
  }

  lemma OrderedRestAreClaimed(st: Store, order: seq<Record>, k: nat)
    requires Orders(st, order) && k + 1 < |order|
    ensures order[k] !in Tips(st)
  {
    assert order[k + 1].prev == Tip(Root(st), order, k + 1);
    assert order[k + 1] in order;
  }

  lemma TipIsOrdered(st: Store, order: seq<Record>, r: Record)
    requires Orders(st, order) && r in Tips(st)
    ensures r in order
  {
    hide LinkedFrom, NoRepeats;
  }

  /** A resident table that is one list from its root has one head, the list's last record. */
  lemma OrderedTips(st: Store, order: seq<Record>)
    requires Orders(st, order) && order != []
    ensures Tips(st) == {order[|order| - 1]}
  {
    hide *;
    OrderedLastIsTip(st, order);
    forall r | r in Tips(st) ensures r == order[|order| - 1] {
      TipIsOrdered(st, order, r);
      var k :| 0 <= k < |order| && order[k] == r;
      if k + 1 < |order| { OrderedRestAreClaimed(st, order, k); }
    }
  }

  /** What is resident on a linear chain is the rest of the list, in order, from the sealed prefix's end. */
  lemma LinearOrders(st: Store, log: seq<Record>)
    requires Linear(st, log)
    ensures Root(st) == Tip(st.genesis, log, |Flatten(st.segments)|)
    ensures Orders(st, log[|Flatten(st.segments)|..])
  {
    var n := |Flatten(st.segments)|;
    var rest := log[n..];
    assert Root(st) == Tip(st.genesis, log, n) by {
      if n > 0 { assert Flatten(st.segments)[n - 1] == log[n - 1]; }
    }
    forall k | 0 <= k < |rest| ensures rest[k].prev == Tip(Root(st), rest, k) {
      assert rest[k] == log[n + k] && log[n + k].prev == Tip(st.genesis, log, n + k);
    }
    LinkedNoRepeats(st.genesis, log);
  }

  /** Two orders of one table are the same list. */
  lemma OrderIsUnique(root: Hash, a: seq<Record>, b: seq<Record>)
    requires LinkedFrom(root, a) && LinkedFrom(root, b) && SameRecords(a, b)
    ensures a == b
  {
    forall p, q | p in a && q in a && p.prev == q.prev ensures p == q { OneClaim(root, a, p, q); }
    var claims := map r | r in a :: r.prev := r;
    WalkIsForced(root, a, b, claims);
    WalkIsForced(root, b, a, claims);
  }

  /** On a linear chain the head query answers, and it answers the last record. */
  lemma LinearHead(st: Store, log: seq<Record>, h: Hash)
    requires Linear(st, log)
    ensures HeadIs(st, h) <==> h == Tip(st.genesis, log, |log|)
    ensures !Forked(st)
  {
    LinearOrders(st, log);
    var n := |Flatten(st.segments)|;
    var rest := log[n..];
    if rest == [] {
      assert st.resident == {};
    } else {
      OrderedTips(st, rest);
      assert rest[|rest| - 1] == log[|log| - 1];
      assert HeadIs(st, log[|log| - 1].Hash());
    }
  }

  // ----- The walk that orders a resident table

  ghost predicate SameRecords(order: seq<Record>, records: seq<Record>) {
    forall r :: r in order <==> r in records
  }

  /** Every record is filed under its own parent. */
  ghost predicate Files(byParent: map<Hash, Record>, records: seq<Record>) {
    && (forall h :: h in byParent ==> byParent[h].prev == h && byParent[h] in records)
    && (forall r :: r in records ==> r.prev in byParent && byParent[r.prev] == r)
  }

  /** The first half of `order_chain`: file the records by parent, unless two claim one parent. */
  method FileByParent(records: seq<Record>) returns (byParent: Option<map<Hash, Record>>)
    requires NoRepeats(records)
    ensures byParent.Some? ==> Files(byParent.value, records)
    ensures byParent == None ==> exists a, b :: a in records && b in records && a != b && a.prev == b.prev
  {
    var filed: map<Hash, Record> := map[];
    for i := 0 to |records|
      invariant forall h :: h in filed ==> filed[h].prev == h && filed[h] in records[..i]
      invariant forall k :: 0 <= k < i ==> records[k].prev in filed && filed[records[k].prev] == records[k]
    {
      var r := records[i];
      if r.prev in filed {
        return None;
      }
      filed := filed[r.prev := r];
    }
    return Some(filed);
  }

  /** `order_chain`: file the records by parent, then walk from the root. It answers exactly when the
      table is one list from that root, and what it answers is that list. */
  method OrderChain(root: Hash, records: seq<Record>) returns (ordered: Option<seq<Record>>)
    requires NoRepeats(records)
    ensures ordered.Some? ==>
              LinkedFrom(root, ordered.value) && NoRepeats(ordered.value) && SameRecords(ordered.value, records)
    ensures ordered == None ==>
              forall order :: LinkedFrom(root, order) ==> !SameRecords(order, records)
  {
    var filed := FileByParent(records);
    if filed == None {
      ghost var a, b :| a in records && b in records && a != b && a.prev == b.prev;
      forall order | LinkedFrom(root, order) ensures !SameRecords(order, records) {
        if SameRecords(order, records) { OneClaim(root, order, a, b); }
      }
      return None;
    }
    ghost var claims := filed.value;
    var byParent := filed.value;
    var cursor := root;
    var walked: seq<Record> := [];
    while cursor in byParent
      invariant LinkedFrom(root, walked)
      invariant cursor == Tip(root, walked, |walked|)
      invariant forall h :: h in byParent ==> h in claims && byParent[h] == claims[h]
      invariant forall h :: h in claims && h !in byParent ==> claims[h] in walked
      invariant forall r :: r in walked ==> r in records && r.prev !in byParent
      decreases |byParent|
    {
      var r := byParent[cursor];
      Extend(root, walked, r);
      var rest := map h | h in byParent && h != cursor :: byParent[h];
      assert rest.Keys == byParent.Keys - {cursor};
      byParent := rest;
      walked := walked + [r];
      cursor := r.Hash();
    }
    LinkedNoRepeats(root, walked);
    if byParent != map[] {
      ghost var orphan :| orphan in byParent;
      forall order | LinkedFrom(root, order) ensures !SameRecords(order, records) {
        if SameRecords(order, records) { WalkIsForced(root, walked, order, claims); }
      }
      return None;
    }
    forall r | r in records ensures r in walked { assert claims[r.prev] == r; }
    return Some(walked);
  }

  lemma Extend(root: Hash, walked: seq<Record>, r: Record)
    requires LinkedFrom(root, walked) && r.prev == Tip(root, walked, |walked|)
    ensures LinkedFrom(root, walked + [r])
    ensures Tip(root, walked + [r], |walked| + 1) == r.Hash()
    ensures forall k :: 0 <= k <= |walked| ==> Tip(root, walked + [r], k) == Tip(root, walked, k)
  {
    var more := walked + [r];
    forall k | 0 <= k < |more| ensures more[k].prev == Tip(root, more, k) {
      assert Tip(root, more, k) == Tip(root, walked, k);
    }
  }

  /** A linked list holds one record per parent. */
  lemma OneClaim(root: Hash, order: seq<Record>, a: Record, b: Record)
    requires LinkedFrom(root, order) && a in order && b in order && a.prev == b.prev
    ensures a == b
  {
    var j :| 0 <= j < |order| && order[j] == a;
    var k :| 0 <= k < |order| && order[k] == b;
    assert order[j].prev == Tip(root, order, j) && order[k].prev == Tip(root, order, k);
    TipsDiffer(root, order, j, k);
  }

  /** Every list over the claimed records follows the walk for as long as it lasts. */
  lemma {:induction false} WalkIsForced(root: Hash, walked: seq<Record>, order: seq<Record>, claims: map<Hash, Record>)
    requires LinkedFrom(root, walked) && LinkedFrom(root, order)
    requires forall r :: r in order || r in walked ==> r.prev in claims && claims[r.prev] == r
    requires Tip(root, walked, |walked|) in claims ==> claims[Tip(root, walked, |walked|)] in walked
    ensures order <= walked
  {
    if order != [] {
      var n := |order| - 1;
      var front := order[..n];
      assert LinkedFrom(root, front) by {
        forall k | 0 <= k < |front| ensures front[k].prev == Tip(root, front, k) {
          assert order[k].prev == Tip(root, order, k);
        }
      }
      WalkIsForced(root, walked, front, claims);
      assert order[n].prev == Tip(root, order, n) == Tip(root, walked, n);
      assert order[n] in order;
      if n == |walked| {
        var r := claims[Tip(root, walked, n)];
        var j :| 0 <= j < |walked| && walked[j] == r;
        assert walked[j].prev == Tip(root, walked, j);
        TipsDiffer(root, walked, j, n);
      } else {
        assert walked[n].prev == Tip(root, walked, n) && walked[n] in walked;
      }
    }
  }

  // ----- Coverage: what the identity tables say of the chain

  /** `row` names `r` and says where it is. */
  predicate Names(row: Copy, st: Store, r: Record) {
    && row.hash == r.Hash() && row.digest == Digest(r.decision)
    && match row.segment
       case None => r in st.resident
       case Some(j) => j < |st.segments| && r in st.segments[j]
  }

  ghost predicate Vouched(st: Store, log: seq<Record>, id: string)
    requires id in st.books.identity
  {
    exists k :: 0 <= k < |log| && log[k].Id() == id && Names(st.books.identity[id], st, log[k])
  }

  /** The tables hold every record of `log` exactly once: resident, or in one sealed run. */
  ghost predicate Partition(st: Store, log: seq<Record>) {
    && NoRepeats(log)
    && NoRepeats(Flatten(st.segments))
    && (forall r :: r in log <==> r in st.resident || r in Flatten(st.segments))
    && forall r :: r in st.resident ==> r !in Flatten(st.segments)
  }

  /** A record exists exactly when its id has a row, every row names a record of its id, and only an id
      that carries a collision row was ever spent twice. */
  ghost predicate Covered(st: Store, log: seq<Record>) {
    && Partition(st, log)
    && (forall k :: 0 <= k < |log| ==> log[k].Id() in st.books.identity)
    && (forall id :: id in st.books.identity ==> Vouched(st, log, id))
    && (forall j, k :: 0 <= j < k < |log| && log[j].Id() == log[k].Id() ==> log[j].Id() in st.books.collisions)
    && st.books.collisions <= st.books.identity.Keys
  }

  /** Every record was chained onto something that was in the chain before it. */
  ghost predicate Rooted(st: Store, log: seq<Record>) {
    && st.genesis.Genesis?
    && forall k :: 0 <= k < |log| ==> Known(st, log[..k], log[k].prev)
  }

  /** `h` is genesis or the hash of a record of `log`: something a head read can have answered. */
  ghost predicate Known(st: Store, log: seq<Record>, h: Hash) {
    h == st.genesis || exists r :: r in log && r.Hash() == h
  }

  /** Some sealed record already claims `h`, so the index over resident rows no longer guards it. */
  predicate Stale(st: Store, h: Hash) {
    exists r :: r in Flatten(st.segments) && r.prev == h
  }
}
