/**
  The append protocol of crates/rahi-ledger/src/append.rs as a state machine over its steps.

  One `Call` is one invocation of `append`, `append_once` or `append_genesis`. Its `pc` stands at each
  point where the source awaits: between two steps of one call any other step may run. A sent
  transaction is decided by the store at once, later or never, and its acknowledgement may be lost
  whatever was decided.
*/
module Append {
  import opened Wrappers
  import opened Chain

  /** How many times an append chains onto the head before it gives up. */
  const APPEND_ATTEMPTS: nat := 12

  datatype Gate = Backstopped | Ungated

  datatype Refusal = NoId | RepairHandle | Unproven | Reused | Ambiguous | LostEveryAttempt | StoreFailed

  datatype Return =
    | Landed(hash: Hash, appendedNow: bool, sealedIn: Option<nat>)
    | Refused(why: Refusal)

  datatype Pc =
    | Checking                        // about to read the cached verdict
    | CheckingRows                    // the verdict is incomplete: about to read the id's rows
    | Reading                         // about to read the head
    | Sending(parent: Hash)           // the record is built
    | Waiting(parent: Hash, tx: nat)  // the transaction is sent
    | Classifying(parent: Hash)       // the send returned an error: about to read the id's rows
    | Rereading(parent: Hash)         // no row: about to read the head again
    | LookingUp(hash: Hash)           // `append_once` asks where the decision is
    | Returned(answer: Return)

  /** One invocation. The last four fields are history: the chain's length when the call began and when
      it last read the head, the positions its lost attempts are charged to, and the attempts whose
      backstop check saw a complete verdict. */
  datatype Call = Call(decision: Decision, node: nat, gate: Gate, once: bool, attempt: nat, pc: Pc,
                       began: nat, seen: nat, lost: seq<nat>, cleared: set<nat>)

  datatype Status = InFlight | Committed | Rejected

  datatype Tx = Tx(owner: nat, attempt: nat, record: Record, seen: nat, status: Status)

  /** What every call shares: the store and the transactions it was sent. `log` is history: every record
      ever committed, in commit order. */
  datatype World = World(store: Store, log: seq<Record>, txs: seq<Tx>)

  /** One call of `seal_if_needed`: it counted the resident rows, read the chain, then read the segments, when
      `from`, `base` and `previous` segments stood. The last one it read is the predecessor its header names;
      `from` and `base` are history. */
  datatype Sealer =
    | Counted(from: nat)
    | Ordered(from: nat, base: nat, run: seq<Record>)
    | Holding(from: nat, base: nat, run: seq<Record>, previous: nat)

  /** `crowd` is history: how many records were sealed between the last sealer's count and its commit. */
  datatype State = State(w: World, calls: seq<Call>, degraded: set<nat>, sealers: seq<Sealer>, crowd: int)

  datatype Step =
    | Invoke(decision: Decision, node: nat, gate: Gate, once: bool, repair: bool)
    | Check(i: nat)
    | CheckRows(i: nat)
    | ReadHead(i: nat, head: Hash)
    | Send(i: nat)
    | Decide(t: nat)
    | Acknowledge(i: nat)
    | LoseAcknowledgement(i: nat)
    | Classify(i: nat)
    | Reread(i: nat, head: Hash)
    | LookUp(i: nat)
    | FailRead(i: nat)
    | CountRows                             // a sealer finds more rows than the hot window
    | ReadRun(n: nat, order: seq<Record>)   // it reads the chain and takes the oldest run
    | ReadSegments(n: nat)                  // it reads the segments and names the last one as predecessor
    | CommitRun(n: nat)                     // its body is archived and its transaction arrives
    | DegradeVerdict(node: nat)

  // ----- What one call does

  function Begin(gate: Gate): Pc {
    if gate == Backstopped then Checking else Reading
  }

  /** The decision is in the chain under `hash`; `append_once` still asks where, unless it appended it now. */
  function Land(c: Call, hash: Hash, now: bool): Pc {
    if c.once && !now then LookingUp(hash) else Returned(Landed(hash, now, None))
  }

  /** `append_reported` up to its first check. */
  function Enter(d: Decision, node: nat, gate: Gate, once: bool, repair: bool, length: nat): Call {
    var pc := if gate == Ungated then Reading
              else if d.id == "" then Returned(Refused(NoId))
              else if repair then Returned(Refused(RepairHandle))
              else Checking;
    Call(d, node, gate, once, 0, pc, length, length, [], {})
  }

  function ReadVerdict(c: Call, complete: bool): Call {
    if complete then c.(pc := Reading, cleared := c.cleared + {c.attempt}) else c.(pc := CheckingRows)
  }

  /** The rows of the call's id: ambiguous, absent, another decision's, or this decision's own. */
  function RowsRefusal(books: Books, d: Decision): Option<Refusal> {
    if d.id in books.collisions then Some(Ambiguous)
    else if d.id in books.identity && books.identity[d.id].digest != Digest(d) then Some(Reused)
    else None
  }

  /** `backstop` under an incomplete verdict. */
  function ReadRowsToCheck(c: Call, books: Books): Call {
    match RowsRefusal(books, c.decision)
    case Some(why) => c.(pc := Returned(Refused(why)))
    case None =>
      if c.decision.id in books.identity then c.(pc := Land(c, books.identity[c.decision.id].hash, false))
      else c.(pc := Returned(Refused(Unproven)))
  }

  /** `classify` up to its head question. */
  function ReadRowsToClassify(c: Call, books: Books): Call
    requires c.pc.Classifying?
  {
    match RowsRefusal(books, c.decision)
    case Some(why) => c.(pc := Returned(Refused(why)))
    case None =>
      if c.decision.id in books.identity then c.(pc := Land(c, books.identity[c.decision.id].hash, false))
      else c.(pc := Rereading(c.pc.parent))
  }

  /** The head question: the head stood still and the store's error is the answer, or the head moved and
      the attempt is lost. The lost attempt is charged to the record that followed the head it read. */
  function ReadHeadAgain(c: Call, head: Hash): Call
    requires c.pc.Rereading?
  {
    if head == c.pc.parent then c.(pc := Returned(Refused(StoreFailed)))
    else
      var next := c.(attempt := c.attempt + 1, lost := c.lost + [c.seen]);
      if next.attempt < APPEND_ATTEMPTS then next.(pc := Begin(c.gate))
      else next.(pc := Returned(Refused(LostEveryAttempt)))
  }

  function FoundAt(c: Call, books: Books): Call
    requires c.pc.LookingUp?
  {
    var id := c.decision.id;
    var sealedIn := if id in books.collisions || id !in books.identity then None else books.identity[id].segment;
    c.(pc := Returned(Landed(c.pc.hash, false, sealedIn)))
  }

  function WithCall(s: State, i: nat, c: Call): State
    requires i < |s.calls|
  {
    s.(calls := s.calls[i := c])
  }

  // ----- What the store does

  /** The store decides a transaction: both inserts, or neither. */
  function DecideTx(w: World, t: nat): World
    requires t < |w.txs|
  {
    var tx := w.txs[t];
    if Admits(w.store, tx.record) then
      World(Insert(w.store, tx.record), w.log + [tx.record], w.txs[t := tx.(status := Committed)])
    else
      w.(txs := w.txs[t := tx.(status := Rejected)])
  }

  function SendTx(w: World, i: nat, c: Call): World
    requires c.pc.Sending?
  {
    w.(txs := w.txs + [Tx(i, c.attempt, Record(c.pc.parent, c.decision), c.seen, InFlight)])
  }

  /** How many records the first `count` segments hold. */
  function SealedIn(segments: seq<seq<Record>>, count: nat): nat {
    if count <= |segments| then |Flatten(segments[..count])| else 0
  }

  /** The keys of the segment table: a segment of these very records stands, or one that names the same
      predecessor. */
  predicate KeyTaken(st: Store, sealer: Sealer)
    requires sealer.Holding?
  {
    sealer.run in st.segments || sealer.previous < |st.segments|
  }

  /** The seal transaction. */
  function CommitSeal(s: State, n: nat): State
    requires n < |s.sealers| && s.sealers[n].Holding?
  {
    var sealer, st := s.sealers[n], s.w.store;
    if KeyTaken(st, sealer) then s
    else
      var after := SealRun(st, sealer.run);
      s.(w := s.w.(store := after), crowd := |Flatten(after.segments)| - SealedIn(st.segments, sealer.from))
  }

  // ----- Steps

  ghost predicate Enabled(policy: Policy, s: State, step: Step) {
    match step
    case Invoke(_, _, gate, _, _) => gate == Ungated ==> s.w.store.resident == {} && s.w.store.segments == []
    case Check(i) => i < |s.calls| && s.calls[i].pc.Checking?
    case CheckRows(i) => i < |s.calls| && s.calls[i].pc.CheckingRows?
    case ReadHead(i, head) => i < |s.calls| && s.calls[i].pc.Reading? && HeadIs(s.w.store, head)
    case Send(i) => i < |s.calls| && s.calls[i].pc.Sending?
    case Decide(t) => t < |s.w.txs| && s.w.txs[t].status == InFlight
    case Acknowledge(i) =>
      i < |s.calls| && s.calls[i].pc.Waiting? && s.calls[i].pc.tx < |s.w.txs| &&
      s.w.txs[s.calls[i].pc.tx].status == Committed
    case LoseAcknowledgement(i) => i < |s.calls| && s.calls[i].pc.Waiting?
    case Classify(i) => i < |s.calls| && s.calls[i].pc.Classifying?
    case Reread(i, head) => i < |s.calls| && s.calls[i].pc.Rereading? && HeadIs(s.w.store, head)
    case LookUp(i) => i < |s.calls| && s.calls[i].pc.LookingUp?
    case FailRead(i) => i < |s.calls| && ReadsStore(s.calls[i].pc)
    case CountRows => |s.w.store.resident| > policy.hotWindow
    case ReadRun(n, order) =>
      n < |s.sealers| && s.sealers[n].Counted? && Orders(s.w.store, order) && |order| > policy.segmentSize
    case ReadSegments(n) => n < |s.sealers| && s.sealers[n].Ordered?
    case CommitRun(n) => n < |s.sealers| && s.sealers[n].Holding?
    case DegradeVerdict(_) => true
  }

  predicate ReadsStore(pc: Pc) {
    pc.CheckingRows? || pc.Reading? || pc.Classifying? || pc.Rereading? || pc.LookingUp?
  }

  ghost function Do(policy: Policy, s: State, step: Step): State
    requires Enabled(policy, s, step)
  {
    match step
    case Invoke(d, node, gate, once, repair) =>
      s.(calls := s.calls + [Enter(d, node, gate, once, repair, |s.w.log|)])
    case Check(i) => WithCall(s, i, ReadVerdict(s.calls[i], s.calls[i].node !in s.degraded))
    case CheckRows(i) => WithCall(s, i, ReadRowsToCheck(s.calls[i], s.w.store.books))
    case ReadHead(i, head) => WithCall(s, i, s.calls[i].(pc := Sending(head), seen := |s.w.log|))
    case Send(i) =>
      var c := s.calls[i];
      WithCall(s, i, c.(pc := Waiting(c.pc.parent, |s.w.txs|))).(w := SendTx(s.w, i, c))
    case Decide(t) => s.(w := DecideTx(s.w, t))
    case Acknowledge(i) =>
      var c := s.calls[i];
      WithCall(s, i, c.(pc := Land(c, s.w.txs[c.pc.tx].record.Hash(), true)))
    case LoseAcknowledgement(i) => WithCall(s, i, s.calls[i].(pc := Classifying(s.calls[i].pc.parent)))
    case Classify(i) => WithCall(s, i, ReadRowsToClassify(s.calls[i], s.w.store.books))
    case Reread(i, head) => WithCall(s, i, ReadHeadAgain(s.calls[i], head))
    case LookUp(i) => WithCall(s, i, FoundAt(s.calls[i], s.w.store.books))
    case FailRead(i) => WithCall(s, i, s.calls[i].(pc := Returned(Refused(StoreFailed))))
    case CountRows => s.(sealers := s.sealers + [Counted(|s.w.store.segments|)])
    case ReadRun(n, order) =>
      s.(sealers := s.sealers[n := Ordered(s.sealers[n].from, |s.w.store.segments|, order[..policy.segmentSize])])
    case ReadSegments(n) =>
      var was := s.sealers[n];
      s.(sealers := s.sealers[n := Holding(was.from, was.base, was.run, |s.w.store.segments|)])
    case CommitRun(n) => CommitSeal(s, n)
    case DegradeVerdict(node) => s.(degraded := s.degraded + {node})
  }

  ghost predicate Next(policy: Policy, s: State, t: State) {
    exists step :: Enabled(policy, s, step) && t == Do(policy, s, step)
  }

  /** A covered linear chain, with ids history may have spent twice, and nothing running. */
  ghost predicate Init(s: State) {
    && Linear(s.w.store, s.w.log) && Rooted(s.w.store, s.w.log) && Covered(s.w.store, s.w.log)
    && s.w.txs == [] && s.calls == [] && s.sealers == [] && s.crowd == 0
  }

  /** Any finite run: every interleaving of any number of calls, decisions, sealers and degradations. */
  ghost predicate Run(policy: Policy, run: seq<State>) {
    && policy.Valid()
    && run != [] && Init(run[0])
    && forall k :: 0 <= k < |run| - 1 ==> Next(policy, run[k], run[k + 1])
  }
}
