/**
  Decision ids: how the kernel mints and prints them (crates/rahi-kernel/src/lib.rs) and how the edge reads one
  back from a denial's message (crates/rahi-edge/src/error.rs).
*/
module DecisionIds {
  import opened Wrappers
  import opened Lexing

  const U64 := 0x1_0000_0000_0000_0000
  const NONCE_LEN := 16
  const SEQ_WIDTH := 12

  function Digit(d: nat): char
    requires d < 10
  {
    '0' + d as char
  }

  function Decimal(n: nat): (text: string)
    ensures text != ""
  {
    if n < 10 then [Digit(n)] else Decimal(n / 10) + [Digit(n % 10)]
  }

  /** Zeros in front up to the width, and never fewer digits than the number has. */
  function Padded(text: string, width: nat): string
    decreases width - |text|
  {
    if |text| >= width then text else Padded("0" + text, width)
  }

  /** The tail of the chain head a kernel booted on. */
  function BootNonce(head: string): string {
    if |head| <= NONCE_LEN then head else head[|head| - NONCE_LEN..]
  }

  datatype Mint = Mint(nonce: string, node: nat, number: nat)

  function Print(m: Mint): string {
    "kernel:" + m.nonce + ":" + Decimal(m.node) + ":" + Padded(Decimal(m.number), SEQ_WIDTH)
  }

  /** The kernel's counter: 64 bits, wrapping. */
  class Counter {
    const nonce: string
    const node: nat
    var number: nat
    ghost var minted: nat

    ghost predicate Valid()
      reads this
    {
      number == minted % U64
    }

    /** A kernel booted on `head`. */
    constructor (head: string, node: nat)
      ensures Valid() && minted == 0 && nonce == BootNonce(head) && this.node == node
    {
      nonce, this.node, number, minted := BootNonce(head), node, 0, 0;
    }

    /** Takes a number and moves on: the id of the `minted`-th call, counting from zero. */
    method NextId() returns (id: string)
      requires Valid()
      modifies this
      ensures Valid() && minted == old(minted) + 1
      ensures id == Print(Mint(nonce, node, old(minted) % U64))
    {
      id := Print(Mint(nonce, node, number));
      number := if number == U64 - 1 then 0 else number + 1;
      minted := minted + 1;
    }
  }

  // ----- Reading one back

  /** The first place where a colon is followed by a space. */
  function Separator(message: string, from: nat): (at: Option<nat>)
    requires from <= |message|
    ensures at.Some? ==> from <= at.value < |message|
    decreases |message| - from
  {
    if from + 2 > |message| then None
    else if message[from] == ':' && message[from + 1] == ' ' then Some(from)
    else Separator(message, from + 1)
  }

  predicate HasSpace(text: string) {
    exists i :: 0 <= i < |text| && IsSpace(text[i])
  }

  /** `decision_id` on a denial's message. */
  function DecisionId(message: string): Option<string> {
    match Separator(message, 0)
    case None => None
    case Some(at) =>
      var id := message[..at];
      if id != "" && ':' in id && !HasSpace(id) then Some(id) else None
  }

  // ----- Printing is injective

  predicate Digits(text: string) {
    forall i :: 0 <= i < |text| ==> '0' <= text[i] <= '9'
  }

  function Value(text: string): nat
    requires Digits(text)
  {
    if text == "" then 0 else 10 * Value(text[..|text| - 1]) + (text[|text| - 1] - '0') as nat
  }

  lemma {:induction false} DecimalReadsBack(n: nat)
    ensures Digits(Decimal(n)) && Value(Decimal(n)) == n
  {
    if n >= 10 {
      DecimalReadsBack(n / 10);
      assert Decimal(n)[..|Decimal(n)| - 1] == Decimal(n / 10);
    }
  }

  lemma {:induction false} ZeroInFront(text: string)
    requires Digits(text)
    ensures Digits("0" + text) && Value("0" + text) == Value(text)
  {
    var more := "0" + text;
    if text == "" {
      assert more[..0] == "";
    } else {
      ZeroInFront(text[..|text| - 1]);
      assert more[..|more| - 1] == "0" + text[..|text| - 1];
    }
  }

  lemma {:induction false} PaddingKeepsValue(text: string, width: nat)
    requires Digits(text)
    ensures Digits(Padded(text, width)) && Value(Padded(text, width)) == Value(text)
    decreases width - |text|
  {
    if |text| < width {
      ZeroInFront(text);
      PaddingKeepsValue("0" + text, width);
    }
  }

  /** Two texts that end in a colon and digits agree only part by part. */
  lemma SplitAtLastColon(a: string, x: string, b: string, y: string)
    requires Digits(x) && Digits(y) && a + ":" + x == b + ":" + y
    ensures a == b && x == y
  {
    var s, t := a + ":" + x, b + ":" + y;
    assert s[|a|] == ':' && t[|b|] == ':';
    forall k | |a| < k < |s| ensures s[k] != ':' { assert s[k] == x[k - |a| - 1]; }
    forall k | |b| < k < |t| ensures t[k] != ':' { assert t[k] == y[k - |b| - 1]; }
    assert s[..|a|] == a && t[..|b|] == b && s[|a| + 1..] == x && t[|b| + 1..] == y;
  }

  /** A kernel's nonce is its chain head's last sixteen characters, or all of a shorter head. */
  lemma TheNonceIsTheTail(head: string)
    ensures |BootNonce(head)| == (if |head| < 16 then |head| else 16)
    ensures exists front: string :: head == front + BootNonce(head)
  {
    var front := if |head| <= 16 then "" else head[..|head| - 16];
    assert head == front + BootNonce(head);
  }

  /** Padding puts zeros in front until the width is reached, and never cuts. */
  lemma {:induction false} PaddedIs(text: string, width: nat) returns (zeros: string)
    ensures Padded(text, width) == zeros + text && forall i :: 0 <= i < |zeros| ==> zeros[i] == '0'
    ensures |Padded(text, width)| == (if |text| < width then width else |text|)
    decreases width - |text|
  {
    if |text| >= width {
      zeros := "";
    } else {
      var more := PaddedIs("0" + text, width);
      zeros := more + "0";
      assert more + ("0" + text) == zeros + text;
    }
  }

  /** An id is the word `kernel`, the nonce, the node and the number in at least twelve digits, between colons. */
  lemma AnIdIs(m: Mint) returns (zeros: string)
    ensures Print(m) == "kernel:" + m.nonce + ":" + Decimal(m.node) + ":" + (zeros + Decimal(m.number))
    ensures |zeros + Decimal(m.number)| == (if |Decimal(m.number)| < 12 then 12 else |Decimal(m.number)|)
    ensures forall i :: 0 <= i < |zeros| ==> zeros[i] == '0'
  {
    hide Decimal, Padded;
    zeros := PaddedIs(Decimal(m.number), SEQ_WIDTH);
  }

  /** Ids are equal only for the same nonce, node and number: kernels that differ in nonce or node never share
      one, whatever their nonces look like. */
  lemma IdsAreDistinct(m: Mint, m': Mint)
    ensures Print(m) == Print(m') <==> m == m'
  {
    if Print(m) == Print(m') {
      hide Decimal, Padded;
      DecimalReadsBack(m.node);
      DecimalReadsBack(m'.node);
      DecimalReadsBack(m.number);
      DecimalReadsBack(m'.number);
      PaddingKeepsValue(Decimal(m.number), SEQ_WIDTH);
      PaddingKeepsValue(Decimal(m'.number), SEQ_WIDTH);
      SplitAtLastColon("kernel:" + m.nonce + ":" + Decimal(m.node), Padded(Decimal(m.number), SEQ_WIDTH),
                       "kernel:" + m'.nonce + ":" + Decimal(m'.node), Padded(Decimal(m'.number), SEQ_WIDTH));
      SplitAtLastColon("kernel:" + m.nonce, Decimal(m.node), "kernel:" + m'.nonce, Decimal(m'.node));
      assert ("kernel:" + m.nonce)[7..] == m.nonce && ("kernel:" + m'.nonce)[7..] == m'.nonce;
    }
  }

  /** One kernel repeats an id exactly after its counter has gone all the way round. */
  lemma OneKernelRepeatsOnlyByWrapping(nonce: string, node: nat, j: nat, k: nat)
    ensures Print(Mint(nonce, node, j % U64)) == Print(Mint(nonce, node, k % U64)) <==> j % U64 == k % U64
    ensures j < k < j + U64 ==> Print(Mint(nonce, node, j % U64)) != Print(Mint(nonce, node, k % U64))
  {
    IdsAreDistinct(Mint(nonce, node, j % U64), Mint(nonce, node, k % U64));
  }

  // ----- Parsing undoes printing

  lemma {:induction false} SeparatorAfterId(id: string, rest: string, from: nat)
    requires from <= |id| && !HasSpace(id)
    ensures Separator(id + ": " + rest, from) == Some(|id|)
    decreases |id| - from
  {
    var message := id + ": " + rest;
    if from < |id| {
      assert message[from + 1] != ' ' by {
        if from + 1 < |id| { assert message[from + 1] == id[from + 1] && !IsSpace(id[from + 1]); }
      }
      SeparatorAfterId(id, rest, from + 1);
    } else {
      assert message[from] == ':' && message[from + 1] == ' ';
    }
  }

  lemma SpaceOnlyInNonce(m: Mint)
    ensures HasSpace(Print(m)) <==> HasSpace(m.nonce)
  {
    hide Decimal, Padded, Value;
    DecimalReadsBack(m.node);
    DecimalReadsBack(m.number);
    PaddingKeepsValue(Decimal(m.number), SEQ_WIDTH);
    var head, node, number := "kernel:", Decimal(m.node), Padded(Decimal(m.number), SEQ_WIDTH);
    var tail := ":" + node + ":" + number;
    assert Print(m) == head + m.nonce + tail;
    assert !HasSpace(head) && !HasSpace(tail);
    if i :| 0 <= i < |m.nonce| && IsSpace(m.nonce[i]) {
      assert Print(m)[|head| + i] == m.nonce[i];
    }
    forall i | 0 <= i < |Print(m)| && !(|head| <= i < |head| + |m.nonce|) ensures !IsSpace(Print(m)[i]) {
      assert Print(m)[i] == if i < |head| then head[i] else tail[i - |head| - |m.nonce|];
    }
    if i :| 0 <= i < |Print(m)| && IsSpace(Print(m)[i]) {
      assert Print(m)[i] == m.nonce[i - |head|];
    }
  }

  /** The denial the kernel prints, `id: reason`, gives back exactly its id whatever the reason says, and this
      holds for precisely the nonces without white space. */
  lemma DenialReadsBack(m: Mint, reason: string)
    ensures DecisionId(Print(m) + ": " + reason) == Some(Print(m)) <==> !HasSpace(m.nonce)
  {
    var id, message := Print(m), Print(m) + ": " + reason;
    SpaceOnlyInNonce(m);
    assert id[6] == ':';
    if !HasSpace(id) {
      SeparatorAfterId(id, reason, 0);
      assert message[..|id|] == id;
    }
  }

  /** An id is read from a message exactly when the message begins with it, a colon and a space, and it has a colon of
      its own and no white space. */
  lemma ADenialHasAnIdIff(message: string, id: string)
    ensures DecisionId(message) == Some(id) <==>
            && id != "" && ':' in id && !HasSpace(id)
            && exists reason: string :: message == id + ": " + reason
  {
    if reason: string :| message == id + ": " + reason && !HasSpace(id) {
      SeparatorAfterId(id, reason, 0);
      assert message[..|id|] == id;
    }
    if DecisionId(message) == Some(id) {
      SeparatorIs(message, 0);
      assert message == id + ": " + message[|id| + 2..];
    }
  }

  lemma {:induction false} SeparatorIs(message: string, from: nat)
    requires from <= |message| && Separator(message, from).Some?
    ensures var at := Separator(message, from).value;
            at + 2 <= |message| && message[at] == ':' && message[at + 1] == ' '
    decreases |message| - from
  {
    if !(message[from] == ':' && message[from + 1] == ' ') { SeparatorIs(message, from + 1); }
  }
}
