/**
  The wait before a retried append (crates/rahi-ledger/src/append.rs), in microseconds.
*/
module Backoff {
  import opened Wrappers
  import Append

  const APPEND_BACKOFF_BASE: nat := 5_000
  const APPEND_BACKOFF_CAP: nat := 250_000

  const FNV_BASIS: bv64 := 0xcbf2_9ce4_8422_2325
  const FNV_PRIME: bv64 := 0x0000_0100_0000_01b3

  function Power2(n: nat): nat {
    if n == 0 then 1 else 2 * Power2(n - 1)
  }

  /** The window of the wait before attempt `attempt`: `saturating_sub(1).min(16)` doublings, then the cap. */
  function Window(attempt: nat): nat {
    var doublings := Min(if attempt == 0 then 0 else attempt - 1, 16);
    Min(APPEND_BACKOFF_BASE * Power2(doublings), APPEND_BACKOFF_CAP)
  }

  function LittleEndian(salt: bv32): seq<bv8> {
    [(salt & 0xff) as bv8, ((salt >> 8) & 0xff) as bv8, ((salt >> 16) & 0xff) as bv8, (salt >> 24) as bv8]
  }

  /** One byte's turn: fold it in, then multiply with wrap-around. */
  function Mix(hash: bv64, part: bv8): bv64 {
    (hash ^ (part as bv64)) * FNV_PRIME
  }

  function Fnv(bytes: seq<bv8>): bv64 {
    if bytes == [] then FNV_BASIS else Mix(Fnv(bytes[..|bytes| - 1]), bytes[|bytes| - 1])
  }

  /** The hash of the id's bytes chained with the attempt's four. */
  method Fnv1a(text: seq<bv8>, salt: bv32) returns (hash: bv64)
    ensures hash == Fnv(text + LittleEndian(salt))
  {
    hide Mix, LittleEndian;
    hash := FNV_BASIS;
    var bytes := text + LittleEndian(salt);
    for i := 0 to |bytes|
      invariant hash == Fnv(bytes[..i])
    {
      assert bytes[..i + 1][..i] == bytes[..i];
      hash := Mix(hash, bytes[i]);
    }
    assert bytes[..|bytes|] == bytes;
  }

  function Wait(text: seq<bv8>, attempt: nat): nat
    requires attempt < 0x1_0000_0000
  {
    var half := Window(attempt) / 2;
    half + (Fnv(text + LittleEndian(attempt as bv32)) as nat) % (if half < 1 then 1 else half)
  }

  /** The salt's four bytes, least significant first. */
  lemma TheSaltReadsBack(salt: bv32)
    ensures var bytes := LittleEndian(salt);
            && |bytes| == 4
            && (bytes[0] as bv32) | ((bytes[1] as bv32) << 8) | ((bytes[2] as bv32) << 16) | ((bytes[3] as bv32) << 24)
               == salt
  {}

  /** The published test values of 64-bit FNV-1a for the empty text and for the letter a. */
  lemma KnownAnswers()
    ensures Fnv([]) == 0xcbf2_9ce4_8422_2325 && Fnv([0x61]) == 0xaf63_dc4c_8601_ec8c
  {
    assert [0x61][..0] == [];
  }

  /** The wait is a point in the upper half of its window, and the same append always waits the same. */
  method Backoff(text: seq<bv8>, attempt: nat) returns (wait: nat)
    requires attempt < 0x1_0000_0000
    ensures wait == Wait(text, attempt)
    ensures Window(attempt) / 2 <= wait < Window(attempt)
  {
    WaitInWindow(text, attempt);
    var half := Window(attempt) / 2;
    var spread := if half < 1 then 1 else half;
    var hash := Fnv1a(text, attempt as bv32);
    wait := half + hash as nat % spread;
  }

  lemma PowerIsPositive(n: nat)
    ensures Power2(n) >= 1
  {}

  lemma WaitInWindow(text: seq<bv8>, attempt: nat)
    requires attempt < 0x1_0000_0000
    ensures Window(attempt) / 2 <= Wait(text, attempt) < Window(attempt)
    ensures APPEND_BACKOFF_BASE <= Window(attempt) <= APPEND_BACKOFF_CAP
  {
    PowerIsPositive(Min(if attempt == 0 then 0 else attempt - 1, 16));
    var half := Window(attempt) / 2;
    var hash := Fnv(text + LittleEndian(attempt as bv32)) as nat;
    assert half >= 1;
    assert 0 <= hash % half < half;
  }

  /** Each window doubles the one before it until the cap, and stays there for every later attempt. */
  lemma WindowDoublesToTheCap(attempt: nat)
    requires attempt >= 1
    ensures Window(attempt + 1) == Min(2 * Window(attempt), APPEND_BACKOFF_CAP)
  {
    var d := attempt - 1;
    if d < 16 {
      assert Power2(d + 1) == 2 * Power2(d);
    } else {
      assert Power2(16) == 65536 by { assert Power2(8) == 256; }
    }
  }

  /** The waits before attempts 1 to `last`. */
  function TotalWait(text: seq<bv8>, last: nat): nat
    requires last < 0x1_0000_0000
  {
    if last == 0 then 0 else TotalWait(text, last - 1) + Wait(text, last)
  }

  function TotalWindow(last: nat): nat {
    if last == 0 then 0 else TotalWindow(last - 1) + Window(last)
  }

  lemma {:induction false} TotalUnderWindows(text: seq<bv8>, last: nat)
    requires last < 0x1_0000_0000
    ensures TotalWait(text, last) + last <= TotalWindow(last)
  {
    hide Window, Wait;
    if last > 0 {
      TotalUnderWindows(text, last - 1);
      WaitInWindow(text, last);
    }
  }

  /** All the waits one append can spend losing stay under two seconds, whatever its id. */
  lemma ElevenWaitsFitTheBudget(text: seq<bv8>)
    ensures TotalWait(text, Append.APPEND_ATTEMPTS - 1) < 2_000_000
  {
    TotalUnderWindows(text, 11);
    assert Window(1) == 5_000;
    WindowDoublesToTheCap(1);
    WindowDoublesToTheCap(2);
    WindowDoublesToTheCap(3);
    WindowDoublesToTheCap(4);
    WindowDoublesToTheCap(5);
    assert TotalWindow(6) == 315_000;
    WindowDoublesToTheCap(6);
    WindowDoublesToTheCap(7);
    WindowDoublesToTheCap(8);
    WindowDoublesToTheCap(9);
    WindowDoublesToTheCap(10);
    assert TotalWindow(11) == 1_565_000;
  }
}
