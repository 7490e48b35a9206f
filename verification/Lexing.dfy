/**
  The two character-level walks of crates/rahi-kernel/src/verify.rs: the span of a balanced argument list,
  and its split on top-level commas. Both skip what stands inside a string literal.

  Text is a sequence of characters; every delimiter is ASCII, so the source's byte offsets and these character
  offsets pick out the same pieces.
*/
module Lexing {
  import opened Wrappers

  /** Where a walk stands: in code, inside a string literal, or right after a backslash inside one. */
  datatype Lex = Code | Str | Escaped

  function Advance(lex: Lex, c: char): Lex {
    match lex
    case Code => if c == '"' then Str else Code
    case Str => if c == '\\' then Escaped else if c == '"' then Code else Str
    case Escaped => Str
  }

  // ----- Balanced parentheses

  /** Where the walk that began at `from` stands before offset `i`. */
  function LexAt(text: string, from: nat, i: nat): Lex
    requires from <= i <= |text|
  {
    if i == from then Code else Advance(LexAt(text, from, i - 1), text[i - 1])
  }

  /** The character `c` stands at `i` as code, not inside a string literal. */
  predicate CodeAt(text: string, from: nat, i: nat, c: char) {
    from <= i < |text| && LexAt(text, from, i) == Code && text[i] == c
  }

  /** Open parentheses in code minus closed ones, over `text[from..i]`. */
  function Depth(text: string, from: nat, i: nat): int
    requires from <= i <= |text|
  {
    if i == from then 0
    else Depth(text, from, i - 1) + (if CodeAt(text, from, i - 1, '(') then 1 else 0)
         - (if CodeAt(text, from, i - 1, ')') then 1 else 0)
  }

  predicate NoParens(text: string, from: nat, upTo: nat) {
    forall i :: from <= i < upTo ==> !CodeAt(text, from, i, '(') && !CodeAt(text, from, i, ')')
  }

  /** The first parenthesis from `from` on opens right before `start`, and the one at `end` is the first that
      closes it. */
  ghost predicate Spans(text: string, from: nat, start: nat, end: nat) {
    && from < start <= end < |text|
    && NoParens(text, from, start - 1) && CodeAt(text, from, start - 1, '(')
    && Depth(text, from, end + 1) == 0
    && forall i :: start <= i <= end ==> Depth(text, from, i) >= 1
  }

  lemma {:induction false} NoParensNoDepth(text: string, from: nat, i: nat)
    requires from <= i <= |text| && NoParens(text, from, i)
    ensures Depth(text, from, i) == 0
  {
    if i > from { NoParensNoDepth(text, from, i - 1); }
  }

  lemma SpanIsUnique(text: string, from: nat, s: nat, e: nat, s': nat, e': nat)
    requires Spans(text, from, s, e) && Spans(text, from, s', e')
    ensures s == s' && e == e'
  {
    assert CodeAt(text, from, s - 1, '(') && CodeAt(text, from, s' - 1, '(');
    hide CodeAt, Depth;
    assert s <= e' + 1 && s' <= e + 1;
  }

  lemma SpanNeedsOpening(text: string, from: nat, i: nat, s: nat, e: nat)
    requires NoParens(text, from, i) && CodeAt(text, from, i, ')') && from < s <= e < |text|
    requires CodeAt(text, from, s - 1, '(')
    ensures !NoParens(text, from, s - 1)
  {
    assert s - 1 > i;
  }

  /** The span between the first parenthesis from `from` on and the one that closes it: found exactly when
      there is one, and none when a closing parenthesis comes first or the text ends too early. */
  method Balanced(text: string, from: nat) returns (span: Option<(nat, nat)>)
    ensures forall s: nat, e: nat :: Spans(text, from, s, e) <==> span == Some((s, e))
  {
    var depth := 0;
    var start: Option<nat> := None;
    var inStr, escaped := false, false;
    var i := from;
    while i < |text|
      invariant from <= |text| ==> from <= i <= |text|
      invariant from > |text| ==> i == from && start == None
      invariant i <= |text| ==> inStr == (LexAt(text, from, i) != Code) && escaped == (LexAt(text, from, i) == Escaped)
      invariant i <= |text| ==> depth == Depth(text, from, i)
      invariant start.None? ==> depth == 0 && NoParens(text, from, i)
      invariant start.Some? ==>
        && from < start.value <= i <= |text|
        && NoParens(text, from, start.value - 1) && CodeAt(text, from, start.value - 1, '(')
        && forall j :: start.value <= j <= i ==> Depth(text, from, j) >= 1
    {
      var c := text[i];
      if inStr {
        if escaped {
          escaped := false;
        } else if c == '\\' {
          escaped := true;
        } else if c == '"' {
          inStr := false;
        }
        i := i + 1;
        continue;
      }
      if c == '"' {
        inStr := true;
      } else if c == '(' {
        depth := depth + 1;
        if depth == 1 {
          start := Some(i + 1);
        }
      } else if c == ')' {
        depth := if depth == 0 then 0 else depth - 1;
        if depth == 0 {
          match start {
            case Some(s) =>
              assert Spans(text, from, s, i);
              forall s': nat, e': nat | Spans(text, from, s', e') ensures s' == s && e' == i {
                SpanIsUnique(text, from, s, i, s', e');
              }
              return Some((s, i));
            case None =>
              forall s': nat, e': nat | from < s' <= e' < |text| && CodeAt(text, from, s' - 1, '(')
                ensures !Spans(text, from, s', e')
              {
                SpanNeedsOpening(text, from, i, s', e');
              }
              return None;
          }
        }
      }
      i := i + 1;
    }
    forall s': nat, e': nat | from < s' <= e' < |text| &&
      CodeAt(text, from, s' - 1, '(') && NoParens(text, from, s' - 1)
      ensures !Spans(text, from, s', e')
    {
      assert start == Some(s');
      assert Depth(text, from, e' + 1) >= 1;
    }
    return None;
  }

  // ----- Arguments

  /** The split's walk: where it stands and how many brackets of any shape are open. */
  datatype Cursor = Cursor(lex: Lex, depth: nat)

  const TOP := Cursor(Code, 0)

  predicate Opens(c: char) {
    c == '(' || c == '[' || c == '{'
  }

  predicate Closes(c: char) {
    c == ')' || c == ']' || c == '}'
  }

  function Move(cur: Cursor, c: char): Cursor {
    if cur.lex != Code || c == '"' then Cursor(Advance(cur.lex, c), cur.depth)
    else if Opens(c) then Cursor(Code, cur.depth + 1)
    else if Closes(c) then Cursor(Code, if cur.depth == 0 then 0 else cur.depth - 1)
    else cur
  }

  /** The cursor after `text[..i]`. */
  function At(text: string, i: nat): Cursor
    requires i <= |text|
  {
    if i == 0 then TOP else Move(At(text, i - 1), text[i - 1])
  }

  predicate CutAt(text: string, i: nat)
    requires i < |text|
  {
    At(text, i) == TOP && text[i] == ','
  }

  /** No comma of it separates arguments. */
  predicate OnePiece(text: string) {
    forall i :: 0 <= i < |text| ==> !CutAt(text, i)
  }

  /** One argument with its brackets and literals closed, so that a comma after it is a separator. */
  predicate Closed(text: string) {
    OnePiece(text) && At(text, |text|) == TOP
  }

  function Join(pieces: seq<string>): string
    requires pieces != []
  {
    if |pieces| == 1 then pieces[0] else pieces[0] + "," + Join(pieces[1..])
  }

  /** The pieces of `text` between its top-level commas, the walk having reached `i` in a piece that began at
      `from`. */
  function PiecesFrom(text: string, from: nat, i: nat, cur: Cursor): (pieces: seq<string>)
    requires from <= i <= |text|
    ensures pieces != []
    decreases |text| - i
  {
    if i == |text| then [text[from..]]
    else if cur == TOP && text[i] == ',' then [text[from..i]] + PiecesFrom(text, i + 1, i + 1, TOP)
    else PiecesFrom(text, from, i + 1, Move(cur, text[i]))
  }

  function Pieces(text: string): (pieces: seq<string>)
    ensures pieces != []
  {
    PiecesFrom(text, 0, 0, TOP)
  }

  // White space as the source's `trim` knows it.
  predicate IsSpace(c: char) {
    || '\t' <= c <= '\r' || c == ' ' || c == '\U{85}' || c == '\U{a0}' || c == '\U{1680}'
    || '\U{2000}' <= c <= '\U{200a}' || c == '\U{2028}' || c == '\U{2029}' || c == '\U{202f}' || c == '\U{205f}'
    || c == '\U{3000}'
  }

  function TrimStart(text: string): string {
    if text != "" && IsSpace(text[0]) then TrimStart(text[1..]) else text
  }

  function TrimEnd(text: string): string {
    if text != "" && IsSpace(text[|text| - 1]) then TrimEnd(text[..|text| - 1]) else text
  }

  function Trim(text: string): string {
    TrimEnd(TrimStart(text))
  }

  predicate Trimmed(text: string) {
    text != "" && !IsSpace(text[0]) && !IsSpace(text[|text| - 1])
  }

  function TrimAll(pieces: seq<string>): seq<string> {
    if pieces == [] then [] else [Trim(pieces[0])] + TrimAll(pieces[1..])
  }

  /** The arguments: every piece trimmed, the last one only when it is not blank. */
  function Args(pieces: seq<string>): seq<string>
    requires pieces != []
  {
    var last := Trim(pieces[|pieces| - 1]);
    TrimAll(pieces[..|pieces| - 1]) + if last == "" then [] else [last]
  }

  lemma {:induction false} TrimAllSnoc(pieces: seq<string>, piece: string)
    ensures TrimAll(pieces + [piece]) == TrimAll(pieces) + [Trim(piece)]
  {
    if pieces == [] {
      assert pieces + [piece] == [piece];
    } else {
      TrimAllSnoc(pieces[1..], piece);
      assert (pieces + [piece])[1..] == pieces[1..] + [piece];
    }
  }

  method SplitArgs(inner: string) returns (out: seq<string>)
    ensures out == Args(Pieces(inner))
  {
    out := [];
    var depth := 0;
    var inStr, escaped := false, false;
    var from := 0;
    ghost var done: seq<string>, cur := [], TOP;
    for i := 0 to |inner|
      invariant from <= i && out == TrimAll(done)
      invariant inStr == (cur.lex != Code) && escaped == (cur.lex == Escaped) && depth == cur.depth
      invariant Pieces(inner) == done + PiecesFrom(inner, from, i, cur)
    {
      var c := inner[i];
      if inStr {
        if escaped {
          escaped := false;
        } else if c == '\\' {
          escaped := true;
        } else if c == '"' {
          inStr := false;
        }
        cur := Move(cur, c);
        continue;
      }
      if c == '"' {
        inStr := true;
      } else if Opens(c) {
        depth := depth + 1;
      } else if Closes(c) {
        depth := if depth == 0 then 0 else depth - 1;
      } else if c == ',' && depth == 0 {
        out := out + [Trim(inner[from..i])];
        TrimAllSnoc(done, inner[from..i]);
        done := done + [inner[from..i]];
        from := i + 1;
      }
      cur := Move(cur, c);
    }
    var tail := Trim(inner[from..]);
    assert Pieces(inner) == done + [inner[from..]];
    assert Pieces(inner)[..|done|] == done;
    if tail != "" {
      out := out + [tail];
    }
  }
}
