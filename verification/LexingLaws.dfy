/**
  The split on top-level commas is the inverse of joining: it loses nothing, each of its pieces is one
  argument, and no other list of such pieces joins to the same text.
*/
module LexingLaws {
  import opened Wrappers
  import opened Lexing

  lemma {:induction false} SamePrefixSameCursor(s: string, t: string, i: nat)
    requires i <= |s| && i <= |t| && s[..i] == t[..i]
    ensures At(s, i) == At(t, i)
  {
    if i > 0 {
      assert s[..i][i - 1] == t[..i][i - 1];
      assert s[..i - 1] == s[..i][..i - 1] == t[..i][..i - 1] == t[..i - 1];
      SamePrefixSameCursor(s, t, i - 1);
    }
  }

  lemma SamePrefixSameCuts(s: string, t: string, n: nat)
    requires n <= |s| && n <= |t| && s[..n] == t[..n]
    ensures forall i :: 0 <= i < n ==> CutAt(s, i) == CutAt(t, i)
    ensures At(s, n) == At(t, n)
  {
    SamePrefixSameCursor(s, t, n);
    forall i | 0 <= i < n ensures CutAt(s, i) == CutAt(t, i) {
      assert s[..i] == s[..n][..i] == t[..n][..i] == t[..i];
      assert s[..n][i] == t[..n][i];
      SamePrefixSameCursor(s, t, i);
    }
  }

  lemma {:induction false} Shift(text: string, k: nat, from: nat, i: nat, cur: Cursor)
    requires k <= from <= i <= |text|
    ensures PiecesFrom(text, from, i, cur) == PiecesFrom(text[k..], from - k, i - k, cur)
    decreases |text| - i
  {
    hide Move;
    assert text[k..][from - k..] == text[from..];
    if i < |text| {
      assert text[k..][from - k..i - k] == text[from..i];
      if cur == TOP && text[i] == ',' {
        Shift(text, k, i + 1, i + 1, TOP);
      } else {
        Shift(text, k, from, i + 1, Move(cur, text[i]));
      }
    }
  }

  // ----- Nothing is lost

  lemma {:induction false} JoinPiecesFrom(text: string, from: nat, i: nat, cur: Cursor)
    requires from <= i <= |text|
    ensures Join(PiecesFrom(text, from, i, cur)) == text[from..]
    decreases |text| - i
  {
    hide Move;
    if i < |text| {
      if cur == TOP && text[i] == ',' {
        JoinPiecesFrom(text, i + 1, i + 1, TOP);
        var rest := PiecesFrom(text, i + 1, i + 1, TOP);
        assert ([text[from..i]] + rest)[1..] == rest;
        assert text[from..] == text[from..i] + "," + text[i + 1..];
      } else {
        JoinPiecesFrom(text, from, i + 1, Move(cur, text[i]));
      }
    }
  }

  // ----- Each piece is one argument

  ghost predicate Arguments(pieces: seq<string>)
    requires pieces != []
  {
    && (forall k :: 0 <= k < |pieces| - 1 ==> Closed(pieces[k]))
    && OnePiece(pieces[|pieces| - 1])
  }

  predicate Whole(text: string, from: nat, i: nat, cur: Cursor)
    requires from <= i <= |text|
  {
    OnePiece(text[from..i]) && At(text[from..i], i - from) == cur
  }

  lemma GrowPiece(text: string, from: nat, i: nat, cur: Cursor)
    requires from <= i < |text| && Whole(text, from, i, cur) && !(cur == TOP && text[i] == ',')
    ensures Whole(text, from, i + 1, Move(cur, text[i]))
  {
    var s, t := text[from..i], text[from..i + 1];
    assert t[..|s|] == s[..|s|];
    SamePrefixSameCuts(s, t, |s|);
    assert t[|s|] == text[i];
    hide Move;
    assert !CutAt(t, |s|);
  }

  lemma {:induction false} PiecesFromAreArguments(text: string, from: nat, i: nat, cur: Cursor)
    requires from <= i <= |text| && Whole(text, from, i, cur)
    ensures Arguments(PiecesFrom(text, from, i, cur))
    decreases |text| - i
  {
    hide Move, At, OnePiece;
    if i == |text| {
      assert text[from..i] == text[from..];
    } else if cur == TOP && text[i] == ',' {
      assert Whole(text, i + 1, i + 1, TOP) by { EmptyPiece(text, i + 1); }
      PiecesFromAreArguments(text, i + 1, i + 1, TOP);
    } else {
      GrowPiece(text, from, i, cur);
      PiecesFromAreArguments(text, from, i + 1, Move(cur, text[i]));
    }
  }

  lemma EmptyPiece(text: string, i: nat)
    requires i <= |text|
    ensures Whole(text, i, i, TOP)
  {}

  // ----- And nothing else would do

  lemma {:induction false} TakeClosed(text: string, p: string, i: nat)
    requires |p| < |text| && text[..|p|] == p && text[|p|] == ',' && Closed(p) && i <= |p|
    ensures PiecesFrom(text, 0, i, At(p, i)) == [p] + PiecesFrom(text, |p| + 1, |p| + 1, TOP)
    decreases |p| - i
  {
    hide Move;
    if i < |p| {
      assert text[i] == p[i] && !CutAt(p, i);
      TakeClosed(text, p, i + 1);
    }
  }

  lemma {:induction false} TakeLast(text: string, i: nat)
    requires OnePiece(text) && i <= |text|
    ensures PiecesFrom(text, 0, i, At(text, i)) == [text]
    decreases |text| - i
  {
    hide Move;
    if i < |text| {
      assert !CutAt(text, i);
      TakeLast(text, i + 1);
    }
  }

  lemma {:induction false} SplitOfJoin(pieces: seq<string>)
    requires pieces != [] && Arguments(pieces)
    ensures Pieces(Join(pieces)) == pieces
  {
    var text := Join(pieces);
    if |pieces| == 1 {
      TakeLast(text, 0);
    } else {
      var p, rest := pieces[0], pieces[1..];
      SplitOfJoin(rest);
      assert Closed(p);
      hide Move, Closed, OnePiece, At;
      assert text[..|p|] == p && text[|p|] == ',' && text[|p| + 1..] == Join(rest);
      Begin(p);
      TakeClosed(text, p, 0);
      Shift(text, |p| + 1, |p| + 1, |p| + 1, TOP);
    }
  }

  lemma Begin(p: string)
    ensures At(p, 0) == TOP
  {}

  /** The split is exact: its pieces join to the input, every piece is one argument, and they are the only
      such pieces that do. */
  lemma SplitIsExact(text: string, pieces: seq<string>)
    requires pieces != []
    ensures Join(Pieces(text)) == text && Arguments(Pieces(text))
    ensures pieces == Pieces(text) <==> Join(pieces) == text && Arguments(pieces)
  {
    Begin("");
    JoinPiecesFrom(text, 0, 0, TOP);
    EmptyPiece(text, 0);
    PiecesFromAreArguments(text, 0, 0, TOP);
    if Join(pieces) == text && Arguments(pieces) { SplitOfJoin(pieces); }
  }

  // ----- What shields a comma

  /** No quote and no bracket of any shape; commas are allowed. */
  predicate Flat(text: string) {
    forall i :: 0 <= i < |text| ==>
      && text[i] != '"' && text[i] != '(' && text[i] != ')' && text[i] != '[' && text[i] != ']'
      && text[i] != '{' && text[i] != '}'
  }

  predicate Pair(open: char, close: char) {
    (open == '(' && close == ')') || (open == '[' && close == ']') || (open == '{' && close == '}')
  }

  lemma {:induction false} FlatWalk(text: string, i: nat)
    requires Flat(text) && i <= |text|
    ensures At(text, i) == TOP
  {
    if i > 0 { FlatWalk(text, i - 1); }
  }

  /** Between two pieces without brackets or quotes, the pair opens one level and closes it again. */
  lemma {:induction false} PairWalk(lead: string, open: char, inner: string, close: char, i: nat)
    requires Flat(lead) && Flat(inner) && Pair(open, close) && i <= |inner|
    ensures At(lead + [open] + inner + [close], |lead| + 1 + i) == Cursor(Code, 1)
  {
    var text := lead + [open] + inner + [close];
    if i == 0 {
      assert text[..|lead|] == lead[..|lead|] == lead;
      SamePrefixSameCursor(lead, text, |lead|);
      FlatWalk(lead, |lead|);
      assert text[|lead|] == open;
    } else {
      PairWalk(lead, open, inner, close, i - 1);
      assert text[|lead| + i] == inner[i - 1];
    }
  }

  /** Round, square and curly brackets all shield: a comma inside a pair separates nothing, and behind the closing one
      commas separate again. */
  lemma PairShields(lead: string, open: char, inner: string, close: char)
    requires Flat(lead) && ',' !in lead && Flat(inner) && Pair(open, close)
    ensures Closed(lead + [open] + inner + [close])
  {
    var text := lead + [open] + inner + [close];
    PairWalk(lead, open, inner, close, |inner|);
    assert text[|text| - 1] == close;
    forall i | 0 <= i < |text| ensures !CutAt(text, i) {
      if i < |lead| {
        assert text[i] == lead[i];
      } else if i == |lead| {
        assert text[i] == open;
      } else {
        PairWalk(lead, open, inner, close, i - |lead| - 1);
      }
    }
  }

  /** A comma in the open separates: two texts without quotes or brackets are two pieces. */
  lemma CommaSeparates(a: string, b: string)
    requires Flat(a) && ',' !in a && Flat(b) && ',' !in b
    ensures Pieces(a + "," + b) == [a, b]
  {
    forall i | 0 <= i < |a| ensures !CutAt(a, i) { assert a[i] in a; }
    forall i | 0 <= i < |b| ensures !CutAt(b, i) { assert b[i] in b; }
    FlatWalk(a, |a|);
    var pieces := [a, b];
    assert pieces[1..] == [b] && Join(pieces) == a + "," + b;
    assert Arguments(pieces) by { assert forall k :: 0 <= k < 1 ==> pieces[k] == a; }
    hide At, Pieces;
    SplitOfJoin(pieces);
  }

  // ----- Trimming

  lemma TrimmedStays(text: string)
    requires Trimmed(text)
    ensures Trim(text) == text
  {}

  lemma {:induction false} TrimAllTrimmed(args: seq<string>)
    requires forall k :: 0 <= k < |args| ==> Trimmed(args[k])
    ensures TrimAll(args) == args
  {
    if args != [] {
      TrimmedStays(args[0]);
      TrimAllTrimmed(args[1..]);
    }
  }

  lemma ArgsOfTrimmed(args: seq<string>)
    requires args != [] && forall k :: 0 <= k < |args| ==> Trimmed(args[k])
    ensures Args(args) == args
  {
    TrimmedStays(args[|args| - 1]);
    assert args[|args| - 1] != "";
    hide Trim, Trimmed, TrimAll;
    TrimAllTrimmed(args[..|args| - 1]);
  }

  /** `split_args` undoes joining: any list of trimmed arguments whose brackets and literals are closed comes
      back, the last one even when it leaves some open. */
  lemma SplitArgsUndoesJoin(args: seq<string>)
    requires args != [] && Arguments(args) && forall k :: 0 <= k < |args| ==> Trimmed(args[k])
    ensures Args(Pieces(Join(args))) == args
  {
    hide *;
    SplitOfJoin(args);
    ArgsOfTrimmed(args);
  }
}
