/**
  The same two forms in the text of a file: where they stand, and what the scan makes of them.
*/
module SourceText {
  import opened Wrappers
  import opened Lexing
  import opened LexingLaws
  import opened Capability
  import opened Ceiling
  import opened SourceScan
  import opened SourceSites
  import opened SourceLaws

  // ----- Parentheses of a piece, wherever it stands

  /** Outside its literals every parenthesis of the text has its partner, and no literal is left open. */
  predicate Nests(text: string) {
    LexAt(text, 0, |text|) == Code && Depth(text, 0, |text|) == 0 && forall i :: 0 <= i <= |text| ==>
      Depth(text, 0, i) >= 0
  }

  /** The walk over a stretch of text does what the walk over that stretch alone does. */
  lemma {:induction false} StretchWalk(text: string, from: nat, base: nat, s: string, i: nat)
    requires from <= base && base + |s| <= |text| && text[base..base + |s|] == s && i <= |s|
    requires LexAt(text, from, base) == Code
    ensures LexAt(text, from, base + i) == LexAt(s, 0, i)
    ensures Depth(text, from, base + i) == Depth(text, from, base) + Depth(s, 0, i)
  {
    if i > 0 {
      StretchWalk(text, from, base, s, i - 1);
      assert text[base + i - 1] == text[base..base + |s|][i - 1] == s[i - 1];
      hide Advance;
    }
  }

  lemma NestsJoin(a: string, b: string)
    requires Nests(a) && Nests(b)
    ensures Nests(a + b)
  {
    var text := a + b;
    hide Depth, LexAt;
    NoWalk(text);
    assert text[0..0 + |a|] == a && text[|a|..|a| + |b|] == b;
    forall i | 0 <= i <= |text| ensures Depth(text, 0, i) >= 0 {
      StretchWalk(text, 0, 0, a, |a|);
      if i <= |a| { StretchWalk(text, 0, 0, a, i); } else { StretchWalk(text, 0, |a|, b, i - |a|); }
    }
    StretchWalk(text, 0, 0, a, |a|);
    StretchWalk(text, 0, |a|, b, |b|);
  }

  lemma NoWalk(text: string)
    ensures LexAt(text, 0, 0) == Code && Depth(text, 0, 0) == 0
  {}

  /** Neither a quote nor a parenthesis. */
  predicate Smooth(text: string) {
    forall i :: 0 <= i < |text| ==> text[i] != '"' && text[i] != '(' && text[i] != ')'
  }

  lemma {:induction false} SmoothWalk(text: string, i: nat)
    requires Smooth(text) && i <= |text|
    ensures LexAt(text, 0, i) == Code && Depth(text, 0, i) == 0
  {
    if i > 0 { SmoothWalk(text, i - 1); }
  }

  lemma SmoothNests(text: string)
    requires Smooth(text)
    ensures Nests(text)
  {
    hide Depth, LexAt, Smooth;
    forall i | 0 <= i <= |text| ensures Depth(text, 0, i) >= 0 { SmoothWalk(text, i); }
    SmoothWalk(text, |text|);
  }

  lemma {:induction false} LiteralWalk(s: string, i: nat)
    requires Plain(s) && i <= |s|
    ensures LexAt(Quote(s), 0, 1 + i) == Str && Depth(Quote(s), 0, 1 + i) == 0
  {
    if i > 0 {
      LiteralWalk(s, i - 1);
      assert Quote(s)[i] == s[i - 1];
    } else {
      NoWalk(Quote(s));
      assert Quote(s)[0] == '"';
    }
  }

  lemma LiteralNests(s: string)
    requires Plain(s)
    ensures Nests(Quote(s))
  {
    var text := Quote(s);
    LiteralWalk(s, |s|);
    NoWalk(text);
    assert text[|text| - 1] == '"';
    forall i | 0 <= i <= |text| ensures Depth(text, 0, i) >= 0 {
      if 0 < i < |text| { LiteralWalk(s, i - 1); }
    }
  }

  /** A text in parentheses, after whatever has none. */
  lemma CallNests(lead: string, inner: string)
    requires Smooth(lead) && Nests(inner)
    ensures Nests(lead + "(" + inner + ")")
  {
    var text := "(" + inner + ")";
    NoWalk(text);
    assert text[0] == '(' && text[1..1 + |inner|] == inner && text[|text| - 1] == ')';
    assert LexAt(text, 0, 1) == Code && Depth(text, 0, 1) == 1;
    StretchWalk(text, 0, 1, inner, |inner|);
    assert Depth(text, 0, |text|) == 0;
    forall i | 0 <= i <= |text| ensures Depth(text, 0, i) >= 0 {
      if 0 < i < |text| { StretchWalk(text, 0, 1, inner, i - 1); }
    }
    assert Nests(text);
    hide Nests, Smooth;
    SmoothNests(lead);
    NestsJoin(lead, text);
    assert lead + text == lead + "(" + inner + ")";
  }

  lemma {:induction false} PiecesNest(pieces: seq<string>)
    requires pieces != [] && forall k :: 0 <= k < |pieces| ==> Nests(pieces[k])
    ensures Nests(Join(pieces))
  {
    if |pieces| > 1 {
      PiecesNest(pieces[1..]);
      assert Nests(",") by { assert Smooth(","); SmoothNests(","); }
      hide Nests;
      NestsJoin(pieces[0], ",");
      NestsJoin(pieces[0] + ",", Join(pieces[1..]));
    }
  }

  // ----- Argument lists where they stand

  /** `needle`, the pieces between commas, and the closing parenthesis stand at `p`. */
  predicate Stands(text: string, needle: string, p: nat, pieces: seq<string>)
    requires pieces != []
  {
    Here(text, needle + Join(pieces) + ")", p)
  }

  lemma SliceOfSlice(text: string, p: nat, n: nat, i: nat, j: nat)
    requires p + n <= |text| && i <= j <= n
    ensures text[p + i..p + j] == text[p..p + n][i..j]
  {
    var a, b := text[p + i..p + j], text[p..p + n][i..j];
    forall k | 0 <= k < |a| ensures a[k] == b[k] {}
  }

  lemma Parts(text: string, p: nat, a: string, b: string, c: string)
    requires Here(text, a + b + c, p)
    ensures var i, j := p + |a|, p + |a| + |b|;
            j + |c| <= |text| && text[p..i] == a && text[i..j] == b && text[j..j + |c|] == c
  {
    var all, n := a + b + c, |a| + |b| + |c|;
    assert text[p..p + n] == all;
    SliceOfSlice(text, p, n, 0, |a|);
    SliceOfSlice(text, p, n, |a|, |a| + |b|);
    SliceOfSlice(text, p, n, |a| + |b|, n);
    assert all[0..|a|] == a && all[|a|..|a| + |b|] == b && all[|a| + |b|..n] == c;
  }

  lemma Encloses(text: string, from: nat, inner: string)
    requires from + |inner| + 1 < |text| && text[from] == '(' && text[from + 1 + |inner|] == ')'
    requires text[from + 1..from + 1 + |inner|] == inner && Nests(inner)
    ensures Spans(text, from, from + 1, from + 1 + |inner|)
  {
    var start, end := from + 1, from + 1 + |inner|;
    assert CodeAt(text, from, from, '(') && !CodeAt(text, from, from, ')');
    assert LexAt(text, from, start) == Code && Depth(text, from, start) == 1;
    hide Advance;
    StretchWalk(text, from, start, inner, |inner|);
    assert CodeAt(text, from, end, ')') && !CodeAt(text, from, end, '(');
    assert Depth(text, from, end + 1) == 0;
    forall i | start <= i <= end ensures Depth(text, from, i) >= 1 {
      StretchWalk(text, from, start, inner, i - start);
    }
  }

  lemma ListWhereItStands(text: string, needle: string, p: nat, inner: string)
    requires needle != "" && needle[|needle| - 1] == '(' && Here(text, needle + inner + ")", p) && Nests(inner)
    ensures Lists(text, needle, p, p + |needle|, p + |needle| + |inner|)
    ensures text[p + |needle|..p + |needle| + |inner|] == inner
  {
    var from, end := p + |needle| - 1, p + |needle| + |inner|;
    Parts(text, p, needle, inner, ")");
    assert text[from] == text[p..p + |needle|][|needle| - 1];
    assert text[end] == text[end..end + 1][0];
    hide Nests, Spans;
    Encloses(text, from, inner);
  }

  lemma PiecesWhereTheyStand(text: string, needle: string, p: nat, pieces: seq<string>)
    requires StartsOnce(needle) && pieces != [] && Stands(text, needle, p, pieces)
    requires forall k :: 0 <= k < |pieces| ==> Nests(pieces[k])
    ensures p <= |text| && Here(text, needle, p)
    ensures var start := p + |needle|; var end := start + |Join(pieces)|;
            Lists(text, needle, p, start, end) && end <= |text| && text[start..end] == Join(pieces)
  {
    hide Nests, Join, Lists, Here;
    PiecesNest(pieces);
    ListWhereItStands(text, needle, p, Join(pieces));
    ListIsHere(text, needle, p, p + |needle|, p + |needle| + |Join(pieces)|);
    ListFound(text, needle, p, p + |needle|, p + |needle| + |Join(pieces)|);
  }

  lemma ListIsHere(text: string, needle: string, p: nat, start: nat, end: nat)
    requires needle != "" && Lists(text, needle, p, start, end)
    ensures Here(text, needle, p) && p <= |text|
  {
    hide Spans;
  }

  /** In the text of a file: a call that names a triple, wherever it stands, reads as that triple at its line and as
      no other; and an accepted text reports it, unless it stands inside an earlier call's arguments. */
  lemma LiteralCallInText(text: string, p: nat, padded: seq<string>, tail: seq<string>,
                          service: string, kind: Kind, resource: string)
    requires NamesTriple(padded, tail, service, kind, resource)
    requires (forall k :: 0 <= k < |padded + tail| ==> Nests((padded + tail)[k]))
    requires padded + tail != [] && Stands(text, CONSTRUCTOR, p, padded + tail)
    ensures p <= |text| && Here(text, CONSTRUCTOR, p)
    ensures forall u :: CallReads(text, p, u) <==> u == Usage(service, kind, resource, LineOf(text, p))
    ensures Acceptable(text) && !Nested(text, CONSTRUCTOR, p) ==>
              Reported(text, Usage(service, kind, resource, LineOf(text, p)))
  {
    hide *;
    BothStartOnce();
    PiecesWhereTheyStand(text, CONSTRUCTOR, p, padded + tail);
    var start := p + |CONSTRUCTOR|;
    CallAt(text, p, start, start + |Join(padded + tail)|);
    LiteralCallReadsBack(padded, tail, service, kind, resource, LineOf(text, p));
    ReadsAs(text, p);
    if Acceptable(text) && !Nested(text, CONSTRUCTOR, p) { AcceptedCallsAreAccounted(text, p); }
  }

  /** And a marker that gives the three keys. */
  lemma MarkerInText(text: string, m: nat, padded: seq<string>, tail: seq<string>, keys: seq<string>,
                     service: string, kind: Kind, resource: string)
    requires GivesTriple(padded, tail, keys, service, kind, resource)
    requires (forall k :: 0 <= k < |padded + tail| ==> Nests((padded + tail)[k]))
    requires padded + tail != [] && Stands(text, MARKER, m, padded + tail)
    ensures m <= |text| && Here(text, MARKER, m)
    ensures forall u :: MarkerReads(text, m, u) <==> u == Usage(service, kind, resource, LineOf(text, m))
    ensures Acceptable(text) && !Nested(text, MARKER, m) ==>
              Reported(text, Usage(service, kind, resource, LineOf(text, m)))
  {
    hide *;
    BothStartOnce();
    PiecesWhereTheyStand(text, MARKER, m, padded + tail);
    var start := m + |MARKER|;
    MarkerAt(text, m, start, start + |Join(padded + tail)|);
    MarkerReadsBack(padded, tail, keys, service, kind, resource, LineOf(text, m));
    ReadsAs(text, m);
    if Acceptable(text) && !Nested(text, MARKER, m) { AcceptedMarkersAreReported(text, m); }
  }

  // ----- A call the scan never stops at

  lemma NothingToFind(text: string, needle: string, at: nat)
    requires needle != "" && needle[0] !in text
    ensures Find(text, needle, at) == None
  {
    forall p: nat | p + |needle| <= |text| ensures !Here(text, needle, p) {
      assert text[p..p + |needle|][0] == text[p];
    }
    hide Here;
    assert Find(text, needle, at).Some? ==> Here(text, needle, Find(text, needle, at).value);
  }

  /** A text without a marker that is one call from end to end is scanned at that call alone. */
  lemma OneCallIsOneSite(text: string, padded: seq<string>, u: Usage)
    requires padded != [] && text == CONSTRUCTOR + Join(padded) + ")" && Nests(Join(padded)) && '#' !in text
    requires CallReads(text, 0, u)
    ensures Sites(text, CONSTRUCTOR, 0) == [0] && Acceptable(text)
    ensures Lists(text, CONSTRUCTOR, 0, |CONSTRUCTOR|, |text| - 1)
    ensures forall line :: !Marked(text, line)
  {
    hide Nests, Join, Spans, ConstructorUsage, CallReads;
    assert text[0..|text|] == text;
    BothStartOnce();
    ListWhereItStands(text, CONSTRUCTOR, 0, Join(padded));
    ListFound(text, CONSTRUCTOR, 0, |CONSTRUCTOR|, |text| - 1);
    assert Find(text, CONSTRUCTOR, 0) == Some(0);
    assert Find(text, CONSTRUCTOR, |text| - 1) == None;
    NothingToFind(text, MARKER, 0);
  }

  /** The scan goes on behind the arguments of the call it read. So of a call that names its triple and whose first
      argument is itself a call, the scan accepts the text and never stops at the inner one, whatever that one is. */
  lemma NestedCallEscapes(text: string, inner: string, service: string, kind: Kind, resource: string,
                          padded: seq<string>)
    requires padded == [CONSTRUCTOR + inner + ")", Quote(service), Quote(Dotted(kind)), Quote(resource)]
    requires Nests(inner) && Closed(padded[0]) && Plain(service) && Plain(resource)
    requires text == CONSTRUCTOR + Join(padded) + ")" && '#' !in text
    ensures Acceptable(text) && Reported(text, Usage(service, kind, resource, 1))
    ensures Sites(text, CONSTRUCTOR, 0) == [0] && Nested(text, CONSTRUCTOR, |CONSTRUCTOR|)
    ensures Lists(text, CONSTRUCTOR, |CONSTRUCTOR|, |CONSTRUCTOR| + |CONSTRUCTOR|,
            |CONSTRUCTOR| + |CONSTRUCTOR| + |inner|)
    ensures text[|CONSTRUCTOR| + |CONSTRUCTOR|..|CONSTRUCTOR| + |CONSTRUCTOR| + |inner|] == inner
    ensures forall line :: !Marked(text, line)
  {
    var n, u := |CONSTRUCTOR|, Usage(service, kind, resource, 1);
    OuterNamesTriple(inner, service, kind, resource, padded);
    hide *;
    WholeText(text, CONSTRUCTOR, padded);
    LiteralCallInText(text, 0, padded, [], service, kind, resource);
    assert LineOf(text, 0) == 1 by { FirstLine(text); }
    PiecesNest(padded);
    OneCallIsOneSite(text, padded, u);
    InnerStands(text, inner, padded);
    assert Reported(text, u);
  }

  lemma InnerStands(text: string, inner: string, padded: seq<string>)
    requires |padded| > 1 && padded[0] == CONSTRUCTOR + inner + ")" && Nests(inner)
    requires text == CONSTRUCTOR + Join(padded) + ")" && Lists(text, CONSTRUCTOR, 0, |CONSTRUCTOR|, |text| - 1)
    ensures Nested(text, CONSTRUCTOR, |CONSTRUCTOR|)
    ensures var n := |CONSTRUCTOR|;
            Lists(text, CONSTRUCTOR, n, n + n, n + n + |inner|) &&
            text[n + n..n + n + |inner|] == inner
  {
    var n := |CONSTRUCTOR|;
    assert Join(padded) == padded[0] + "," + Join(padded[1..]);
    assert text[n..n + |padded[0]|] == padded[0];
    BothStartOnce();
    hide Nests, Join, Spans;
    ListWhereItStands(text, CONSTRUCTOR, n, inner);
  }

  lemma WholeText(text: string, needle: string, pieces: seq<string>)
    requires pieces != [] && text == needle + Join(pieces) + ")"
    ensures pieces + [] == pieces && Stands(text, needle, 0, pieces + [])
  {
    assert text[0..|text|] == text && pieces + [] == pieces;
  }

  lemma FirstLine(text: string)
    ensures LineOf(text, 0) == 1
  {}

  lemma OuterNamesTriple(inner: string, service: string, kind: Kind, resource: string, padded: seq<string>)
    requires padded == [CONSTRUCTOR + inner + ")", Quote(service), Quote(Dotted(kind)), Quote(resource)]
    requires Nests(inner) && Closed(padded[0]) && Plain(service) && Plain(resource)
    ensures NamesTriple(padded, [], service, kind, resource)
    ensures forall k :: 0 <= k < |padded| ==> Nests(padded[k])
  {
    assert CONSTRUCTOR == "Governed::new" + "(" && Smooth("Governed::new");
    DottedIsPlain(kind);
    hide Nests, Quote, Dotted, Plain, Closed, Trim, Smooth, Trimmed, CONSTRUCTOR, Unquote;
    CallNests("Governed::new", inner);
    assert "Governed::new" + "(" + inner + ")" == padded[0];
    forall value | Plain(value) ensures Nests(Quote(value)) && Closed(Quote(value)) &&
      Trim(Quote(value)) == Quote(value) {
      LiteralNests(value);
      QuoteIsArgument(value);
    }
    assert Quote(resource) != "" by { QuoteIsSomething(resource); }
  }

  lemma QuoteIsSomething(s: string)
    ensures Quote(s) != ""
  {}

  /** One of them is a call whose own triple is no literal: it is neither reported nor under any marker, and the text
      is accepted. */
  lemma AnOpaqueCallEscapes() returns (text: string)
    ensures Acceptable(text) && Here(text, CONSTRUCTOR, |CONSTRUCTOR|) && |CONSTRUCTOR| <= |text|
    ensures forall u :: !CallReads(text, |CONSTRUCTOR|, u)
    ensures !Marked(text, LineOf(text, |CONSTRUCTOR|))
  {
    var n := |CONSTRUCTOR|;
    var inner := "k, s, a, b";
    var padded := [CONSTRUCTOR + inner + ")", Quote("n"), Quote(Dotted(DbRead)), Quote("n")];
    text := CONSTRUCTOR + Join(padded) + ")";
    assert Nests(inner) by { SmoothNests(inner); }
    assert Closed(padded[0]) by {
      PairShields("Governed::new", '(', inner, ')');
      assert padded[0] == "Governed::new" + ['('] + inner + [')'];
    }
    JoinFour(padded[0], padded[1], padded[2], padded[3]);
    assert '#' !in padded[0] && '#' !in padded[1] && '#' !in padded[2] && '#' !in padded[3];
    hide Nests, Closed, Sites, Lists, Acceptable, Marked, LineOf, CallReads, Quote, Dotted, Join;
    NestedCallEscapes(text, inner, "n", DbRead, "n", padded);
    ListIsHere(text, CONSTRUCTOR, n, n + n, n + n + |inner|);
    CallAt(text, n, n + n, n + n + |inner|);
    NoTriple(inner, LineOf(text, n));
  }

  lemma JoinFour(a: string, b: string, c: string, d: string)
    ensures Join([a, b, c, d]) == a + "," + b + "," + c + "," + d
  {
    assert [a, b, c, d][1..] == [b, c, d] && [b, c, d][1..] == [c, d] && [c, d][1..] == [d];
    assert Join([c, d]) == c + "," + d;
    assert Join([b, c, d]) == b + "," + (c + "," + d);
  }

  lemma Letter(c: char)
    requires 'a' <= c <= 'z'
    ensures Closed([c]) && Closed([' ', c]) && Trim([c]) == [c] && Trim([' ', c]) == [c]
  {
    assert Trimmed([c]) && [' ', c][1..] == [c];
    TrimmedStays([c]);
    assert TrimStart([' ', c]) == TrimStart([c]) == [c];
    hide Trim, TrimStart, TrimEnd, Closed;
    BareIsClosed([c]);
    BareIsClosed([' ', c]);
  }

  lemma NoTriple(inner: string, line: nat)
    requires inner == "k, s, a, b"
    ensures ConstructorUsage(Args(Pieces(inner)), line) == None
  {
    hide Trim, Closed, TrimAll, Pieces, ConstructorUsage, Join;
    var padded := [['k'], [' ', 's'], [' ', 'a'], [' ', 'b']];
    JoinFour(padded[0], padded[1], padded[2], padded[3]);
    assert padded + [] == padded && Join(padded) == inner;
    Letter('k');
    Letter('s');
    Letter('a');
    Letter('b');
    WrittenComesBack(padded, []);
    TrimAllAt(padded, 1);
    NoLiteral(TrimAll(padded), line);
  }

  lemma NoLiteral(args: seq<string>, line: nat)
    requires |args| > 1 && args[1] == "s"
    ensures ConstructorUsage(args, line) == None
  {
    assert Trim("s") == "s";
    hide KindOf;
  }
}
