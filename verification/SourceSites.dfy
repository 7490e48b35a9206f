/**
  Which places of a text the scan stops at, and so what an accepted text promises of the places it does not.
*/
module SourceSites {
  import opened Wrappers
  import opened Lexing
  import opened Capability
  import opened Ceiling
  import opened SourceScan

  // ----- Where the scan stops

  lemma {:induction false} SitesAreHere(text: string, needle: string, at: nat, p: nat)
    requires needle != "" && p in Sites(text, needle, at)
    ensures at <= p && Here(text, needle, p)
    decreases |text| - at
  {
    hide Here, Find, Lists;
    var list := ListOf(text, needle, Find(text, needle, at).value);
    if list.Some? && p in Sites(text, needle, list.value.1) {
      ListFound(text, needle, Find(text, needle, at).value, list.value.0, list.value.1);
      SitesAreHere(text, needle, list.value.1, p);
    }
  }

  /** The scan had handled every earlier site and its arguments end before `p`. */
  ghost predicate Behind(text: string, needle: string, at: nat, p: nat)
    requires needle != ""
  {
    forall q :: q in Sites(text, needle, at) && q < p ==>
      ListOf(text, needle, q).Some? && ListOf(text, needle, q).value.1 <= p
  }

  /** The scan stops at exactly the places that no earlier site's arguments reach over. */
  lemma {:induction false} SiteIff(text: string, needle: string, at: nat, p: nat)
    requires needle != ""
    ensures p in Sites(text, needle, at) <==> at <= p && Here(text, needle, p) && Behind(text, needle, at, p)
    decreases |text| - at
  {
    hide Here, Lists;
    var found := Find(text, needle, at);
    if found.Some? {
      var list := ListOf(text, needle, found.value);
      if list.Some? {
        var end := list.value.1;
        ListFound(text, needle, found.value, list.value.0, end);
        SiteIff(text, needle, end, p);
        assert Sites(text, needle, at) == [found.value] + Sites(text, needle, end);
        forall q | q in Sites(text, needle, end) ensures end <= q { SitesAreHere(text, needle, end, q); }
        assert found.value in Sites(text, needle, at);
        assert forall q :: q in Sites(text, needle, end) ==> q in Sites(text, needle, at);
      } else {
        assert found.value in Sites(text, needle, at);
      }
    }
  }

  // ----- Nesting

  /** `p` stands inside the argument list of an earlier `needle`. */
  ghost predicate Nested(text: string, needle: string, p: nat)
    requires needle != ""
  {
    exists q: nat, start: nat, end: nat :: q < p && Lists(text, needle, q, start, end) && start <= p < end
  }

  predicate StartsOnce(needle: string) {
    |needle| > 0 && needle[|needle| - 1] == '(' && forall k :: 0 < k < |needle| ==> needle[k] != needle[0]
  }

  lemma BothStartOnce()
    ensures StartsOnce(MARKER) && StartsOnce(CONSTRUCTOR)
  {}

  lemma NoOverlap(text: string, needle: string, p: nat, q: nat)
    requires StartsOnce(needle) && Here(text, needle, p) && p < q < p + |needle|
    ensures !Here(text, needle, q)
  {
    assert text[p..p + |needle|][q - p] == needle[q - p];
  }

  /** The argument list begins right behind the needle. */
  lemma ListBegins(text: string, needle: string, p: nat, start: nat, end: nat)
    requires StartsOnce(needle) && Lists(text, needle, p, start, end)
    ensures start == p + |needle|
  {
    var open := p + |needle| - 1;
    assert text[open] == text[p..p + |needle|][|needle| - 1] == '(';
    assert CodeAt(text, open, open, '(');
  }

  /** A place not nested in any earlier argument list is one the scan stops at, unless it stops for good before. */
  lemma UnnestedIsASite(text: string, needle: string, p: nat)
    requires StartsOnce(needle) && Here(text, needle, p) && !Nested(text, needle, p)
    requires forall q :: q in Sites(text, needle, 0) ==> ListOf(text, needle, q).Some?
    ensures p in Sites(text, needle, 0)
  {
    hide Sites, Lists, Here;
    SiteIff(text, needle, 0, p);
    forall q | q in Sites(text, needle, 0) && q < p ensures ListOf(text, needle, q).value.1 <= p {
      var (start, end) := ListOf(text, needle, q).value;
      SitesAreHere(text, needle, 0, q);
      ListBegins(text, needle, q, start, end);
      if p < q + |needle| { NoOverlap(text, needle, q, p); }
    }
  }

  /** What the scan looks for. */
  lemma ReadsAs(text: string, p: nat)
    ensures Here(text, CONSTRUCTOR, p) <==> p + 14 <= |text| && text[p..p + 14] == "Governed::new("
    ensures Here(text, MARKER, p) <==> p + 11 <= |text| && text[p..p + 11] == "#[governed("
  {
    assert |CONSTRUCTOR| == 14 && |MARKER| == 11;
  }

  /** An accepted text has every call that is not nested in an earlier call's arguments reported with the triple it
      names, or, when it names none, covered by a marker at most five lines above it. */
  lemma AcceptedCallsAreAccounted(text: string, p: nat)
    requires p + 14 <= |text| && text[p..p + 14] == "Governed::new("
    requires Acceptable(text) && !Nested(text, CONSTRUCTOR, p)
    ensures forall u :: CallReads(text, p, u) ==> Reported(text, u)
    ensures (exists u :: CallReads(text, p, u)) || Marked(text, LineOf(text, p))
  {
    BothStartOnce();
    ReadsAs(text, p);
    hide CallReads, Sites, Marked, Nested, Here, Lists, MARKER, CONSTRUCTOR;
    forall q | q in Sites(text, CONSTRUCTOR, 0) ensures ListOf(text, CONSTRUCTOR, q).Some? { FineIsClosed(text, q); }
    UnnestedIsASite(text, CONSTRUCTOR, p);
    assert CallFine(text, p);
  }

  lemma FineIsClosed(text: string, p: nat)
    requires CallFine(text, p)
    ensures ListOf(text, CONSTRUCTOR, p).Some?
  {
    hide ConstructorUsage, Marked;
  }

  lemma FineMarkerIsClosed(text: string, m: nat)
    requires MarkerFine(text, m)
    ensures ListOf(text, MARKER, m).Some?
  {
    hide ReadMarker;
  }

  /** And every marker that is not nested in an earlier one is reported with the triple it names. */
  lemma AcceptedMarkersAreReported(text: string, m: nat)
    requires m + 11 <= |text| && text[m..m + 11] == "#[governed("
    requires Acceptable(text) && !Nested(text, MARKER, m)
    ensures exists u :: MarkerReads(text, m, u) && Reported(text, u)
  {
    BothStartOnce();
    ReadsAs(text, m);
    hide MarkerReads, Sites, Nested, Here, Lists, MARKER, CONSTRUCTOR;
    forall q | q in Sites(text, MARKER, 0) ensures ListOf(text, MARKER, q).Some? { FineMarkerIsClosed(text, q); }
    UnnestedIsASite(text, MARKER, m);
    assert MarkerFine(text, m);
  }

  ghost predicate StopsEverywhere(text: string, needle: string)
    requires needle != ""
  {
    forall p: nat :: Here(text, needle, p) ==> p in Sites(text, needle, 0)
  }

  /** The scan of an accepted text stops at every call if and only if no call stands in an earlier one's arguments. */
  lemma EveryCallIsCheckedIff(text: string)
    requires Acceptable(text)
    ensures StopsEverywhere(text, CONSTRUCTOR) <==>
            forall p: nat :: Here(text, CONSTRUCTOR, p) ==> !Nested(text, CONSTRUCTOR, p)
  {
    BothStartOnce();
    hide Here, Sites, Spans, CONSTRUCTOR, MARKER, CallFine, MarkerFine;
    forall q | q in Sites(text, CONSTRUCTOR, 0) ensures ListOf(text, CONSTRUCTOR, q).Some? { FineIsClosed(text, q); }
    if StopsEverywhere(text, CONSTRUCTOR) {
      forall p: nat | Here(text, CONSTRUCTOR, p) ensures !Nested(text, CONSTRUCTOR, p) {
        ASiteIsNotNested(text, CONSTRUCTOR, p);
      }
    } else {
      var p: nat :| Here(text, CONSTRUCTOR, p) && p !in Sites(text, CONSTRUCTOR, 0);
      if !Nested(text, CONSTRUCTOR, p) { UnnestedIsASite(text, CONSTRUCTOR, p); }
    }
  }

  lemma ASiteIsNotNested(text: string, needle: string, p: nat)
    requires needle != "" && StopsEverywhere(text, needle) && Here(text, needle, p)
    ensures !Nested(text, needle, p)
  {
    hide Here, Sites, Spans;
    if Nested(text, needle, p) {
      var q: nat, start: nat, end: nat :| q < p && Lists(text, needle, q, start, end) && start <= p < end;
      ListFound(text, needle, q, start, end);
      SiteIff(text, needle, 0, p);
    }
  }

  // ----- Lines

  /** A line is one more than the line breaks in front. */
  lemma {:induction false} LinesAreCounted(text: string, offset: nat)
    requires offset <= |text|
    ensures LineOf(text, offset) == 1 + multiset(text[..offset])['\n']
  {
    if offset > 0 {
      LinesAreCounted(text, offset - 1);
      assert text[..offset] == text[..offset - 1] + [text[offset - 1]];
    }
  }

  /** A marker covers its own line and the five below it. */
  lemma AMarkerCoversFiveLines(text: string, line: nat)
    ensures Marked(text, line) <==>
            exists m :: m in Sites(text, MARKER, 0) && Here(text, MARKER, m) &&
                        LineOf(text, m) <= line <= LineOf(text, m) + 5
  {
    hide Sites, LineOf;
    if Marked(text, line) {
      var m: nat, above: nat :| m in Sites(text, MARKER, 0) && OnLine(text, m, above) && Above(above, line);
      assert Here(text, MARKER, m) && LineOf(text, m) == above;
    }
    if m :| m in Sites(text, MARKER, 0) && Here(text, MARKER, m) && LineOf(text, m) <= line <= LineOf(text, m) + 5 {
      assert OnLine(text, m, LineOf(text, m)) && Above(LineOf(text, m), line);
    }
  }
}
