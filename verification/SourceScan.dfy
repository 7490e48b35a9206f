/**
  The hand-written source scanner of crates/rahi-kernel/src/verify.rs: from a file's text to the governed call
  sites it names.
*/
module SourceScan {
  import opened Wrappers
  import opened Lexing
  import opened Capability
  import opened Ceiling

  const MARKER_LOOKBACK_LINES := 5
  const MARKER := "#[governed("
  const CONSTRUCTOR := "Governed::new("

  predicate Here(text: string, needle: string, p: nat) {
    p + |needle| <= |text| && text[p..p + |needle|] == needle
  }

  /** The first place from `at` on where `needle` stands. */
  function Find(text: string, needle: string, at: nat): (found: Option<nat>)
    ensures found.Some? ==> at <= found.value && Here(text, needle, found.value)
    ensures forall p: nat :: at <= p && (found.Some? ==> p < found.value) ==> !Here(text, needle, p)
    decreases |text| - at
  {
    if at + |needle| > |text| then None
    else if Here(text, needle, at) then Some(at)
    else Find(text, needle, at + 1)
  }

  /** The 1-based line an offset falls on. */
  function LineOf(text: string, offset: nat): nat
    requires offset <= |text|
  {
    if offset == 0 then 1 else LineOf(text, offset - 1) + if text[offset - 1] == '\n' then 1 else 0
  }

  // ----- Literals

  function Unescape(body: string): string {
    if body == "" then ""
    else if |body| >= 2 && body[0] == '\\' && body[1] == '\\' then "\\" + Unescape(body[2..])
    else [body[0]] + Unescape(body[1..])
  }

  /** The contents of a string literal, or nothing when the argument is not one. */
  function Unquote(arg: string): Option<string> {
    if |arg| >= 2 && arg[0] == '"' && arg[|arg| - 1] == '"' && '"' !in arg[1..|arg| - 1] then
      Some(Unescape(arg[1..|arg| - 1]))
    else None
  }

  /** What follows the last `::` of `arg[..i]`, up to the end of `arg`. */
  function AfterColons(arg: string, i: nat): string
    requires i <= |arg|
  {
    if i < 2 then arg
    else if arg[i - 2] == ':' && arg[i - 1] == ':' then arg[i..]
    else AfterColons(arg, i - 1)
  }

  /** A kind written as its dotted literal or as its variant. */
  function KindOf(arg: string): Option<Kind> {
    match Unquote(arg)
    case Some(text) => ParseKind(text)
    case None => ParseName(Trim(AfterColons(arg, |arg|)))
  }

  /** The triple of a call whose second to fourth arguments are literals; nothing when the call is opaque. */
  function ConstructorUsage(args: seq<string>, line: nat): Option<Usage> {
    if |args| < 4 then None
    else
      var service, kind, resource := Unquote(Trim(args[1])), KindOf(Trim(args[2])), Unquote(Trim(args[3]));
      if service.None? || kind.None? || resource.None? then None
      else Some(Usage(service.value, kind.value, resource.value, line))
  }

  // ----- Markers

  datatype MarkerFault = OtherKey | FieldMissing | KindUnknown

  function FirstEquals(field: string, i: nat): nat
    requires i <= |field|
    decreases |field| - i
  {
    if i == |field| || field[i] == '=' then i else FirstEquals(field, i + 1)
  }

  /** `key = value`, trimmed and unquoted; nothing for a field without an equals sign. */
  function KeyValue(field: string): Option<(string, Option<string>)> {
    if '=' !in field then None
    else
      var at := FirstEquals(field, 0);
      FirstEqualsStops(field, 0);
      Some((Trim(field[..at]), Unquote(Trim(field[at + 1..]))))
  }

  lemma {:induction false} FirstEqualsStops(field: string, i: nat)
    requires i <= |field| && '=' in field[i..]
    ensures i <= FirstEquals(field, i) < |field| && field[FirstEquals(field, i)] == '='
    decreases |field| - i
  {
    if field[i] != '=' {
      assert field[i..] == [field[i]] + field[i + 1..];
      FirstEqualsStops(field, i + 1);
    }
  }

  const KEYS := ["service", "kind", "resource"]

  predicate KnownField(field: string) {
    KeyValue(field).Some? ==> KeyValue(field).value.0 in KEYS
  }

  /** The value the last field under `key` gives it: nothing when there is none or it is no literal. */
  function LastValue(fields: seq<string>, key: string): Option<string> {
    if fields == [] then None
    else
      var last := KeyValue(fields[|fields| - 1]);
      if last.Some? && last.value.0 == key then last.value.1 else LastValue(fields[..|fields| - 1], key)
  }

  function ReadMarker(fields: seq<string>, line: nat): Result<Usage, MarkerFault> {
    if exists k :: 0 <= k < |fields| && !KnownField(fields[k]) then Err(OtherKey)
    else
      var service, kind, resource :=
        LastValue(fields, "service"), LastValue(fields, "kind"), LastValue(fields, "resource");
      if service.None? || kind.None? || resource.None? then Err(FieldMissing)
      else match ParseKind(kind.value)
        case None => Err(KindUnknown)
        case Some(k) => Ok(Usage(service.value, k, resource.value, line))
  }

  method MarkerUsage(inner: string, line: nat) returns (read: Result<Usage, MarkerFault>)
    ensures read == ReadMarker(Args(Pieces(inner)), line)
  {
    hide Pieces, Args, Unquote, Trim, ParseKind;
    var service, kind, resource: Option<string> := None, None, None;
    var fields := SplitArgs(inner);
    for i := 0 to |fields|
      invariant service == LastValue(fields[..i], "service")
      invariant kind == LastValue(fields[..i], "kind")
      invariant resource == LastValue(fields[..i], "resource")
      invariant forall k :: 0 <= k < i ==> KnownField(fields[k])
    {
      assert fields[..i + 1][..i] == fields[..i];
      match KeyValue(fields[i]) {
        case None =>
        case Some((key, value)) =>
          if key == "service" {
            service := value;
          } else if key == "kind" {
            kind := value;
          } else if key == "resource" {
            resource := value;
          } else {
            assert !KnownField(fields[i]);
            return Err(OtherKey);
          }
      }
    }
    assert fields[..|fields|] == fields;
    if service.None? || kind.None? || resource.None? {
      return Err(FieldMissing);
    }
    match ParseKind(kind.value) {
      case None => return Err(KindUnknown);
      case Some(k) => return Ok(Usage(service.value, k, resource.value, line));
    }
  }

  // ----- The scan

  datatype ScanError =
    | MarkerNotClosed(line: nat)
    | MarkerMalformed(line: nat)
    | CallNotClosed(line: nat)
    | CallOpaque(line: nat)

  /** `text[start..end]` is the argument list of the `needle` at `p`. */
  ghost predicate Lists(text: string, needle: string, p: nat, start: nat, end: nat)
    requires needle != ""
  {
    Here(text, needle, p) && Spans(text, p + |needle| - 1, start, end)
  }

  ghost function ListOf(text: string, needle: string, p: nat): (list: Option<(nat, nat)>)
    requires needle != ""
    ensures list.Some? ==> Lists(text, needle, p, list.value.0, list.value.1)
    ensures list == None ==> forall start: nat, end: nat :: !Lists(text, needle, p, start, end)
  {
    if start: nat, end: nat :| Lists(text, needle, p, start, end) then Some((start, end)) else None
  }

  /** The places the scan stops at from `at` on: the first `needle`, then on from the end of its arguments. */
  ghost function Sites(text: string, needle: string, at: nat): (sites: seq<nat>)
    requires needle != ""
    decreases |text| - at
  {
    match Find(text, needle, at)
    case None => []
    case Some(p) =>
      match ListOf(text, needle, p)
      case None => [p]
      case Some((start, end)) => [p] + Sites(text, needle, end)
  }

  ghost predicate CallReads(text: string, p: nat, u: Usage) {
    exists start: nat, end: nat :: Lists(text, CONSTRUCTOR, p, start, end) &&
      ConstructorUsage(Args(Pieces(text[start..end])), LineOf(text, p)) == Some(u)
  }

  ghost predicate MarkerReads(text: string, p: nat, u: Usage) {
    exists start: nat, end: nat :: Lists(text, MARKER, p, start, end) &&
      ReadMarker(Args(Pieces(text[start..end])), LineOf(text, p)) == Ok(u)
  }

  /** A marker on this line or at most five lines above it. */
  predicate Above(markerLine: nat, line: nat) {
    markerLine <= line && line - markerLine <= MARKER_LOOKBACK_LINES
  }

  ghost predicate OnLine(text: string, m: nat, line: nat) {
    Here(text, MARKER, m) && LineOf(text, m) == line
  }

  /** A marker the scan stopped at covers the line. */
  ghost predicate Marked(text: string, line: nat) {
    exists m: nat, above: nat :: m in Sites(text, MARKER, 0) && OnLine(text, m, above) && Above(above, line)
  }

  ghost predicate MarkerFine(text: string, m: nat) {
    exists u :: MarkerReads(text, m, u)
  }

  /** The call names its triple, or it is closed and a marker covers it. */
  ghost predicate CallFine(text: string, p: nat) {
    || (exists u :: CallReads(text, p, u))
    || (ListOf(text, CONSTRUCTOR, p).Some? && Marked(text, LineOf(text, p)))
  }

  /** Absence is never permission: what a text must be to be accepted. */
  ghost predicate Acceptable(text: string) {
    && (forall m :: m in Sites(text, MARKER, 0) ==> MarkerFine(text, m))
    && forall p :: p in Sites(text, CONSTRUCTOR, 0) ==> CallFine(text, p)
  }

  /** The triple stands at a marker or a call the scan stopped at. */
  ghost predicate Reported(text: string, u: Usage) {
    || (exists m :: m in Sites(text, MARKER, 0) && MarkerReads(text, m, u))
    || (exists p :: p in Sites(text, CONSTRUCTOR, 0) && CallReads(text, p, u))
  }

  /** The error points at a site that really is wrong. */
  ghost predicate Wrong(text: string, error: ScanError) {
    match error
    case MarkerNotClosed(line) =>
      exists m :: m in Sites(text, MARKER, 0) && OnLine(text, m, line) && ListOf(text, MARKER, m) == None
    case MarkerMalformed(line) =>
      exists m :: m in Sites(text, MARKER, 0) && OnLine(text, m, line) && ListOf(text, MARKER, m).Some? &&
        !MarkerFine(text, m)
    case CallNotClosed(line) =>
      exists p :: p in Sites(text, CONSTRUCTOR, 0) && Here(text, CONSTRUCTOR, p) && LineOf(text, p) == line &&
        ListOf(text, CONSTRUCTOR, p) == None
    case CallOpaque(line) =>
      exists p :: p in Sites(text, CONSTRUCTOR, 0) && Here(text, CONSTRUCTOR, p) && LineOf(text, p) == line &&
        ListOf(text, CONSTRUCTOR, p).Some? && !CallFine(text, p)
  }

  // ----- One argument list per place

  lemma ListIsUnique(text: string, needle: string, p: nat, s: nat, e: nat, s': nat, e': nat)
    requires needle != "" && Lists(text, needle, p, s, e) && Lists(text, needle, p, s', e')
    ensures s == s' && e == e'
  {
    hide Spans;
    SpanIsUnique(text, p + |needle| - 1, s, e, s', e');
  }

  lemma ListFound(text: string, needle: string, p: nat, start: nat, end: nat)
    requires needle != "" && Lists(text, needle, p, start, end)
    ensures ListOf(text, needle, p) == Some((start, end))
    ensures p + |needle| <= start <= end < |text|
  {
    var list := ListOf(text, needle, p);
    ListIsUnique(text, needle, p, start, end, list.value.0, list.value.1);
    hide Depth, NoParens, CodeAt;
  }

  /** What `Balanced` found is the argument list of the place. */
  lemma BalancedIsTheList(text: string, needle: string, p: nat, span: Option<(nat, nat)>)
    requires needle != "" && Here(text, needle, p)
    requires forall s: nat, e: nat :: Spans(text, p + |needle| - 1, s, e) <==> span == Some((s, e))
    ensures ListOf(text, needle, p) == span
  {
    hide Spans, Here;
    if span.Some? {
      assert Lists(text, needle, p, span.value.0, span.value.1);
      ListFound(text, needle, p, span.value.0, span.value.1);
    }
  }

  lemma CallAt(text: string, p: nat, start: nat, end: nat)
    requires Lists(text, CONSTRUCTOR, p, start, end)
    ensures start <= end <= |text| && p <= |text|
    ensures forall u :: CallReads(text, p, u) <==>
            ConstructorUsage(Args(Pieces(text[start..end])), LineOf(text, p)) == Some(u)
  {
    ListFound(text, CONSTRUCTOR, p, start, end);
    hide Lists, ConstructorUsage, Args, Pieces, LineOf;
    forall u | CallReads(text, p, u)
      ensures ConstructorUsage(Args(Pieces(text[start..end])), LineOf(text, p)) == Some(u)
    {
      var s: nat, e: nat :| Lists(text, CONSTRUCTOR, p, s, e) &&
        ConstructorUsage(Args(Pieces(text[s..e])), LineOf(text, p)) == Some(u);
      ListIsUnique(text, CONSTRUCTOR, p, start, end, s, e);
    }
  }

  lemma MarkerAt(text: string, m: nat, start: nat, end: nat)
    requires Lists(text, MARKER, m, start, end)
    ensures start <= end <= |text| && m <= |text|
    ensures forall u :: MarkerReads(text, m, u) <==>
            ReadMarker(Args(Pieces(text[start..end])), LineOf(text, m)) == Ok(u)
  {
    ListFound(text, MARKER, m, start, end);
    hide Lists, ReadMarker, Args, Pieces, LineOf;
    forall u | MarkerReads(text, m, u)
      ensures ReadMarker(Args(Pieces(text[start..end])), LineOf(text, m)) == Ok(u)
    {
      var s: nat, e: nat :| Lists(text, MARKER, m, s, e) &&
        ReadMarker(Args(Pieces(text[s..e])), LineOf(text, m)) == Ok(u);
      ListIsUnique(text, MARKER, m, start, end, s, e);
    }
  }

  // ----- The two loops

  ghost predicate TriplesOf(text: string, sites: seq<nat>, usages: set<Usage>) {
    forall u :: u in usages <==> exists m :: m in sites && MarkerReads(text, m, u)
  }

  ghost predicate LinesOf(text: string, sites: seq<nat>, lines: set<nat>) {
    forall line :: line in lines <==> exists m :: m in sites && OnLine(text, m, line)
  }

  /** What the first loop knows of the markers it stopped at. */
  ghost predicate MarkersKnown(text: string, sites: seq<nat>, usages: set<Usage>, lines: set<nat>) {
    (forall m :: m in sites ==> MarkerFine(text, m)) && TriplesOf(text, sites, usages) && LinesOf(text, sites, lines)
  }

  lemma OneMoreTriple(text: string, sites: seq<nat>, m: nat, u: Usage, usages: set<Usage>)
    requires TriplesOf(text, sites, usages) && forall v :: MarkerReads(text, m, v) <==> v == u
    ensures TriplesOf(text, sites + [m], usages + {u})
  {
    hide MarkerReads;
    var more := sites + [m];
    assert m in more && forall x :: x in sites ==> x in more;
    forall v ensures v in usages + {u} <==> exists x :: x in more && MarkerReads(text, x, v) {
      if v in usages { var x :| x in sites && MarkerReads(text, x, v); assert x in more; }
      if x :| x in more && MarkerReads(text, x, v) && x != m { assert x in sites; }
    }
  }

  lemma OneMoreLine(text: string, sites: seq<nat>, m: nat, lines: set<nat>, at: nat)
    requires LinesOf(text, sites, lines) && OnLine(text, m, at)
    ensures LinesOf(text, sites + [m], lines + {at})
  {
    assert forall line :: OnLine(text, m, line) <==> line == at;
    hide OnLine;
    var more := sites + [m];
    assert m in more && forall x :: x in sites ==> x in more;
    forall line ensures line in lines + {at} <==> exists x :: x in more && OnLine(text, x, line) {
      if line in lines { var x :| x in sites && OnLine(text, x, line); assert x in more; }
      if x :| x in more && OnLine(text, x, line) && x != m { assert x in sites; }
    }
  }

  lemma OneMoreMarker(text: string, sites: seq<nat>, m: nat, line: nat, u: Usage, usages: set<Usage>, lines: set<nat>)
    requires MarkersKnown(text, sites, usages, lines) && OnLine(text, m, line)
    requires forall v :: MarkerReads(text, m, v) <==> v == u
    ensures MarkersKnown(text, sites + [m], usages + {u}, lines + {line})
  {
    assert MarkerReads(text, m, u) && MarkerFine(text, m);
    hide MarkerReads, MarkerFine, OnLine, TriplesOf, LinesOf;
    assert forall x :: x in sites + [m] ==> x in sites || x == m;
    OneMoreTriple(text, sites, m, u, usages);
    OneMoreLine(text, sites, m, lines, line);
  }

  /** The first loop: every marker, its triple and its line. */
  method ScanMarkers(text: string) returns (scanned: Result<(set<Usage>, set<nat>), ScanError>)
    ensures scanned.Ok? ==> MarkersKnown(text, Sites(text, MARKER, 0), scanned.value.0, scanned.value.1)
    ensures scanned.Err? ==> Wrong(text, scanned.error)
  {
    hide ReadMarker, Args, Pieces, Spans, MarkersKnown, MarkerReads, Lists, Find, MarkerFine, Wrong, OnLine, Sites;
    var usages: set<Usage>, lines: set<nat> := {}, {};
    var at := 0;
    ghost var sites: seq<nat> := [];
    assert MarkersKnown(text, [], {}, {}) by { NothingKnown(text); }
    while true
      invariant at <= |text| && MarkersKnown(text, sites, usages, lines)
      invariant Sites(text, MARKER, 0) == sites + Sites(text, MARKER, at)
      decreases |text| - at
    {
      var found := Find(text, MARKER, at);
      if found == None {
        NoMoreSites(text, MARKER, at);
        assert Sites(text, MARKER, 0) == sites;
        return Ok((usages, lines));
      }
      var m := found.value;
      var line := LineOf(text, m);
      var span := Balanced(text, m + |MARKER| - 1);
      BalancedIsTheList(text, MARKER, m, span);
      NextSite(text, MARKER, at, m, span);
      assert OnLine(text, m, line) by { HereIsOnLine(text, m); }
      if span == None {
        MarkerIsWrong(text, m, line);
        return Err(MarkerNotClosed(line));
      }
      var (start, end) := span.value;
      ListFound(text, MARKER, m, start, end);
      MarkerAt(text, m, start, end);
      var read := MarkerUsage(text[start..end], line);
      match read {
        case Err(_) =>
          MarkerIsWrong(text, m, line);
          return Err(MarkerMalformed(line));
        case Ok(u) =>
          OneMoreMarker(text, sites, m, line, u, usages, lines);
          sites, usages, lines, at := sites + [m], usages + {u}, lines + {line}, end;
      }
    }
  }

  lemma NoMoreSites(text: string, needle: string, at: nat)
    requires needle != "" && Find(text, needle, at) == None
    ensures Sites(text, needle, at) == []
  {}

  lemma NextSite(text: string, needle: string, at: nat, p: nat, list: Option<(nat, nat)>)
    requires needle != "" && Find(text, needle, at) == Some(p) && ListOf(text, needle, p) == list
    ensures p in Sites(text, needle, at)
    ensures list.Some? ==> Sites(text, needle, at) == [p] + Sites(text, needle, list.value.1)
  {
    hide Find, Lists;
  }

  lemma HereIsOnLine(text: string, m: nat)
    requires Here(text, MARKER, m)
    ensures m <= |text| && OnLine(text, m, LineOf(text, m))
  {}

  lemma MarkerIsWrong(text: string, m: nat, line: nat)
    requires m in Sites(text, MARKER, 0) && OnLine(text, m, line)
    ensures ListOf(text, MARKER, m) == None ==> Wrong(text, MarkerNotClosed(line))
    ensures ListOf(text, MARKER, m).Some? && (forall u :: !MarkerReads(text, m, u)) ==>
            Wrong(text, MarkerMalformed(line))
  {
    hide Sites, OnLine, MarkerReads;
  }

  lemma NothingKnown(text: string)
    ensures MarkersKnown(text, [], {}, {})
  {}

  /** What the second loop knows of the calls it stopped at. */
  ghost predicate CallsKnown(text: string, sites: seq<nat>, marked: set<Usage>, usages: set<Usage>) {
    && (forall p :: p in sites ==> CallFine(text, p))
    && forall u :: u in usages <==> u in marked || exists p :: p in sites && CallReads(text, p, u)
  }

  lemma OneMoreCall(text: string, sites: seq<nat>, p: nat, read: set<Usage>, marked: set<Usage>, usages: set<Usage>)
    requires CallsKnown(text, sites, marked, usages) && CallFine(text, p)
    requires forall u :: CallReads(text, p, u) <==> u in read
    ensures CallsKnown(text, sites + [p], marked, usages + read)
  {
    var more := sites + [p];
    assert forall x :: x in more <==> x in sites || x == p;
    hide CallFine, CallReads;
    forall u ensures u in usages + read <==> u in marked || exists x :: x in more && CallReads(text, x, u) {
      if u in usages && u !in marked { var x :| x in sites && CallReads(text, x, u); assert x in more; }
      if u in read { assert p in more && CallReads(text, p, u); }
    }
  }

  /** The second loop: every call, read from its literals or covered by a marker. */
  method ScanCalls(text: string, marked: set<Usage>, lines: set<nat>) returns (scanned: Result<set<Usage>, ScanError>)
    requires MarkersKnown(text, Sites(text, MARKER, 0), marked, lines)
    ensures scanned.Ok? ==> CallsKnown(text, Sites(text, CONSTRUCTOR, 0), marked, scanned.value)
    ensures scanned.Err? ==> Wrong(text, scanned.error)
  {
    hide Args, Pieces, Spans, ConstructorUsage, CallsKnown, Find, MarkersKnown, Marked, CallReads, Lists, LineOf,
      Wrong, Sites;
    var usages := marked;
    var at := 0;
    ghost var sites: seq<nat> := [];
    assert CallsKnown(text, [], marked, marked) by { NoCallKnown(text, marked); }
    while true
      invariant at <= |text| && CallsKnown(text, sites, marked, usages)
      invariant Sites(text, CONSTRUCTOR, 0) == sites + Sites(text, CONSTRUCTOR, at)
      decreases |text| - at
    {
      var found := Find(text, CONSTRUCTOR, at);
      if found == None {
        NoMoreSites(text, CONSTRUCTOR, at);
        assert Sites(text, CONSTRUCTOR, 0) == sites;
        return Ok(usages);
      }
      var p := found.value;
      var line := LineOf(text, p);
      var span := Balanced(text, p + |CONSTRUCTOR| - 1);
      BalancedIsTheList(text, CONSTRUCTOR, p, span);
      NextSite(text, CONSTRUCTOR, at, p, span);
      if span == None {
        CallIsWrong(text, p, line);
        return Err(CallNotClosed(line));
      }
      var (start, end) := span.value;
      ListFound(text, CONSTRUCTOR, p, start, end);
      CallAt(text, p, start, end);
      var args := SplitArgs(text[start..end]);
      var covered := exists above :: above in lines && Above(above, line);
      MarkedIff(text, marked, lines, line);
      match ConstructorUsage(args, line) {
        case Some(u) =>
          assert CallReads(text, p, u);
          OneMoreCall(text, sites, p, {u}, marked, usages);
          usages := usages + {u};
        case None =>
          if !covered {
            CallIsWrong(text, p, line);
            return Err(CallOpaque(line));
          }
          OneMoreCall(text, sites, p, {}, marked, usages);
          assert usages + {} == usages;
      }
      sites, at := sites + [p], end;
    }
  }

  lemma CallIsWrong(text: string, p: nat, line: nat)
    requires p in Sites(text, CONSTRUCTOR, 0) && Here(text, CONSTRUCTOR, p) && LineOf(text, p) == line
    ensures ListOf(text, CONSTRUCTOR, p) == None ==> Wrong(text, CallNotClosed(line))
    ensures ListOf(text, CONSTRUCTOR, p).Some? && !CallFine(text, p) ==> Wrong(text, CallOpaque(line))
  {
    hide Sites, LineOf, CallFine, Here;
  }

  lemma NoCallKnown(text: string, marked: set<Usage>)
    ensures CallsKnown(text, [], marked, marked)
  {}

  lemma MarkedIff(text: string, marked: set<Usage>, lines: set<nat>, line: nat)
    requires MarkersKnown(text, Sites(text, MARKER, 0), marked, lines)
    ensures Marked(text, line) <==> exists above :: above in lines && Above(above, line)
  {
    hide Sites, MarkerFine, MarkerReads, OnLine, Above;
  }

  /** Accepts exactly the acceptable texts, and reports exactly the triples of the sites it stops at. A refusal
      names the line of a site that is wrong. */
  method ScanSource(text: string) returns (scanned: Result<set<Usage>, ScanError>)
    ensures scanned.Ok? <==> Acceptable(text)
    ensures scanned.Ok? ==> forall u :: u in scanned.value <==> Reported(text, u)
    ensures scanned.Err? ==> Wrong(text, scanned.error)
  {
    hide Wrong, MarkerReads, CallReads, CallFine, MarkerFine, Sites;
    var markers := ScanMarkers(text);
    if markers.Err? {
      WrongIsNotAcceptable(text, markers.error);
      return Err(markers.error);
    }
    var (marked, lines) := markers.value;
    scanned := ScanCalls(text, marked, lines);
    if scanned.Err? { WrongIsNotAcceptable(text, scanned.error); }
  }

  lemma WrongIsNotAcceptable(text: string, error: ScanError)
    requires Wrong(text, error)
    ensures !Acceptable(text)
  {
    hide Sites, ReadMarker, ConstructorUsage, LineOf, Lists;
  }
}
