/**
  What the scanner reads is what was written: the two forms of a governed call site come back as the triple
  their literals name.
*/
module SourceLaws {
  import opened Wrappers
  import opened Lexing
  import opened LexingLaws
  import opened Capability
  import opened Ceiling
  import opened SourceScan

  /** A text that needs no escaping inside a string literal. */
  predicate Plain(s: string) {
    forall i :: 0 <= i < |s| ==> s[i] != '"' && s[i] != '\\'
  }

  /** Neither a quote, a bracket nor a comma: the lead of a literal, as in `service = `. */
  predicate Bare(s: string) {
    forall i :: 0 <= i < |s| ==> s[i] != '"' && s[i] != ',' && !Opens(s[i]) && !Closes(s[i])
  }

  function Quote(s: string): string {
    "\"" + s + "\""
  }

  // ----- Literals are one argument each

  lemma {:induction false} BareStaysOnTop(s: string, i: nat)
    requires i <= |s| && Bare(s[..i])
    ensures At(s, i) == TOP
  {
    if i > 0 {
      assert s[i - 1] == s[..i][i - 1];
      BareStaysOnTop(s, i - 1);
    }
  }

  lemma {:induction false} LiteralStaysInside(lead: string, s: string, i: nat)
    requires Bare(lead) && Plain(s) && i <= |s|
    ensures At(lead + Quote(s), |lead| + 1 + i) == Cursor(Str, 0)
  {
    var text := lead + Quote(s);
    if i == 0 {
      assert text[..|lead|] == lead;
      BareStaysOnTop(text, |lead|);
      assert text[|lead|] == '"';
    } else {
      LiteralStaysInside(lead, s, i - 1);
      assert text[|lead| + i] == s[i - 1];
    }
  }

  lemma LiteralIsClosed(lead: string, s: string)
    requires Bare(lead) && Plain(s)
    ensures Closed(lead + Quote(s))
  {
    var text := lead + Quote(s);
    LiteralStaysInside(lead, s, |s|);
    assert text[|text| - 1] == '"';
    forall i | 0 <= i < |text| ensures !CutAt(text, i) {
      if i < |lead| {
        assert text[i] == lead[i];
      } else if i > |lead| {
        LiteralStaysInside(lead, s, i - 1 - |lead|);
      } else {
        assert text[|lead|] == '"';
      }
    }
  }

  lemma BareIsClosed(s: string)
    requires Bare(s)
    ensures Closed(s)
  {
    assert s[..|s|] == s;
    BareStaysOnTop(s, |s|);
  }

  // ----- Literals read back

  lemma {:induction false} PlainNeedsNoEscape(s: string)
    requires Plain(s)
    ensures Unescape(s) == s
  {
    if s != "" {
      PlainNeedsNoEscape(s[1..]);
    }
  }

  lemma QuoteReadsBack(s: string)
    requires Plain(s)
    ensures Unquote(Quote(s)) == Some(s) && Trim(Quote(s)) == Quote(s)
  {
    assert Quote(s)[1..|Quote(s)| - 1] == s;
    PlainNeedsNoEscape(s);
    TrimmedStays(Quote(s));
  }

  lemma {:induction false} ColonsFound(lead: string, name: string, i: nat)
    requires |lead| + 2 <= i <= |lead| + 2 + |name| && ':' !in name
    ensures AfterColons(lead + "::" + name, i) == name
  {
    var arg := lead + "::" + name;
    if i == |lead| + 2 {
      assert arg[|lead|] == ':' && arg[|lead| + 1] == ':' && arg[i..] == name;
    } else {
      assert arg[i - 1] == name[i - 3 - |lead|];
      ColonsFound(lead, name, i - 1);
    }
  }

  predicate Word(s: string) {
    s != "" && forall i :: 0 <= i < |s| ==> 'A' <= s[i] <= 'Z' || 'a' <= s[i] <= 'z'
  }

  lemma StoreNamesAreWords()
    ensures Word("DbRead") && Word("DbWrite") && Word("DbTxn") && Word("DbMigrate")
  {}

  lemma CacheNamesAreWords()
    ensures Word("KvGet") && Word("KvPut") && Word("KvDelete") && Word("CounterGet") && Word("CounterAdd")
  {}

  lemma OtherNamesAreWords()
    ensures Word("LockAcquire") && Word("NotifyPublish") && Word("NotifyListen") && Word("SecretRead") &&
            Word("HttpEgress")
  {}

  lemma NameIsAWord(kind: Kind)
    ensures Word(Name(kind))
  {
    hide Word;
    StoreNamesAreWords();
    CacheNamesAreWords();
    OtherNamesAreWords();
  }

  lemma WordIsPlain(s: string)
    requires Word(s)
    ensures Trimmed(s) && Trim(s) == s && Bare(s) && ':' !in s && '=' !in s && Plain(s)
  {
    TrimmedStays(s);
  }

  lemma {:induction false} NoColons(arg: string, i: nat)
    requires i <= |arg| && ':' !in arg
    ensures AfterColons(arg, i) == arg
  {
    if i >= 2 { NoColons(arg, i - 1); }
  }

  /** A variant's own name, or a path of any length that ends in it. */
  ghost predicate IsPath(text: string, name: string) {
    text == name || exists lead: string :: text == lead + "::" + name
  }

  lemma PathReads(text: string, name: string)
    requires Word(name) && IsPath(text, name)
    ensures AfterColons(text, |text|) == name && Unquote(text) == None
  {
    WordIsPlain(name);
    assert text[|text| - 1] == name[|name| - 1];
    if text == name {
      NoColons(text, |text|);
    } else {
      var lead: string :| text == lead + "::" + name;
      ColonsFound(lead, name, |text|);
    }
  }

  lemma QuoteIsArgument(s: string)
    requires Plain(s)
    ensures Closed(Quote(s)) && Trimmed(Quote(s)) && Trim(Quote(s)) == Quote(s) && Unquote(Quote(s)) == Some(s)
  {
    LiteralIsClosed("", s);
    assert "" + Quote(s) == Quote(s);
    QuoteReadsBack(s);
  }

  /** How a call spells a kind: a path to its variant, or its dotted literal. */
  ghost predicate Spells(text: string, kind: Kind) {
    IsPath(text, Name(kind)) || text == Quote(Dotted(kind))
  }

  lemma SpellingReadsBack(text: string, kind: Kind)
    requires Spells(text, kind)
    ensures KindOf(text) == Some(kind)
  {
    NameIsAWord(kind);
    WordIsPlain(Name(kind));
    DottedIsPlain(kind);
    QuoteReadsBack(Dotted(kind));
    KindsReadBack(kind, Dotted(kind));
    KindsReadBack(kind, Name(kind));
    hide IsPath, Quote, Dotted, Name, Trimmed, Trim, Unquote, ParseKind, ParseName, AfterColons, Plain, Word, Bare;
    if IsPath(text, Name(kind)) { PathReads(text, Name(kind)); }
  }

  // ----- Arguments as they are written

  predicate Blank(text: string) {
    forall i :: 0 <= i < |text| ==> IsSpace(text[i])
  }

  /** A written argument list: each piece is one argument with any white space around it, and after the last comma
      there may be nothing but white space. */
  predicate Written(padded: seq<string>, tail: seq<string>) {
    && padded != [] && (forall k :: 0 <= k < |padded| ==> Closed(padded[k])) && Trim(padded[|padded| - 1]) != ""
    && |tail| <= 1 && forall k :: 0 <= k < |tail| ==> Blank(tail[k])
  }

  lemma {:induction false} BlankTrims(text: string)
    requires Blank(text)
    ensures TrimStart(text) == ""
  {
    if text != "" { BlankTrims(text[1..]); }
  }

  lemma {:induction false} BlankIsOnePiece(text: string)
    requires Blank(text)
    ensures OnePiece(text)
  {
    assert !IsSpace(',');
  }

  lemma WrittenAreArguments(padded: seq<string>, tail: seq<string>)
    requires Written(padded, tail)
    ensures padded + tail != [] && Arguments(padded + tail)
  {
    hide Closed, Trim, Blank, OnePiece;
    var all := padded + tail;
    if tail == [] {
      assert all == padded;
      assert OnePiece(padded[|padded| - 1]) by { ClosedIsOnePiece(padded[|padded| - 1]); }
    } else {
      BlankIsOnePiece(tail[0]);
      assert all[|all| - 1] == tail[0] && forall k :: 0 <= k < |all| - 1 ==> all[k] == padded[k];
    }
  }

  lemma ClosedIsOnePiece(text: string)
    requires Closed(text)
    ensures OnePiece(text)
  {}

  lemma ArgsWithoutTail(padded: seq<string>)
    requires padded != [] && Trim(padded[|padded| - 1]) != ""
    ensures Args(padded) == TrimAll(padded)
  {
    var n := |padded| - 1;
    hide Trim, TrimAll;
    assert padded == padded[..n] + [padded[n]];
    TrimAllSnoc(padded[..n], padded[n]);
  }

  lemma ArgsWithBlankTail(padded: seq<string>, blank: string)
    requires Blank(blank)
    ensures Args(padded + [blank]) == TrimAll(padded)
  {
    BlankTrims(blank);
    TrimOfNothing(blank);
    hide Trim, TrimAll;
    assert (padded + [blank])[..|padded|] == padded;
  }

  /** A written argument list comes back as its arguments, trimmed. */
  lemma WrittenComesBack(padded: seq<string>, tail: seq<string>)
    requires Written(padded, tail)
    ensures Args(Pieces(Join(padded + tail))) == TrimAll(padded)
  {
    WrittenAreArguments(padded, tail);
    assert Trim(padded[|padded| - 1]) != "" && (tail == [] || (tail == [tail[0]] && Blank(tail[0])));
    hide *;
    SplitOfJoin(padded + tail);
    if tail == [] {
      assert padded + tail == padded;
      ArgsWithoutTail(padded);
    } else {
      ArgsWithBlankTail(padded, tail[0]);
    }
  }

  lemma TrimOfNothing(text: string)
    requires TrimStart(text) == ""
    ensures Trim(text) == ""
  {}

  lemma {:induction false} TrimAllAt(padded: seq<string>, k: nat)
    requires k < |padded|
    ensures |TrimAll(padded)| == |padded| && TrimAll(padded)[k] == Trim(padded[k])
  {
    hide Trim;
    if k > 0 {
      TrimAllAt(padded[1..], k - 1);
    } else if |padded| > 1 {
      TrimAllAt(padded[1..], 0);
    }
  }

  lemma {:induction false} TrimStartTrims(text: string)
    ensures var t := TrimStart(text); t != "" ==> !IsSpace(t[0])
  {
    if text != "" && IsSpace(text[0]) { TrimStartTrims(text[1..]); }
  }

  lemma {:induction false} TrimEndTrims(text: string)
    requires text != "" ==> !IsSpace(text[0])
    ensures var t := TrimEnd(text); t == "" || Trimmed(t)
  {
    if text != "" && IsSpace(text[|text| - 1]) { TrimEndTrims(text[..|text| - 1]); }
  }

  lemma TrimTwice(text: string)
    ensures Trim(Trim(text)) == Trim(text)
  {
    TrimStartTrims(text);
    TrimEndTrims(TrimStart(text));
    hide IsSpace;
    if Trim(text) != "" { TrimmedStays(Trim(text)); }
  }

  /** The written arguments, with white space anywhere around them, are a call that names the triple: service and
      resource as plain literals, the kind by any path to its variant or as its dotted literal. The first argument
      and whatever follows the resource are free. */
  ghost predicate NamesTriple(padded: seq<string>, tail: seq<string>, service: string, kind: Kind, resource: string) {
    && Written(padded, tail) && |padded| >= 4 && Plain(service) && Plain(resource)
    && Trim(padded[1]) == Quote(service) && Spells(Trim(padded[2]), kind) && Trim(padded[3]) == Quote(resource)
  }

  /** Such a call is read as exactly its triple. */
  lemma LiteralCallReadsBack(padded: seq<string>, tail: seq<string>, service: string, kind: Kind, resource: string,
                             line: nat)
    requires NamesTriple(padded, tail, service, kind, resource)
    ensures padded + tail != []
    ensures ConstructorUsage(Args(Pieces(Join(padded + tail))), line) == Some(Usage(service, kind, resource, line))
  {
    hide Written, Spells, Quote, Plain, TrimAll, Trim, Closed, Pieces, Join, ConstructorUsage;
    WrittenComesBack(padded, tail);
    SpellingReadsBack(Trim(padded[2]), kind);
    QuoteReadsBack(service);
    QuoteReadsBack(resource);
    TrimTwice(padded[2]);
    TrimAllAt(padded, 1);
    TrimAllAt(padded, 2);
    TrimAllAt(padded, 3);
    ReadTriple(TrimAll(padded), service, kind, resource, line);
  }

  lemma ReadTriple(args: seq<string>, service: string, kind: Kind, resource: string, line: nat)
    requires |args| >= 4
    requires Unquote(Trim(args[1])) == Some(service) && KindOf(Trim(args[2])) == Some(kind) &&
             Unquote(Trim(args[3])) == Some(resource)
    ensures ConstructorUsage(args, line) == Some(Usage(service, kind, resource, line))
  {}

  // ----- Markers

  /** The field gives `key` the literal `value`, with any white space around both. */
  ghost predicate Gives(field: string, key: string, value: string) {
    exists lead: string, rest: string :: field == lead + "=" + rest && Trim(lead) == key && Trim(rest) == Quote(value)
  }

  lemma FieldReadsBack(field: string, key: string, value: string)
    requires key in KEYS && Plain(value) && Gives(field, key, value)
    ensures KeyValue(field) == Some((key, Some(value)))
  {
    var lead: string, rest: string :| field == lead + "=" + rest && Trim(lead) == key && Trim(rest) == Quote(value);
    KeyIsAWord(key);
    hide Word, KEYS;
    WordIsPlain(key);
    QuoteReadsBack(value);
    hide Trim, Quote, Plain, Unquote, Bare;
    if '=' in lead { TrimKeeps(lead, '='); }
    assert field[|lead|] == '=' && forall k :: 0 <= k < |lead| ==> field[k] == lead[k];
    FirstEqualsAt(field, 0, |lead|);
    assert field[..|lead|] == lead && field[|lead| + 1..] == rest;
  }

  lemma {:induction false} TrimStartKeeps(text: string, c: char)
    requires c in text && !IsSpace(c)
    ensures c in TrimStart(text)
  {
    if IsSpace(text[0]) {
      assert text == [text[0]] + text[1..];
      TrimStartKeeps(text[1..], c);
    }
  }

  lemma {:induction false} TrimEndKeeps(text: string, c: char)
    requires c in text && !IsSpace(c)
    ensures c in TrimEnd(text)
  {
    if IsSpace(text[|text| - 1]) {
      assert text == text[..|text| - 1] + [text[|text| - 1]];
      TrimEndKeeps(text[..|text| - 1], c);
    }
  }

  lemma TrimKeeps(text: string, c: char)
    requires c in text && !IsSpace(c)
    ensures c in Trim(text)
  {
    TrimStartKeeps(text, c);
    TrimEndKeeps(TrimStart(text), c);
  }

  lemma KeyIsAWord(key: string)
    requires key in KEYS
    ensures Word(key)
  {
    assert Word("service") && Word("kind") && Word("resource");
  }

  lemma {:induction false} FirstEqualsAt(field: string, i: nat, at: nat)
    requires i <= at < |field| && field[at] == '=' && forall k :: i <= k < at ==> field[k] != '='
    ensures FirstEquals(field, i) == at
    decreases at - i
  {
    if i < at { FirstEqualsAt(field, i + 1, at); }
  }

  /** A written marker that gives each of the three keys once, in whatever order and with whatever white space. */
  ghost predicate GivesTriple(padded: seq<string>, tail: seq<string>, keys: seq<string>, service: string, kind: Kind,
                              resource: string) {
    && Written(padded, tail) && |padded| == |keys| == 3 && (forall key :: key in KEYS ==> key in keys)
    && Plain(service) && Plain(resource)
    && forall k :: 0 <= k < 3 ==> Gives(Trim(padded[k]), keys[k], ValueFor(keys[k], service, kind, resource))
  }

  /** Such a marker is read as exactly its triple. */
  lemma MarkerReadsBack(padded: seq<string>, tail: seq<string>, keys: seq<string>, service: string, kind: Kind,
                        resource: string, line: nat)
    requires GivesTriple(padded, tail, keys, service, kind, resource)
    ensures padded + tail != []
    ensures ReadMarker(Args(Pieces(Join(padded + tail))), line) == Ok(Usage(service, kind, resource, line))
  {
    hide Written, Gives, Plain, TrimAll, Trim, Closed, Pieces, Join, ReadMarker, ValueFor, KEYS, KeyValue;
    WrittenComesBack(padded, tail);
    PlainValues(service, kind, resource);
    ThreeKeys(keys);
    var fields := TrimAll(padded);
    forall k | 0 <= k < 3
      ensures |fields| == 3 && KeyValue(fields[k]) == Some((keys[k], Some(ValueFor(keys[k], service, kind, resource))))
    {
      TrimAllAt(padded, k);
      FieldReadsBack(fields[k], keys[k], ValueFor(keys[k], service, kind, resource));
    }
    ReadThree(fields, keys, service, kind, resource, line);
  }

  lemma PlainValues(service: string, kind: Kind, resource: string)
    requires Plain(service) && Plain(resource)
    ensures forall key :: Plain(ValueFor(key, service, kind, resource))
  {
    DottedIsPlain(kind);
    hide Plain, Dotted;
  }

  lemma ReadThree(fields: seq<string>, keys: seq<string>, service: string, kind: Kind, resource: string, line: nat)
    requires |fields| == |keys| == 3
    requires forall k :: k in KEYS ==> k in keys
    requires keys[0] in KEYS && keys[1] in KEYS && keys[2] in KEYS
    requires keys[0] != keys[1] && keys[0] != keys[2] && keys[1] != keys[2]
    requires forall k :: 0 <= k < 3 ==>
             KeyValue(fields[k]) == Some((keys[k], Some(ValueFor(keys[k], service, kind, resource))))
    ensures ReadMarker(fields, line) == Ok(Usage(service, kind, resource, line))
  {
    hide *;
    KeysAre();
    ValueForEachKey(service, kind, resource);
    LastFor(fields, keys, service, kind, resource, KEYS[0]);
    LastFor(fields, keys, service, kind, resource, KEYS[1]);
    LastFor(fields, keys, service, kind, resource, KEYS[2]);
    forall k | 0 <= k < 3 ensures KnownField(fields[k]) {
      KeyIsKnown(fields[k], keys[k], ValueFor(keys[k], service, kind, resource));
    }
    KindsReadBack(kind, Dotted(kind));
    FromValues(fields, service, kind, resource, line);
  }

  lemma KeysAre()
    ensures KEYS == ["service", "kind", "resource"]
  {}

  lemma KeyIsKnown(field: string, key: string, value: string)
    requires KeyValue(field) == Some((key, Some(value))) && key in KEYS
    ensures KnownField(field)
  {}

  lemma ValueForEachKey(service: string, kind: Kind, resource: string)
    ensures ValueFor("service", service, kind, resource) == service
    ensures ValueFor("kind", service, kind, resource) == Dotted(kind)
    ensures ValueFor("resource", service, kind, resource) == resource
  {
    hide Dotted;
    assert |"service"| == 7 && |"kind"| == 4 && |"resource"| == 8;
  }

  lemma LastFor(fields: seq<string>, keys: seq<string>, service: string, kind: Kind, resource: string, key: string)
    requires |fields| == |keys| == 3 && key in keys
    requires keys[0] != keys[1] && keys[0] != keys[2] && keys[1] != keys[2]
    requires forall k :: 0 <= k < 3 ==>
             KeyValue(fields[k]) == Some((keys[k], Some(ValueFor(keys[k], service, kind, resource))))
    ensures LastValue(fields, key) == Some(ValueFor(key, service, kind, resource))
  {
    hide *;
    LastOfThree(fields, keys, [ValueFor(keys[0], service, kind, resource), ValueFor(keys[1], service, kind, resource),
                               ValueFor(keys[2], service, kind, resource)], key);
  }

  lemma FromValues(fields: seq<string>, service: string, kind: Kind, resource: string, line: nat)
    requires forall k :: 0 <= k < |fields| ==> KnownField(fields[k])
    requires LastValue(fields, "service") == Some(service) && LastValue(fields, "kind") == Some(Dotted(kind))
    requires LastValue(fields, "resource") == Some(resource) && ParseKind(Dotted(kind)) == Some(kind)
    ensures ReadMarker(fields, line) == Ok(Usage(service, kind, resource, line))
  {
    hide LastValue, KnownField, Dotted, ParseKind;
  }

  /** What each key of the marker is given. */
  function ValueFor(key: string, service: string, kind: Kind, resource: string): string {
    if key == "service" then service else if key == "kind" then Dotted(kind) else resource
  }

  lemma StoreFormsArePlain()
    ensures Plain("db.read") && Plain("db.write") && Plain("db.txn") && Plain("db.migrate")
  {}

  lemma CacheFormsArePlain()
    ensures Plain("kv.get") && Plain("kv.put") && Plain("kv.delete") && Plain("counter.get") && Plain("counter.add")
  {}

  lemma OtherFormsArePlain()
    ensures Plain("lock.acquire") && Plain("notify.publish") && Plain("notify.listen") && Plain("secret.read") &&
            Plain("http.egress")
  {}

  lemma DottedIsPlain(kind: Kind)
    ensures Plain(Dotted(kind))
  {
    hide Plain;
    StoreFormsArePlain();
    CacheFormsArePlain();
    OtherFormsArePlain();
  }

  lemma ThreeKeys(keys: seq<string>)
    requires |keys| == 3 && forall k :: k in KEYS ==> k in keys
    ensures keys[0] in KEYS && keys[1] in KEYS && keys[2] in KEYS
    ensures keys[0] != keys[1] && keys[0] != keys[2] && keys[1] != keys[2]
  {
    assert KEYS[0] == "service" && KEYS[1] == "kind" && KEYS[2] == "resource";
    assert "service" in keys && "kind" in keys && "resource" in keys;
    assert |"service"| == 7 && |"kind"| == 4 && |"resource"| == 8;
  }

  lemma LastOfThree(fields: seq<string>, keys: seq<string>, values: seq<string>, key: string)
    requires |fields| == |keys| == |values| == 3 && key in keys
    requires keys[0] != keys[1] && keys[0] != keys[2] && keys[1] != keys[2]
    requires forall k :: 0 <= k < 3 ==> KeyValue(fields[k]) == Some((keys[k], Some(values[k])))
    ensures forall k :: 0 <= k < 3 && keys[k] == key ==> LastValue(fields, key) == Some(values[k])
    ensures exists k :: 0 <= k < 3 && keys[k] == key
  {
    hide KeyValue;
    assert fields[..2][..1] == fields[..1];
    assert LastValue(fields[..1], key) == if keys[0] == key then Some(values[0]) else LastValue([], key) by {
      assert fields[..1][..0] == [];
    }
  }

  // ----- What is no literal, no kind and no key

  /** Every backslash written twice. */
  function Escaped(s: string): string {
    if s == "" then "" else (if s[0] == '\\' then "\\\\" else [s[0]]) + Escaped(s[1..])
  }

  lemma {:induction false} UnescapeEscaped(s: string)
    ensures Unescape(Escaped(s)) == s
    ensures '"' in Escaped(s) <==> '"' in s
  {
    if s != "" {
      UnescapeEscaped(s[1..]);
      assert s == [s[0]] + s[1..];
      var rest := Escaped(s[1..]);
      if s[0] == '\\' {
        assert Escaped(s)[2..] == rest;
      } else {
        assert Escaped(s)[1..] == rest;
      }
    }
  }

  /** A literal with its backslashes doubled reads back as the text it writes. */
  lemma EscapedReadsBack(s: string)
    requires '"' !in s
    ensures Unquote(Quote(Escaped(s))) == Some(s)
  {
    UnescapeEscaped(s);
    assert Quote(Escaped(s))[1..|Quote(Escaped(s))| - 1] == Escaped(s);
  }

  /** An argument is a literal if and only if it is a text without quotes, quoted. */
  lemma LiteralIff(arg: string)
    ensures Unquote(arg).Some? <==> exists body: string :: arg == Quote(body) && '"' !in body
  {
    if Unquote(arg).Some? {
      assert arg == Quote(arg[1..|arg| - 1]);
    }
    if body: string :| arg == Quote(body) && '"' !in body {
      assert arg[1..|arg| - 1] == body;
    }
  }

  lemma {:induction false} AfterColonsIsTheEnd(arg: string, i: nat) returns (n: nat)
    requires i <= |arg|
    ensures n <= |arg| && AfterColons(arg, i) == arg[n..]
    ensures n == 0 || (n >= 2 && arg[n - 2] == ':' && arg[n - 1] == ':')
  {
    if i < 2 {
      n := 0;
    } else if arg[i - 2] == ':' && arg[i - 1] == ':' {
      n := i;
    } else {
      n := AfterColonsIsTheEnd(arg, i - 1);
    }
  }

  /** Nothing is read as a kind but that kind's dotted literal, or what stands behind two colons, or alone, and is its
      variant's name. */
  lemma AKindIsSpelled(arg: string, kind: Kind)
    requires KindOf(arg) == Some(kind)
    ensures Unquote(arg) == Some(Dotted(kind)) ||
            exists n: nat :: n <= |arg| && Trim(arg[n..]) == Name(kind) &&
                             (n == 0 || (n >= 2 && arg[n - 2] == ':' && arg[n - 1] == ':'))
  {
    match Unquote(arg)
    case Some(text) => KindsReadBack(kind, text);
    case None =>
      var n := AfterColonsIsTheEnd(arg, |arg|);
      KindsReadBack(kind, Trim(arg[n..]));
  }

  /** The last field under a key speaks for it. */
  lemma {:induction false} TheLastFieldSpeaks(fields: seq<string>, key: string, n: nat)
    requires n < |fields| && KeyValue(fields[n]).Some? && KeyValue(fields[n]).value.0 == key
    requires forall j :: n < j < |fields| ==> !(KeyValue(fields[j]).Some? && KeyValue(fields[j]).value.0 == key)
    ensures LastValue(fields, key) == KeyValue(fields[n]).value.1
  {
    hide KeyValue;
    if n < |fields| - 1 { TheLastFieldSpeaks(fields[..|fields| - 1], key, n); }
  }

  lemma {:induction false} NoFieldNoValue(fields: seq<string>, key: string)
    requires forall j :: 0 <= j < |fields| ==> !(KeyValue(fields[j]).Some? && KeyValue(fields[j]).value.0 == key)
    ensures LastValue(fields, key) == None
  {
    hide KeyValue;
    if fields != [] { NoFieldNoValue(fields[..|fields| - 1], key); }
  }

  /** The field has an equals sign, and in front of the first one its key. */
  ghost predicate HasKey(field: string, key: string) {
    exists lead: string, rest: string :: field == lead + "=" + rest && '=' !in lead && Trim(lead) == key
  }

  lemma KeyIff(field: string, key: string)
    ensures HasKey(field, key) <==> KeyValue(field).Some? && KeyValue(field).value.0 == key
  {
    hide Trim, Unquote;
    if lead: string, rest: string :| field == lead + "=" + rest && '=' !in lead && Trim(lead) == key {
      assert field[|lead|] == '=' && forall k :: 0 <= k < |lead| ==> field[k] == lead[k];
      FirstEqualsAt(field, 0, |lead|);
      assert field[..|lead|] == lead;
    }
    if '=' in field {
      FirstEqualsStops(field, 0);
      var at := FirstEquals(field, 0);
      FirstEqualsIsFirst(field, 0);
      assert field == field[..at] + "=" + field[at + 1..] && '=' !in field[..at];
    }
  }

  lemma {:induction false} FirstEqualsIsFirst(field: string, i: nat)
    requires i <= |field|
    ensures i <= FirstEquals(field, i) <= |field| && forall k :: i <= k < FirstEquals(field, i) ==> field[k] != '='
    decreases |field| - i
  {
    if i < |field| && field[i] != '=' { FirstEqualsIsFirst(field, i + 1); }
  }

  /** A marker is refused for a key exactly when some field has one that is none of the three; for a missing field
      exactly when all keys are known and one of the three has no literal; and for its kind exactly when all are there
      and the kind's text is no dotted form. */
  lemma AMarkerIsRefusedFor(fields: seq<string>, line: nat)
    ensures ReadMarker(fields, line) == Err(OtherKey) <==>
            exists k, key: string :: 0 <= k < |fields| && HasKey(fields[k], key) &&
                             key != "service" && key != "kind" && key != "resource"
    ensures ReadMarker(fields, line) == Err(FieldMissing) <==>
            && ReadMarker(fields, line) != Err(OtherKey)
            && (LastValue(fields, "service") == None || LastValue(fields, "kind") == None ||
                LastValue(fields, "resource") == None)
    ensures ReadMarker(fields, line) == Err(KindUnknown) ==>
            LastValue(fields, "kind").Some? && forall kind :: LastValue(fields, "kind").value != Dotted(kind)
  {
    hide KeyValue, LastValue, HasKey, Dotted, ParseKind;
    forall k | 0 <= k < |fields|
      ensures KnownField(fields[k]) <==>
              forall key: string :: HasKey(fields[k], key) ==> key == "service" || key == "kind" || key == "resource"
    {
      KnownIff(fields[k]);
    }
    if ReadMarker(fields, line) == Err(KindUnknown) {
      forall kind ensures LastValue(fields, "kind").value != Dotted(kind) {
        KindsReadBack(kind, LastValue(fields, "kind").value);
      }
    }
  }

  lemma KnownIff(field: string)
    ensures KnownField(field) <==>
            forall key: string :: HasKey(field, key) ==> key == "service" || key == "kind" || key == "resource"
  {
    KeysAreThree();
    forall key: string ensures HasKey(field, key) <==> KeyValue(field).Some? && KeyValue(field).value.0 == key {
      KeyIff(field, key);
    }
    hide KeyValue, HasKey, KEYS;
    if KeyValue(field).Some? { assert HasKey(field, KeyValue(field).value.0); }
  }

  lemma KeysAreThree()
    ensures forall key :: key in KEYS <==> key == "service" || key == "kind" || key == "resource"
  {
    assert KEYS[0] == "service" && KEYS[1] == "kind" && KEYS[2] == "resource";
  }
}
