/**
  The capability vocabulary of crates/rahi-kernel/src/capability.rs.
*/
module Capability {
  import opened Wrappers

  datatype Kind =
    | DbRead | DbWrite | DbTxn | DbMigrate
    | KvGet | KvPut | KvDelete
    | CounterGet | CounterAdd
    | LockAcquire
    | NotifyPublish | NotifyListen
    | SecretRead
    | HttpEgress

  const ALL: seq<Kind> :=
    [DbRead, DbWrite, DbTxn, DbMigrate, KvGet, KvPut, KvDelete, CounterGet, CounterAdd, LockAcquire,
     NotifyPublish, NotifyListen, SecretRead, HttpEgress]

  /** The dotted wire form. */
  function Dotted(kind: Kind): string {
    match kind
    case DbRead => "db.read"
    case DbWrite => "db.write"
    case DbTxn => "db.txn"
    case DbMigrate => "db.migrate"
    case KvGet => "kv.get"
    case KvPut => "kv.put"
    case KvDelete => "kv.delete"
    case CounterGet => "counter.get"
    case CounterAdd => "counter.add"
    case LockAcquire => "lock.acquire"
    case NotifyPublish => "notify.publish"
    case NotifyListen => "notify.listen"
    case SecretRead => "secret.read"
    case HttpEgress => "http.egress"
  }

  /** The variant's own name, as a literal in Rust source spells it. */
  function Name(kind: Kind): string {
    match kind
    case DbRead => "DbRead"
    case DbWrite => "DbWrite"
    case DbTxn => "DbTxn"
    case DbMigrate => "DbMigrate"
    case KvGet => "KvGet"
    case KvPut => "KvPut"
    case KvDelete => "KvDelete"
    case CounterGet => "CounterGet"
    case CounterAdd => "CounterAdd"
    case LockAcquire => "LockAcquire"
    case NotifyPublish => "NotifyPublish"
    case NotifyListen => "NotifyListen"
    case SecretRead => "SecretRead"
    case HttpEgress => "HttpEgress"
  }

  /** The first kind in `kinds` that `spell` writes as `text`. */
  function FindKind(kinds: seq<Kind>, spell: Kind -> string, text: string): Option<Kind> {
    if kinds == [] then None
    else if spell(kinds[0]) == text then Some(kinds[0])
    else FindKind(kinds[1..], spell, text)
  }

  function ParseKind(text: string): Option<Kind> {
    FindKind(ALL, Dotted, text)
  }

  function ParseName(text: string): Option<Kind> {
    FindKind(ALL, Name, text)
  }

  lemma {:induction false} FindKindFinds(kinds: seq<Kind>, spell: Kind -> string, kind: Kind, text: string)
    requires forall a, b :: a in kinds && b in kinds && spell(a) == spell(b) ==> a == b
    ensures FindKind(kinds, spell, text) == Some(kind) <==> kind in kinds && spell(kind) == text
    ensures FindKind(kinds, spell, text) == None <==> forall k :: k in kinds ==> spell(k) != text
  {
    if kinds != [] {
      FindKindFinds(kinds[1..], spell, kind, text);
      if spell(kinds[0]) == text { assert kinds[0] in kinds; }
    }
  }

  lemma EveryKindIsListed(kind: Kind)
    ensures kind in ALL
  {
    assert ALL[0] == DbRead && ALL[1] == DbWrite && ALL[2] == DbTxn && ALL[3] == DbMigrate && ALL[4] == KvGet;
    assert ALL[5] == KvPut && ALL[6] == KvDelete && ALL[7] == CounterGet && ALL[8] == CounterAdd;
    assert ALL[9] == LockAcquire && ALL[10] == NotifyPublish && ALL[11] == NotifyListen;
    assert ALL[12] == SecretRead && ALL[13] == HttpEgress;
  }

  lemma DottedDiffer(a: Kind, b: Kind)
    requires Dotted(a) == Dotted(b)
    ensures a == b
  {
    var s := Dotted(a);
    assert |s| >= 6;
    assert s[0] == Dotted(b)[0] && s[3] == Dotted(b)[3] && s[4] == Dotted(b)[4] && |s| == |Dotted(b)|;
  }

  lemma NamesDiffer(a: Kind, b: Kind)
    requires Name(a) == Name(b)
    ensures a == b
  {
    var s := Name(a);
    assert |s| >= 5;
    assert s[0] == Name(b)[0] && s[2] == Name(b)[2] && s[4] == Name(b)[4] && |s| == |Name(b)|;
  }

  /** The vocabulary is closed and both spellings read back: a text names a kind exactly when it is that
      kind's spelling. */
  lemma KindsReadBack(kind: Kind, text: string)
    ensures ParseKind(text) == Some(kind) <==> text == Dotted(kind)
    ensures ParseName(text) == Some(kind) <==> text == Name(kind)
  {
    EveryKindIsListed(kind);
    forall a, b | Dotted(a) == Dotted(b) ensures a == b { DottedDiffer(a, b); }
    forall a, b | Name(a) == Name(b) ensures a == b { NamesDiffer(a, b); }
    hide Dotted, Name, FindKind;
    FindKindFinds(ALL, Dotted, kind, text);
    FindKindFinds(ALL, Name, kind, text);
  }

  // ----- The two spellings agree

  function Upper(c: char): char {
    if 'a' <= c <= 'z' then 'A' + (c - 'a') else c
  }

  /** `name` is `dotted` without the dot at `n`, the first letter of either part raised. */
  predicate CamelAt(dotted: string, n: nat, name: string) {
    && 0 < n < |dotted| - 1 && dotted[n] == '.' && |name| == |dotted| - 1
    && name[0] == Upper(dotted[0]) && name[n] == Upper(dotted[n + 1])
    && (forall i :: 0 < i < n ==> name[i] == dotted[i])
    && forall i :: n < i < |name| ==> name[i] == dotted[i + 1]
  }

  lemma StoreSpellingsAgree()
    ensures CamelAt("db.read", 2, "DbRead") && CamelAt("db.write", 2, "DbWrite") && CamelAt("db.txn", 2, "DbTxn")
    ensures CamelAt("db.migrate", 2, "DbMigrate") && CamelAt("kv.get", 2, "KvGet") && CamelAt("kv.put", 2, "KvPut")
  {}

  lemma CacheSpellingsAgree()
    ensures CamelAt("kv.delete", 2, "KvDelete") && CamelAt("counter.get", 7, "CounterGet")
    ensures CamelAt("counter.add", 7, "CounterAdd") && CamelAt("lock.acquire", 4, "LockAcquire")
  {}

  lemma OtherSpellingsAgree()
    ensures CamelAt("notify.publish", 6, "NotifyPublish") && CamelAt("notify.listen", 6, "NotifyListen")
    ensures CamelAt("secret.read", 6, "SecretRead") && CamelAt("http.egress", 4, "HttpEgress")
  {}

  /** Where the dot stands. */
  function DotOf(kind: Kind): nat {
    match kind
    case DbRead | DbWrite | DbTxn | DbMigrate | KvGet | KvPut | KvDelete => 2
    case LockAcquire | HttpEgress => 4
    case NotifyPublish | NotifyListen | SecretRead => 6
    case CounterGet | CounterAdd => 7
  }

  /** A kind's variant is its dotted form in camel case. */
  lemma SpellingsAgree(kind: Kind)
    ensures CamelAt(Dotted(kind), DotOf(kind), Name(kind))
  {
    StoreSpellingsAgree();
    CacheSpellingsAgree();
    OtherSpellingsAgree();
    hide CamelAt;
  }

  // ----- Names

  const MAX_NAME_LEN := 128

  predicate Lower(c: char) {
    'a' <= c <= 'z'
  }

  predicate Digit(c: char) {
    '0' <= c <= '9'
  }

  /** `ServiceName::parse` accepts the text. */
  predicate IsServiceName(text: string) {
    && 0 < |text| <= MAX_NAME_LEN && Lower(text[0])
    && forall c :: c in text ==> Lower(c) || Digit(c) || c == '_' || c == '-'
  }

  /** A lower-case letter, then at most 127 lower-case letters, digits, underscores and dashes. */
  lemma ServiceNameRule(text: string)
    ensures IsServiceName(text) <==>
            && 1 <= |text| <= 128 && 'a' <= text[0] <= 'z'
            && forall i :: 0 <= i < |text| ==>
                 'a' <= text[i] <= 'z' || '0' <= text[i] <= '9' || text[i] == '_' || text[i] == '-'
  {
    forall i | 0 <= i < |text| ensures text[i] in text {}
  }

  predicate EndsWith(text: string, suffix: string) {
    |suffix| <= |text| && text[|text| - |suffix|..] == suffix
  }

  /** A resource name read as an egress pattern. */
  predicate MatchesHost(pattern: string, host: string) {
    if pattern != "" && pattern[0] == '*' then
      var suffix := pattern[1..];
      suffix != "" && suffix[0] == '.' && EndsWith(host, suffix)
    else pattern == host
  }

  // ----- Capabilities

  datatype Family = Table | Kv | Counter | Secret | Egress | Free

  function FamilyOf(kind: Kind): Family {
    match kind
    case DbRead | DbWrite | DbTxn | DbMigrate => Table
    case KvGet | KvPut | KvDelete => Kv
    case CounterGet | CounterAdd => Counter
    case SecretRead => Secret
    case HttpEgress => Egress
    case LockAcquire | NotifyPublish | NotifyListen => Free
  }

  datatype Constraints = Constraints(keyPrefix: Option<string>, table: Option<string>, host: Option<string>)

  datatype Refusal = OutsidePrefix | NoKey | OtherTable | NoTable | OutsideHost | NoHost

  /** Why the constraints refuse a request, the first unmet one speaking; none when all hold. */
  function Refuses(c: Constraints, key: Option<string>, table: Option<string>, host: Option<string>): Option<Refusal> {
    if c.keyPrefix.Some? && key.None? then Some(NoKey)
    else if c.keyPrefix.Some? && !(c.keyPrefix.value <= key.value) then Some(OutsidePrefix)
    else if c.table.Some? && table.None? then Some(NoTable)
    else if c.table.Some? && table != c.table then Some(OtherTable)
    else if c.host.Some? && host.None? then Some(NoHost)
    else if c.host.Some? && !MatchesHost(c.host.value, host.value) then Some(OutsideHost)
    else None
  }

  datatype Capability = Capability(id: string, kind: Kind, resource: string, constraints: Constraints)

  predicate Covers(cap: Capability, kind: Kind, resource: string) {
    && cap.kind == kind
    && if FamilyOf(kind) == Egress then MatchesHost(cap.resource, resource) else cap.resource == resource
  }

  /** A declared predicate the request meets, or says nothing about and so fails. */
  predicate Meets(want: Option<string>, got: Option<string>, holds: (string, string) -> bool) {
    want.Some? ==> got.Some? && holds(want.value, got.value)
  }

  /** A request passes exactly when it answers every declared predicate and each answer fits. */
  lemma ConstraintsHoldTogether(c: Constraints, key: Option<string>, table: Option<string>, host: Option<string>)
    ensures Refuses(c, key, table, host) == None <==>
            && Meets(c.keyPrefix, key, (want: string, got: string) => want <= got)
            && Meets(c.table, table, (want: string, got: string) => want == got)
            && Meets(c.host, host, MatchesHost)
  {}

  /** What each refusal says of the request, the predicates before it being met. */
  predicate Unmet(why: Refusal, c: Constraints, key: Option<string>, table: Option<string>, host: Option<string>) {
    var keyMet, tableMet := Meets(c.keyPrefix, key, (want: string, got: string) => want <= got),
      Meets(c.table, table, (want: string, got: string) => want == got);
    match why
    case NoKey => c.keyPrefix.Some? && key == None
    case OutsidePrefix => c.keyPrefix.Some? && key.Some? && !(c.keyPrefix.value <= key.value)
    case NoTable => keyMet && c.table.Some? && table == None
    case OtherTable => keyMet && c.table.Some? && table.Some? && table.value != c.table.value
    case NoHost => keyMet && tableMet && c.host.Some? && host == None
    case OutsideHost => keyMet && tableMet && c.host.Some? && host.Some? && !MatchesHost(c.host.value, host.value)
  }

  /** The refusal is the first predicate, of key, table and host, that the request does not meet, and tells
      silence from a wrong answer. */
  lemma RefusalIsTheFirstUnmet(c: Constraints, key: Option<string>, table: Option<string>, host: Option<string>,
                               why: Refusal)
    ensures Refuses(c, key, table, host) == Some(why) <==> Unmet(why, c, key, table, host)
  {}

  // ----- Egress wildcards

  /** A name without a leading star matches itself alone; a star that no dot follows matches nothing. */
  lemma OtherPatterns(pattern: string, host: string)
    ensures pattern == "" || pattern[0] != '*' ==> (MatchesHost(pattern, host) <==> host == pattern)
    ensures pattern != "" && pattern[0] == '*' && (|pattern| == 1 || pattern[1] != '.') ==> !MatchesHost(pattern, host)
  {
    if |pattern| > 1 { assert pattern[1..][0] == pattern[1]; }
  }

  /** The labels of a host name, between its dots. */
  function Labels(host: string): (labels: seq<string>)
    ensures labels != []
  {
    if host == "" then [""]
    else
      var rest := Labels(host[1..]);
      if host[0] == '.' then [""] + rest else Led(host[0], rest)
  }

  /** The first label begins one character earlier. */
  function Led(c: char, labels: seq<string>): seq<string>
    requires labels != []
  {
    [[c] + labels[0]] + labels[1..]
  }

  /** A wildcard covers exactly the hosts that end in its suffix, whatever stands in front, and so never the
      suffix's own domain. */
  lemma WildcardCovers(suffix: string, host: string)
    requires suffix != "" && suffix[0] == '.'
    ensures MatchesHost("*" + suffix, host) <==> exists front: string :: host == front + suffix
    ensures !MatchesHost("*" + suffix, suffix[1..])
  {
    assert ("*" + suffix)[1..] == suffix;
    if EndsWith(host, suffix) {
      assert host == host[..|host| - |suffix|] + suffix;
    }
    if front: string :| host == front + suffix {
      assert host[|host| - |suffix|..] == suffix;
    }
  }

  lemma LedFirst(c: char, labels: seq<string>, more: seq<string>)
    requires labels != []
    ensures Led(c, labels + more) == Led(c, labels) + more
  {
    assert (labels + more)[1..] == labels[1..] + more;
  }

  lemma LabelsOf(c: char, rest: string)
    ensures Labels([c] + rest) == if c == '.' then [""] + Labels(rest) else Led(c, Labels(rest))
  {
    assert ([c] + rest)[1..] == rest;
  }

  lemma {:induction false} LabelsSplit(front: string, domain: string)
    ensures Labels(front + "." + domain) == Labels(front) + Labels(domain)
  {
    hide Labels, Led;
    if front == "" {
      assert front + "." + domain == ['.'] + domain;
      LabelsOf('.', domain);
      assert Labels(front) == [""] by { NoLabels(); }
    } else {
      var c, rest := front[0], front[1..];
      assert front == [c] + rest && front + "." + domain == [c] + (rest + "." + domain);
      LabelsSplit(rest, domain);
      LabelsOf(c, rest);
      LabelsOf(c, rest + "." + domain);
      LedFirst(c, Labels(rest), Labels(domain));
      assert [""] + (Labels(rest) + Labels(domain)) == [""] + Labels(rest) + Labels(domain);
    }
  }

  lemma NoLabels()
    ensures Labels("") == [""]
  {}

  predicate Labelled(labels: seq<string>) {
    exists k :: 0 <= k < |labels| && labels[k] != ""
  }

  lemma {:induction false} LabelledByACharacter(front: string)
    ensures Labelled(Labels(front)) <==> exists i :: 0 <= i < |front| && front[i] != '.'
  {
    if front != "" {
      var rest := Labels(front[1..]);
      LabelledByACharacter(front[1..]);
      assert forall i :: 0 < i < |front| ==> front[i] == front[1..][i - 1];
      if front[0] == '.' {
        assert forall k :: 0 < k < |Labels(front)| ==> Labels(front)[k] == rest[k - 1];
        if Labelled(rest) {
          var k :| 0 <= k < |rest| && rest[k] != "";
          assert Labels(front)[k + 1] != "";
          var i :| 0 <= i < |front[1..]| && front[1..][i] != '.';
          assert front[i + 1] != '.';
        }
      } else {
        assert Labels(front)[0] != "";
      }
    }
  }

  /** A covered host has at least one more label than the wildcard's domain, and the rest are the domain's. One of
      the further labels is not empty if and only if some character in front of the suffix is not a dot. */
  lemma OneMoreLabelIff(suffix: string, host: string)
    requires suffix != "" && suffix[0] == '.' && MatchesHost("*" + suffix, host)
    ensures var labels, more := Labels(host), |Labels(host)| - |Labels(suffix[1..])|;
            && 0 < more && labels[more..] == Labels(suffix[1..])
            && (Labelled(labels[..more]) <==> exists i :: 0 <= i < |host| - |suffix| && host[i] != '.')
  {
    var front, domain := host[..|host| - |suffix|], suffix[1..];
    assert EndsWith(host, suffix) by { assert ("*" + suffix)[1..] == suffix; }
    assert host == front + "." + domain;
    hide Labels, Labelled, EndsWith, MatchesHost;
    LabelsSplit(front, domain);
    LabelledByACharacter(front);
    assert Labels(host)[..|Labels(front)|] == Labels(front);
  }

  /** So a wildcard covers hosts whose further labels are all empty: any number of dots in front of its suffix. */
  lemma EmptyLabelsAreCovered(dots: string, domain: string)
    requires forall i :: 0 <= i < |dots| ==> dots[i] == '.'
    ensures MatchesHost("*" + ("." + domain), dots + "." + domain)
    ensures Labels(dots + "." + domain) == Labels(dots) + Labels(domain) && !Labelled(Labels(dots))
  {
    var suffix := "." + domain;
    assert dots + "." + domain == dots + suffix;
    hide Labels, Labelled, MatchesHost;
    WildcardCovers(suffix, dots + suffix);
    LabelsSplit(dots, domain);
    LabelledByACharacter(dots);
  }

  /** `.example.com` and `..example.com` are two of them. */
  lemma DotsAreCovered()
    ensures MatchesHost("*.example.com", ".example.com") && !Labelled(Labels(""))
    ensures MatchesHost("*.example.com", "..example.com") && !Labelled(Labels("."))
  {
    assert "*.example.com"[1..] == ".example.com";
    assert "..example.com"[1..] == ".example.com";
  }
}
