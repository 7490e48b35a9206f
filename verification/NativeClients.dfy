/**
  Native-client provisioning, as crates/rahi-idp/src/native.rs does it against the IdP's admin API.

  The IdP stores what it is sent; every request here succeeds, and a pass cut short by a failed one is a prefix
  of what the model does.
*/
module NativeClients {
  import opened Wrappers

  datatype Json =
    | Null
    | Bool(truth: bool)
    | Number(number: nat)
    | Text(text: string)
    | List(items: seq<Json>)
    | Object(fields: map<string, Json>)

  const BASE_SCOPES := ["openid", "profile", "email"]
  const CHALLENGE_S256 := "S256"
  const ALG_RS256 := "RS256"

  /** A declared client, and the settings fixed for it. */
  datatype NativeClient = NativeClient(id: string, grants: seq<string>, scopes: seq<string>, redirectUris: seq<string>)

  datatype Settings = Settings(id: string, flows: seq<string>, scopes: seq<string>, redirectUris: seq<string>,
                               audience: seq<string>, lifetime: nat)

  /** `scopes` followed by those of `more` not met yet. */
  function Extended(scopes: seq<string>, more: seq<string>): seq<string>
    decreases more
  {
    if more == [] then scopes
    else Extended(if more[0] in scopes then scopes else scopes + [more[0]], more[1..])
  }

  function SettingsFor(client: NativeClient, audience: string, lifetime: nat): Settings {
    Settings(client.id, client.grants, Extended(BASE_SCOPES, client.scopes), client.redirectUris, [audience], lifetime)
  }

  /** No scope repeats; the base scopes lead; after them come exactly the declared ones the IdP does not give
      every client, each where it is declared first. */
  ghost predicate BaseThenDeclared(scopes: seq<string>, declared: seq<string>) {
    && (forall i, j :: 0 <= i < j < |scopes| ==> scopes[i] != scopes[j])
    && BASE_SCOPES <= scopes
    && (forall scope :: scope in scopes <==> scope in BASE_SCOPES || scope in declared)
    && forall i, j :: |BASE_SCOPES| <= i < j < |scopes| ==> DeclaredFirst(declared, scopes[i], scopes[j])
  }

  /** `a` is declared, and before any `b`. */
  ghost predicate DeclaredFirst(declared: seq<string>, a: string, b: string) {
    exists k :: 0 <= k < |declared| && declared[k] == a && b !in declared[..k + 1]
  }

  lemma DeclaredFirstStays(declared: seq<string>, n: nat, a: string, b: string)
    requires n <= |declared| && DeclaredFirst(declared[..n], a, b)
    ensures DeclaredFirst(declared, a, b)
  {
    var k :| 0 <= k < n && declared[..n][k] == a && b !in declared[..n][..k + 1];
    assert declared[..n][..k + 1] == declared[..k + 1];
  }

  /** One more declared scope is appended if it was not met. */
  lemma OneMoreScope(scopes: seq<string>, declared: seq<string>, n: nat)
    requires n < |declared| && BaseThenDeclared(scopes, declared[..n])
    ensures BaseThenDeclared(if declared[n] in scopes then scopes else scopes + [declared[n]], declared[..n + 1])
  {
    var scope, more := declared[n], if declared[n] in scopes then scopes else scopes + [declared[n]];
    assert declared[..n + 1] == declared[..n] + [scope] && declared[..n + 1][..n] == declared[..n];
    forall i, j | |BASE_SCOPES| <= i < j < |more| ensures DeclaredFirst(declared[..n + 1], more[i], more[j]) {
      if j < |scopes| {
        DeclaredFirstStays(declared[..n + 1], n, more[i], more[j]);
      } else {
        assert scopes[i] in scopes && scopes[i] !in BASE_SCOPES;
        var k :| 0 <= k < n && declared[..n][k] == scopes[i];
        assert scope !in declared[..n + 1][..k + 1];
      }
    }
  }

  lemma {:induction false} ExtendedIs(scopes: seq<string>, declared: seq<string>, n: nat)
    requires n <= |declared| && BaseThenDeclared(scopes, declared[..n])
    ensures BaseThenDeclared(Extended(scopes, declared[n..]), declared)
    decreases |declared| - n
  {
    hide BaseThenDeclared;
    if n == |declared| {
      assert declared[..n] == declared;
    } else {
      OneMoreScope(scopes, declared, n);
      ExtendedIs(if declared[n] in scopes then scopes else scopes + [declared[n]], declared, n + 1);
    }
  }

  /** The scopes a declared client is given. */
  lemma ScopesOfClient(client: NativeClient, audience: string, lifetime: nat)
    ensures BaseThenDeclared(SettingsFor(client, audience, lifetime).scopes, client.scopes)
  {
    assert client.scopes[0..] == client.scopes && client.scopes[..0] == [];
    assert BaseThenDeclared(BASE_SCOPES, []);
    ExtendedIs(BASE_SCOPES, client.scopes, 0);
  }

  method ForClient(client: NativeClient, audience: string, lifetime: nat) returns (settings: Settings)
    ensures settings == SettingsFor(client, audience, lifetime)
    ensures BaseThenDeclared(settings.scopes, client.scopes)
  {
    var scopes := BASE_SCOPES;
    for i := 0 to |client.scopes|
      invariant Extended(scopes, client.scopes[i..]) == Extended(BASE_SCOPES, client.scopes)
    {
      if client.scopes[i] !in scopes {
        scopes := scopes + [client.scopes[i]];
      }
    }
    settings := Settings(client.id, client.grants, scopes, client.redirectUris, [audience], lifetime);
    ScopesOfClient(client, audience, lifetime);
  }

  function NotBase(scopes: seq<string>): seq<string> {
    if scopes == [] then []
    else (if scopes[0] in BASE_SCOPES then [] else [scopes[0]]) + NotBase(scopes[1..])
  }

  /** The scopes a client needs that are not the IdP's own. */
  function DeclaredScopes(s: Settings): seq<string> {
    NotBase(s.scopes)
  }

  // ----- Documents

  function Texts(texts: seq<string>): Json {
    List(seq(|texts|, i requires 0 <= i < |texts| => Text(texts[i])))
  }

  function Strings(items: seq<Json>): seq<string> {
    if items == [] then []
    else (if items[0].Text? then [items[0].text] else []) + Strings(items[1..])
  }

  function Get(doc: Json, field: string): Option<Json> {
    if doc.Object? && field in doc.fields then Some(doc.fields[field]) else None
  }

  /** Every string in the document's list under `field`. */
  function StringsAt(doc: Json, field: string): seq<string> {
    match Get(doc, field)
    case Some(List(items)) => Strings(items)
    case _ => []
  }

  function AsSet(texts: seq<string>): set<string> {
    set text | text in texts
  }

  function CreateFields(s: Settings): map<string, Json> {
    map["id" := Text(s.id), "name" := Text(s.id), "confidential" := Bool(false),
      "redirect_uris" := Texts(s.redirectUris)]
  }

  /** The fields these settings fix. */
  function Fixed(s: Settings): map<string, Json> {
    map["enabled" := Bool(true),
        "confidential" := Bool(false),
        "redirect_uris" := Texts(s.redirectUris),
        "flows_enabled" := Texts(s.flows),
        "challenges" := Texts([CHALLENGE_S256]),
        "access_token_alg" := Text(ALG_RS256),
        "id_token_alg" := Text(ALG_RS256),
        "scopes" := Texts(s.scopes),
        "default_scopes" := Texts(s.scopes),
        "default_aud" := Texts(s.audience),
        "access_token_lifetime" := Number(s.lifetime)]
  }

  function UpdateRequest(s: Settings, doc: Json): Json {
    if doc.Object? then Object(doc.fields + Fixed(s)) else doc
  }

  /** The first list field of `fields` that does not hold the required strings, order aside. */
  function FirstListMismatch(doc: Json, fields: seq<(string, seq<string>)>): Option<string> {
    if fields == [] then None
    else if AsSet(StringsAt(doc, fields[0].0)) != AsSet(fields[0].1) then Some(fields[0].0)
    else FirstListMismatch(doc, fields[1..])
  }

  function FirstMismatch(s: Settings, doc: Json): Option<string> {
    if Get(doc, "confidential") != Some(Bool(false)) then Some("confidential")
    else if Get(doc, "enabled") != Some(Bool(true)) then Some("enabled")
    else
      var list := FirstListMismatch(doc, [("flows_enabled", s.flows), ("redirect_uris", s.redirectUris),
                                          ("scopes", s.scopes), ("default_scopes", s.scopes),
                                          ("default_aud", s.audience)]);
      if list.Some? then list
      else if Get(doc, "access_token_alg") != Some(Text(ALG_RS256)) then Some("access_token_alg")
      else if Get(doc, "id_token_alg") != Some(Text(ALG_RS256)) then Some("id_token_alg")
      else if StringsAt(doc, "challenges") != [CHALLENGE_S256] then Some("challenges")
      else if Get(doc, "access_token_lifetime") != Some(Number(s.lifetime)) then Some("access_token_lifetime")
      else None
  }

  // ----- The IdP

  datatype Write = CreateScope(scope: string) | CreateClient(id: string) | PutClient(id: string)

  /** The scope catalog, the clients, and every write so far. */
  datatype Store = Store(scopes: set<string>, clients: map<string, Json>, writes: seq<Write>)

  /** The IdP's side of the admin API. A new client is a document of its own with the request's fields in it. */
  class Idp {
    var scopes: set<string>
    var clients: map<string, Json>
    var writes: seq<Write>
    const template: map<string, Json>

    ghost function Contents(): Store
      reads this
    {
      Store(scopes, clients, writes)
    }

    constructor (scopes: set<string>, clients: map<string, Json>, template: map<string, Json>)
      ensures Contents() == Store(scopes, clients, []) && this.template == template
    {
      this.scopes, this.clients, writes, this.template := scopes, clients, [], template;
    }

    method PostScope(scope: string)
      modifies this
      ensures Contents() == ScopeCreated(old(Contents()), scope)
    {
      scopes := scopes + {scope};
      writes := writes + [CreateScope(scope)];
    }

    method PostClient(s: Settings)
      modifies this
      ensures Contents() == ClientCreated(old(Contents()), template, s)
    {
      clients := clients[s.id := Object(template + CreateFields(s))];
      writes := writes + [CreateClient(s.id)];
    }

    method Put(id: string, doc: Json)
      modifies this
      ensures Contents() == ClientPut(old(Contents()), id, doc)
    {
      clients := clients[id := doc];
      writes := writes + [PutClient(id)];
    }
  }

  function ScopeCreated(st: Store, scope: string): Store {
    Store(st.scopes + {scope}, st.clients, st.writes + [CreateScope(scope)])
  }

  function ClientCreated(st: Store, template: map<string, Json>, s: Settings): Store {
    Store(st.scopes, st.clients[s.id := Object(template + CreateFields(s))], st.writes + [CreateClient(s.id)])
  }

  function ClientPut(st: Store, id: string, doc: Json): Store {
    Store(st.scopes, st.clients[id := doc], st.writes + [PutClient(id)])
  }

  // ----- One pass

  function WithScopes(st: Store, scopes: seq<string>): Store
    decreases scopes
  {
    if scopes == [] then st
    else WithScopes(if scopes[0] in st.scopes then st else ScopeCreated(st, scopes[0]), scopes[1..])
  }

  function Present(st: Store, template: map<string, Json>, s: Settings): (now: Store)
    ensures s.id in now.clients
  {
    if s.id in st.clients then st else ClientCreated(st, template, s)
  }

  /** What one client's turn leaves in the IdP. */
  function Settle(st: Store, template: map<string, Json>, s: Settings): Store {
    var t := Present(WithScopes(st, DeclaredScopes(s)), template, s);
    if FirstMismatch(s, t.clients[s.id]).Some? then ClientPut(t, s.id, UpdateRequest(s, t.clients[s.id])) else t
  }

  function SettleAll(st: Store, template: map<string, Json>, all: seq<Settings>): Store {
    if all == [] then st else Settle(SettleAll(st, template, all[..|all| - 1]), template, all[|all| - 1])
  }

  function AllSettings(clients: seq<NativeClient>, audience: string, lifetime: nat): (all: seq<Settings>)
    ensures |all| == |clients| && forall i :: 0 <= i < |all| ==> all[i] == SettingsFor(clients[i], audience, lifetime)
  {
    seq(|clients|, i requires 0 <= i < |clients| => SettingsFor(clients[i], audience, lifetime))
  }

  datatype Provisioned = Provisioned(id: string, created: bool, scopesCreated: seq<string>)

  /** The scopes of a list that are not known yet, each where it first occurs. */
  function Missing(known: set<string>, scopes: seq<string>): seq<string> {
    if scopes == [] then []
    else
      var front, last := Missing(known, scopes[..|scopes| - 1]), scopes[|scopes| - 1];
      front + if last in known || last in front then [] else [last]
  }

  /** What a client's turn reports: whether the IdP had no such client, and which scopes it lacked. */
  function Report(before: Store, s: Settings): Provisioned {
    Provisioned(s.id, s.id !in before.clients, Missing(before.scopes, DeclaredScopes(s)))
  }

  method Provision(idp: Idp, clients: seq<NativeClient>, audience: string, lifetime: nat)
    returns (done: seq<Provisioned>)
    modifies idp
    ensures idp.Contents() == SettleAll(old(idp.Contents()), idp.template, AllSettings(clients, audience, lifetime))
    ensures |done| == |clients| && forall i :: 0 <= i < |done| ==>
              var all := AllSettings(clients, audience, lifetime);
              done[i] == Report(SettleAll(old(idp.Contents()), idp.template, all[..i]), all[i])
  {
    hide Settle, Report, SettingsFor;
    ghost var all := AllSettings(clients, audience, lifetime);
    ghost var start := idp.Contents();
    var existing := idp.scopes;
    done := [];
    for i := 0 to |clients|
      invariant existing == idp.scopes && |done| == i
      invariant forall k :: 0 <= k < i ==> done[k] == Report(SettleAll(start, idp.template, all[..k]), all[k])
      invariant idp.Contents() == SettleAll(start, idp.template, all[..i])
    {
      assert all[..i + 1][..i] == all[..i];
      var settings := ForClient(clients[i], audience, lifetime);
      var report: Provisioned;
      existing, report := ProvisionOne(idp, existing, settings);
      done := done + [report];
    }
    assert all[..|clients|] == all;
  }

  /** One client's turn in the pass. */
  method ProvisionOne(idp: Idp, known: set<string>, s: Settings) returns (existing: set<string>, report: Provisioned)
    requires known == idp.scopes
    modifies idp
    ensures existing == idp.scopes && idp.Contents() == Settle(old(idp.Contents()), idp.template, s)
    ensures report == Report(old(idp.Contents()), s)
  {
    hide FirstMismatch, UpdateRequest, DeclaredScopes, Missing;
    var created: seq<string>;
    existing, created := ProvisionScopes(idp, known, s);
    var found := s.id in idp.clients;
    if !found {
      idp.PostClient(s);
    }
    var current := idp.clients[s.id];
    if FirstMismatch(s, current).Some? {
      idp.Put(s.id, UpdateRequest(s, current));
    }
    report := Provisioned(s.id, !found, created);
  }

  method ProvisionScopes(idp: Idp, known: set<string>, s: Settings)
    returns (existing: set<string>, created: seq<string>)
    requires known == idp.scopes
    modifies idp
    ensures existing == idp.scopes && idp.Contents() == WithScopes(old(idp.Contents()), DeclaredScopes(s))
    ensures idp.clients == old(idp.clients) && created == Missing(known, DeclaredScopes(s))
  {
    hide DeclaredScopes;
    existing, created := known, [];
    var scopes := DeclaredScopes(s);
    for i := 0 to |scopes|
      invariant existing == idp.scopes && forall scope :: scope in existing <==> scope in known || scope in created
      invariant WithScopes(idp.Contents(), scopes[i..]) == WithScopes(old(idp.Contents()), scopes)
      invariant idp.clients == old(idp.clients) && created == Missing(known, scopes[..i])
    {
      assert scopes[..i + 1][..i] == scopes[..i] && scopes[i..][1..] == scopes[i + 1..];
      if scopes[i] !in existing {
        idp.PostScope(scopes[i]);
        existing := existing + {scopes[i]};
        created := created + [scopes[i]];
      }
    }
    assert scopes[..|scopes|] == scopes;
  }
}
