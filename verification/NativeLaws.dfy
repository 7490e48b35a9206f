/**
  Provisioning converges: what it writes has no mismatch, it touches nobody else, and doing it again writes
  nothing.
*/
module NativeLaws {
  import opened Wrappers
  import opened NativeClients

  // ----- One document

  lemma {:induction false} StringsOfTexts(texts: seq<string>)
    ensures Strings(Texts(texts).items) == texts
  {
    if texts != [] {
      assert Texts(texts).items[1..] == Texts(texts[1..]).items;
      StringsOfTexts(texts[1..]);
    }
  }

  lemma FixedAreRead(s: Settings, doc: Json, field: string, texts: seq<string>)
    requires doc.Object? && field in Fixed(s) && Fixed(s)[field] == Texts(texts)
    ensures StringsAt(UpdateRequest(s, doc), field) == texts
  {
    hide Fixed, Texts, Strings;
    StringsOfTexts(texts);
    assert Get(UpdateRequest(s, doc), field) == Some(Texts(texts));
    IsList(texts);
  }

  lemma IsList(texts: seq<string>)
    ensures Texts(texts).List?
  {}

  lemma FixedSays(s: Settings)
    ensures Fixed(s).Keys == {"enabled", "confidential", "redirect_uris", "flows_enabled", "challenges",
                              "access_token_alg", "id_token_alg", "scopes", "default_scopes", "default_aud",
                              "access_token_lifetime"}
    ensures Fixed(s)["enabled"] == Bool(true) && Fixed(s)["confidential"] == Bool(false)
    ensures Fixed(s)["redirect_uris"] == Texts(s.redirectUris) && Fixed(s)["flows_enabled"] == Texts(s.flows)
    ensures Fixed(s)["challenges"] == Texts([CHALLENGE_S256]) && Fixed(s)["scopes"] == Texts(s.scopes)
    ensures Fixed(s)["default_scopes"] == Texts(s.scopes) && Fixed(s)["default_aud"] == Texts(s.audience)
    ensures Fixed(s)["access_token_alg"] == Text(ALG_RS256) && Fixed(s)["id_token_alg"] == Text(ALG_RS256)
    ensures Fixed(s)["access_token_lifetime"] == Number(s.lifetime)
  {}

  /** What an update sends has no mismatch, for exactly the documents that are objects. */
  lemma UpdateHasNoMismatch(s: Settings, doc: Json)
    ensures FirstMismatch(s, UpdateRequest(s, doc)) == None <==> doc.Object?
  {
    if doc.Object? {
      FixedSays(s);
      FixedAreRead(s, doc, "flows_enabled", s.flows);
      FixedAreRead(s, doc, "redirect_uris", s.redirectUris);
      FixedAreRead(s, doc, "scopes", s.scopes);
      FixedAreRead(s, doc, "default_scopes", s.scopes);
      FixedAreRead(s, doc, "default_aud", s.audience);
      FixedAreRead(s, doc, "challenges", [CHALLENGE_S256]);
      var update := UpdateRequest(s, doc);
      assert Get(update, "confidential") == Some(Bool(false)) && Get(update, "enabled") == Some(Bool(true));
      assert Get(update, "access_token_alg") == Some(Text(ALG_RS256)) &&
        Get(update, "id_token_alg") == Some(Text(ALG_RS256));
      assert Get(update, "access_token_lifetime") == Some(Number(s.lifetime));
      hide Fixed, UpdateRequest, StringsAt, Get, AsSet;
      NoListMismatch(s, update);
    }
  }

  lemma NoListMismatch(s: Settings, doc: Json)
    requires StringsAt(doc, "flows_enabled") == s.flows && StringsAt(doc, "redirect_uris") == s.redirectUris
    requires StringsAt(doc, "scopes") == s.scopes && StringsAt(doc, "default_scopes") == s.scopes
    requires StringsAt(doc, "default_aud") == s.audience
    ensures FirstListMismatch(doc, [("flows_enabled", s.flows), ("redirect_uris", s.redirectUris), ("scopes", s.scopes),
                                    ("default_scopes", s.scopes), ("default_aud", s.audience)]) == None
  {
    NoneMismatched(doc, [("flows_enabled", s.flows), ("redirect_uris", s.redirectUris), ("scopes", s.scopes),
                         ("default_scopes", s.scopes), ("default_aud", s.audience)]);
  }

  lemma {:induction false} NoneMismatched(doc: Json, fields: seq<(string, seq<string>)>)
    requires forall k :: 0 <= k < |fields| ==> StringsAt(doc, fields[k].0) == fields[k].1
    ensures FirstListMismatch(doc, fields) == None
  {
    hide StringsAt, AsSet;
    if fields != [] { NoneMismatched(doc, fields[1..]); }
  }

  /** The document's list under `field` holds exactly these strings, order and repetition aside. */
  ghost predicate Holds(doc: Json, field: string, texts: seq<string>) {
    forall text :: text in StringsAt(doc, field) <==> text in texts
  }

  /** The document is an object whose fields say what the settings want, field by field. */
  ghost predicate Conforms(s: Settings, doc: Json) {
    && doc.Object?
    && Get(doc, "confidential") == Some(Bool(false)) && Get(doc, "enabled") == Some(Bool(true))
    && Get(doc, "access_token_alg") == Some(Text("RS256")) && Get(doc, "id_token_alg") == Some(Text("RS256"))
    && Get(doc, "access_token_lifetime") == Some(Number(s.lifetime)) && StringsAt(doc, "challenges") == ["S256"]
    && Holds(doc, "flows_enabled", s.flows) && Holds(doc, "redirect_uris", s.redirectUris)
    && Holds(doc, "scopes", s.scopes) && Holds(doc, "default_scopes", s.scopes)
    && Holds(doc, "default_aud", s.audience)
  }

  lemma {:induction false} NoneMismatchedIff(doc: Json, fields: seq<(string, seq<string>)>)
    ensures FirstListMismatch(doc, fields) == None <==>
            forall k :: 0 <= k < |fields| ==> Holds(doc, fields[k].0, fields[k].1)
  {
    if fields != [] {
      NoneMismatchedIff(doc, fields[1..]);
      SameSetIff(StringsAt(doc, fields[0].0), fields[0].1);
      hide StringsAt, AsSet;
      assert forall k :: 0 < k < |fields| ==> fields[k] == fields[1..][k - 1];
    }
  }

  lemma SameSetIff(a: seq<string>, b: seq<string>)
    ensures AsSet(a) == AsSet(b) <==> forall text :: text in a <==> text in b
  {
    if AsSet(a) == AsSet(b) {
      forall text ensures text in a <==> text in b { assert text in AsSet(a) <==> text in AsSet(b); }
    }
  }

  /** A document shows no mismatch if and only if it conforms in every field the settings fix. */
  lemma NoMismatchIff(s: Settings, doc: Json)
    ensures FirstMismatch(s, doc) == None <==> Conforms(s, doc)
  {
    var lists := [("flows_enabled", s.flows), ("redirect_uris", s.redirectUris), ("scopes", s.scopes),
                  ("default_scopes", s.scopes), ("default_aud", s.audience)];
    NoneMismatchedIff(doc, lists);
    assert lists[0] == ("flows_enabled", s.flows) && lists[1] == ("redirect_uris", s.redirectUris);
    assert lists[2] == ("scopes", s.scopes) && lists[3] == ("default_scopes", s.scopes);
    assert lists[4] == ("default_aud", s.audience);
    hide FirstListMismatch, StringsAt, Holds;
  }

  /** And it sends back untouched every field it does not fix. */
  lemma UpdateKeepsTheRest(s: Settings, doc: Json, field: string)
    requires doc.Object? && field !in Fixed(s)
    ensures Get(UpdateRequest(s, doc), field) == Get(doc, field)
  {
    hide Fixed;
  }

  // ----- One client's turn

  function Creations(writes: seq<Write>, scope: string): nat {
    multiset(writes)[CreateScope(scope)]
  }

  lemma {:induction false} ScopesAreCreated(st: Store, scopes: seq<string>, scope: string)
    ensures var t := WithScopes(st, scopes);
            && t.clients == st.clients && t.scopes == st.scopes + AsSet(scopes)
            && Creations(t.writes, scope) ==
               Creations(st.writes, scope) + if scope in scopes && scope !in st.scopes then 1 else 0
    decreases scopes
  {
    if scopes != [] {
      var st' := if scopes[0] in st.scopes then st else ScopeCreated(st, scopes[0]);
      ScopesAreCreated(st', scopes[1..], scope);
      assert AsSet(scopes) == {scopes[0]} + AsSet(scopes[1..]);
      assert scope in scopes <==> scope == scopes[0] || scope in scopes[1..];
    }
  }

  lemma {:induction false} KnownScopesAreNotCreated(st: Store, scopes: seq<string>)
    requires AsSet(scopes) <= st.scopes
    ensures WithScopes(st, scopes) == st
  {
    if scopes != [] {
      assert scopes[0] in AsSet(scopes);
      forall scope | scope in AsSet(scopes[1..]) ensures scope in st.scopes { assert scope in AsSet(scopes); }
      KnownScopesAreNotCreated(st, scopes[1..]);
    }
  }

  /** The IdP already holds the client as its settings want it, and every scope they name. */
  predicate Settled(st: Store, s: Settings) {
    && s.id in st.clients && FirstMismatch(s, st.clients[s.id]) == None
    && AsSet(DeclaredScopes(s)) <= st.scopes
  }

  /** Which is to say: its document conforms in every field they fix, and every scope in them beyond the base ones is
      in the catalog. */
  lemma SettledIff(st: Store, s: Settings)
    ensures Settled(st, s) <==>
            && s.id in st.clients && Conforms(s, st.clients[s.id])
            && forall scope :: scope in s.scopes && scope !in ["openid", "profile", "email"] ==> scope in st.scopes
  {
    if s.id in st.clients { NoMismatchIff(s, st.clients[s.id]); }
    forall scope ensures scope in DeclaredScopes(s) <==> scope in s.scopes && scope !in ["openid", "profile", "email"] {
      DeclaredIff(s, scope);
    }
    hide FirstMismatch, Conforms, DeclaredScopes;
    var all := forall scope :: scope in DeclaredScopes(s) ==> scope in st.scopes;
    assert AsSet(DeclaredScopes(s)) <= st.scopes <==> all by {
      if AsSet(DeclaredScopes(s)) <= st.scopes {
        forall scope | scope in DeclaredScopes(s) ensures scope in st.scopes {
          assert scope in AsSet(DeclaredScopes(s));
        }
      }
    }
  }

  lemma {:induction false} NotBaseIff(scopes: seq<string>, scope: string)
    ensures scope in NotBase(scopes) <==> scope in scopes && scope !in BASE_SCOPES
  {
    if scopes != [] {
      NotBaseIff(scopes[1..], scope);
      assert scopes == [scopes[0]] + scopes[1..];
    }
  }

  /** A scope is declared if and only if the settings name it and it is not one every client gets. */
  lemma DeclaredIff(s: Settings, scope: string)
    ensures scope in DeclaredScopes(s) <==> scope in s.scopes && scope !in ["openid", "profile", "email"]
  {
    NotBaseIff(s.scopes, scope);
  }

  /** A client's settings are its own and the caller's, unchanged, but for the scopes. */
  lemma SettingsAreTheClients(client: NativeClient, audience: string, lifetime: nat)
    ensures var s := SettingsFor(client, audience, lifetime);
            && s.id == client.id && s.flows == client.grants && s.redirectUris == client.redirectUris
            && s.audience == [audience] && s.lifetime == lifetime && BaseThenDeclared(s.scopes, client.scopes)
  {
    ScopesOfClient(client, audience, lifetime);
  }

  lemma {:induction false} MissingHolds(known: set<string>, scopes: seq<string>)
    ensures var missing := Missing(known, scopes);
            && (forall scope :: scope in missing <==> scope in scopes && scope !in known)
            && forall i, j :: 0 <= i < j < |missing| ==> missing[i] != missing[j]
  {
    if scopes != [] {
      MissingHolds(known, scopes[..|scopes| - 1]);
      assert scopes == scopes[..|scopes| - 1] + [scopes[|scopes| - 1]];
    }
  }

  lemma {:induction false} MissingInOrder(known: set<string>, scopes: seq<string>, i: nat, j: nat)
    requires i < j < |Missing(known, scopes)|
    ensures DeclaredFirst(scopes, Missing(known, scopes)[i], Missing(known, scopes)[j])
  {
    var n := |scopes| - 1;
    var front, missing := Missing(known, scopes[..n]), Missing(known, scopes);
    MissingHolds(known, scopes[..n]);
    if j < |front| {
      MissingInOrder(known, scopes[..n], i, j);
      DeclaredFirstStays(scopes, n, missing[i], missing[j]);
    } else {
      assert front[i] in scopes[..n];
      var k :| 0 <= k < n && scopes[..n][k] == missing[i];
      assert scopes[n] !in scopes[..n];
      assert scopes[..k + 1] == scopes[..n][..k + 1];
    }
  }

  /** What a turn reports as missing: every wanted scope that was unknown, once, in the order first wanted. */
  lemma MissingIs(known: set<string>, scopes: seq<string>)
    ensures var missing := Missing(known, scopes);
            && (forall scope :: scope in missing <==> scope in scopes && scope !in known)
            && (forall i, j :: 0 <= i < j < |missing| ==> missing[i] != missing[j])
            && forall i, j :: 0 <= i < j < |missing| ==> DeclaredFirst(scopes, missing[i], missing[j])
  {
    MissingHolds(known, scopes);
    hide Missing, DeclaredFirst;
    var missing := Missing(known, scopes);
    forall i, j | 0 <= i < j < |missing| ensures DeclaredFirst(scopes, missing[i], missing[j]) {
      MissingInOrder(known, scopes, i, j);
    }
  }

  lemma SettledIsLeftAlone(st: Store, template: map<string, Json>, s: Settings)
    requires Settled(st, s)
    ensures Settle(st, template, s) == st
  {
    hide FirstMismatch, DeclaredScopes;
    KnownScopesAreNotCreated(st, DeclaredScopes(s));
  }

  predicate Readable(st: Store, id: string) {
    id in st.clients ==> st.clients[id].Object?
  }

  lemma MismatchMeansObject(s: Settings, doc: Json)
    requires FirstMismatch(s, doc) == None
    ensures doc.Object?
  {
    hide FirstListMismatch, StringsAt;
  }

  /** One turn settles its client, creates the scopes that were missing, and touches no other client. */
  lemma TurnSettles(st: Store, template: map<string, Json>, s: Settings, scope: string)
    requires Readable(st, s.id)
    ensures var t := Settle(st, template, s);
            && Settled(t, s) && Readable(t, s.id)
            && t.scopes == st.scopes + AsSet(DeclaredScopes(s))
            && t.clients - {s.id} == st.clients - {s.id}
            && Creations(t.writes, scope) ==
               Creations(st.writes, scope) + if scope in DeclaredScopes(s) && scope !in st.scopes then 1 else 0
  {
    hide FirstMismatch, UpdateRequest, DeclaredScopes, CreateFields;
    var w := WithScopes(st, DeclaredScopes(s));
    ScopesAreCreated(st, DeclaredScopes(s), scope);
    hide WithScopes, AsSet;
    var t := Present(w, template, s);
    assert Creations(t.writes, scope) == Creations(w.writes, scope);
    var doc := t.clients[s.id];
    UpdateHasNoMismatch(s, doc);
    if FirstMismatch(s, doc).Some? {
      var p := ClientPut(t, s.id, UpdateRequest(s, doc));
      assert Creations(p.writes, scope) == Creations(t.writes, scope);
      assert UpdateRequest(s, doc).Object? by { MismatchMeansObject(s, UpdateRequest(s, doc)); }
    }
  }

  /** A client the IdP did not have carries its id as its name from then on. */
  lemma ANewClientIsNamed(st: Store, template: map<string, Json>, s: Settings)
    requires s.id !in st.clients
    ensures var t := Settle(st, template, s); s.id in t.clients && Get(t.clients[s.id], "name") == Some(Text(s.id))
  {
    var w := WithScopes(st, DeclaredScopes(s));
    ScopesAreCreated(st, DeclaredScopes(s), "");
    FixedSays(s);
    var doc := Object(template + CreateFields(s));
    assert Get(doc, "name") == Some(Text(s.id));
    hide Fixed, CreateFields, FirstMismatch, WithScopes, DeclaredScopes;
    UpdateKeepsTheRest(s, doc, "name");
  }

  // ----- A whole pass

  predicate DistinctIds(all: seq<Settings>) {
    forall i, j :: 0 <= i < j < |all| ==> all[i].id != all[j].id
  }

  function Named(all: seq<Settings>): set<string> {
    set i | 0 <= i < |all| :: all[i].id
  }

  function Wanted(all: seq<Settings>): set<string> {
    if all == [] then {} else Wanted(all[..|all| - 1]) + AsSet(DeclaredScopes(all[|all| - 1]))
  }

  /** One pass over distinct clients settles every one of them, creates each missing scope exactly once and no
      other, and leaves every client it does not name as it was. */
  lemma {:induction false} PassSettles(st: Store, template: map<string, Json>, all: seq<Settings>, scope: string)
    requires DistinctIds(all) && forall i :: 0 <= i < |all| ==> Readable(st, all[i].id)
    ensures var t := SettleAll(st, template, all);
            && (forall i :: 0 <= i < |all| ==> Settled(t, all[i]))
            && t.scopes == st.scopes + Wanted(all)
            && t.clients - Named(all) == st.clients - Named(all)
            && Creations(t.writes, scope) ==
               Creations(st.writes, scope) + if scope in Wanted(all) && scope !in st.scopes then 1 else 0
  {
    if all == [] {
      assert Named(all) == {};
      assert st.scopes + {} == st.scopes;
    } else {
      var n := |all| - 1;
      hide *;
      FrontIsDistinct(all);
      PassSettles(st, template, all[..n], scope);
      var u := SettleAll(st, template, all[..n]);
      LastIsUntouched(st, u, all[..n], all[n]);
      TurnSettles(u, template, all[n], scope);
      PassStep(st, template, all, scope, u, Settle(u, template, all[n]));
      LastTurn(st, template, all);
    }
  }

  /** In the documents' own fields: after a pass every declared client's document conforms to its settings, and the
      catalog holds every scope they declare. */
  lemma PassConforms(st: Store, template: map<string, Json>, all: seq<Settings>)
    requires DistinctIds(all) && forall i :: 0 <= i < |all| ==> Readable(st, all[i].id)
    ensures var t := SettleAll(st, template, all);
            forall i :: 0 <= i < |all| ==>
              && all[i].id in t.clients && Conforms(all[i], t.clients[all[i].id])
              && forall scope :: scope in all[i].scopes && scope !in ["openid", "profile", "email"] ==>
                 scope in t.scopes
  {
    hide *;
    PassSettles(st, template, all, "");
    forall i | 0 <= i < |all| { SettledIff(SettleAll(st, template, all), all[i]); }
  }

  lemma LastTurn(st: Store, template: map<string, Json>, all: seq<Settings>)
    requires all != []
    ensures SettleAll(st, template, all) == Settle(SettleAll(st, template, all[..|all| - 1]), template, all[|all| - 1])
  {
    hide Settle;
  }

  lemma FrontIsDistinct(all: seq<Settings>)
    requires DistinctIds(all) && all != []
    ensures DistinctIds(all[..|all| - 1]) && all[..|all| - 1] + [all[|all| - 1]] == all
  {}

  lemma LastIsUntouched(st: Store, u: Store, front: seq<Settings>, last: Settings)
    requires DistinctIds(front + [last]) && u.clients - Named(front) == st.clients - Named(front) &&
             Readable(st, last.id)
    ensures Readable(u, last.id)
  {
    assert last.id !in Named(front) by {
      forall i | 0 <= i < |front| ensures front[i].id != last.id {
        assert (front + [last])[i].id != (front + [last])[|front|].id;
      }
    }
    assert last.id in u.clients <==> last.id in (u.clients - Named(front));
    assert last.id in st.clients <==> last.id in (st.clients - Named(front));
    if last.id in u.clients { assert (u.clients - Named(front))[last.id] == (st.clients - Named(front))[last.id]; }
  }

  lemma PassStep(st: Store, template: map<string, Json>, all: seq<Settings>, scope: string, u: Store, t: Store)
    requires DistinctIds(all) && all != []
    requires var n := |all| - 1;
             && (forall i :: 0 <= i < n ==> Settled(u, all[i]))
             && u.scopes == st.scopes + Wanted(all[..n]) && u.clients - Named(all[..n]) == st.clients - Named(all[..n])
             && Creations(u.writes, scope) ==
                Creations(st.writes, scope) + (if scope in Wanted(all[..n]) && scope !in st.scopes then 1 else 0)
             && Settled(t, all[n]) && t.scopes == u.scopes + AsSet(DeclaredScopes(all[n]))
             && t.clients - {all[n].id} == u.clients - {all[n].id}
             && Creations(t.writes, scope) ==
                Creations(u.writes, scope) + (if scope in DeclaredScopes(all[n]) && scope !in u.scopes then 1 else 0)
    ensures (forall i :: 0 <= i < |all| ==> Settled(t, all[i]))
    ensures t.scopes == st.scopes + Wanted(all)
    ensures t.clients - Named(all) == st.clients - Named(all)
    ensures Creations(t.writes, scope) ==
            Creations(st.writes, scope) + if scope in Wanted(all) && scope !in st.scopes then 1 else 0
  {
    hide *;
    var n := |all| - 1;
    OthersAreKept(st, all, u, t);
    WantedGrows(all, scope);
    forall i | 0 <= i < n ensures Settled(t, all[i]) {
      DifferentIds(all, i, n);
      StaysSettled(u, t, all[i], all[n].id);
    }
  }

  lemma DifferentIds(all: seq<Settings>, i: nat, j: nat)
    requires DistinctIds(all) && i < j < |all|
    ensures all[i].id != all[j].id
  {}

  lemma WantedGrows(all: seq<Settings>, scope: string)
    requires all != []
    ensures var n := |all| - 1; Wanted(all) == Wanted(all[..n]) + AsSet(DeclaredScopes(all[n]))
    ensures var n := |all| - 1; scope in DeclaredScopes(all[n]) <==> scope in AsSet(DeclaredScopes(all[n]))
  {
    hide DeclaredScopes;
  }

  lemma StaysSettled(u: Store, t: Store, s: Settings, other: string)
    requires Settled(u, s) && s.id != other && t.clients - {other} == u.clients - {other} && u.scopes <= t.scopes
    ensures Settled(t, s)
  {
    hide DeclaredScopes, FirstMismatch;
    assert s.id in u.clients - {other};
    assert (t.clients - {other})[s.id] == (u.clients - {other})[s.id];
  }

  lemma OthersAreKept(st: Store, all: seq<Settings>, u: Store, t: Store)
    requires all != []
    requires u.clients - Named(all[..|all| - 1]) == st.clients - Named(all[..|all| - 1])
    requires t.clients - {all[|all| - 1].id} == u.clients - {all[|all| - 1].id}
    ensures t.clients - Named(all) == st.clients - Named(all)
  {
    var n := |all| - 1;
    var f, l := Named(all[..n]), {all[n].id};
    assert Named(all) == f + l by {
      forall i | 0 <= i < n ensures all[i].id in f { assert all[..n][i].id in f; }
      forall id | id in f ensures id in Named(all) {
        var i :| 0 <= i < n && all[..n][i].id == id;
        assert all[i].id == id;
      }
    }
    hide Named;
    assert t.clients - (f + l) == (t.clients - l) - f;
    assert u.clients - (f + l) == (u.clients - l) - f;
    assert u.clients - (f + l) == (u.clients - f) - l;
    assert st.clients - (f + l) == (st.clients - f) - l;
  }

  lemma {:induction false} SettledPassWritesNothing(st: Store, template: map<string, Json>, all: seq<Settings>)
    requires forall i :: 0 <= i < |all| ==> Settled(st, all[i])
    ensures SettleAll(st, template, all) == st
  {
    if all != [] {
      hide Settled, Settle;
      SettledPassWritesNothing(st, template, all[..|all| - 1]);
      SettledIsLeftAlone(st, template, all[|all| - 1]);
    }
  }

  /** The second pass writes nothing and changes nothing. */
  lemma SecondPassWritesNothing(st: Store, template: map<string, Json>, all: seq<Settings>)
    requires DistinctIds(all) && forall i :: 0 <= i < |all| ==> Readable(st, all[i].id)
    ensures var once := SettleAll(st, template, all); SettleAll(once, template, all) == once
  {
    hide *;
    PassSettles(st, template, all, "");
    SettledPassWritesNothing(SettleAll(st, template, all), template, all);
  }
}
