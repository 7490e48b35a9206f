/**
  What the ceiling promises: for a validated manifest the two checks ask the same catalog, grants only add,
  and nothing outside the declared resources is ever admitted.
*/
module CeilingLaws {
  import opened Wrappers
  import opened Capability
  import opened Ceiling

  ghost predicate Admitted(m: Manifest, r: Request) {
    Granted(m, r.service).Some? && SomeAdmits(Granted(m, r.service).value, r)
  }

  predicate SomeAdmits(caps: seq<Capability>, r: Request) {
    exists cap :: cap in caps && Admitting(cap, r.kind, r.resource, ToContext(r))
  }

  // ----- Resolving grants

  lemma IdsHold(caps: seq<Capability>, id: string)
    ensures id in Ids(caps) <==> exists k :: 0 <= k < |caps| && caps[k].id == id
  {
    hide *;
    if id in Ids(caps) {
      var k :| 0 <= k < |Ids(caps)| && Ids(caps)[k] == id;
      assert caps[k].id == id;
    }
    if k :| 0 <= k < |caps| && caps[k].id == id { assert Ids(caps)[k] == id; }
  }

  lemma {:induction false} LookupStands(caps: seq<Capability>, id: string)
    ensures Lookup(caps, id).Some? <==> exists k :: 0 <= k < |caps| && caps[k].id == id
    ensures Lookup(caps, id).Some? ==> Lookup(caps, id).value in caps && Lookup(caps, id).value.id == id
  {
    hide Ids;
    if caps != [] {
      LookupStands(caps[..|caps| - 1], id);
      assert caps == caps[..|caps| - 1] + [caps[|caps| - 1]];
    }
  }

  lemma LookupFinds(caps: seq<Capability>, id: string)
    ensures Lookup(caps, id).Some? <==> id in Ids(caps)
    ensures Lookup(caps, id).Some? ==> Lookup(caps, id).value in caps && Lookup(caps, id).value.id == id
  {
    hide *;
    LookupStands(caps, id);
    IdsHold(caps, id);
  }

  lemma {:induction false} ResolveFinds(caps: seq<Capability>, ids: seq<string>, cap: Capability)
    ensures cap in Resolve(caps, ids) <==> cap.id in ids && Lookup(caps, cap.id) == Some(cap)
  {
    if ids != [] {
      ResolveFinds(caps, ids[1..], cap);
      LookupFinds(caps, ids[0]);
      assert ids == [ids[0]] + ids[1..];
    }
  }

  lemma UniqueIdsLookUp(r: Resources, caps: seq<Capability>, cap: Capability)
    requires CapabilitiesOk(r, caps)
    ensures cap in caps <==> Lookup(caps, cap.id) == Some(cap)
  {
    hide NamesDeclared, Lookup;
    LookupFinds(caps, cap.id);
    if cap in caps {
      var k :| 0 <= k < |caps| && caps[k] == cap;
      assert Ids(caps)[k] == cap.id;
    }
  }

  lemma {:induction false} ServiceNamedIs(services: seq<Service>, name: string)
    ensures match ServiceNamed(services, name)
            case Some(s) => s in services && s.name == name
            case None => forall s :: s in services ==> s.name != name
  {
    if services != [] && services[0].name != name {
      ServiceNamedIs(services[1..], name);
      assert forall s :: s in services ==> s == services[0] || s in services[1..];
    }
  }

  // ----- The checks

  /** `Kernel::adjudicate` up to the roster: a typed request is never malformed and its kind always known, so
      it is denied for want of a grant exactly when the build-time question is answered no. */
  method Adjudicate(m: Manifest, r: Request) returns (denial: Option<Denial>)
    ensures denial == None <==> Admitted(m, r)
    ensures DeclaredFor(m, r.service, r.kind, r.resource) <==> denial == None || denial.value.Constraint?
    ensures denial.Some? ==> denial.value.UnknownService? || denial.value.NoGrant? || denial.value.Constraint?
  {
    KindsReadBack(r.kind, Dotted(r.kind));
    hide Granted, Covers, Refuses, ParseKind, Nearest, Admitting, Dotted;
    denial := Evaluate(m, ToContext(r));
    if Granted(m, r.service).Some? { AdmittingCovers(Granted(m, r.service).value, r); }
  }

  lemma AdmittingCovers(caps: seq<Capability>, r: Request)
    ensures SomeAdmits(caps, r) ==> exists cap :: cap in caps && Covers(cap, r.kind, r.resource)
  {
    hide Covers, Refuses;
  }

  /** A call site the build accepted can be refused at run time only by a constraint. */
  method RunAcceptedUsage(m: Manifest, usage: seq<Usage>, u: Usage, r: Request) returns (denial: Option<Denial>)
    requires u in usage && forall v :: v in usage ==> UsageCovered(m, v)
    requires r.service == u.service && r.kind == u.kind && r.resource == u.resource
    ensures denial == None || denial.value.Constraint?
  {
    hide DeclaredFor, IsServiceName, Admitted;
    denial := Adjudicate(m, r);
  }

  /** Over a validated manifest, a request passes exactly when a declared service of its name is granted the
      id of some catalog entry that covers it and whose constraints hold. */
  lemma AdmittedByTheCatalog(m: Manifest, r: Request)
    requires Validated(m)
    ensures Admitted(m, r) <==>
            match ServiceNamed(m.services, r.service)
            case None => false
            case Some(s) => exists cap :: cap in m.capabilities && cap.id in s.grants &&
                                          Admitting(cap, r.kind, r.resource, ToContext(r))
  {
    hide Admitting, ServiceOk, NamesDeclared, ChecksOk, ResourcesOk, Resolve, Lookup;
    match ServiceNamed(m.services, r.service)
    case None =>
    case Some(s) =>
      forall cap: Capability
        ensures cap in Resolve(m.capabilities, s.grants) <==> cap in m.capabilities && cap.id in s.grants
      {
        ResolveFinds(m.capabilities, s.grants, cap);
        UniqueIdsLookUp(m.resources, m.capabilities, cap);
      }
  }

  /** What is admitted lies inside the declared resources: the resource is listed under its kind's family, for
      egress as a pattern the host matches. */
  lemma AdmittedIsDeclared(m: Manifest, r: Request)
    requires Validated(m) && Admitted(m, r) && FamilyOf(r.kind) != Free
    ensures var names := Declared(m.resources, FamilyOf(r.kind)).value;
            if FamilyOf(r.kind) == Egress then exists name :: name in names && MatchesHost(name, r.resource)
            else r.resource in names
  {
    AdmittedByTheCatalog(m, r);
    var s := ServiceNamed(m.services, r.service).value;
    var cap :| cap in m.capabilities && cap.id in s.grants && Admitting(cap, r.kind, r.resource, ToContext(r));
    hide MatchesHost, Refuses, ServiceOk, ChecksOk, ResourcesOk, Admitted;
    var k :| 0 <= k < |m.capabilities| && m.capabilities[k] == cap;
    assert NamesDeclared(m.resources, m.capabilities[k]);
  }

  // ----- Grants only add, and their order does not matter

  lemma SameCaps(caps: seq<Capability>, caps': seq<Capability>, r: Request)
    requires forall cap :: cap in caps <==> cap in caps'
    ensures SomeAdmits(caps, r) <==> SomeAdmits(caps', r)
  {
    hide Admitting;
  }

  function WithGrants(m: Manifest, k: nat, grants: seq<string>): Manifest
    requires k < |m.services|
  {
    m.(services := m.services[k := m.services[k].(grants := grants)])
  }

  lemma {:induction false} NamedAfterChange(services: seq<Service>, k: nat, s: Service, name: string)
    requires k < |services| && s.name == services[k].name
    requires forall i, j :: 0 <= i < j < |services| ==> services[i].name != services[j].name
    ensures ServiceNamed(services, s.name) == Some(services[k])
    ensures ServiceNamed(services[k := s], name) == if name == s.name then Some(s) else ServiceNamed(services, name)
  {
    if k > 0 {
      assert services[k := s][1..] == services[1..][k - 1 := s];
      NamedAfterChange(services[1..], k - 1, s, name);
    } else {
      assert services[0 := s][1..] == services[1..];
    }
  }

  /** The verdict depends on which capabilities a service is granted, not on the order it lists them in. */
  lemma GrantOrderDoesNotMatter(m: Manifest, k: nat, grants: seq<string>, r: Request)
    requires k < |m.services|
    requires forall i, j :: 0 <= i < j < |m.services| ==> m.services[i].name != m.services[j].name
    requires forall id :: id in grants <==> id in m.services[k].grants
    ensures Admitted(m, r) <==> Admitted(WithGrants(m, k, grants), r)
  {
    hide SomeAdmits, Resolve;
    NamedAfterChange(m.services, k, m.services[k].(grants := grants), r.service);
    forall cap: Capability
      ensures cap in Resolve(m.capabilities, grants) <==> cap in Resolve(m.capabilities, m.services[k].grants)
    {
      ResolveFinds(m.capabilities, grants, cap);
      ResolveFinds(m.capabilities, m.services[k].grants, cap);
    }
    SameCaps(Resolve(m.capabilities, grants), Resolve(m.capabilities, m.services[k].grants), r);
  }

  /** One more grant admits exactly what was admitted before and what the newly granted capability admits for
      that service: it widens by itself and changes nothing else. */
  lemma OneMoreGrant(m: Manifest, k: nat, id: string, r: Request)
    requires k < |m.services|
    requires forall i, j :: 0 <= i < j < |m.services| ==> m.services[i].name != m.services[j].name
    ensures var cap := Lookup(m.capabilities, id);
            Admitted(WithGrants(m, k, m.services[k].grants + [id]), r) <==>
            || Admitted(m, r)
            || (r.service == m.services[k].name && cap.Some? && Admitting(cap.value, r.kind, r.resource, ToContext(r)))
  {
    var before, now := m.services[k].grants, m.services[k].grants + [id];
    hide Resolve, Admitting;
    NamedAfterChange(m.services, k, m.services[k].(grants := now), r.service);
    LookupFinds(m.capabilities, id);
    forall cap: Capability
      ensures cap in Resolve(m.capabilities, now) <==>
              cap in Resolve(m.capabilities, before) || Lookup(m.capabilities, id) == Some(cap)
    {
      ResolveFinds(m.capabilities, now, cap);
      ResolveFinds(m.capabilities, before, cap);
      LookupFinds(m.capabilities, cap.id);
    }
  }

  // ----- The same answers in the catalog's own fields

  /** The services are a map: no name stands twice. */
  predicate NamesDiffer(m: Manifest) {
    forall i, j :: 0 <= i < j < |m.services| ==> m.services[i].name != m.services[j].name
  }

  /** The catalog's entry is granted to the service. */
  predicate GrantedTo(m: Manifest, service: string, cap: Capability) {
    cap in m.capabilities && exists s :: s in m.services && s.name == service && cap.id in s.grants
  }

  /** Its kind is the request's, and its resource the request's own, or for egress a pattern the host matches. */
  predicate About(cap: Capability, kind: Kind, resource: string) {
    cap.kind == kind && if kind == HttpEgress then MatchesHost(cap.resource, resource) else cap.resource == resource
  }

  /** The request answers each declared constraint, and fits it. */
  predicate Fits(c: Constraints, r: Request) {
    && (c.keyPrefix.Some? ==> r.key.Some? && c.keyPrefix.value <= r.key.value)
    && (c.table.Some? ==> r.table.Some? && r.table.value == c.table.value)
    && (c.host.Some? ==> r.host.Some? && MatchesHost(c.host.value, r.host.value))
  }

  lemma AboutIsCovers(cap: Capability, kind: Kind, resource: string)
    ensures About(cap, kind, resource) <==> Covers(cap, kind, resource)
  {
    hide MatchesHost;
  }

  lemma FitsIsAdmitting(cap: Capability, r: Request)
    ensures About(cap, r.kind, r.resource) && Fits(cap.constraints, r) <==>
            Admitting(cap, r.kind, r.resource, ToContext(r))
  {
    AboutIsCovers(cap, r.kind, r.resource);
    hide MatchesHost, About, Covers, Dotted;
  }

  lemma GrantedIs(m: Manifest, service: string, cap: Capability)
    requires Validated(m) && NamesDiffer(m)
    ensures GrantedTo(m, service, cap) <==> Granted(m, service).Some? && cap in Granted(m, service).value
  {
    hide ServiceOk, NamesDeclared, ChecksOk, ResourcesOk, Resolve, Lookup;
    ServiceNamedIs(m.services, service);
    match ServiceNamed(m.services, service)
    case None =>
    case Some(s) =>
      ResolveFinds(m.capabilities, s.grants, cap);
      UniqueIdsLookUp(m.resources, m.capabilities, cap);
  }

  /** Over a validated manifest a request passes if and only if some catalog entry that is granted to its service has
      the request's own kind, names its resource, and has constraints the request fits. */
  lemma AdmittedInTheCatalogsFields(m: Manifest, r: Request)
    requires Validated(m) && NamesDiffer(m)
    ensures Admitted(m, r) <==>
            exists cap :: GrantedTo(m, r.service, cap) && About(cap, r.kind, r.resource) && Fits(cap.constraints, r)
  {
    hide *;
    AdmittedIs(m, r);
    forall cap: Capability
      ensures GrantedTo(m, r.service, cap) <==> Granted(m, r.service).Some? && cap in Granted(m, r.service).value
      ensures About(cap, r.kind, r.resource) && Fits(cap.constraints, r) <==>
              Admitting(cap, r.kind, r.resource, ToContext(r))
    {
      GrantedIs(m, r.service, cap);
      FitsIsAdmitting(cap, r);
    }
  }

  lemma AdmittedIs(m: Manifest, r: Request)
    ensures Admitted(m, r) <==>
            && Granted(m, r.service).Some?
            && exists cap :: cap in Granted(m, r.service).value && Admitting(cap, r.kind, r.resource, ToContext(r))
  {
    hide Granted, Admitting;
  }

  /** A call site passes the build if and only if its service is well named (a lower-case letter, then at most 127 of
      `a-z`, `0-9`, `_`, `-`) and granted some catalog entry of that very kind that names the resource. */
  lemma CoveredInTheCatalogsFields(m: Manifest, u: Usage)
    requires Validated(m) && NamesDiffer(m)
    ensures UsageCovered(m, u) <==>
            && 1 <= |u.service| <= 128 && 'a' <= u.service[0] <= 'z'
            && (forall i :: 0 <= i < |u.service| ==>
                  'a' <= u.service[i] <= 'z' || '0' <= u.service[i] <= '9' || u.service[i] == '_' ||
                  u.service[i] == '-')
            && exists cap :: GrantedTo(m, u.service, cap) && About(cap, u.kind, u.resource)
  {
    forall cap: Capability
      ensures GrantedTo(m, u.service, cap) <==> Granted(m, u.service).Some? && cap in Granted(m, u.service).value
      ensures About(cap, u.kind, u.resource) <==> Covers(cap, u.kind, u.resource)
    {
      GrantedIs(m, u.service, cap);
      AboutIsCovers(cap, u.kind, u.resource);
    }
    ServiceNameRule(u.service);
    hide Granted, Covers, About, GrantedTo, Validated, IsServiceName;
  }

  /** What is admitted is declared where its kind's resources are. */
  lemma AdmittedIsDeclaredByKind(m: Manifest, r: Request)
    requires Validated(m) && Admitted(m, r)
    ensures match r.kind
            case DbRead | DbWrite | DbTxn | DbMigrate => r.resource in m.resources.tables
            case KvGet | KvPut | KvDelete => r.resource in m.resources.kv
            case CounterGet | CounterAdd => r.resource in m.resources.counters
            case SecretRead => r.resource in m.resources.secrets
            case HttpEgress => exists name :: name in m.resources.egress && MatchesHost(name, r.resource)
            case LockAcquire | NotifyPublish | NotifyListen => true
  {
    if FamilyOf(r.kind) != Free {
      hide Validated, Admitted;
      AdmittedIsDeclared(m, r);
    }
  }

  /** A constraint denial speaks for the first capability in the service's own list that is about the request. */
  lemma {:induction false} NearestIsTheFirst(caps: seq<Capability>, kind: Kind, resource: string, n: nat)
    requires n < |caps| && About(caps[n], kind, resource)
    requires forall j :: 0 <= j < n ==> !About(caps[j], kind, resource)
    ensures Nearest(caps, kind, resource) == Some(caps[n])
  {
    hide About, Covers;
    AboutIsCovers(caps[0], kind, resource);
    if n > 0 { NearestIsTheFirst(caps[1..], kind, resource, n - 1); }
  }

  /** A gate's roster is empty or names the one optional check. */
  lemma ARosterIs(checks: seq<string>)
    ensures ChecksOk(checks) <==> checks == [] || checks == ["secrets"]
  {
    if ChecksOk(checks) && checks != [] { assert checks[0] in checks && checks[|checks| - 1] in checks; }
  }
}
