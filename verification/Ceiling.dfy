/**
  The declared ceiling and its two checks: the manifest's own validation
  (crates/rahi-kernel/src/manifest.rs), the deny-by-default check of one request
  (crates/rahi-kernel/src/adjudicate.rs), and the build-time check of a crate's call sites
  (crates/rahi-kernel/src/verify.rs).
*/
module Ceiling {
  import opened Wrappers
  import opened Capability

  datatype Resources = Resources(tables: seq<string>, kv: seq<string>, counters: seq<string>,
                                 secrets: seq<string>, egress: seq<string>)

  datatype Service = Service(name: string, grants: seq<string>)

  /** The parts of a manifest the ceiling is made of. `services` is the source's ordered map, its names
      distinct. */
  datatype Manifest = Manifest(resources: Resources, capabilities: seq<Capability>, services: seq<Service>,
                               checks: seq<string>)

  const GRANT_CHECK_ID := "grants"
  const OPTIONAL_CHECKS := ["secrets"]

  function Declared(r: Resources, family: Family): Option<seq<string>> {
    match family
    case Table => Some(r.tables)
    case Kv => Some(r.kv)
    case Counter => Some(r.counters)
    case Secret => Some(r.secrets)
    case Egress => Some(r.egress)
    case Free => None
  }

  // ----- Validation

  datatype Fault =
    | ResourceTwice(family: Family, name: string)
    | NoCapabilityId
    | CapabilityTwice(id: string)
    | UndeclaredResource(id: string)
    | UndeclaredTable(id: string)
    | UnknownGrant(service: string, id: string)
    | GrantTwice(service: string, id: string)
    | ListsGrantCheck
    | UnknownCheck(id: string)
    | CheckTwice(id: string)

  predicate Distinct(s: seq<string>) {
    forall i, j :: 0 <= i < j < |s| ==> s[i] != s[j]
  }

  predicate Twice(s: seq<string>, x: string) {
    exists i, j :: 0 <= i < j < |s| && s[i] == x && s[j] == x
  }

  function Ids(caps: seq<Capability>): (ids: seq<string>)
    ensures |ids| == |caps| && forall k :: 0 <= k < |caps| ==> ids[k] == caps[k].id
  {
    if caps == [] then [] else [caps[0].id] + Ids(caps[1..])
  }

  predicate ResourcesOk(r: Resources) {
    Distinct(r.tables) && Distinct(r.kv) && Distinct(r.counters) && Distinct(r.secrets) && Distinct(r.egress)
  }

  predicate NamesDeclared(r: Resources, cap: Capability) {
    && cap.id != ""
    && (FamilyOf(cap.kind) != Free ==> cap.resource in Declared(r, FamilyOf(cap.kind)).value)
    && (cap.constraints.table.Some? ==> cap.constraints.table.value in r.tables)
  }

  predicate CapabilitiesOk(r: Resources, caps: seq<Capability>) {
    && (forall i, j :: 0 <= i < j < |caps| ==> caps[i].id != caps[j].id)
    && forall k :: 0 <= k < |caps| ==> NamesDeclared(r, caps[k])
  }

  predicate ServiceOk(caps: seq<Capability>, s: Service) {
    Distinct(s.grants) && forall id :: id in s.grants ==> id in Ids(caps)
  }

  predicate ChecksOk(checks: seq<string>) {
    Distinct(checks) && forall id :: id in checks ==> id != GRANT_CHECK_ID && id in OPTIONAL_CHECKS
  }

  predicate Validated(m: Manifest) {
    && ResourcesOk(m.resources)
    && CapabilitiesOk(m.resources, m.capabilities)
    && (forall k :: 0 <= k < |m.services| ==> ServiceOk(m.capabilities, m.services[k]))
    && ChecksOk(m.checks)
  }

  /** The fault names something the manifest really gets wrong. */
  predicate Real(m: Manifest, fault: Fault) {
    match fault
    case ResourceTwice(family, name) => family != Free && Twice(Declared(m.resources, family).value, name)
    case NoCapabilityId => exists k :: 0 <= k < |m.capabilities| && m.capabilities[k].id == ""
    case CapabilityTwice(id) => Twice(Ids(m.capabilities), id)
    case UndeclaredResource(id) =>
      exists k :: 0 <= k < |m.capabilities| && var cap := m.capabilities[k];
        cap.id == id && FamilyOf(cap.kind) != Free &&
        cap.resource !in Declared(m.resources, FamilyOf(cap.kind)).value
    case UndeclaredTable(id) =>
      exists k :: 0 <= k < |m.capabilities| && var cap := m.capabilities[k];
        cap.id == id && cap.constraints.table.Some? && cap.constraints.table.value !in m.resources.tables
    case UnknownGrant(service, id) =>
      id !in Ids(m.capabilities) &&
      exists k :: 0 <= k < |m.services| && m.services[k].name == service && id in m.services[k].grants
    case GrantTwice(service, id) =>
      exists k :: 0 <= k < |m.services| && m.services[k].name == service && Twice(m.services[k].grants, id)
    case ListsGrantCheck => GRANT_CHECK_ID in m.checks
    case UnknownCheck(id) => id in m.checks && id !in OPTIONAL_CHECKS
    case CheckTwice(id) => Twice(m.checks, id)
  }

  /** `seen` over a list: the first name inserted twice, if any. */
  method FirstRepeat(names: seq<string>) returns (repeat: Option<string>)
    ensures repeat == None <==> Distinct(names)
    ensures repeat.Some? ==> Twice(names, repeat.value)
  {
    var seen := {};
    for i := 0 to |names|
      invariant forall x :: x in seen <==> x in names[..i]
      invariant Distinct(names[..i])
    {
      if names[i] in seen {
        assert names[i] in names[..i];
        return Some(names[i]);
      }
      seen := seen + {names[i]};
      assert names[..i + 1] == names[..i] + [names[i]];
    }
    assert names[..|names|] == names;
    return None;
  }

  method ValidateResources(m: Manifest) returns (fault: Option<Fault>)
    ensures fault == None <==> ResourcesOk(m.resources)
    ensures fault.Some? ==> fault.value.ResourceTwice? && Real(m, fault.value)
  {
    var families := [Table, Kv, Counter, Secret, Egress];
    for i := 0 to |families|
      invariant forall j :: 0 <= j < i ==> Distinct(Declared(m.resources, families[j]).value)
    {
      var repeat := FirstRepeat(Declared(m.resources, families[i]).value);
      if repeat.Some? {
        return Some(ResourceTwice(families[i], repeat.value));
      }
    }
    assert families[0] == Table && families[1] == Kv && families[2] == Counter && families[3] == Secret &&
      families[4] == Egress;
    return None;
  }

  method ValidateCapabilities(m: Manifest) returns (fault: Option<Fault>)
    ensures fault == None <==> CapabilitiesOk(m.resources, m.capabilities)
    ensures fault.Some? ==> Real(m, fault.value)
  {
    var seen := {};
    var caps := m.capabilities;
    for k := 0 to |caps|
      invariant forall x :: x in seen <==> exists j :: 0 <= j < k && caps[j].id == x
      invariant forall i, j :: 0 <= i < j < k ==> caps[i].id != caps[j].id
      invariant forall j :: 0 <= j < k ==> NamesDeclared(m.resources, caps[j])
    {
      var cap := caps[k];
      if cap.id == "" {
        return Some(NoCapabilityId);
      }
      if cap.id in seen {
        return Some(CapabilityTwice(cap.id));
      }
      seen := seen + {cap.id};
      var declared := Declared(m.resources, FamilyOf(cap.kind));
      if declared.Some? && cap.resource !in declared.value {
        return Some(UndeclaredResource(cap.id));
      }
      if cap.constraints.table.Some? && cap.constraints.table.value !in m.resources.tables {
        return Some(UndeclaredTable(cap.id));
      }
    }
    return None;
  }

  method ValidateServices(m: Manifest) returns (fault: Option<Fault>)
    ensures fault == None <==> forall k :: 0 <= k < |m.services| ==> ServiceOk(m.capabilities, m.services[k])
    ensures fault.Some? ==> Real(m, fault.value)
  {
    var catalog := set id | id in Ids(m.capabilities);
    for k := 0 to |m.services|
      invariant forall j :: 0 <= j < k ==> ServiceOk(m.capabilities, m.services[j])
    {
      var service := m.services[k];
      var seen := {};
      for i := 0 to |service.grants|
        invariant forall x :: x in seen <==> x in service.grants[..i]
        invariant Distinct(service.grants[..i])
        invariant forall id :: id in service.grants[..i] ==> id in Ids(m.capabilities)
      {
        var id := service.grants[i];
        assert id in service.grants;
        if id !in catalog {
          return Some(UnknownGrant(service.name, id));
        }
        if id in seen {
          assert Twice(service.grants, id) by { assert id in service.grants[..i]; }
          return Some(GrantTwice(service.name, id));
        }
        seen := seen + {id};
        assert service.grants[..i + 1] == service.grants[..i] + [id];
      }
      assert service.grants[..|service.grants|] == service.grants;
    }
    return None;
  }

  method ValidateGate(m: Manifest) returns (fault: Option<Fault>)
    ensures fault == None <==> ChecksOk(m.checks)
    ensures fault.Some? ==> Real(m, fault.value)
  {
    var seen := {};
    for i := 0 to |m.checks|
      invariant forall x :: x in seen <==> x in m.checks[..i]
      invariant ChecksOk(m.checks[..i])
    {
      var id := m.checks[i];
      assert id in m.checks;
      if id == GRANT_CHECK_ID {
        return Some(ListsGrantCheck);
      }
      if id !in OPTIONAL_CHECKS {
        return Some(UnknownCheck(id));
      }
      if id in seen {
        assert Twice(m.checks, id) by { assert id in m.checks[..i]; }
        return Some(CheckTwice(id));
      }
      seen := seen + {id};
      assert m.checks[..i + 1] == m.checks[..i] + [id];
    }
    assert m.checks[..|m.checks|] == m.checks;
    return None;
  }

  /** Accepts exactly the validated manifests, and names a real fault of any other. */
  method Validate(m: Manifest) returns (fault: Option<Fault>)
    ensures fault == None <==> Validated(m)
    ensures fault.Some? ==> Real(m, fault.value)
  {
    hide ResourcesOk, CapabilitiesOk, ServiceOk, ChecksOk, Real;
    fault := ValidateResources(m);
    if fault.Some? {
      return;
    }
    fault := ValidateCapabilities(m);
    if fault.Some? {
      return;
    }
    fault := ValidateServices(m);
    if fault.Some? {
      return;
    }
    fault := ValidateGate(m);
  }

  // ----- Grants

  function ServiceNamed(services: seq<Service>, name: string): Option<Service> {
    if services == [] then None
    else if services[0].name == name then Some(services[0])
    else ServiceNamed(services[1..], name)
  }

  /** The catalog's entry for an id: the last one, as collecting into a map keeps it. */
  function Lookup(caps: seq<Capability>, id: string): Option<Capability> {
    if caps == [] then None
    else if caps[|caps| - 1].id == id then Some(caps[|caps| - 1])
    else Lookup(caps[..|caps| - 1], id)
  }

  /** Granted ids resolved in the service's own order; an id the catalog lacks resolves to nothing. */
  function Resolve(caps: seq<Capability>, ids: seq<string>): seq<Capability> {
    if ids == [] then []
    else (match Lookup(caps, ids[0]) case Some(cap) => [cap] case None => []) + Resolve(caps, ids[1..])
  }

  function Granted(m: Manifest, service: string): Option<seq<Capability>> {
    match ServiceNamed(m.services, service)
    case Some(s) => Some(Resolve(m.capabilities, s.grants))
    case None => None
  }

  /** The build-time question: some grant is about this kind and resource, whatever its constraints. */
  predicate DeclaredFor(m: Manifest, service: string, kind: Kind, resource: string) {
    Granted(m, service).Some? && exists cap :: cap in Granted(m, service).value && Covers(cap, kind, resource)
  }

  // ----- The check of one request

  datatype Request = Request(service: string, kind: Kind, resource: string,
                             key: Option<string>, table: Option<string>, host: Option<string>)

  /** What the gate reads: the action's text and whatever attributes were set. */
  datatype Context = Context(action: string, service: Option<string>, resource: Option<string>,
                             key: Option<string>, table: Option<string>, host: Option<string>)

  function ToContext(r: Request): Context {
    Context(Dotted(r.kind), Some(r.service), Some(r.resource), r.key, r.table, r.host)
  }

  datatype Denial = Malformed | UnknownKind | UnknownService | NoGrant | Constraint(id: string, why: Refusal)

  /** The first of `caps` that is about the kind and resource. */
  function Nearest(caps: seq<Capability>, kind: Kind, resource: string): Option<Capability> {
    if caps == [] then None
    else if Covers(caps[0], kind, resource) then Some(caps[0])
    else Nearest(caps[1..], kind, resource)
  }

  predicate Admitting(cap: Capability, kind: Kind, resource: string, ctx: Context) {
    Covers(cap, kind, resource) && Refuses(cap.constraints, ctx.key, ctx.table, ctx.host) == None
  }

  function Covering(caps: seq<Capability>, kind: Kind, resource: string): (covering: seq<Capability>)
    ensures forall cap :: cap in covering <==> cap in caps && Covers(cap, kind, resource)
    ensures covering == [] <==> Nearest(caps, kind, resource) == None
    ensures covering != [] ==> Nearest(caps, kind, resource) == Some(covering[0])
  {
    if caps == [] then []
    else (if Covers(caps[0], kind, resource) then [caps[0]] else []) + Covering(caps[1..], kind, resource)
  }

  /** Deny by default. The request passes exactly when some covering grant's constraints hold; otherwise the
      denial is the first of the five reasons, and a constraint denial speaks for the first covering grant. */
  method Evaluate(m: Manifest, ctx: Context) returns (denial: Option<Denial>)
    ensures ctx.service.None? || ctx.resource.None? <==> denial == Some(Malformed)
    ensures ctx.service.Some? && ctx.resource.Some? ==>
      var service, resource, kind := ctx.service.value, ctx.resource.value, ParseKind(ctx.action);
      && (denial == Some(UnknownKind) <==> kind == None)
      && (kind.Some? ==>
            && (denial == Some(UnknownService) <==> Granted(m, service) == None)
            && (Granted(m, service).Some? ==>
                  var caps := Granted(m, service).value;
                  && (denial == Some(NoGrant) <==> forall cap :: cap in caps ==> !Covers(cap, kind.value, resource))
                  && (denial == None <==> exists cap :: cap in caps && Admitting(cap, kind.value, resource, ctx))
                  && (denial.Some? && denial.value.Constraint? ==>
                        var near := Nearest(caps, kind.value, resource);
                        near.Some? && near.value.id == denial.value.id &&
                        Refuses(near.value.constraints, ctx.key, ctx.table, ctx.host) == Some(denial.value.why))))
  {
    if ctx.service.None? || ctx.resource.None? {
      return Some(Malformed);
    }
    var resource := ctx.resource.value;
    var parsed := ParseKind(ctx.action);
    if parsed.None? {
      return Some(UnknownKind);
    }
    var kind := parsed.value;
    var granted := Granted(m, ctx.service.value);
    if granted.None? {
      return Some(UnknownService);
    }
    hide Granted, Covers, Refuses, ParseKind, Nearest;
    var covering := Covering(granted.value, kind, resource);
    if covering == [] {
      assert forall cap :: cap in granted.value ==> !Covers(cap, kind, resource) by {
        assert forall cap :: cap in granted.value && Covers(cap, kind, resource) ==> cap in covering;
      }
      return Some(NoGrant);
    }
    assert covering[0] in covering;
    var firstRefusal: Option<Denial> := None;
    for i := 0 to |covering|
      invariant i == 0 <==> firstRefusal == None
      invariant forall j :: 0 <= j < i ==> !Admitting(covering[j], kind, resource, ctx)
      invariant i > 0 ==>
        firstRefusal.value.Constraint? && firstRefusal.value.id == covering[0].id &&
        Refuses(covering[0].constraints, ctx.key, ctx.table, ctx.host) == Some(firstRefusal.value.why)
    {
      match Refuses(covering[i].constraints, ctx.key, ctx.table, ctx.host) {
        case None =>
          assert covering[i] in covering;
          assert Admitting(covering[i], kind, resource, ctx);
          return None;
        case Some(why) =>
          if firstRefusal == None {
            firstRefusal := Some(Constraint(covering[i].id, why));
          }
      }
    }
    assert forall cap :: cap in granted.value ==> !Admitting(cap, kind, resource, ctx);
    return firstRefusal;
  }

  // ----- The check of a crate's call sites

  datatype Usage = Usage(service: string, kind: Kind, resource: string, line: nat)

  predicate UsageCovered(m: Manifest, u: Usage) {
    IsServiceName(u.service) && DeclaredFor(m, u.service, u.kind, u.resource)
  }

  /** Lists exactly the call sites outside the ceiling, in the order given; none means the crate may build. */
  method VerifyUsage(m: Manifest, usage: seq<Usage>) returns (missing: seq<Usage>)
    ensures forall u :: u in missing <==> u in usage && !UsageCovered(m, u)
    ensures missing == [] <==> forall u :: u in usage ==> UsageCovered(m, u)
  {
    hide DeclaredFor;
    missing := [];
    for i := 0 to |usage|
      invariant forall u :: u in missing <==> u in usage[..i] && !UsageCovered(m, u)
    {
      var covered := UsageCovered(m, usage[i]);
      if !covered {
        missing := missing + [usage[i]];
      }
      assert usage[..i + 1] == usage[..i] + [usage[i]];
    }
    assert usage[..|usage|] == usage;
    if missing != [] { assert missing[0] in missing; }
  }
}
