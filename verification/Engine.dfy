// The decision engine (authz/engine.go, authz/role.go): effective access built from
// bindings and roles, clause by clause, and what it pins and depends on.
module Engine {
  import opened Wrappers
  import opened Scopes
  import opened Clauses

  datatype Permission = Permission(id: string, system: bool, organizationOnly: bool, requires_: seq<string>,
                                   recordType: string, unownedIsOwn: bool, feature: string, attributes: seq<string>)
  {
    predicate Ownable() {
      recordType != ""
    }
  }

  datatype Grant = Grant(permission: string, qualifier: Qualifier)

  // computed, when set, is what the role's selector picks from the catalogue.
  datatype Role = Role(id: int, key: string, name: string, grants: seq<Grant>, attrs: Attrs, computed: Option<set<string>>)

  datatype Binding = Binding(id: int, subject: Subject, role: RoleRef, scope: Scope)

  // What is fixed while the engine runs: the frozen catalogue with its order,
  // the hierarchy, the resolver and the predefined roles.
  datatype Env = Env(h: Hierarchy, resolver: Resolver, cat: map<string, Permission>, order: seq<string>, predefined: map<string, Role>)

  ghost predicate ValidEnv(env: Env) {
    && ValidHierarchy(env.h)
    && (forall id :: id in env.cat ==> env.cat[id].id == id)
    && (forall id :: id in env.order ==> id in env.cat)
  }

  type Lookup = RoleRef -> Option<Role>

  // lookupRole: predefined roles by key, custom ones from the store by id.
  function LookupIn(env: Env, stored: map<int, Role>): Lookup {
    (ref: RoleRef) => if ref.key != "" then Get(env.predefined, ref.key) else Get(stored, ref.id)
  }

  function Selected(order: seq<string>, chosen: set<string>): seq<Grant> {
    if order == [] then []
    else (if order[0] in chosen then [Grant(order[0], All)] else []) + Selected(order[1..], chosen)
  }

  // Role.Resolve: the explicit grants, or every selected permission in catalogue order.
  function Resolve(env: Env, role: Role): seq<Grant> {
    if role.computed.None? then role.grants else Selected(env.order, role.computed.value)
  }

  // attrsFor: the role's constraints on attributes the permission declares.
  function AttrsFor(p: Permission, attrs: Attrs): Attrs {
    map key | key in attrs && key in p.attributes :: attrs[key]
  }

  // Building effective access ---------------------------------------------------------

  datatype Effective = Effective(grants: map<string, seq<Clause>>, roleIds: set<int>, tenants: set<int>, hasRoot: bool, unpinned: bool)
  {
    function ClausesFor(permission: string): seq<Clause> {
      if permission in grants then grants[permission] else []
    }

    predicate Holds(permission: string) {
      permission in grants && grants[permission] != []
    }

    // Tenant: the single tenant every binding is pinned to.
    function Tenant(): Option<int> {
      if hasRoot || unpinned || |tenants| != 1 then None else Some(Sole(tenants))
    }
  }

  // The only member of a set of one.
  function Sole(s: set<int>): (x: int)
    requires |s| == 1
    ensures x in s
  {
    SoleMember(s);
    var x: int :| x in s;
    x
  }

  lemma SoleMember(s: set<int>)
    requires |s| == 1
    ensures exists x :: x in s
    ensures forall x, y :: x in s && y in s ==> x == y
  {
    assert s != {};
    forall x, y | x in s && y in s
      ensures x == y
    {
      SubsetCount({x, y}, s);
    }
  }

  const NOTHING := Effective(map[], {}, {}, false, false)

  // The grant holds up against the catalogue at the binding's scope.
  predicate Admits(env: Env, b: Binding, g: Grant)
    requires env.h.levels != []
  {
    && g.permission in env.cat && g.qualifier.Valid()
    && (env.cat[g.permission].Ownable() || g.qualifier == All)
    && (!env.cat[g.permission].organizationOnly || IsRoot(env.h, b.scope))
  }

  function ClauseOf(env: Env, b: Binding, role: Role, chain: seq<Scope>, g: Grant): Clause
    requires g.permission in env.cat
  {
    Clause(b.scope, chain, g.qualifier, AttrsFor(env.cat[g.permission], role.attrs), b.id)
  }

  function AddGrant(env: Env, grants: map<string, seq<Clause>>, b: Binding, role: Role, chain: seq<Scope>, g: Grant): map<string, seq<Clause>>
    requires env.h.levels != []
  {
    if !Admits(env, b, g) then grants
    else grants[g.permission := (if g.permission in grants then grants[g.permission] else []) + [ClauseOf(env, b, role, chain, g)]]
  }

  function AddGrants(env: Env, grants: map<string, seq<Clause>>, b: Binding, role: Role, chain: seq<Scope>, gs: seq<Grant>): map<string, seq<Clause>>
    requires env.h.levels != []
  {
    if gs == [] then grants
    else AddGrant(env, AddGrants(env, grants, b, role, chain, gs[..|gs| - 1]), b, role, chain, gs[|gs| - 1])
  }

  predicate AnyAdmitted(env: Env, b: Binding, gs: seq<Grant>)
    requires env.h.levels != []
  {
    gs != [] && (AnyAdmitted(env, b, gs[..|gs| - 1]) || Admits(env, b, gs[|gs| - 1]))
  }

  lemma {:induction false} AdmittedIsFound(env: Env, b: Binding, gs: seq<Grant>, g: Grant)
    requires env.h.levels != [] && g in gs && Admits(env, b, g)
    ensures AnyAdmitted(env, b, gs)
  {
    if g != gs[|gs| - 1] {
      assert gs == gs[..|gs| - 1] + [gs[|gs| - 1]];
      AdmittedIsFound(env, b, gs[..|gs| - 1], g);
    }
  }

  lemma GrantsSnoc(env: Env, grants: map<string, seq<Clause>>, b: Binding, role: Role, chain: seq<Scope>, gs: seq<Grant>, g: Grant)
    requires env.h.levels != []
    ensures AddGrants(env, grants, b, role, chain, gs + [g]) == AddGrant(env, AddGrants(env, grants, b, role, chain, gs), b, role, chain, g)
    ensures AnyAdmitted(env, b, gs + [g]) <==> AnyAdmitted(env, b, gs) || Admits(env, b, g)
  {
    assert (gs + [g])[..|gs|] == gs;
  }

  // Which tenant, root or nothing the binding pins.
  function Pin(env: Env, eff: Effective, b: Binding, chain: seq<Scope>): Effective
    requires env.h.levels != []
  {
    if IsRoot(env.h, b.scope) then eff.(hasRoot := true)
    else
      match TenantOf(env.h, chain)
      case Some(t) => eff.(tenants := eff.tenants + {t.id})
      case None => eff.(unpinned := true)
  }

  // What a resolved binding adds: its role's clauses, and what they pin.
  function AddShare(env: Env, eff: Effective, b: Binding, role: Role, chain: seq<Scope>): Effective
    requires env.h.levels != []
  {
    var gs := Resolve(env, role);
    var added := eff.(grants := AddGrants(env, eff.grants, b, role, chain, gs));
    if AnyAdmitted(env, b, gs) then Pin(env, added, b, chain) else added
  }

  function UseRole(eff: Effective, ref: RoleRef): Effective {
    if ref.id > 0 then eff.(roleIds := eff.roleIds + {ref.id}) else eff
  }

  // One binding's share. A binding that cannot be resolved grants nothing.
  function AddBinding(env: Env, eff: Effective, b: Binding, lookup: Lookup): Effective
    requires env.h.levels != [] && Distinct(env.h.levels)
  {
    var chain := ChainOf(env.h, env.resolver, b.scope, []);
    if !b.role.Valid() then eff
    else if lookup(b.role).None? || !chain.Chain? then UseRole(eff, b.role)
    else AddShare(env, UseRole(eff, b.role), b, lookup(b.role).value, chain.scopes)
  }

  function Build(env: Env, bs: seq<Binding>, lookup: Lookup): Effective
    requires env.h.levels != [] && Distinct(env.h.levels)
  {
    if bs == [] then NOTHING else AddBinding(env, Build(env, bs[..|bs| - 1], lookup), bs[|bs| - 1], lookup)
  }

  // One grant of addClauses: the three ways it is skipped.
  method AddClause(env: Env, eff: Effective, b: Binding, role: Role, chain: seq<Scope>, g: Grant) returns (r: Effective, added: bool)
    requires ValidEnv(env)
    ensures r == eff.(grants := AddGrant(env, eff.grants, b, role, chain, g))
    ensures added <==> Admits(env, b, g)
  {
    if g.permission !in env.cat {
      return eff, false;
    }
    var p := env.cat[g.permission];
    if !g.qualifier.Valid() || (!p.Ownable() && g.qualifier != All) {
      return eff, false;
    }
    if p.organizationOnly && !IsRoot(env.h, b.scope) {
      return eff, false;
    }
    var clause := Clause(b.scope, chain, g.qualifier, AttrsFor(p, role.attrs), b.id);
    return eff.(grants := eff.grants[g.permission := eff.ClausesFor(g.permission) + [clause]]), true;
  }

  // addClauses, grant by grant.
  method AddClauses(env: Env, eff: Effective, b: Binding, role: Role, chain: seq<Scope>) returns (r: Effective, added: bool)
    requires ValidEnv(env)
    ensures r == eff.(grants := AddGrants(env, eff.grants, b, role, chain, Resolve(env, role)))
    ensures added <==> AnyAdmitted(env, b, Resolve(env, role))
  {
    r, added := eff, false;
    var gs := Resolve(env, role);
    for i := 0 to |gs|
      invariant r == eff.(grants := AddGrants(env, eff.grants, b, role, chain, gs[..i]))
      invariant added <==> AnyAdmitted(env, b, gs[..i])
    {
      assert gs[..i + 1] == gs[..i] + [gs[i]];
      GrantsSnoc(env, eff.grants, b, role, chain, gs[..i], gs[i]);
      var one: bool;
      r, one := AddClause(env, r, b, role, chain, gs[i]);
      added := added || one;
    }
    assert gs[..|gs|] == gs;
  }

  // build: each role is looked up once, then kept.
  method BuildEffective(env: Env, bs: seq<Binding>, lookup: Lookup) returns (eff: Effective)
    requires ValidEnv(env)
    ensures eff == Build(env, bs, lookup)
  {
    eff := NOTHING;
    var roles: map<RoleRef, Role> := map[];
    for i := 0 to |bs|
      invariant eff == Build(env, bs[..i], lookup)
      invariant forall ref :: ref in roles ==> lookup(ref) == Some(roles[ref])
    {
      var b := bs[i];
      assert bs[..i + 1][..i] == bs[..i];
      if !b.role.Valid() {
        continue;
      }
      if b.role.id > 0 {
        eff := eff.(roleIds := eff.roleIds + {b.role.id});
      }
      if b.role !in roles {
        var found := lookup(b.role);
        if found.None? {
          continue;
        }
        roles := roles[b.role := found.value];
      }
      var chain := ResolveChain(env.h, env.resolver, b.scope, []);
      if !chain.Chain? {
        continue;
      }
      var added: bool;
      eff, added := AddClauses(env, eff, b, roles[b.role], chain.scopes);
      if added {
        if IsRoot(env.h, b.scope) {
          eff := eff.(hasRoot := true);
        } else if TenantOf(env.h, chain.scopes).Some? {
          eff := eff.(tenants := eff.tenants + {TenantOf(env.h, chain.scopes).value.id});
        } else {
          eff := eff.(unpinned := true);
        }
      }
    }
    assert bs[..|bs|] == bs;
  }

  // Where clauses come from --------------------------------------------------------------

  // The binding yields the clause through the grant.
  ghost predicate Yields(env: Env, lookup: Lookup, b: Binding, g: Grant, c: Clause)
    requires ValidEnv(env)
  {
    && b.role.Valid() && lookup(b.role).Some? && g in Resolve(env, lookup(b.role).value) && Admits(env, b, g)
    && ChainOf(env.h, env.resolver, b.scope, []) == Chain(c.chain)
    && c == ClauseOf(env, b, lookup(b.role).value, c.chain, g)
  }

  // A binding yields some clause of the permission.
  ghost predicate Gives(env: Env, lookup: Lookup, b: Binding, permission: string, c: Clause)
    requires ValidEnv(env)
  {
    exists g: Grant :: g.permission == permission && Yields(env, lookup, b, g, c)
  }

  ghost predicate Held(grants: map<string, seq<Clause>>, permission: string, c: Clause) {
    permission in grants && c in grants[permission]
  }

  lemma {:induction false} AddedClauses(env: Env, grants: map<string, seq<Clause>>, b: Binding, role: Role, chain: seq<Scope>,
                                        gs: seq<Grant>, permission: string, c: Clause)
    requires ValidEnv(env)
    ensures Held(AddGrants(env, grants, b, role, chain, gs), permission, c) <==>
            Held(grants, permission, c) ||
            exists g :: g in gs && g.permission == permission && Admits(env, b, g) && c == ClauseOf(env, b, role, chain, g)
  {
    if gs != [] {
      var before, last := gs[..|gs| - 1], gs[|gs| - 1];
      AddedClauses(env, grants, b, role, chain, before, permission, c);
      assert gs == before + [last];
    }
  }

  // The grant of a resolved binding yields the clause.
  lemma GivesIff(env: Env, b: Binding, lookup: Lookup, chain: seq<Scope>, permission: string, c: Clause)
    requires ValidEnv(env) && b.role.Valid() && lookup(b.role).Some? && ChainOf(env.h, env.resolver, b.scope, []) == Chain(chain)
    ensures Gives(env, lookup, b, permission, c) <==>
            var role := lookup(b.role).value;
            exists g :: g in Resolve(env, role) && g.permission == permission && Admits(env, b, g) && c == ClauseOf(env, b, role, chain, g)
  {
    var role := lookup(b.role).value;
    if g: Grant :| g.permission == permission && Yields(env, lookup, b, g, c) {
      assert g in Resolve(env, role);
    }
    if g :| g in Resolve(env, role) && g.permission == permission && Admits(env, b, g) && c == ClauseOf(env, b, role, chain, g) {
      assert Yields(env, lookup, b, g, c);
    }
  }

  lemma SharedGrants(env: Env, eff: Effective, b: Binding, role: Role, chain: seq<Scope>)
    requires ValidEnv(env)
    ensures AddShare(env, eff, b, role, chain).grants == AddGrants(env, eff.grants, b, role, chain, Resolve(env, role))
  {
  }

  lemma BindingClauses(env: Env, eff: Effective, b: Binding, lookup: Lookup, permission: string, c: Clause)
    requires ValidEnv(env)
    ensures Held(AddBinding(env, eff, b, lookup).grants, permission, c) <==>
            Held(eff.grants, permission, c) || Gives(env, lookup, b, permission, c)
  {
    var chain := ChainOf(env.h, env.resolver, b.scope, []);
    if b.role.Valid() && lookup(b.role).Some? && chain.Chain? {
      var role := lookup(b.role).value;
      AddedClauses(env, eff.grants, b, role, chain.scopes, Resolve(env, role), permission, c);
      SharedGrants(env, UseRole(eff, b.role), b, role, chain.scopes);
      GivesIff(env, b, lookup, chain.scopes, permission, c);
    }
  }

  // A subject holds exactly the clauses its bindings yield.
  lemma {:induction false} BuildClauses(env: Env, bs: seq<Binding>, lookup: Lookup, permission: string, c: Clause)
    requires ValidEnv(env)
    ensures Held(Build(env, bs, lookup).grants, permission, c) <==> exists b :: b in bs && Gives(env, lookup, b, permission, c)
  {
    if bs != [] {
      var before, last := bs[..|bs| - 1], bs[|bs| - 1];
      BuildClauses(env, before, lookup, permission, c);
      BindingClauses(env, Build(env, before, lookup), last, lookup, permission, c);
      assert bs == before + [last];
    }
  }

  // Holding a permission is holding a clause of it.
  lemma HoldsIsHeld(eff: Effective, permission: string)
    ensures eff.Holds(permission) <==> exists c :: Held(eff.grants, permission, c)
  {
    if eff.Holds(permission) {
      assert Held(eff.grants, permission, eff.grants[permission][0]);
    }
  }

  // Every clause of effective access carries the chain of its scope.
  lemma BuiltIsCoherent(env: Env, bs: seq<Binding>, lookup: Lookup, permission: string, c: Clause)
    requires ValidEnv(env) && c in Build(env, bs, lookup).ClausesFor(permission)
    ensures Coherent(env.h, env.resolver, c)
  {
    BuildClauses(env, bs, lookup, permission, c);
    var b :| b in bs && Gives(env, lookup, b, permission, c);
  }

  // What a clause's scope pins is recorded.
  ghost predicate Pinned(env: Env, eff: Effective, c: Clause)
    requires ValidEnv(env)
  {
    if IsRoot(env.h, c.scope) then eff.hasRoot
    else
      match TenantOf(env.h, c.chain)
      case Some(t) => t.id in eff.tenants
      case None => eff.unpinned
  }

  // A further binding forgets nothing that was pinned.
  ghost predicate PinsGrow(before: Effective, after: Effective) {
    (before.hasRoot ==> after.hasRoot) && (before.unpinned ==> after.unpinned) && before.tenants <= after.tenants
  }

  lemma BindingKeepsPins(env: Env, eff: Effective, b: Binding, lookup: Lookup)
    requires ValidEnv(env)
    ensures PinsGrow(eff, AddBinding(env, eff, b, lookup))
  {
    var chain := ChainOf(env.h, env.resolver, b.scope, []);
    if b.role.Valid() && lookup(b.role).Some? && chain.Chain? {
      ShareKeepsPins(env, UseRole(eff, b.role), b, lookup(b.role).value, chain.scopes);
    }
  }

  lemma ShareKeepsPins(env: Env, eff: Effective, b: Binding, role: Role, chain: seq<Scope>)
    requires ValidEnv(env)
    ensures PinsGrow(eff, AddShare(env, eff, b, role, chain))
  {
  }

  lemma PinnedGrows(env: Env, before: Effective, after: Effective, c: Clause)
    requires ValidEnv(env) && Pinned(env, before, c) && PinsGrow(before, after)
    ensures Pinned(env, after, c)
  {
  }

  lemma BindingPins(env: Env, eff: Effective, b: Binding, lookup: Lookup, permission: string, c: Clause)
    requires ValidEnv(env) && Gives(env, lookup, b, permission, c)
    ensures Pinned(env, AddBinding(env, eff, b, lookup), c)
  {
    var g: Grant :| g.permission == permission && Yields(env, lookup, b, g, c);
    AdmittedIsFound(env, b, Resolve(env, lookup(b.role).value), g);
  }

  lemma {:induction false} BuildPins(env: Env, bs: seq<Binding>, lookup: Lookup, b: Binding, permission: string, c: Clause)
    requires ValidEnv(env) && b in bs && Gives(env, lookup, b, permission, c)
    ensures Pinned(env, Build(env, bs, lookup), c)
  {
    var before, last := bs[..|bs| - 1], bs[|bs| - 1];
    if b == last {
      BindingPins(env, Build(env, before, lookup), last, lookup, permission, c);
    } else {
      assert bs == before + [last] && b in before;
      BuildPins(env, before, lookup, b, permission, c);
      BindingKeepsPins(env, Build(env, before, lookup), last, lookup);
      PinnedGrows(env, Build(env, before, lookup), Build(env, bs, lookup), c);
    }
  }

  // Effective access depends only on the roles its bindings refer to.
  lemma {:induction false} BuildIsLocal(env: Env, bs: seq<Binding>, l1: Lookup, l2: Lookup)
    requires ValidEnv(env) && forall b :: b in bs && b.role.Valid() ==> l1(b.role) == l2(b.role)
    ensures Build(env, bs, l1) == Build(env, bs, l2)
  {
    if bs != [] {
      assert bs == bs[..|bs| - 1] + [bs[|bs| - 1]];
      BuildIsLocal(env, bs[..|bs| - 1], l1, l2);
    }
  }

  // Access built from the role found for each binding. The code keeps a role it found
  // but looks one it missed up again, so two bindings of one role may find different
  // things when it is written meanwhile.
  function BuildEach(env: Env, bs: seq<Binding>, found: seq<Option<Role>>): Effective
    requires env.h.levels != [] && Distinct(env.h.levels) && |found| == |bs|
  {
    if bs == [] then NOTHING
    else
      var last := |bs| - 1;
      AddBinding(env, BuildEach(env, bs[..last], found[..last]), bs[last], (ref: RoleRef) => found[last])
  }

  // When each binding found what a lookup gives, it is the access built with the lookup.
  lemma {:induction false} EachIsBuild(env: Env, bs: seq<Binding>, found: seq<Option<Role>>, lookup: Lookup)
    requires ValidEnv(env) && |found| == |bs|
    requires forall i :: 0 <= i < |bs| && bs[i].role.Valid() ==> found[i] == lookup(bs[i].role)
    ensures BuildEach(env, bs, found) == Build(env, bs, lookup)
  {
    if bs != [] {
      EachIsBuild(env, bs[..|bs| - 1], found[..|bs| - 1], lookup);
    }
  }

  lemma {:induction false} EachIsLocal(env: Env, bs: seq<Binding>, found: seq<Option<Role>>, found': seq<Option<Role>>)
    requires ValidEnv(env) && |found| == |found'| == |bs|
    requires forall i :: 0 <= i < |bs| && bs[i].role.Valid() ==> found[i] == found'[i]
    ensures BuildEach(env, bs, found) == BuildEach(env, bs, found')
  {
    if bs != [] {
      EachIsLocal(env, bs[..|bs| - 1], found[..|bs| - 1], found'[..|bs| - 1]);
    }
  }

  lemma {:induction false} EachUses(env: Env, bs: seq<Binding>, found: seq<Option<Role>>, id: int)
    requires ValidEnv(env) && |found| == |bs|
    ensures id in BuildEach(env, bs, found).roleIds <==> exists b :: b in bs && b.role.Valid() && b.role.id > 0 && b.role.id == id
  {
    if bs != [] {
      var last := |bs| - 1;
      assert bs == bs[..last] + [bs[last]];
      EachUses(env, bs[..last], found[..last], id);
      BindingUses(env, BuildEach(env, bs[..last], found[..last]), bs[last], (ref: RoleRef) => found[last]);
    }
  }

  // It remembers every custom role a binding refers to, found or not.
  lemma {:induction false} BuildUses(env: Env, bs: seq<Binding>, lookup: Lookup, id: int)
    requires ValidEnv(env)
    ensures id in Build(env, bs, lookup).roleIds <==> exists b :: b in bs && b.role.Valid() && b.role.id > 0 && b.role.id == id
  {
    if bs != [] {
      var before, last := bs[..|bs| - 1], bs[|bs| - 1];
      assert bs == before + [last];
      BuildUses(env, before, lookup, id);
      BindingUses(env, Build(env, before, lookup), last, lookup);
    }
  }

  lemma BindingUses(env: Env, eff: Effective, b: Binding, lookup: Lookup)
    requires ValidEnv(env)
    ensures AddBinding(env, eff, b, lookup).roleIds == if b.role.Valid() && b.role.id > 0 then eff.roleIds + {b.role.id} else eff.roleIds
  {
    var chain := ChainOf(env.h, env.resolver, b.scope, []);
    if b.role.Valid() && lookup(b.role).Some? && chain.Chain? {
      assert AddShare(env, UseRole(eff, b.role), b, lookup(b.role).value, chain.scopes).roleIds == UseRole(eff, b.role).roleIds;
    }
  }

  // Effective access, told without the building ---------------------------------------------------

  // The grants of a role: its own, or everything its selector picks, held without limit.
  lemma {:induction false} SelectedIff(order: seq<string>, chosen: set<string>, g: Grant)
    ensures g in Selected(order, chosen) <==> g.qualifier == All && g.permission in order && g.permission in chosen
  {
    if order != [] {
      SelectedIff(order[1..], chosen, g);
      assert order == [order[0]] + order[1..];
    }
  }

  lemma ResolveIff(env: Env, role: Role, g: Grant)
    ensures g in Resolve(env, role) <==>
            if role.computed.None? then g in role.grants
            else g.qualifier == All && g.permission in env.order && g.permission in role.computed.value
  {
    if role.computed.Some? {
      SelectedIff(env.order, role.computed.value, g);
    }
  }

  // The clause a grant of a bound role comes to: the binding's place with its chain, the
  // grant's qualifier, and of the role's attribute constraints those the permission declares.
  ghost predicate ComesTo(env: Env, b: Binding, role: Role, g: Grant, c: Clause) {
    && g.permission in env.cat
    && (g.qualifier == Own || g.qualifier == OwnLocation || g.qualifier == All)
    && (env.cat[g.permission].recordType == "" ==> g.qualifier == All)
    && (env.cat[g.permission].organizationOnly ==> 0 < |env.h.levels| && b.scope.level == env.h.levels[0])
    && IsChain(env.h, env.resolver, b.scope, c.chain)
    && c.scope == b.scope && c.qualifier == g.qualifier && c.binding == b.id
    && (forall key :: key in c.attrs <==> key in role.attrs && key in env.cat[g.permission].attributes)
    && (forall key :: key in c.attrs ==> key in role.attrs && c.attrs[key] == role.attrs[key])
  }

  lemma YieldsIff(env: Env, lookup: Lookup, b: Binding, g: Grant, c: Clause)
    requires ValidEnv(env)
    ensures Yields(env, lookup, b, g, c) <==>
            && (b.role.id > 0) != (b.role.key != "") && lookup(b.role).Some?
            && (if lookup(b.role).value.computed.None? then g in lookup(b.role).value.grants
                else g.qualifier == All && g.permission in env.order && g.permission in lookup(b.role).value.computed.value)
            && ComesTo(env, b, lookup(b.role).value, g, c)
  {
    ChainIff(env.h, env.resolver, b.scope, c.chain);
    if lookup(b.role).Some? {
      ResolveIff(env, lookup(b.role).value, g);
    }
    if g.permission in env.cat && lookup(b.role).Some? {
      AttrsForIff(env.cat[g.permission], lookup(b.role).value.attrs, c.attrs);
    }
  }

  lemma AttrsForIff(p: Permission, attrs: Attrs, a: Attrs)
    ensures a == AttrsFor(p, attrs) <==>
            && (forall key :: key in a <==> key in attrs && key in p.attributes)
            && (forall key :: key in a ==> key in attrs && a[key] == attrs[key])
  {
  }

  // A clause of a permission is held exactly when a binding with a role that is found
  // grants it.
  lemma HeldIff(env: Env, bs: seq<Binding>, lookup: Lookup, permission: string, c: Clause)
    requires ValidEnv(env)
    ensures c in Build(env, bs, lookup).ClausesFor(permission) <==>
            exists b: Binding, g: Grant :: && b in bs && g.permission == permission
                           && (b.role.id > 0) != (b.role.key != "") && lookup(b.role).Some?
                           && (if lookup(b.role).value.computed.None? then g in lookup(b.role).value.grants
                               else g.qualifier == All && g.permission in env.order && g.permission in lookup(b.role).value.computed.value)
                           && ComesTo(env, b, lookup(b.role).value, g, c)
  {
    BuildClauses(env, bs, lookup, permission, c);
    if c in Build(env, bs, lookup).ClausesFor(permission) {
      var b :| b in bs && Gives(env, lookup, b, permission, c);
      var g: Grant :| g.permission == permission && Yields(env, lookup, b, g, c);
      YieldsIff(env, lookup, b, g, c);
    }
    forall b: Binding, g: Grant | b in bs && g.permission == permission && (b.role.id > 0) != (b.role.key != "") && lookup(b.role).Some? &&
        (if lookup(b.role).value.computed.None? then g in lookup(b.role).value.grants
         else g.qualifier == All && g.permission in env.order && g.permission in lookup(b.role).value.computed.value) &&
        ComesTo(env, b, lookup(b.role).value, g, c)
      ensures Gives(env, lookup, b, permission, c)
    {
      YieldsIff(env, lookup, b, g, c);
    }
  }

  // Tenants --------------------------------------------------------------------------------------

  // The binding gives something.
  ghost predicate Contributes(env: Env, lookup: Lookup, b: Binding)
    requires ValidEnv(env)
  {
    && b.role.Valid() && lookup(b.role).Some? && ChainOf(env.h, env.resolver, b.scope, []).Chain?
    && exists g :: g in Resolve(env, lookup(b.role).value) && Admits(env, b, g)
  }

  lemma {:induction false} AnyAdmittedIff(env: Env, b: Binding, gs: seq<Grant>)
    requires env.h.levels != []
    ensures AnyAdmitted(env, b, gs) <==> exists g :: g in gs && Admits(env, b, g)
  {
    if gs != [] {
      AnyAdmittedIff(env, b, gs[..|gs| - 1]);
      assert gs == gs[..|gs| - 1] + [gs[|gs| - 1]];
    }
  }

  // What a binding pins: the root, a tenant, or nothing that can be told.
  datatype Pinning = AtRoot | ToTenant(id: int) | Untold

  function PinningOf(env: Env, b: Binding): Pinning
    requires ValidEnv(env)
  {
    if b.scope.level == env.h.levels[0] then AtRoot
    else
      match ChainOf(env.h, env.resolver, b.scope, [])
      case Chain(c) => (match TenantOf(env.h, c) case Some(t) => ToTenant(t.id) case None => Untold)
      case _ => Untold
  }

  // Everything that is pinned is pinned by a binding that gives something.
  ghost predicate PinnedBy(env: Env, bs: seq<Binding>, lookup: Lookup, pin: Pinning)
    requires ValidEnv(env)
  {
    exists b :: b in bs && Contributes(env, lookup, b) && PinningOf(env, b) == pin
  }

  predicate Records(eff: Effective, pin: Pinning) {
    match pin
    case AtRoot => eff.hasRoot
    case ToTenant(id) => id in eff.tenants
    case Untold => eff.unpinned
  }

  lemma BindingRecords(env: Env, eff: Effective, b: Binding, lookup: Lookup, pin: Pinning)
    requires ValidEnv(env)
    ensures Records(AddBinding(env, eff, b, lookup), pin) <==> Records(eff, pin) || (Contributes(env, lookup, b) && PinningOf(env, b) == pin)
  {
    if lookup(b.role).Some? {
      AnyAdmittedIff(env, b, Resolve(env, lookup(b.role).value));
    }
  }

  lemma {:induction false} RecordsIff(env: Env, bs: seq<Binding>, lookup: Lookup, pin: Pinning)
    requires ValidEnv(env)
    ensures Records(Build(env, bs, lookup), pin) <==> PinnedBy(env, bs, lookup, pin)
  {
    if bs != [] {
      var before, last := bs[..|bs| - 1], bs[|bs| - 1];
      RecordsIff(env, before, lookup, pin);
      BindingRecords(env, Build(env, before, lookup), last, lookup, pin);
      assert bs == before + [last];
    }
  }

  // Some binding gives something, and every one that does pins the tenant.
  ghost predicate AllPin(env: Env, bs: seq<Binding>, lookup: Lookup, t: int)
    requires ValidEnv(env)
  {
    && (exists b :: b in bs && Contributes(env, lookup, b))
    && forall b :: b in bs && Contributes(env, lookup, b) ==> PinningOf(env, b) == ToTenant(t)
  }

  lemma OneTenantAllPin(env: Env, bs: seq<Binding>, lookup: Lookup, t: int)
    requires ValidEnv(env)
    requires var eff := Build(env, bs, lookup); !eff.hasRoot && !eff.unpinned && t in eff.tenants && forall id :: id in eff.tenants ==> id == t
    ensures AllPin(env, bs, lookup, t)
  {
    var eff := Build(env, bs, lookup);
    RecordsIff(env, bs, lookup, ToTenant(t));
    forall b | b in bs && Contributes(env, lookup, b) ensures PinningOf(env, b) == ToTenant(t) {
      RecordsIff(env, bs, lookup, PinningOf(env, b));
      assert Records(eff, PinningOf(env, b));
    }
  }

  lemma AllPinOneTenant(env: Env, bs: seq<Binding>, lookup: Lookup, t: int)
    requires ValidEnv(env) && AllPin(env, bs, lookup, t)
    ensures var eff := Build(env, bs, lookup); !eff.hasRoot && !eff.unpinned && t in eff.tenants && forall id :: id in eff.tenants ==> id == t
  {
    var eff := Build(env, bs, lookup);
    RecordsIff(env, bs, lookup, ToTenant(t));
    RecordsIff(env, bs, lookup, AtRoot);
    RecordsIff(env, bs, lookup, Untold);
    forall id | id in eff.tenants ensures id == t {
      RecordsIff(env, bs, lookup, ToTenant(id));
    }
  }

  // Tenant answers t exactly when some binding gives something and every one that does lies
  // in tenant t.
  lemma TenantIff(env: Env, bs: seq<Binding>, lookup: Lookup, t: int)
    requires ValidEnv(env)
    ensures Build(env, bs, lookup).Tenant() == Some(t) <==>
            && (exists b :: b in bs && Contributes(env, lookup, b))
            && forall b :: b in bs && Contributes(env, lookup, b) ==> PinningOf(env, b) == ToTenant(t)
  {
    OnlyTenant(Build(env, bs, lookup), t);
    if Build(env, bs, lookup).Tenant() == Some(t) {
      OneTenantAllPin(env, bs, lookup, t);
    }
    if AllPin(env, bs, lookup, t) {
      AllPinOneTenant(env, bs, lookup, t);
    }
  }

  lemma OnlyTenant(eff: Effective, t: int)
    ensures eff.Tenant() == Some(t) <==> !eff.hasRoot && !eff.unpinned && t in eff.tenants && forall id :: id in eff.tenants ==> id == t
  {
    if |eff.tenants| == 1 {
      SoleMember(eff.tenants);
    }
    if t in eff.tenants && forall id :: id in eff.tenants ==> id == t {
      assert eff.tenants == {t};
    }
  }
}
