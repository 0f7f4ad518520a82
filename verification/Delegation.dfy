// What one may give away (authz/delegation.go, authz/role.go): saving a role,
// assigning it, and never losing one's own last access.
module Delegation {
  import opened Wrappers
  import opened Scopes
  import opened Clauses
  import opened Engine

  // A single lowercase word.
  predicate Word(s: string) {
    s != "" && 'a' <= s[0] <= 'z' && forall i :: 0 < i < |s| ==> 'a' <= s[i] <= 'z' || '0' <= s[i] <= '9'
  }

  // Role.Validate: a name, a key that is a word, known permissions, each granted once
  // with a qualifier it may carry, every requirement granted as widely, and
  // constraints on declared attributes that allow something.
  ghost predicate ValidRole(env: Env, role: Role) {
    var gs := Resolve(env, role);
    && role.name != "" && (role.key != "" ==> Word(role.key))
    && (role.computed.Some? ==> role.grants == [])
    && OnceEach(gs) && (forall g :: g in gs ==> GrantOk(env, g))
    && (forall g, req :: g in gs && g.permission in env.cat && req in env.cat[g.permission].requires_ ==> RequirementMet(env, gs, g, req))
    && (forall key :: key in role.attrs ==> role.attrs[key] != [] && Declared(env, key))
  }

  predicate OnceEach(gs: seq<Grant>) {
    forall i, j :: 0 <= i < j < |gs| ==> gs[i].permission != gs[j].permission
  }

  predicate GrantOk(env: Env, g: Grant) {
    g.permission in env.cat && g.qualifier.Valid() && (env.cat[g.permission].Ownable() || g.qualifier == All)
  }

  predicate RequirementMet(env: Env, gs: seq<Grant>, g: Grant, req: string)
    requires g.permission in env.cat
  {
    exists d :: d in gs && d.permission == req &&
      (env.cat[g.permission].Ownable() && req in env.cat && env.cat[req].Ownable() ==> d.qualifier.Covers(g.qualifier))
  }

  predicate Declared(env: Env, key: string) {
    exists id :: id in env.cat && key in env.cat[id].attributes
  }

  datatype RoleProblem =
    | InvalidRole(what: string)
    | ComputedWithGrants
    | UnknownPermission(permission: string)
    | InvalidQualifier(permission: string)
    | QualifierNotAllowed(permission: string)
    | DuplicateGrant(permission: string)
    | MissingRequired(permission: string, required: string)
    | RequiredTooNarrow(permission: string, required: string)
    | UnknownAttribute(key: string)
    | EmptyAttribute(key: string)

  // What the grants come to: the qualifier of each permission.
  predicate Tallied(gs: seq<Grant>, held: map<string, Qualifier>) {
    && (forall g :: g in gs ==> g.permission in held && held[g.permission] == g.qualifier)
    && (forall id :: id in held ==> exists g :: g in gs && g.permission == id)
  }

  // The problem of one grant, given the qualifiers held before it.
  function GrantProblem(env: Env, g: Grant, held: map<string, Qualifier>): Option<RoleProblem> {
    if g.permission !in env.cat then Some(UnknownPermission(g.permission))
    else if !g.qualifier.Valid() then Some(InvalidQualifier(g.permission))
    else if !env.cat[g.permission].Ownable() && g.qualifier != All then Some(QualifierNotAllowed(g.permission))
    else if g.permission in held then Some(DuplicateGrant(g.permission))
    else None
  }

  // While the grants so far are in order, the next is too exactly when it has no problem.
  lemma GrantStep(env: Env, gs: seq<Grant>, g: Grant, held: map<string, Qualifier>)
    requires OnceEach(gs) && Tallied(gs, held)
    ensures GrantProblem(env, g, held).None? <==> GrantOk(env, g) && OnceEach(gs + [g])
    ensures GrantProblem(env, g, held).None? ==> Tallied(gs + [g], held[g.permission := g.qualifier])
  {
    if g.permission in held {
      var d :| d in gs && d.permission == g.permission;
      var i :| 0 <= i < |gs| && gs[i] == d;
      assert (gs + [g])[i].permission == (gs + [g])[|gs|].permission;
    } else {
      forall i, j | 0 <= i < j < |gs + [g]| ensures (gs + [g])[i].permission != (gs + [g])[j].permission {
        assert gs[i] in gs;
      }
      forall d | d in gs ensures held[g.permission := g.qualifier][d.permission] == d.qualifier {
      }
    }
  }

  predicate GrantsOk(env: Env, gs: seq<Grant>) {
    OnceEach(gs) && forall g :: g in gs ==> GrantOk(env, g)
  }

  // The first loop of Validate: a grant with a qualifier it may not carry is still held.
  method TallyGrants(env: Env, gs: seq<Grant>) returns (problems: seq<RoleProblem>, held: map<string, Qualifier>)
    ensures problems == [] <==> GrantsOk(env, gs)
    ensures problems == [] ==> Tallied(gs, held)
    ensures held.Keys <= env.cat.Keys
  {
    problems, held := [], map[];
    for i := 0 to |gs|
      invariant held.Keys <= env.cat.Keys
      invariant problems == [] <==> GrantsOk(env, gs[..i])
      invariant problems == [] ==> Tallied(gs[..i], held)
    {
      assert gs[..i + 1] == gs[..i] + [gs[i]];
      GoodPrefix(env, gs[..i], gs[i]);
      ghost var before := problems;
      if before == [] {
        GrantStep(env, gs[..i], gs[i], held);
      }
      problems, held := TallyOne(env, gs[i], problems, held);
    }
    assert gs[..|gs|] == gs;
  }

  lemma GoodPrefix(env: Env, gs: seq<Grant>, g: Grant)
    ensures GrantsOk(env, gs + [g]) ==> GrantsOk(env, gs) && GrantOk(env, g)
    ensures GrantsOk(env, gs) && GrantOk(env, g) && OnceEach(gs + [g]) ==> GrantsOk(env, gs + [g])
  {
    var longer := gs + [g];
    if GrantsOk(env, longer) {
      forall i, j | 0 <= i < j < |gs| ensures gs[i].permission != gs[j].permission {
        assert longer[i] == gs[i] && longer[j] == gs[j];
      }
      assert forall d :: d in gs ==> d in longer;
      assert g in longer;
    }
  }

  method TallyOne(env: Env, g: Grant, before: seq<RoleProblem>, held0: map<string, Qualifier>)
    returns (problems: seq<RoleProblem>, held: map<string, Qualifier>)
    requires held0.Keys <= env.cat.Keys
    ensures problems == [] <==> before == [] && GrantProblem(env, g, held0).None?
    ensures held == if g.permission in env.cat && g.qualifier.Valid() && g.permission !in held0 then held0[g.permission := g.qualifier] else held0
  {
    problems, held := before, held0;
    if g.permission !in env.cat {
      return problems + [UnknownPermission(g.permission)], held;
    }
    if !g.qualifier.Valid() {
      return problems + [InvalidQualifier(g.permission)], held;
    }
    if !env.cat[g.permission].Ownable() && g.qualifier != All {
      problems := problems + [QualifierNotAllowed(g.permission)];
    }
    if g.permission in held {
      return problems + [DuplicateGrant(g.permission)], held;
    }
    held := held[g.permission := g.qualifier];
  }

  // A requirement is held, as widely where both can be owned.
  predicate HeldWidely(env: Env, held: map<string, Qualifier>, id: string, req: string)
    requires id in held && id in env.cat
  {
    req in held && (env.cat[id].Ownable() && req in env.cat && env.cat[req].Ownable() ==> held[req].Covers(held[id]))
  }

  method CheckRequirementsOf(env: Env, held: map<string, Qualifier>, id: string) returns (problems: seq<RoleProblem>)
    requires id in held && held.Keys <= env.cat.Keys
    ensures problems == [] <==> forall req :: req in env.cat[id].requires_ ==> HeldWidely(env, held, id, req)
  {
    problems := [];
    var rs := env.cat[id].requires_;
    for i := 0 to |rs|
      invariant problems == [] <==> forall req :: req in rs[..i] ==> HeldWidely(env, held, id, req)
    {
      assert rs[..i + 1] == rs[..i] + [rs[i]];
      assert rs[i] in rs[..i + 1];
      ghost var met := HeldWidely(env, held, id, rs[i]);
      if rs[i] !in held {
        problems := problems + [MissingRequired(id, rs[i])];
      } else if env.cat[id].Ownable() && env.cat[rs[i]].Ownable() && !held[rs[i]].Covers(held[id]) {
        problems := problems + [RequiredTooNarrow(id, rs[i])];
      }
      assert (forall req :: req in rs[..i + 1] ==> HeldWidely(env, held, id, req)) <==>
             (forall req :: req in rs[..i] ==> HeldWidely(env, held, id, req)) && met;
    }
    assert rs[..|rs|] == rs;
  }

  ghost predicate AllHeldWidely(env: Env, held: map<string, Qualifier>, ids: set<string>)
    requires ids <= held.Keys <= env.cat.Keys
  {
    forall id, req :: id in ids && req in env.cat[id].requires_ ==> HeldWidely(env, held, id, req)
  }

  method CheckRequirements(env: Env, held: map<string, Qualifier>) returns (problems: seq<RoleProblem>)
    requires held.Keys <= env.cat.Keys
    ensures problems == [] <==> AllHeldWidely(env, held, held.Keys)
  {
    problems := [];
    var todo := held.Keys;
    while todo != {}
      invariant todo <= held.Keys
      invariant problems == [] <==> AllHeldWidely(env, held, held.Keys - todo)
      decreases todo
    {
      var id :| id in todo;
      var found := CheckRequirementsOf(env, held, id);
      assert held.Keys - (todo - {id}) == (held.Keys - todo) + {id};
      problems := problems + found;
      todo := todo - {id};
    }
    assert held.Keys - todo == held.Keys;
  }

  // What the tally says of requirements is what the grants say.
  lemma TallyMeets(env: Env, gs: seq<Grant>, held: map<string, Qualifier>)
    requires Tallied(gs, held) && held.Keys <= env.cat.Keys
    ensures AllHeldWidely(env, held, held.Keys) <==>
            forall g, req :: g in gs && g.permission in env.cat && req in env.cat[g.permission].requires_ ==> RequirementMet(env, gs, g, req)
  {
    forall g, req | g in gs && req in env.cat[g.permission].requires_
      ensures HeldWidely(env, held, g.permission, req) <==> RequirementMet(env, gs, g, req)
    {
      TallyMeetsOne(env, gs, held, g, req);
    }
  }

  lemma TallyMeetsOne(env: Env, gs: seq<Grant>, held: map<string, Qualifier>, g: Grant, req: string)
    requires Tallied(gs, held) && held.Keys <= env.cat.Keys && g in gs
    ensures HeldWidely(env, held, g.permission, req) <==> RequirementMet(env, gs, g, req)
  {
    if req in held {
      var d :| d in gs && d.permission == req;
    }
  }

  method CheckAttrs(env: Env, attrs: Attrs) returns (problems: seq<RoleProblem>)
    ensures problems == [] <==> forall key :: key in attrs ==> attrs[key] != [] && Declared(env, key)
  {
    problems := [];
    var declared := set id, key | id in env.cat && key in env.cat[id].attributes :: key;
    var todo := attrs.Keys;
    while todo != {}
      invariant todo <= attrs.Keys
      invariant problems == [] <==> forall key :: key in attrs.Keys - todo ==> attrs[key] != [] && Declared(env, key)
      decreases todo
    {
      var key :| key in todo;
      if key !in declared {
        problems := problems + [UnknownAttribute(key)];
      } else if |attrs[key]| == 0 {
        problems := problems + [EmptyAttribute(key)];
      }
      assert key in declared <==> Declared(env, key);
      todo := todo - {key};
    }
  }

  lemma RequirementMetIff(env: Env, gs: seq<Grant>, g: Grant, req: string)
    requires g.permission in env.cat
    ensures RequirementMet(env, gs, g, req) <==>
            exists d :: && d in gs && d.permission == req
                        && (env.cat[g.permission].recordType != "" && req in env.cat && env.cat[req].recordType != "" ==>
                              d.qualifier == All || d.qualifier == g.qualifier)
  {
    if RequirementMet(env, gs, g, req) {
      var d :| d in gs && d.permission == req &&
        (env.cat[g.permission].Ownable() && req in env.cat && env.cat[req].Ownable() ==> d.qualifier.Covers(g.qualifier));
    }
  }

  // Validity, told without its parts.
  lemma RoleIsValidIff(env: Env, role: Role)
    ensures ValidRole(env, role) <==>
              && role.name != ""
              && (role.key != "" ==> 'a' <= role.key[0] <= 'z' && forall i :: 0 < i < |role.key| ==> 'a' <= role.key[i] <= 'z' || '0' <= role.key[i] <= '9')
              && (role.computed.Some? ==> role.grants == [])
              && (forall key :: key in role.attrs ==> role.attrs[key] != [] && exists id :: id in env.cat && key in env.cat[id].attributes)
              && var gs := Resolve(env, role);
                 && (forall i, j :: 0 <= i < j < |gs| ==> gs[i].permission != gs[j].permission)
                 && (forall g :: g in gs ==>
                       g.permission in env.cat && !g.qualifier.Other? && (env.cat[g.permission].recordType == "" ==> g.qualifier == All))
                 && (forall g, req :: g in gs && g.permission in env.cat && req in env.cat[g.permission].requires_ ==> RequirementMet(env, gs, g, req))
  {
  }

  // Role.Validate reports a problem exactly when the role is not valid.
  method ValidateRole(env: Env, role: Role) returns (problems: seq<RoleProblem>)
    ensures problems == [] <==> ValidRole(env, role)
    ensures problems == [] <==>
              && role.name != ""
              && (role.key != "" ==> 'a' <= role.key[0] <= 'z' && forall i :: 0 < i < |role.key| ==> 'a' <= role.key[i] <= 'z' || '0' <= role.key[i] <= '9')
              && (role.computed.Some? ==> role.grants == [])
              && (forall key :: key in role.attrs ==> role.attrs[key] != [] && exists id :: id in env.cat && key in env.cat[id].attributes)
              && var gs := Resolve(env, role);
                 && (forall i, j :: 0 <= i < j < |gs| ==> gs[i].permission != gs[j].permission)
                 && (forall g :: g in gs ==>
                       g.permission in env.cat && !g.qualifier.Other? && (env.cat[g.permission].recordType == "" ==> g.qualifier == All))
                 && (forall g, req :: g in gs && g.permission in env.cat && req in env.cat[g.permission].requires_ ==> RequirementMet(env, gs, g, req))
  {
    problems := ProblemsOf(env, role);
    RoleIsValidIff(env, role);
  }

  method ProblemsOf(env: Env, role: Role) returns (problems: seq<RoleProblem>)
    ensures problems == [] <==> ValidRole(env, role)
  {
    problems := if role.name == "" then [InvalidRole("name")] else [];
    if role.key != "" && !Word(role.key) {
      problems := problems + [InvalidRole("key")];
    }
    if role.computed.Some? && |role.grants| > 0 {
      problems := problems + [ComputedWithGrants];
    }
    var gs := Resolve(env, role);
    var wrong, held := TallyGrants(env, gs);
    var unmet := CheckRequirements(env, held);
    var attrs := CheckAttrs(env, role.attrs);
    if wrong == [] {
      TallyMeets(env, gs, held);
    }
    problems := problems + wrong + unmet + attrs;
  }

  // The grant is one the holder has, at least as widely and as broadly.
  predicate HoldsGrant(env: Env, eff: Effective, role: Role, g: Grant)
    requires g.permission in env.cat
  {
    exists c :: c in eff.ClausesFor(g.permission) &&
      c.qualifier.Covers(g.qualifier) && AttrsCover(c.attrs, AttrsFor(env.cat[g.permission], role.attrs))
  }

  ghost predicate HoldsAll(env: Env, eff: Effective, role: Role)
    requires ValidRole(env, role)
  {
    forall g :: g in Resolve(env, role) ==> HoldsGrant(env, eff, role, g)
  }

  // CanSaveRole: a valid explicit role whose every grant the actor holds.
  ghost predicate CanSaveRole(env: Env, eff: Effective, role: Role) {
    role.computed.None? && ValidRole(env, role) && HoldsAll(env, eff, role)
  }

  // holdsAll, clause by clause.
  method CheckHoldsAll(env: Env, eff: Effective, role: Role) returns (ok: bool)
    requires ValidRole(env, role)
    ensures ok <==> HoldsAll(env, eff, role)
  {
    var gs := Resolve(env, role);
    assert forall g :: g in gs ==> GrantOk(env, g);
    for i := 0 to |gs|
      invariant forall g :: g in gs[..i] ==> g in gs && GrantOk(env, g) && HoldsGrant(env, eff, role, g)
    {
      var g := gs[i];
      assert g in gs && gs[..i + 1] == gs[..i] + [g];
      var wanted := AttrsFor(env.cat[g.permission], role.attrs);
      var clauses := eff.ClausesFor(g.permission);
      var covered := false;
      for j := 0 to |clauses|
        invariant !covered && forall c :: c in clauses[..j] ==> !(c.qualifier.Covers(g.qualifier) && AttrsCover(c.attrs, wanted))
      {
        assert clauses[..j + 1] == clauses[..j] + [clauses[j]];
        if clauses[j].qualifier.Covers(g.qualifier) && AttrsCover(clauses[j].attrs, wanted) {
          covered := true;
          assert clauses[j] in clauses;
          break;
        }
      }
      if !covered {
        assert clauses[..|clauses|] == clauses;
        return false;
      }
    }
    assert gs[..|gs|] == gs;
    return true;
  }

  // One clause of the holder is as wide and as broad as the grant.
  lemma HoldsGrantIff(env: Env, eff: Effective, role: Role, g: Grant)
    requires g.permission in env.cat
    ensures HoldsGrant(env, eff, role, g) <==>
            exists c :: && c in eff.ClausesFor(g.permission) && (c.qualifier == All || c.qualifier == g.qualifier)
                        && forall key :: key in c.attrs ==>
                             && key in role.attrs && key in env.cat[g.permission].attributes
                             && forall v :: v in role.attrs[key] ==> v in c.attrs[key]
  {
    forall c: Clause ensures AttrsCover(c.attrs, AttrsFor(env.cat[g.permission], role.attrs)) <==>
                     forall key :: key in c.attrs ==>
                       && key in role.attrs && key in env.cat[g.permission].attributes
                       && forall v :: v in role.attrs[key] ==> v in c.attrs[key]
    {
      AttrsCoverIff(env.cat[g.permission], c.attrs, role.attrs);
    }
  }

  lemma AttrsCoverIff(p: Permission, a: Attrs, attrs: Attrs)
    ensures AttrsCover(a, AttrsFor(p, attrs)) <==>
            forall key :: key in a ==> key in attrs && key in p.attributes && forall v :: v in attrs[key] ==> v in a[key]
  {
    if AttrsCover(a, AttrsFor(p, attrs)) {
      forall key | key in a ensures key in attrs && key in p.attributes && forall v :: v in attrs[key] ==> v in a[key] {
        assert Subset(AttrsFor(p, attrs)[key], a[key]);
      }
    }
  }

  // Passes exactly for a valid explicit role each of whose grants one clause of the actor
  // covers in qualifier and attributes.
  method CheckCanSaveRole(env: Env, eff: Effective, role: Role) returns (ok: bool)
    ensures ok <==> CanSaveRole(env, eff, role)
    ensures ok <==> role.computed.None? && ValidRole(env, role) &&
                    forall g :: g in role.grants && g.permission in env.cat ==>
                      exists c :: && c in eff.ClausesFor(g.permission) && (c.qualifier == All || c.qualifier == g.qualifier)
                                  && forall key :: key in c.attrs ==>
                                       && key in role.attrs && key in env.cat[g.permission].attributes
                                       && forall v :: v in role.attrs[key] ==> v in c.attrs[key]
  {
    forall g | g in role.grants && g.permission in env.cat
      ensures HoldsGrant(env, eff, role, g) <==>
              exists c :: && c in eff.ClausesFor(g.permission) && (c.qualifier == All || c.qualifier == g.qualifier)
                          && forall key :: key in c.attrs ==>
                               && key in role.attrs && key in env.cat[g.permission].attributes
                               && forall v :: v in role.attrs[key] ==> v in c.attrs[key]
    {
      HoldsGrantIff(env, eff, role, g);
    }
    ok := SavesRole(env, eff, role);
  }

  method SavesRole(env: Env, eff: Effective, role: Role) returns (ok: bool)
    ensures ok <==> CanSaveRole(env, eff, role)
  {
    if role.computed.Some? {
      return false;
    }
    var problems := ValidateRole(env, role);
    if problems != [] {
      return false;
    }
    ok := CheckHoldsAll(env, eff, role);
  }

  // The holder has the permission through a clause at one of the places.
  predicate HoldsWithin(eff: Effective, permission: string, places: seq<Scope>) {
    exists c :: c in eff.ClausesFor(permission) && c.scope in places
  }

  predicate HoldsAtRoot(env: Env, eff: Effective, permission: string)
    requires env.h.levels != []
  {
    exists c :: c in eff.ClausesFor(permission) && IsRoot(env.h, c.scope)
  }

  // CanBind: the actor manages bindings at a place containing the target, gives
  // away no system permission it does not hold there, and organization-only ones
  // only at the root and from the root.
  ghost predicate CanBind(env: Env, eff: Effective, role: Role, scope: Scope, manageBindings: string)
    requires ValidEnv(env)
  {
    var chain := ChainOf(env.h, env.resolver, scope, []);
    && ValidRole(env, role) && chain.Chain?
    && HoldsWithin(eff, manageBindings, chain.scopes)
    && forall g :: g in Resolve(env, role) && g.permission in env.cat ==>
         && (env.cat[g.permission].organizationOnly ==> IsRoot(env.h, scope) && HoldsAtRoot(env, eff, manageBindings))
         && (env.cat[g.permission].system ==> HoldsWithin(eff, g.permission, chain.scopes))
  }

  method CheckHoldsWithin(eff: Effective, permission: string, within: Scope -> bool) returns (ok: bool)
    ensures ok <==> exists c :: c in eff.ClausesFor(permission) && within(c.scope)
  {
    var clauses := eff.ClausesFor(permission);
    for i := 0 to |clauses|
      invariant forall c :: c in clauses[..i] ==> !within(c.scope)
    {
      assert clauses[..i + 1] == clauses[..i] + [clauses[i]];
      if within(clauses[i].scope) {
        assert clauses[i] in clauses;
        return true;
      }
    }
    assert clauses[..|clauses|] == clauses;
    return false;
  }

  // A grant of a role being assigned is one the actor may give away here.
  predicate MayGive(env: Env, eff: Effective, g: Grant, places: seq<Scope>, atRoot: bool)
    requires g.permission in env.cat
  {
    && (env.cat[g.permission].system ==> HoldsWithin(eff, g.permission, places))
    && (env.cat[g.permission].organizationOnly ==> atRoot)
  }

  method NoneOrganizationOnly(env: Env, gs: seq<Grant>) returns (ok: bool)
    requires forall g :: g in gs ==> g.permission in env.cat
    ensures ok <==> forall g :: g in gs ==> !env.cat[g.permission].organizationOnly
  {
    for i := 0 to |gs|
      invariant forall g :: g in gs[..i] ==> !env.cat[g.permission].organizationOnly
    {
      assert gs[i] in gs && gs[..i + 1] == gs[..i] + [gs[i]];
      if env.cat[gs[i].permission].organizationOnly {
        return false;
      }
    }
    assert gs[..|gs|] == gs;
    return true;
  }

  method MayGiveAll(env: Env, eff: Effective, gs: seq<Grant>, places: seq<Scope>, atRoot: bool) returns (ok: bool)
    requires forall g :: g in gs ==> g.permission in env.cat
    ensures ok <==> forall g :: g in gs ==> MayGive(env, eff, g, places, atRoot)
  {
    for i := 0 to |gs|
      invariant forall g :: g in gs[..i] ==> MayGive(env, eff, g, places, atRoot)
    {
      var p := env.cat[gs[i].permission];
      assert gs[i] in gs && gs[..i + 1] == gs[..i] + [gs[i]];
      if p.system {
        var holds := CheckHoldsWithin(eff, gs[i].permission, (s: Scope) => s in places);
        if !holds {
          return false;
        }
      }
      if p.organizationOnly && !atRoot {
        return false;
      }
    }
    assert gs[..|gs|] == gs;
    return true;
  }

  ghost predicate MayGiveOn(env: Env, eff: Effective, role: Role, scope: Scope, chain: seq<Scope>, manage: string)
    requires ValidEnv(env)
  {
    && (exists c :: c in eff.ClausesFor(manage) && c.scope in chain)
    && forall g :: g in Resolve(env, role) && g.permission in env.cat ==>
         && (env.cat[g.permission].system ==> exists c :: c in eff.ClausesFor(g.permission) && c.scope in chain)
         && (env.cat[g.permission].organizationOnly ==>
               scope.level == env.h.levels[0] && exists c :: c in eff.ClausesFor(manage) && c.scope.level == env.h.levels[0])
  }

  lemma CanBindIff(env: Env, eff: Effective, role: Role, scope: Scope, manage: string)
    requires ValidEnv(env)
    ensures CanBind(env, eff, role, scope, manage) <==>
            ValidRole(env, role) && exists chain :: IsChain(env.h, env.resolver, scope, chain) && MayGiveOn(env, eff, role, scope, chain, manage)
  {
    if CanBind(env, eff, role, scope, manage) {
      var chain := ChainOf(env.h, env.resolver, scope, []).scopes;
      ChainIff(env.h, env.resolver, scope, chain);
      assert MayGiveOn(env, eff, role, scope, chain, manage);
    }
    if ValidRole(env, role) {
      if chain :| IsChain(env.h, env.resolver, scope, chain) && MayGiveOn(env, eff, role, scope, chain, manage) {
        ChainIff(env.h, env.resolver, scope, chain);
      }
    }
  }

  // CanBind passes exactly for a valid role and a place with a chain when the actor manages
  // bindings at a place on it, holds every System permission of the role at one too, and the
  // role's organization-only permissions are bound at the root by one who manages it.
  method CheckCanBind(env: Env, eff: Effective, role: Role, scope: Scope, manageBindings: string) returns (ok: bool)
    requires ValidEnv(env)
    ensures ok <==> CanBind(env, eff, role, scope, manageBindings)
    ensures ok <==> ValidRole(env, role) && exists chain :: IsChain(env.h, env.resolver, scope, chain) && MayGiveOn(env, eff, role, scope, chain, manageBindings)
  {
    ok := Binds(env, eff, role, scope, manageBindings);
    CanBindIff(env, eff, role, scope, manageBindings);
  }

  // Its checks in their order.
  method Binds(env: Env, eff: Effective, role: Role, scope: Scope, manageBindings: string) returns (ok: bool)
    requires ValidEnv(env)
    ensures ok <==> CanBind(env, eff, role, scope, manageBindings)
  {
    var problems := ValidateRole(env, role);
    if problems != [] {
      return false;
    }
    var chain := ResolveChain(env.h, env.resolver, scope, []);
    if !chain.Chain? {
      return false;
    }
    var gs := Resolve(env, role);
    if !IsRoot(env.h, scope) {
      var none := NoneOrganizationOnly(env, gs);
      if !none {
        return false;
      }
    }
    var manages := CheckHoldsWithin(eff, manageBindings, (s: Scope) => s in chain.scopes);
    if !manages {
      return false;
    }
    var atRoot := CheckHoldsWithin(eff, manageBindings, (s: Scope) => s.level == env.h.levels[0]);
    assert atRoot <==> HoldsAtRoot(env, eff, manageBindings);
    ok := MayGiveAll(env, eff, gs, chain.scopes, atRoot);
  }

  // The lock-out check ---------------------------------------------------------------

  // The bindings that remain when one is dropped (0 drops none).
  function Without(bs: seq<Binding>, drop: int): seq<Binding> {
    if bs == [] then []
    else
      var before := Without(bs[..|bs| - 1], drop);
      if bs[|bs| - 1].id != drop || drop == 0 then before + [bs[|bs| - 1]] else before
  }

  lemma {:induction false} WithoutMembers(bs: seq<Binding>, drop: int, b: Binding)
    ensures b in Without(bs, drop) <==> b in bs && (b.id != drop || drop == 0)
  {
    if bs != [] {
      WithoutMembers(bs[..|bs| - 1], drop, b);
      assert bs == bs[..|bs| - 1] + [bs[|bs| - 1]];
    }
  }

  lemma {:induction false} WithoutNone(bs: seq<Binding>)
    ensures Without(bs, 0) == bs
  {
    if bs != [] {
      WithoutNone(bs[..|bs| - 1]);
    }
  }

  // Role lookup with one custom role replaced.
  function Overriding(lookup: Lookup, override: Option<Role>): Lookup {
    (ref: RoleRef) => if override.Some? && ref.id > 0 && ref.id == override.value.id then override else lookup(ref)
  }

  // keepsAccess: the changed bindings and roles still give every protected
  // permission held before.
  predicate KeepsAccess(env: Env, before: Effective, bs: seq<Binding>, lookup: Lookup, protected: seq<string>, drop: int, override: Option<Role>)
    requires env.h.levels != [] && Distinct(env.h.levels)
  {
    forall p :: p in protected && before.Holds(p) ==> Build(env, Without(bs, drop), Overriding(lookup, override)).Holds(p)
  }

  // The replaced role stands in for the one of its id, and for no other.
  lemma OverridingFinds(lookup: Lookup, override: Option<Role>, ref: RoleRef)
    ensures Overriding(lookup, override)(ref) == if override.Some? && ref.id > 0 && ref.id == override.value.id then override else lookup(ref)
  {
  }

  // A binding that is kept still gives the permission.
  ghost predicate StillGiven(env: Env, bs: seq<Binding>, lookup: Lookup, drop: int, permission: string)
    requires ValidEnv(env)
  {
    exists b, c :: b in bs && (b.id != drop || drop == 0) && Gives(env, lookup, b, permission, c)
  }

  lemma HoldsIffGiven(env: Env, bs: seq<Binding>, lookup: Lookup, drop: int, permission: string)
    requires ValidEnv(env)
    ensures Build(env, Without(bs, drop), lookup).Holds(permission) <==> StillGiven(env, bs, lookup, drop, permission)
  {
    var kept := Without(bs, drop);
    var eff := Build(env, kept, lookup);
    HoldsIsHeld(eff, permission);
    if c :| Held(eff.grants, permission, c) {
      BuildClauses(env, kept, lookup, permission, c);
      var b :| b in kept && Gives(env, lookup, b, permission, c);
      WithoutMembers(bs, drop, b);
    }
    if b, c :| b in bs && (b.id != drop || drop == 0) && Gives(env, lookup, b, permission, c) {
      WithoutMembers(bs, drop, b);
      BuildClauses(env, kept, lookup, permission, c);
    }
  }

  // keepsAccess passes exactly when every protected permission held before is still given
  // by a binding that is kept, with the replaced role in place.
  method CheckKeepsAccess(env: Env, before: Effective, bs: seq<Binding>, lookup: Lookup, protected: seq<string>, drop: int, override: Option<Role>)
    returns (ok: bool)
    requires ValidEnv(env)
    ensures ok <==> KeepsAccess(env, before, bs, lookup, protected, drop, override)
    ensures ok <==> forall p :: p in protected && before.ClausesFor(p) != [] ==>
                      exists b, c :: b in bs && (b.id != drop || drop == 0) && Gives(env, Overriding(lookup, override), b, p, c)
  {
    forall p ensures Build(env, Without(bs, drop), Overriding(lookup, override)).Holds(p) <==>
                     exists b, c :: b in bs && (b.id != drop || drop == 0) && Gives(env, Overriding(lookup, override), b, p, c)
    {
      HoldsIffGiven(env, bs, Overriding(lookup, override), drop, p);
    }
    ok := Keeps(env, before, bs, lookup, protected, drop, override);
  }

  method Keeps(env: Env, before: Effective, bs: seq<Binding>, lookup: Lookup, protected: seq<string>, drop: int, override: Option<Role>)
    returns (ok: bool)
    requires ValidEnv(env)
    ensures ok <==> KeepsAccess(env, before, bs, lookup, protected, drop, override)
  {
    if protected == [] {
      return true;
    }
    var kept := [];
    for i := 0 to |bs|
      invariant kept == Without(bs[..i], drop)
    {
      assert bs[..i + 1][..i] == bs[..i];
      if bs[i].id != drop || drop == 0 {
        kept := kept + [bs[i]];
      }
    }
    assert bs[..|bs|] == bs;
    var after := BuildEffective(env, kept, Overriding(lookup, override));
    for i := 0 to |protected|
      invariant forall p :: p in protected[..i] && before.Holds(p) ==> after.Holds(p)
    {
      assert protected[..i + 1] == protected[..i] + [protected[i]];
      if before.Holds(protected[i]) && !after.Holds(protected[i]) {
        assert protected[i] in protected;
        return false;
      }
    }
    assert protected[..|protected|] == protected;
    return true;
  }
}
