// What each administration call asks and what it changes, told of the bindings and
// roles a store holds (authz/admin.go, authz/delegation.go).
module AdminLaws {
  import opened Wrappers
  import opened Scopes
  import opened Clauses
  import opened Engine
  import opened Access
  import opened Delegation
  import opened Admin

  // What changes -------------------------------------------------------------------------

  // After a binding is removed, a subject holds a clause exactly when a binding of
  // another id gave it.
  lemma UnbindIff(env: Env, st: Store, id: int, s: Subject, permission: string, c: Clause)
    requires ValidEnv(env)
    ensures HoldsClause(env, After(st, Unbind(id)), s, permission, c) <==>
            exists k :: k in st.bindings && k != id && st.bindings[k].subject == s &&
                        Gives(env, LookupIn(env, st.roles), st.bindings[k], permission, c)
  {
    var st' := After(st, Unbind(id));
    if HoldsClause(env, st', s, permission, c) {
      var k :| k in st'.bindings && st'.bindings[k].subject == s && Gives(env, LookupIn(env, st'.roles), st'.bindings[k], permission, c);
      assert k in st.bindings && k != id;
    }
    if k :| k in st.bindings && k != id && st.bindings[k].subject == s &&
            Gives(env, LookupIn(env, st.roles), st.bindings[k], permission, c) {
      assert k in st'.bindings && st'.bindings[k] == st.bindings[k];
    }
  }

  // A new binding gives its subject what it gives, and nobody anything else.
  lemma BindIff(env: Env, st: Store, b: Binding, newId: int, s: Subject, permission: string, c: Clause)
    requires ValidEnv(env) && newId !in st.bindings
    ensures HoldsClause(env, After(st, Bind(b, newId)), s, permission, c) <==>
            HoldsClause(env, st, s, permission, c) ||
            (s == b.subject && Gives(env, LookupIn(env, st.roles), b.(id := newId), permission, c))
  {
    var st' := After(st, Bind(b, newId));
    if HoldsClause(env, st', s, permission, c) {
      var k :| k in st'.bindings && st'.bindings[k].subject == s && Gives(env, LookupIn(env, st'.roles), st'.bindings[k], permission, c);
      assert k != newId ==> k in st.bindings && st'.bindings[k] == st.bindings[k];
    }
    if HoldsClause(env, st, s, permission, c) {
      var k :| k in st.bindings && st.bindings[k].subject == s && Gives(env, LookupIn(env, st.roles), st.bindings[k], permission, c);
      assert k in st'.bindings && st'.bindings[k] == st.bindings[k];
    }
    if s == b.subject && Gives(env, LookupIn(env, st.roles), b.(id := newId), permission, c) {
      assert newId in st'.bindings && st'.bindings[newId].subject == s;
    }
  }

  // Removing a role no binding refers to changes nobody's access.
  lemma DeleteIff(env: Env, st: Store, id: int, s: Subject, permission: string, c: Clause)
    requires ValidEnv(env) && forall k :: k in st.bindings ==> st.bindings[k].role != RoleRef(id, "")
    ensures HoldsClause(env, After(st, DeleteRole(id)), s, permission, c) <==> HoldsClause(env, st, s, permission, c)
  {
    var st' := After(st, DeleteRole(id));
    var l, l' := LookupIn(env, st.roles), LookupIn(env, st'.roles);
    assert st'.bindings == st.bindings;
    forall k | k in st.bindings ensures Gives(env, l, st.bindings[k], permission, c) <==> Gives(env, l', st.bindings[k], permission, c) {
      assert l(st.bindings[k].role) == l'(st.bindings[k].role);
      GivesIsLocal(env, l, l', st.bindings[k], permission, c);
    }
  }

  // The role as it is kept: without a key, under its id or the one it is given.
  ghost predicate IsKept(role: Role, newId: int, saved: Role) {
    && saved.id == (if role.id > 0 then role.id else newId)
    && saved.key == "" && saved.name == role.name
    && saved.grants == role.grants && saved.attrs == role.attrs && saved.computed == role.computed
  }

  // After a role is saved, a binding that refers to it gives what the saved role gives,
  // and every other binding what it gave.
  lemma SaveIff(env: Env, st: Store, role: Role, newId: int, saved: Role, s: Subject, permission: string, c: Clause)
    requires ValidEnv(env) && IsKept(role, newId, saved)
    ensures HoldsClause(env, After(st, SaveRole(role, newId)), s, permission, c) <==>
            exists k :: k in st.bindings && st.bindings[k].subject == s &&
                        if st.bindings[k].role == RoleRef(saved.id, "") then Gives(env, _ => Some(saved), st.bindings[k], permission, c)
                        else Gives(env, LookupIn(env, st.roles), st.bindings[k], permission, c)
  {
    var st' := After(st, SaveRole(role, newId));
    var l, l' := LookupIn(env, st.roles), LookupIn(env, st'.roles);
    assert st'.bindings == st.bindings && l'(RoleRef(saved.id, "")) == Some(saved);
    forall k | k in st.bindings
      ensures Gives(env, l', st.bindings[k], permission, c) <==>
              if st.bindings[k].role == RoleRef(saved.id, "") then Gives(env, _ => Some(saved), st.bindings[k], permission, c)
              else Gives(env, l, st.bindings[k], permission, c)
    {
      if st.bindings[k].role == RoleRef(saved.id, "") {
        GivesIsLocal(env, l', _ => Some(saved), st.bindings[k], permission, c);
      } else {
        GivesIsLocal(env, l', l, st.bindings[k], permission, c);
      }
    }
  }

  // Nobody else's access changes with a binding.
  lemma OthersKeepClauses(env: Env, st: Store, op: Op, s: Subject, permission: string, c: Clause)
    requires ValidEnv(env)
    requires || (op.Bind? && op.newBinding !in st.bindings && s != op.binding.subject)
             || (op.Unbind? && op.bindingId in st.bindings && s != st.bindings[op.bindingId].subject)
    ensures HoldsClause(env, After(st, op), s, permission, c) <==> HoldsClause(env, st, s, permission, c)
  {
    if op.Bind? {
      BindIff(env, st, op.binding, op.newBinding, s, permission, c);
    } else {
      UnbindIff(env, st, op.bindingId, s, permission, c);
    }
  }

  // No call locks its actor out ---------------------------------------------------------

  // The bindings that stay are the actor's bindings after the removal.
  lemma KeptAreListed(st: Store, s: Subject, bs: seq<Binding>, id: int)
    requires ValidStore(st) && Lists(st, s, bs) && id in st.bindings
    ensures Lists(After(st, Unbind(id)), s, Without(bs, id))
  {
    forall b ensures b in Without(bs, id) <==>
                     b.subject == s && b.id in st.bindings - {id} && (st.bindings - {id})[b.id] == b
    {
      WithoutMembers(bs, id, b);
    }
  }

  lemma HoldsIsPermission(env: Env, st: Store, s: Subject, bs: seq<Binding>, permission: string)
    requires ValidEnv(env) && ValidStore(st) && Lists(st, s, bs)
    ensures Build(env, bs, LookupIn(env, st.roles)).Holds(permission) <==> HoldsPermission(env, st, s, permission)
  {
    var eff := Build(env, bs, LookupIn(env, st.roles));
    HoldsIsHeld(eff, permission);
    if c :| Held(eff.grants, permission, c) {
      EffectiveIsHeld(env, st, s, bs, permission, c);
    }
    if c :| HoldsClause(env, st, s, permission, c) {
      EffectiveIsHeld(env, st, s, bs, permission, c);
    }
  }

  lemma OwnUnbindKeeps(env: Env, cfg: Config, gate: Gate, st: Store, actor: Principal, bs: seq<Binding>, id: int, permission: string)
    requires ValidEnv(env) && ValidStore(st) && Lists(st, actor.subject, bs) && Allowed(env, cfg, gate, st, actor, bs, Unbind(id))
    requires st.bindings[id].subject == actor.subject
    requires permission in cfg.protected && HoldsPermission(env, st, actor.subject, permission)
    ensures HoldsPermission(env, After(st, Unbind(id)), actor.subject, permission)
  {
    var lookup := LookupIn(env, st.roles);
    HoldsIsPermission(env, st, actor.subject, bs, permission);
    KeptAreListed(st, actor.subject, bs, id);
    BuildIsLocal(env, Without(bs, id), lookup, Overriding(lookup, None));
    OpKeepsValid(env, cfg, gate, st, actor, bs, Unbind(id));
    HoldsIsPermission(env, After(st, Unbind(id)), actor.subject, Without(bs, id), permission);
  }

  lemma OwnSaveKeeps(env: Env, cfg: Config, gate: Gate, st: Store, actor: Principal, bs: seq<Binding>, op: Op, permission: string)
    requires ValidEnv(env) && ValidStore(st) && Lists(st, actor.subject, bs) && op.SaveRole? && op.role.id > 0
    requires Allowed(env, cfg, gate, st, actor, bs, op)
    requires permission in cfg.protected && HoldsPermission(env, st, actor.subject, permission)
    ensures HoldsPermission(env, After(st, op), actor.subject, permission)
  {
    var st' := After(st, op);
    var lookup := LookupIn(env, st.roles);
    var changed := Overriding(lookup, Some(op.role.(key := "")));
    HoldsIsPermission(env, st, actor.subject, bs, permission);
    WithoutNone(bs);
    assert Lists(st', actor.subject, bs);
    BuildIsLocal(env, bs, changed, LookupIn(env, st'.roles));
    OpKeepsValid(env, cfg, gate, st, actor, bs, op);
    HoldsIsPermission(env, st', actor.subject, bs, permission);
  }

  // A new role is referred to by no binding that gives anything.
  lemma CreatedRoleIsUnused(env: Env, st: Store, op: Op, s: Subject, permission: string, c: Clause)
    requires ValidEnv(env) && op.SaveRole? && op.role.id == 0 && op.newRole !in st.roles && HoldsClause(env, st, s, permission, c)
    ensures HoldsClause(env, After(st, op), s, permission, c)
  {
    var l, l' := LookupIn(env, st.roles), LookupIn(env, After(st, op).roles);
    var k :| k in st.bindings && st.bindings[k].subject == s && Gives(env, l, st.bindings[k], permission, c);
    var g: Grant :| g.permission == permission && Yields(env, l, st.bindings[k], g, c);
    GivesIsLocal(env, l, l', st.bindings[k], permission, c);
  }

  // Nobody loses a protected permission by their own hand, whatever the call.
  lemma ProtectedIsKept(env: Env, cfg: Config, gate: Gate, st: Store, actor: Principal, bs: seq<Binding>, op: Op, permission: string)
    requires ValidEnv(env) && ValidStore(st) && Lists(st, actor.subject, bs) && Allowed(env, cfg, gate, st, actor, bs, op)
    requires permission in cfg.protected && HoldsPermission(env, st, actor.subject, permission)
    ensures HoldsPermission(env, After(st, op), actor.subject, permission)
  {
    var c :| HoldsClause(env, st, actor.subject, permission, c);
    match op
    case SaveRole(role, _) =>
      if role.id > 0 {
        OwnSaveKeeps(env, cfg, gate, st, actor, bs, op, permission);
      } else {
        CreatedRoleIsUnused(env, st, op, actor.subject, permission, c);
      }
    case DeleteRole(id) => DeleteIff(env, st, id, actor.subject, permission, c);
    case Bind(b, newId) => BindIff(env, st, b, newId, actor.subject, permission, c);
    case Unbind(id) =>
      if st.bindings[id].subject == actor.subject {
        OwnUnbindKeeps(env, cfg, gate, st, actor, bs, id, permission);
      } else {
        OthersKeepClauses(env, st, op, actor.subject, permission, c);
      }
  }

  lemma OwnStepKeepsProtected(env: Env, cfg: Config, before: Store, after: Store, step: Admin.Step, permission: string)
    requires ValidEnv(env) && ValidStore(before) && Lists(before, step.actor.subject, step.bs)
    requires Allowed(env, cfg, step.gate, before, step.actor, step.bs, step.op) && after == After(before, step.op)
    requires permission in cfg.protected && HoldsPermission(env, before, step.actor.subject, permission)
    ensures HoldsPermission(env, after, step.actor.subject, permission)
  {
    ProtectedIsKept(env, cfg, step.gate, before, step.actor, step.bs, step.op, permission);
  }

  // And not by any sequence of their own calls.
  lemma {:induction false} OwnHistoryKeepsProtected(env: Env, cfg: Config, sts: seq<Store>, steps: seq<Admin.Step>, s: Subject, i: nat,
                                                    permission: string)
    requires ValidEnv(env) && IsHistory(env, cfg, sts, steps) && i < |sts|
    requires forall j :: 0 <= j < i ==> steps[j].actor.subject == s
    requires permission in cfg.protected && HoldsPermission(env, sts[0], s, permission)
    ensures HoldsPermission(env, sts[i], s, permission)
  {
    if i > 0 {
      var before, step := sts[i - 1], steps[i - 1];
      assert step.actor.subject == s;
      OwnHistoryKeepsProtected(env, cfg, sts, steps, s, i - 1, permission);
      assert sts[i] == After(before, step.op) && ValidStore(before) && Lists(before, s, step.bs) &&
             Allowed(env, cfg, step.gate, before, step.actor, step.bs, step.op) by {
        HistoryStep(env, cfg, sts, steps, i - 1);
      }
      OwnStepKeepsProtected(env, cfg, before, sts[i], step, permission);
    }
  }

  // What is asked --------------------------------------------------------------------------

  // Saving or deleting a role takes holding the permission for it, somewhere.
  lemma RolesAreManaged(env: Env, cfg: Config, gate: Gate, st: Store, actor: Principal, bs: seq<Binding>, op: Op)
    requires ValidEnv(env) && ValidStore(st) && Lists(st, actor.subject, bs)
    requires (op.SaveRole? || op.DeleteRole?) && Allowed(env, cfg, gate, st, actor, bs, op)
    ensures HoldsPermission(env, st, actor.subject, cfg.manageRoles)
  {
    var eff := Build(env, bs, LookupIn(env, st.roles));
    var c :| c in eff.ClausesFor(cfg.manageRoles);
    EffectiveIsHeld(env, st, actor.subject, bs, cfg.manageRoles, c);
  }

  // A binding's role may be given or taken by this subject at this place: the subject
  // manages bindings at a place containing it and holds there every System permission
  // of the role, and organization-only ones are for the root and who manages it.
  ghost predicate MayHandOver(env: Env, st: Store, s: Subject, manage: string, role: Role, chain: seq<Scope>)
    requires ValidEnv(env)
  {
    && ValidRole(env, role)
    && (exists c :: HoldsClause(env, st, s, manage, c) && c.scope in chain)
    && forall g :: g in Resolve(env, role) && g.permission in env.cat ==> MayHandOverGrant(env, st, s, manage, g, chain)
  }

  ghost predicate MayHandOverGrant(env: Env, st: Store, s: Subject, manage: string, g: Grant, chain: seq<Scope>)
    requires ValidEnv(env) && g.permission in env.cat
  {
    && (env.cat[g.permission].system ==> exists c :: HoldsClause(env, st, s, g.permission, c) && c.scope in chain)
    && (env.cat[g.permission].organizationOnly ==>
          |chain| == 1 && exists c :: HoldsClause(env, st, s, manage, c) && c.scope.level == env.h.levels[0])
  }

  lemma HoldsWithinIff(env: Env, st: Store, s: Subject, bs: seq<Binding>, permission: string, chain: seq<Scope>)
    requires ValidEnv(env) && ValidStore(st) && Lists(st, s, bs)
    ensures (exists c :: c in Build(env, bs, LookupIn(env, st.roles)).ClausesFor(permission) && c.scope in chain) <==>
            (exists c :: HoldsClause(env, st, s, permission, c) && c.scope in chain)
  {
    var eff := Build(env, bs, LookupIn(env, st.roles));
    if c :| c in eff.ClausesFor(permission) && c.scope in chain {
      EffectiveIsHeld(env, st, s, bs, permission, c);
    }
    if c :| HoldsClause(env, st, s, permission, c) && c.scope in chain {
      EffectiveIsHeld(env, st, s, bs, permission, c);
    }
  }

  lemma HoldsAtRootIff(env: Env, st: Store, s: Subject, bs: seq<Binding>, permission: string)
    requires ValidEnv(env) && ValidStore(st) && Lists(st, s, bs)
    ensures (exists c :: c in Build(env, bs, LookupIn(env, st.roles)).ClausesFor(permission) && c.scope.level == env.h.levels[0]) <==>
            (exists c :: HoldsClause(env, st, s, permission, c) && c.scope.level == env.h.levels[0])
  {
    var eff := Build(env, bs, LookupIn(env, st.roles));
    if c :| c in eff.ClausesFor(permission) && c.scope.level == env.h.levels[0] {
      EffectiveIsHeld(env, st, s, bs, permission, c);
    }
    if c :| HoldsClause(env, st, s, permission, c) && c.scope.level == env.h.levels[0] {
      EffectiveIsHeld(env, st, s, bs, permission, c);
    }
  }

  // A chain is as long as its place is deep.
  lemma RootIsAlone(env: Env, scope: Scope, chain: seq<Scope>)
    requires ValidEnv(env) && IsChain(env.h, env.resolver, scope, chain)
    ensures scope.level == env.h.levels[0] <==> |chain| == 1
  {
    assert chain[0].level == env.h.levels[|chain| - 1];
  }

  lemma GiveGrantIff(env: Env, st: Store, s: Subject, bs: seq<Binding>, manage: string, g: Grant, scope: Scope, chain: seq<Scope>)
    requires ValidEnv(env) && ValidStore(st) && Lists(st, s, bs) && IsChain(env.h, env.resolver, scope, chain) && g.permission in env.cat
    ensures MayHandOverGrant(env, st, s, manage, g, chain) <==>
            var eff := Build(env, bs, LookupIn(env, st.roles));
            && (env.cat[g.permission].system ==> exists c :: c in eff.ClausesFor(g.permission) && c.scope in chain)
            && (env.cat[g.permission].organizationOnly ==>
                  scope.level == env.h.levels[0] && exists c :: c in eff.ClausesFor(manage) && c.scope.level == env.h.levels[0])
  {
    HoldsAtRootIff(env, st, s, bs, manage);
    HoldsWithinIff(env, st, s, bs, g.permission, chain);
    RootIsAlone(env, scope, chain);
  }

  lemma GiveIff(env: Env, st: Store, s: Subject, bs: seq<Binding>, manage: string, role: Role, scope: Scope, chain: seq<Scope>)
    requires ValidEnv(env) && ValidStore(st) && Lists(st, s, bs) && IsChain(env.h, env.resolver, scope, chain)
    ensures ValidRole(env, role) && MayGiveOn(env, Build(env, bs, LookupIn(env, st.roles)), role, scope, chain, manage) <==>
            MayHandOver(env, st, s, manage, role, chain)
  {
    HoldsWithinIff(env, st, s, bs, manage, chain);
    GiveGrantsIff(env, st, s, bs, manage, Resolve(env, role), scope, chain);
  }

  lemma GiveGrantsIff(env: Env, st: Store, s: Subject, bs: seq<Binding>, manage: string, gs: seq<Grant>, scope: Scope, chain: seq<Scope>)
    requires ValidEnv(env) && ValidStore(st) && Lists(st, s, bs) && IsChain(env.h, env.resolver, scope, chain)
    ensures (forall g :: g in gs && g.permission in env.cat ==> MayHandOverGrant(env, st, s, manage, g, chain)) <==>
            var eff := Build(env, bs, LookupIn(env, st.roles));
            forall g :: g in gs && g.permission in env.cat ==>
              && (env.cat[g.permission].system ==> exists c :: c in eff.ClausesFor(g.permission) && c.scope in chain)
              && (env.cat[g.permission].organizationOnly ==>
                    scope.level == env.h.levels[0] && exists c :: c in eff.ClausesFor(manage) && c.scope.level == env.h.levels[0])
  {
    forall g | g in gs && g.permission in env.cat
      ensures MayHandOverGrant(env, st, s, manage, g, chain) <==>
              var eff := Build(env, bs, LookupIn(env, st.roles));
              && (env.cat[g.permission].system ==> exists c :: c in eff.ClausesFor(g.permission) && c.scope in chain)
              && (env.cat[g.permission].organizationOnly ==>
                    scope.level == env.h.levels[0] && exists c :: c in eff.ClausesFor(manage) && c.scope.level == env.h.levels[0])
    {
      GiveGrantIff(env, st, s, bs, manage, g, scope, chain);
    }
  }

  // CanBind over what the store holds.
  lemma CanBindIffHeld(env: Env, st: Store, s: Subject, bs: seq<Binding>, manage: string, role: Role, scope: Scope)
    requires ValidEnv(env) && ValidStore(st) && Lists(st, s, bs)
    ensures CanBind(env, Build(env, bs, LookupIn(env, st.roles)), role, scope, manage) <==>
            exists chain :: IsChain(env.h, env.resolver, scope, chain) && MayHandOver(env, st, s, manage, role, chain)
  {
    var eff := Build(env, bs, LookupIn(env, st.roles));
    CanBindIff(env, eff, role, scope, manage);
    if CanBind(env, eff, role, scope, manage) {
      var chain :| IsChain(env.h, env.resolver, scope, chain) && MayGiveOn(env, eff, role, scope, chain, manage);
      GiveIff(env, st, s, bs, manage, role, scope, chain);
    }
    if chain :| IsChain(env.h, env.resolver, scope, chain) && MayHandOver(env, st, s, manage, role, chain) {
      GiveIff(env, st, s, bs, manage, role, scope, chain);
    }
  }

  // Giving a role asks for the right to hand it over at its place, and no one gives
  // themselves one.
  lemma BindAsks(env: Env, cfg: Config, gate: Gate, st: Store, actor: Principal, bs: seq<Binding>, b: Binding, newId: int)
    requires ValidEnv(env) && ValidStore(st) && Lists(st, actor.subject, bs) && Allowed(env, cfg, gate, st, actor, bs, Bind(b, newId))
    ensures b.subject != actor.subject
    ensures exists role, chain :: && LookupIn(env, st.roles)(b.role) == Some(role) && IsChain(env.h, env.resolver, b.scope, chain)
                                  && MayHandOver(env, st, actor.subject, cfg.manageBindings, role, chain)
  {
    var role := LookupIn(env, st.roles)(b.role).value;
    CanBindIffHeld(env, st, actor.subject, bs, cfg.manageBindings, role, b.scope);
  }

  // Taking one away asks for as much while the role exists.
  lemma UnbindAsks(env: Env, cfg: Config, gate: Gate, st: Store, actor: Principal, bs: seq<Binding>, id: int, role: Role)
    requires ValidEnv(env) && ValidStore(st) && Lists(st, actor.subject, bs) && Allowed(env, cfg, gate, st, actor, bs, Unbind(id))
    requires LookupIn(env, st.roles)(st.bindings[id].role) == Some(role)
    ensures exists chain :: && IsChain(env.h, env.resolver, st.bindings[id].scope, chain)
                            && MayHandOver(env, st, actor.subject, cfg.manageBindings, role, chain)
  {
    CanBindIffHeld(env, st, actor.subject, bs, cfg.manageBindings, role, st.bindings[id].scope);
  }

  // What is enough -------------------------------------------------------------------------

  // Held for the whole organization, without restriction.
  ghost predicate HoldsAtTop(env: Env, st: Store, s: Subject, permission: string)
    requires ValidEnv(env)
  {
    exists c :: HoldsClause(env, st, s, permission, c) && c.scope == Scope(env.h.levels[0], 0) && c.qualifier == All && c.attrs == map[]
  }

  lemma TopManages(env: Env, gate: Gate, st: Store, actor: Principal, bs: seq<Binding>, permission: string, scope: Scope)
    requires ValidEnv(env) && ValidStore(st) && Lists(st, actor.subject, bs)
    requires permission in env.cat && env.cat[permission].feature == "" && HoldsAtTop(env, st, actor.subject, permission)
    ensures MayManageAt(env, gate, actor, Build(env, bs, LookupIn(env, st.roles)), permission, scope)
    ensures Require(env, gate, Build(env, bs, LookupIn(env, st.roles)), permission)
  {
    var c :| HoldsClause(env, st, actor.subject, permission, c) && c.scope == Scope(env.h.levels[0], 0) && c.qualifier == All && c.attrs == map[];
    EffectiveIsHeld(env, st, actor.subject, bs, permission, c);
    PassesAtRoot(env, gate, actor, env.cat[permission], Resource(scope, [], 0, 0, 0, map[]), c);
  }

  lemma TopIsWithin(env: Env, st: Store, s: Subject, permission: string, scope: Scope, chain: seq<Scope>)
    requires ValidEnv(env) && IsChain(env.h, env.resolver, scope, chain) && HoldsAtTop(env, st, s, permission)
    ensures exists c :: HoldsClause(env, st, s, permission, c) && c.scope in chain
    ensures exists c :: HoldsClause(env, st, s, permission, c) && c.scope.level == env.h.levels[0]
  {
    assert chain[|chain| - 1] == Scope(env.h.levels[0], 0);
  }

  // Who manages bindings and holds every System permission for the whole organization may
  // bind any valid role anywhere its permissions may be bound, to anyone else.
  lemma TopMayBind(env: Env, cfg: Config, gate: Gate, st: Store, actor: Principal, bs: seq<Binding>, b: Binding, newId: int,
                   role: Role, chain: seq<Scope>)
    requires ValidEnv(env) && ValidStore(st) && Lists(st, actor.subject, bs) && actor.subject.Valid()
    requires cfg.manageBindings in env.cat && env.cat[cfg.manageBindings].feature == "" && HoldsAtTop(env, st, actor.subject, cfg.manageBindings)
    requires forall p :: p in env.cat && env.cat[p].system ==> HoldsAtTop(env, st, actor.subject, p)
    requires b.subject.Valid() && b.role.Valid() && b.subject != actor.subject && newId > 0 && newId !in st.bindings
    requires forall k :: k in st.bindings ==>
               st.bindings[k].subject != b.subject || st.bindings[k].role != b.role || st.bindings[k].scope != b.scope
    requires LookupIn(env, st.roles)(b.role) == Some(role) && ValidRole(env, role) && IsChain(env.h, env.resolver, b.scope, chain)
    requires forall g :: g in Resolve(env, role) && g.permission in env.cat && env.cat[g.permission].organizationOnly ==> |chain| == 1
    ensures Allowed(env, cfg, gate, st, actor, bs, Bind(b, newId))
  {
    CheckIff(env.h, b.scope);
    ChainLevel(env, b.scope, chain);
    TopManages(env, gate, st, actor, bs, cfg.manageBindings, b.scope);
    TopCanBind(env, cfg, st, actor.subject, bs, role, b.scope, chain);
  }

  lemma ChainLevel(env: Env, scope: Scope, chain: seq<Scope>)
    requires ValidEnv(env) && IsChain(env.h, env.resolver, scope, chain)
    ensures Check(env.h, scope)
  {
    CheckIff(env.h, scope);
    RootIsAlone(env, scope, chain);
    assert chain[0].level == env.h.levels[|chain| - 1];
  }

  lemma TopHandsOver(env: Env, cfg: Config, st: Store, s: Subject, role: Role, scope: Scope, chain: seq<Scope>)
    requires ValidEnv(env) && HoldsAtTop(env, st, s, cfg.manageBindings) && ValidRole(env, role)
    requires forall p :: p in env.cat && env.cat[p].system ==> HoldsAtTop(env, st, s, p)
    requires IsChain(env.h, env.resolver, scope, chain)
    requires forall g :: g in Resolve(env, role) && g.permission in env.cat && env.cat[g.permission].organizationOnly ==> |chain| == 1
    ensures MayHandOver(env, st, s, cfg.manageBindings, role, chain)
  {
    TopIsWithin(env, st, s, cfg.manageBindings, scope, chain);
    forall g | g in Resolve(env, role) && g.permission in env.cat
      ensures MayHandOverGrant(env, st, s, cfg.manageBindings, g, chain)
    {
      if env.cat[g.permission].system {
        TopIsWithin(env, st, s, g.permission, scope, chain);
      }
    }
  }

  lemma TopCanBind(env: Env, cfg: Config, st: Store, s: Subject, bs: seq<Binding>, role: Role, scope: Scope, chain: seq<Scope>)
    requires ValidEnv(env) && ValidStore(st) && Lists(st, s, bs) && HoldsAtTop(env, st, s, cfg.manageBindings) && ValidRole(env, role)
    requires forall p :: p in env.cat && env.cat[p].system ==> HoldsAtTop(env, st, s, p)
    requires IsChain(env.h, env.resolver, scope, chain)
    requires forall g :: g in Resolve(env, role) && g.permission in env.cat && env.cat[g.permission].organizationOnly ==> |chain| == 1
    ensures CanBind(env, Build(env, bs, LookupIn(env, st.roles)), role, scope, cfg.manageBindings)
  {
    TopHandsOver(env, cfg, st, s, role, scope, chain);
    CanBindIffHeld(env, st, s, bs, cfg.manageBindings, role, scope);
  }

  // They may take away any binding that gives a valid role at a known place, as long as
  // they keep the protected permissions they hold.
  lemma TopMayUnbind(env: Env, cfg: Config, gate: Gate, st: Store, actor: Principal, bs: seq<Binding>, id: int, role: Role, chain: seq<Scope>)
    requires ValidEnv(env) && ValidStore(st) && Lists(st, actor.subject, bs) && actor.subject.Valid() && id in st.bindings
    requires cfg.manageBindings in env.cat && env.cat[cfg.manageBindings].feature == "" && HoldsAtTop(env, st, actor.subject, cfg.manageBindings)
    requires forall p :: p in env.cat && env.cat[p].system ==> HoldsAtTop(env, st, actor.subject, p)
    requires LookupIn(env, st.roles)(st.bindings[id].role) == Some(role) && ValidRole(env, role)
    requires IsChain(env.h, env.resolver, st.bindings[id].scope, chain)
    requires forall g :: g in Resolve(env, role) && g.permission in env.cat && env.cat[g.permission].organizationOnly ==> |chain| == 1
    ensures Allowed(env, cfg, gate, st, actor, bs, Unbind(id)) <==>
            forall p :: p in cfg.protected && HoldsPermission(env, st, actor.subject, p) ==>
              HoldsPermission(env, After(st, Unbind(id)), actor.subject, p)
  {
    TopManages(env, gate, st, actor, bs, cfg.manageBindings, st.bindings[id].scope);
    TopCanBind(env, cfg, st, actor.subject, bs, role, st.bindings[id].scope, chain);
    if st.bindings[id].subject == actor.subject {
      KeepsIff(env, cfg, st, actor.subject, bs, id);
    } else {
      OthersKeepPermissions(env, st, id, actor.subject);
    }
  }

  lemma OthersKeepPermissions(env: Env, st: Store, id: int, s: Subject)
    requires ValidEnv(env) && id in st.bindings && st.bindings[id].subject != s
    ensures forall p :: HoldsPermission(env, st, s, p) ==> HoldsPermission(env, After(st, Unbind(id)), s, p)
  {
    forall p | HoldsPermission(env, st, s, p) ensures HoldsPermission(env, After(st, Unbind(id)), s, p) {
      var c :| HoldsClause(env, st, s, p, c);
      OthersKeepClauses(env, st, Unbind(id), s, p, c);
    }
  }

  // The lock-out check of a removal asks exactly that.
  lemma KeepsIff(env: Env, cfg: Config, st: Store, s: Subject, bs: seq<Binding>, id: int)
    requires ValidEnv(env) && ValidStore(st) && Lists(st, s, bs) && id in st.bindings
    ensures KeepsAccess(env, Build(env, bs, LookupIn(env, st.roles)), bs, LookupIn(env, st.roles), cfg.protected, id, None) <==>
            forall p :: p in cfg.protected && HoldsPermission(env, st, s, p) ==> HoldsPermission(env, After(st, Unbind(id)), s, p)
  {
    var lookup := LookupIn(env, st.roles);
    KeptAreListed(st, s, bs, id);
    BuildIsLocal(env, Without(bs, id), lookup, Overriding(lookup, None));
    forall p ensures Build(env, bs, lookup).Holds(p) <==> HoldsPermission(env, st, s, p) {
      HoldsIsPermission(env, st, s, bs, p);
    }
    forall p ensures Build(env, Without(bs, id), lookup).Holds(p) <==> HoldsPermission(env, After(st, Unbind(id)), s, p) {
      HoldsIsPermission(env, After(st, Unbind(id)), s, Without(bs, id), p);
    }
  }

  // They may delete exactly the stored roles that no binding refers to.
  lemma TopMayDelete(env: Env, cfg: Config, gate: Gate, st: Store, actor: Principal, bs: seq<Binding>, id: int)
    requires ValidEnv(env) && ValidStore(st) && Lists(st, actor.subject, bs) && actor.subject.Valid()
    requires cfg.manageRoles in env.cat && env.cat[cfg.manageRoles].feature == "" && HoldsAtTop(env, st, actor.subject, cfg.manageRoles)
    ensures Allowed(env, cfg, gate, st, actor, bs, DeleteRole(id)) <==>
            id in st.roles && forall k :: k in st.bindings ==> st.bindings[k].role != RoleRef(id, "")
  {
    TopManages(env, gate, st, actor, bs, cfg.manageRoles, Scope(env.h.levels[0], 0));
  }

  // And create any valid explicit role of permissions they hold without restriction.
  lemma TopMayCreate(env: Env, cfg: Config, gate: Gate, st: Store, actor: Principal, bs: seq<Binding>, role: Role, newId: int)
    requires ValidEnv(env) && ValidStore(st) && Lists(st, actor.subject, bs) && actor.subject.Valid()
    requires cfg.manageRoles in env.cat && env.cat[cfg.manageRoles].feature == "" && HoldsAtTop(env, st, actor.subject, cfg.manageRoles)
    requires role.id == 0 && role.key == "" && role.computed.None? && ValidRole(env, role) && newId > 0 && newId !in st.roles
    requires forall g :: g in role.grants ==> HoldsAtTop(env, st, actor.subject, g.permission)
    ensures Allowed(env, cfg, gate, st, actor, bs, SaveRole(role, newId))
  {
    var eff := Build(env, bs, LookupIn(env, st.roles));
    TopManages(env, gate, st, actor, bs, cfg.manageRoles, Scope(env.h.levels[0], 0));
    assert role.(key := "") == role && Resolve(env, role) == role.grants;
    forall g | g in role.grants ensures GrantOk(env, g) && HoldsGrant(env, eff, role, g) {
      var c :| HoldsClause(env, st, actor.subject, g.permission, c) && c.qualifier == All && c.attrs == map[];
      EffectiveIsHeld(env, st, actor.subject, bs, g.permission, c);
      assert c.qualifier.Covers(g.qualifier) && AttrsCover(c.attrs, AttrsFor(env.cat[g.permission], role.attrs));
    }
  }
}
