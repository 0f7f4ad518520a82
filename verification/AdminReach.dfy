// How far one's own administration calls can take oneself, scope included
// (authz/admin.go, authz/delegation.go): never further by Bind, Unbind or DeleteRole,
// and by SaveRole exactly when a binding of the saved role reaches beyond the places
// its grants are held at.
module AdminReach {
  import opened Wrappers
  import opened Scopes
  import opened Clauses
  import opened Engine
  import opened Access
  import opened Admin

  // The subject held a clause that covers this one: scope, qualifier and attributes.
  ghost predicate HeldCovering(env: Env, st: Store, s: Subject, permission: string, c: Clause)
    requires ValidEnv(env)
  {
    exists d :: HoldsClause(env, st, s, permission, d) && Covers(d, c)
  }

  // Whatever the subject holds in the second store is covered by what it held in the first.
  ghost predicate NoWider(env: Env, before: Store, after: Store, s: Subject)
    requires ValidEnv(env)
  {
    forall permission, c :: HoldsClause(env, after, s, permission, c) ==> HeldCovering(env, before, s, permission, c)
  }

  lemma HeldIsCoherent(env: Env, st: Store, s: Subject, permission: string, c: Clause)
    requires ValidEnv(env) && HoldsClause(env, st, s, permission, c)
    ensures Coherent(env.h, env.resolver, c)
  {
    var id :| id in st.bindings && st.bindings[id].subject == s && Gives(env, LookupIn(env, st.roles), st.bindings[id], permission, c);
    var g: Grant :| g.permission == permission && Yields(env, LookupIn(env, st.roles), st.bindings[id], g, c);
  }

  lemma HeldCoversItself(env: Env, st: Store, s: Subject, permission: string, c: Clause)
    requires ValidEnv(env) && HoldsClause(env, st, s, permission, c)
    ensures HeldCovering(env, st, s, permission, c)
  {
    HeldIsCoherent(env, st, s, permission, c);
    CoversReflexive(env.h, env.resolver, c);
  }

  // Bind, Unbind and DeleteRole ------------------------------------------------------------

  // A call that saves no role gives its own actor not one clause.
  lemma OwnCallAddsNoClause(env: Env, cfg: Config, gate: Gate, st: Store, actor: Principal, bs: seq<Binding>, op: Op,
                            permission: string, c: Clause)
    requires ValidEnv(env) && Allowed(env, cfg, gate, st, actor, bs, op) && !op.SaveRole?
    requires HoldsClause(env, After(st, op), actor.subject, permission, c)
    ensures HoldsClause(env, st, actor.subject, permission, c)
  {
    if op.Bind? {
      AfterBind(env, st, op, actor.subject, permission, c);
    } else {
      AfterRemoval(env, st, op, actor.subject, permission, c);
    }
  }

  lemma OwnCallReachesNoWider(env: Env, cfg: Config, gate: Gate, st: Store, actor: Principal, bs: seq<Binding>, op: Op)
    requires ValidEnv(env) && Allowed(env, cfg, gate, st, actor, bs, op) && !op.SaveRole?
    ensures NoWider(env, st, After(st, op), actor.subject)
  {
    forall permission, c | HoldsClause(env, After(st, op), actor.subject, permission, c)
      ensures HeldCovering(env, st, actor.subject, permission, c)
    {
      OwnCallAddsNoClause(env, cfg, gate, st, actor, bs, op, permission, c);
      HeldCoversItself(env, st, actor.subject, permission, c);
    }
  }

  // SaveRole ---------------------------------------------------------------------------------

  // The binding is one of the subject's to the role of that id.
  predicate BindsRole(st: Store, s: Subject, id: int, b: Binding) {
    b.subject == s && b.role == RoleRef(id, "") && b.id in st.bindings && st.bindings[b.id] == b
  }

  // The subject holds the grant at a place on the chain, as widely and as broadly.
  ghost predicate HoldsOnChain(env: Env, st: Store, s: Subject, role: Role, chain: seq<Scope>, g: Grant)
    requires ValidEnv(env) && g.permission in env.cat
  {
    exists d :: HoldsClause(env, st, s, g.permission, d) && d.scope in chain && d.qualifier.Covers(g.qualifier) &&
      AttrsCover(d.attrs, AttrsFor(env.cat[g.permission], role.attrs))
  }

  // The subject's binding to the role is at a place with that chain and admits the grant.
  predicate GrantsAt(env: Env, st: Store, s: Subject, role: Role, b: Binding, chain: seq<Scope>, g: Grant)
    requires env.h.levels != [] && Distinct(env.h.levels)
  {
    && BindsRole(st, s, role.id, b) && ChainOf(env.h, env.resolver, b.scope, []) == Chain(chain)
    && g in role.grants && Admits(env, b, g)
  }

  // Wherever the subject is bound to the role, it already holds each grant at a place
  // containing that one.
  ghost predicate WithinReach(env: Env, st: Store, s: Subject, role: Role)
    requires ValidEnv(env)
  {
    forall b, chain, g :: GrantsAt(env, st, s, role, b, chain, g) ==> HoldsOnChain(env, st, s, role, chain, g)
  }

  // Each such grant is a clause the subject holds once the role is saved.
  lemma SavedGrantIsHeld(env: Env, st: Store, op: Op, s: Subject, b: Binding, chain: seq<Scope>, g: Grant)
    requires ValidEnv(env) && op.SaveRole? && op.role.computed.None? && SavedRole(op.role, op.newRole).id > 0
    requires GrantsAt(env, st, s, SavedRole(op.role, op.newRole), b, chain, g)
    ensures HoldsClause(env, After(st, op), s, g.permission, ClauseOf(env, b, SavedRole(op.role, op.newRole), chain, g))
  {
    var role, st' := SavedRole(op.role, op.newRole), After(st, op);
    var c := ClauseOf(env, b, role, chain, g);
    assert LookupIn(env, st'.roles)(b.role) == Some(role);
    assert Yields(env, LookupIn(env, st'.roles), b, g, c);
    assert Gives(env, LookupIn(env, st'.roles), st'.bindings[b.id], g.permission, c);
  }

  lemma WiderIfBeyondReach(env: Env, st: Store, op: Op, s: Subject)
    requires ValidEnv(env) && op.SaveRole? && op.role.computed.None? && SavedRole(op.role, op.newRole).id > 0
    requires NoWider(env, st, After(st, op), s)
    ensures WithinReach(env, st, s, SavedRole(op.role, op.newRole))
  {
    var role := SavedRole(op.role, op.newRole);
    forall b, chain, g | GrantsAt(env, st, s, role, b, chain, g)
      ensures HoldsOnChain(env, st, s, role, chain, g)
    {
      SavedGrantIsHeld(env, st, op, s, b, chain, g);
      var d :| HoldsClause(env, st, s, g.permission, d) && Covers(d, ClauseOf(env, b, role, chain, g));
    }
  }

  // A clause held after the save is one held before, or comes from a binding of the
  // saved role and one of its grants.
  lemma SavedClauseComesFrom(env: Env, st: Store, op: Op, s: Subject, permission: string, c: Clause)
    returns (b: Binding, g: Grant)
    requires ValidEnv(env) && ValidStore(st) && op.SaveRole? && op.role.computed.None? && SavedRole(op.role, op.newRole).id > 0
    requires HoldsClause(env, After(st, op), s, permission, c) && !HoldsClause(env, st, s, permission, c)
    ensures GrantsAt(env, st, s, SavedRole(op.role, op.newRole), b, c.chain, g) && g.permission == permission
    ensures c == ClauseOf(env, b, SavedRole(op.role, op.newRole), c.chain, g)
  {
    var st' := After(st, op);
    var l, l' := LookupIn(env, st.roles), LookupIn(env, st'.roles);
    var id :| id in st'.bindings && st'.bindings[id].subject == s && Gives(env, l', st'.bindings[id], permission, c);
    b := st.bindings[id];
    g :| g.permission == permission && Yields(env, l', b, g, c);
    if l(b.role) == l'(b.role) {
      GivesIsLocal(env, l, l', b, permission, c);
    }
  }

  lemma NoWiderWithinReach(env: Env, st: Store, op: Op, s: Subject)
    requires ValidEnv(env) && ValidStore(st) && op.SaveRole? && op.role.computed.None? && SavedRole(op.role, op.newRole).id > 0
    requires WithinReach(env, st, s, SavedRole(op.role, op.newRole))
    ensures NoWider(env, st, After(st, op), s)
  {
    var role := SavedRole(op.role, op.newRole);
    forall permission, c | HoldsClause(env, After(st, op), s, permission, c) ensures HeldCovering(env, st, s, permission, c) {
      if HoldsClause(env, st, s, permission, c) {
        HeldCoversItself(env, st, s, permission, c);
      } else {
        var b, g := SavedClauseComesFrom(env, st, op, s, permission, c);
        assert HoldsOnChain(env, st, s, role, c.chain, g);
        var d :| HoldsClause(env, st, s, permission, d) && d.scope in c.chain && d.qualifier.Covers(g.qualifier) &&
                 AttrsCover(d.attrs, AttrsFor(env.cat[permission], role.attrs));
        assert Covers(d, c);
      }
    }
  }

  // An allowed SaveRole leaves everything its actor holds covered by what the actor
  // held, scope included, if and only if the actor already held each grant of the role
  // at a place containing each of the actor's own bindings to it.
  lemma OwnSaveIff(env: Env, cfg: Config, gate: Gate, st: Store, actor: Principal, bs: seq<Binding>, op: Op)
    requires ValidEnv(env) && ValidStore(st) && Allowed(env, cfg, gate, st, actor, bs, op) && op.SaveRole?
    ensures NoWider(env, st, After(st, op), actor.subject) <==> WithinReach(env, st, actor.subject, SavedRole(op.role, op.newRole))
  {
    if NoWider(env, st, After(st, op), actor.subject) {
      WiderIfBeyondReach(env, st, op, actor.subject);
    }
    if WithinReach(env, st, actor.subject, SavedRole(op.role, op.newRole)) {
      NoWiderWithinReach(env, st, op, actor.subject);
    }
  }

  // Histories -----------------------------------------------------------------------------------

  lemma CoveringIsTransitive(env: Env, before: Store, between: Store, after: Store, s: Subject)
    requires ValidEnv(env) && NoWider(env, before, between, s) && NoWider(env, between, after, s)
    ensures NoWider(env, before, after, s)
  {
    forall permission, c | HoldsClause(env, after, s, permission, c) ensures HeldCovering(env, before, s, permission, c) {
      var d :| HoldsClause(env, between, s, permission, d) && Covers(d, c);
      var e :| HoldsClause(env, before, s, permission, e) && Covers(e, d);
      HeldIsCoherent(env, between, s, permission, d);
      HeldIsCoherent(env, after, s, permission, c);
      CoversTransitive(env.h, env.resolver, e, d, c);
    }
  }

  // Every step is the subject's own, and every role it saves is within its reach then.
  ghost predicate OwnWithinReach(env: Env, sts: seq<Store>, steps: seq<Admin.Step>, s: Subject, i: nat)
    requires ValidEnv(env) && i <= |steps| < |sts|
  {
    forall j :: 0 <= j < i ==>
      && steps[j].actor.subject == s
      && (steps[j].op.SaveRole? ==> WithinReach(env, sts[j], s, SavedRole(steps[j].op.role, steps[j].op.newRole)))
  }

  // For every such sequence of a subject's own operations, whatever it holds at the end
  // is covered by what it held at the start.
  lemma {:induction false} OwnHistoryReachesNoWider(env: Env, cfg: Config, sts: seq<Store>, steps: seq<Admin.Step>, s: Subject, i: nat)
    requires ValidEnv(env) && IsHistory(env, cfg, sts, steps) && i < |sts| && OwnWithinReach(env, sts, steps, s, i)
    ensures NoWider(env, sts[0], sts[i], s)
  {
    if i == 0 {
      forall permission, c | HoldsClause(env, sts[0], s, permission, c) ensures HeldCovering(env, sts[0], s, permission, c) {
        HeldCoversItself(env, sts[0], s, permission, c);
      }
    } else {
      OwnHistoryReachesNoWider(env, cfg, sts, steps, s, i - 1);
      HistoryIsValid(env, cfg, sts, steps, i - 1);
      var step := steps[i - 1];
      if step.op.SaveRole? {
        OwnSaveIff(env, cfg, step.gate, sts[i - 1], step.actor, step.bs, step.op);
      } else {
        OwnCallReachesNoWider(env, cfg, step.gate, sts[i - 1], step.actor, step.bs, step.op);
      }
      CoveringIsTransitive(env, sts[0], sts[i - 1], sts[i], s);
    }
  }

  // Without SaveRole there is nothing to ask: the histories of Bind, Unbind and DeleteRole.
  lemma OwnHistoryWithoutSaves(env: Env, cfg: Config, sts: seq<Store>, steps: seq<Admin.Step>, s: Subject, i: nat)
    requires ValidEnv(env) && IsHistory(env, cfg, sts, steps) && i < |sts|
    requires forall j :: 0 <= j < i ==> steps[j].actor.subject == s && !steps[j].op.SaveRole?
    ensures NoWider(env, sts[0], sts[i], s)
  {
    OwnHistoryReachesNoWider(env, cfg, sts, steps, s, i);
  }
}
