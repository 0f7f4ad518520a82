// The write side of authorization as a state machine (authz/admin.go): whatever
// sequence of operations runs, nobody gains a system permission nobody held, and
// nobody's own operations give them a permission, a qualifier or an attribute value
// they did not hold. How far their scope can reach is the matter of AdminReach.
module Admin {
  import opened Wrappers
  import opened Scopes
  import opened Clauses
  import opened Engine
  import opened Access
  import opened Delegation

  // The custom roles and the bindings, by id.
  datatype Store = Store(roles: map<int, Role>, bindings: map<int, Binding>)

  datatype Config = Config(manageRoles: string, manageBindings: string, protected: seq<string>)

  // A stored role has an id of zero when it is to be created; newRole and newBinding are the ids
  // the store gives.
  datatype Op =
    | SaveRole(role: Role, newRole: int)
    | DeleteRole(roleId: int)
    | Bind(binding: Binding, newBinding: int)
    | Unbind(bindingId: int)

  // The store's answer to BindingsFor, in whatever order.
  ghost predicate Lists(st: Store, s: Subject, bs: seq<Binding>) {
    forall b :: b in bs <==> b.subject == s && b.id in st.bindings && st.bindings[b.id] == b
  }

  ghost predicate ValidStore(st: Store) {
    && (forall id :: id in st.roles ==> id > 0 && st.roles[id].id == id && st.roles[id].key == "" && st.roles[id].computed.None?)
    && (forall id :: id in st.bindings ==> id > 0 && st.bindings[id].id == id)
  }

  // A binding of the subject gives the clause.
  ghost predicate HoldsClause(env: Env, st: Store, s: Subject, permission: string, c: Clause)
    requires ValidEnv(env)
  {
    exists id :: id in st.bindings && st.bindings[id].subject == s && Gives(env, LookupIn(env, st.roles), st.bindings[id], permission, c)
  }

  ghost predicate HoldsPermission(env: Env, st: Store, s: Subject, permission: string)
    requires ValidEnv(env)
  {
    exists c :: HoldsClause(env, st, s, permission, c)
  }

  // What the engine computes is what the store's bindings give, however listed.
  lemma EffectiveIsHeld(env: Env, st: Store, s: Subject, bs: seq<Binding>, permission: string, c: Clause)
    requires ValidEnv(env) && ValidStore(st) && Lists(st, s, bs)
    ensures Held(Build(env, bs, LookupIn(env, st.roles)).grants, permission, c) <==> HoldsClause(env, st, s, permission, c)
  {
    var lookup := LookupIn(env, st.roles);
    BuildClauses(env, bs, lookup, permission, c);
    if HoldsClause(env, st, s, permission, c) {
      var id :| id in st.bindings && st.bindings[id].subject == s && Gives(env, lookup, st.bindings[id], permission, c);
      assert st.bindings[id] in bs;
    }
    if b :| b in bs && Gives(env, lookup, b, permission, c) {
      assert b.id in st.bindings && st.bindings[b.id] == b;
    }
  }

  // The operations ----------------------------------------------------------------------

  ghost predicate Require(env: Env, gate: Gate, eff: Effective, permission: string) {
    permission in env.cat && exists c :: c in eff.ClausesFor(permission) && FeatureOn(env, gate, env.cat[permission], c.scope, c.chain)
  }

  ghost predicate MayManageAt(env: Env, gate: Gate, actor: Principal, eff: Effective, permission: string, scope: Scope)
    requires ValidEnv(env)
  {
    permission in env.cat &&
    var r := Resource(scope, [], 0, 0, 0, map[]);
    exists c :: c in eff.ClausesFor(permission) && Passes(env, gate, actor, env.cat[permission], r, c)
  }

  // The store refuses a binding it has: same subject, role and scope.
  predicate HasBinding(st: Store, b: Binding) {
    exists id :: id in st.bindings && st.bindings[id] == b.(id := id)
  }

  // The operation passes every check of Admin for the actor, whose bindings are
  // listed in bs, and the store accepts it.
  ghost predicate Allowed(env: Env, cfg: Config, gate: Gate, st: Store, actor: Principal, bs: seq<Binding>, op: Op)
    requires ValidEnv(env)
  {
    var lookup := LookupIn(env, st.roles);
    var eff := Build(env, bs, lookup);
    actor.subject.Valid() &&
    match op
    case SaveRole(role, newId) =>
      && Require(env, gate, eff, cfg.manageRoles) && CanSaveRole(env, eff, role.(key := ""))
      && (if role.id > 0 then role.id in st.roles && KeepsAccess(env, eff, bs, lookup, cfg.protected, 0, Some(role.(key := "")))
          else role.id == 0 && newId > 0 && newId !in st.roles)
    case DeleteRole(id) =>
      && Require(env, gate, eff, cfg.manageRoles) && id in st.roles
      && forall b :: b in st.bindings ==> st.bindings[b].role != RoleRef(id, "")
    case Bind(b, newId) =>
      && b.subject.Valid() && b.role.Valid() && Check(env.h, b.scope) && b.subject != actor.subject
      && MayManageAt(env, gate, actor, eff, cfg.manageBindings, b.scope)
      && lookup(b.role).Some? && CanBind(env, eff, lookup(b.role).value, b.scope, cfg.manageBindings)
      && newId > 0 && newId !in st.bindings && !HasBinding(st, b)
    case Unbind(id) =>
      && id in st.bindings
      && MayManageAt(env, gate, actor, eff, cfg.manageBindings, st.bindings[id].scope)
      && (lookup(st.bindings[id].role).Some? ==>
            CanBind(env, eff, lookup(st.bindings[id].role).value, st.bindings[id].scope, cfg.manageBindings))
      && (st.bindings[id].subject == actor.subject ==> KeepsAccess(env, eff, bs, lookup, cfg.protected, id, None))
  }

  function SavedRole(role: Role, newId: int): Role {
    role.(key := "", id := if role.id > 0 then role.id else newId)
  }

  // What the store holds after the operation.
  function After(st: Store, op: Op): Store {
    match op
    case SaveRole(role, newId) => st.(roles := st.roles[SavedRole(role, newId).id := SavedRole(role, newId)])
    case DeleteRole(id) => st.(roles := st.roles - {id})
    case Bind(b, newId) => st.(bindings := st.bindings[newId := b.(id := newId)])
    case Unbind(id) => st.(bindings := st.bindings - {id})
  }

  lemma OpKeepsValid(env: Env, cfg: Config, gate: Gate, st: Store, actor: Principal, bs: seq<Binding>, op: Op)
    requires ValidEnv(env) && ValidStore(st) && Allowed(env, cfg, gate, st, actor, bs, op)
    ensures ValidStore(After(st, op))
  {
  }

  // No permission out of nothing ------------------------------------------------------------

  ghost predicate NobodyHolds(env: Env, st: Store, permission: string)
    requires ValidEnv(env)
  {
    forall s, c :: !HoldsClause(env, st, s, permission, c)
  }

  // A role a save accepts grants nothing the actor does not hold.
  lemma SavedGrantsAreHeld(env: Env, cfg: Config, gate: Gate, st: Store, actor: Principal, bs: seq<Binding>, op: Op, g: Grant)
    requires ValidEnv(env) && ValidStore(st) && Lists(st, actor.subject, bs) && op.SaveRole?
    requires Allowed(env, cfg, gate, st, actor, bs, op) && g in op.role.grants
    ensures g.permission in env.cat
    ensures exists c :: HoldsClause(env, st, actor.subject, g.permission, c) && c.qualifier.Covers(g.qualifier) &&
                        AttrsCover(c.attrs, AttrsFor(env.cat[g.permission], op.role.attrs))
  {
    var eff := Build(env, bs, LookupIn(env, st.roles));
    var role := op.role.(key := "");
    assert g in Resolve(env, role);
    assert HoldsGrant(env, eff, role, g);
    var c :| c in eff.ClausesFor(g.permission) && c.qualifier.Covers(g.qualifier) &&
             AttrsCover(c.attrs, AttrsFor(env.cat[g.permission], role.attrs));
    EffectiveIsHeld(env, st, actor.subject, bs, g.permission, c);
  }

  // The clause comes from a binding and a role the operation did not touch.
  lemma GivesIsLocal(env: Env, l1: Lookup, l2: Lookup, b: Binding, permission: string, c: Clause)
    requires ValidEnv(env) && l1(b.role) == l2(b.role)
    ensures Gives(env, l1, b, permission, c) <==> Gives(env, l2, b, permission, c)
  {
    if g: Grant :| g.permission == permission && Yields(env, l1, b, g, c) {
      assert Yields(env, l2, b, g, c);
    }
    if g: Grant :| g.permission == permission && Yields(env, l2, b, g, c) {
      assert Yields(env, l1, b, g, c);
    }
  }

  // After a save, a clause of the permission comes from before or from a grant of
  // the saved role.
  lemma AfterSave(env: Env, st: Store, op: Op, s: Subject, permission: string, c: Clause)
    requires ValidEnv(env) && op.SaveRole? && op.role.computed.None? && HoldsClause(env, After(st, op), s, permission, c)
    ensures HoldsClause(env, st, s, permission, c) ||
            exists g :: g in op.role.grants && g.permission == permission && permission in env.cat &&
                        c.qualifier == g.qualifier && c.attrs == AttrsFor(env.cat[permission], op.role.attrs)
  {
    var st' := After(st, op);
    var l, l' := LookupIn(env, st.roles), LookupIn(env, st'.roles);
    var id :| id in st'.bindings && st'.bindings[id].subject == s && Gives(env, l', st'.bindings[id], permission, c);
    var b := st.bindings[id];
    if l(b.role) == l'(b.role) {
      GivesIsLocal(env, l, l', b, permission, c);
    } else {
      var g: Grant :| g.permission == permission && Yields(env, l', b, g, c);
      assert l'(b.role) == Some(SavedRole(op.role, op.newRole));
    }
  }

  // After a binding, a clause comes from before or from the new binding.
  lemma AfterBind(env: Env, st: Store, op: Op, s: Subject, permission: string, c: Clause)
    requires ValidEnv(env) && op.Bind? && HoldsClause(env, After(st, op), s, permission, c)
    ensures HoldsClause(env, st, s, permission, c) ||
            (s == op.binding.subject && LookupIn(env, st.roles)(op.binding.role).Some? &&
             exists g :: g in Resolve(env, LookupIn(env, st.roles)(op.binding.role).value) && g.permission == permission && g.permission in env.cat)
  {
    var st' := After(st, op);
    var l := LookupIn(env, st.roles);
    var id :| id in st'.bindings && st'.bindings[id].subject == s && Gives(env, l, st'.bindings[id], permission, c);
    if id == op.newBinding {
      var g: Grant :| g.permission == permission && Yields(env, l, st'.bindings[id], g, c);
    } else {
      assert st.bindings[id] == st'.bindings[id];
    }
  }

  // A removal only takes away.
  lemma AfterRemoval(env: Env, st: Store, op: Op, s: Subject, permission: string, c: Clause)
    requires ValidEnv(env) && (op.DeleteRole? || op.Unbind?) && HoldsClause(env, After(st, op), s, permission, c)
    ensures HoldsClause(env, st, s, permission, c)
  {
    var st' := After(st, op);
    var l, l' := LookupIn(env, st.roles), LookupIn(env, st'.roles);
    var id :| id in st'.bindings && st'.bindings[id].subject == s && Gives(env, l', st'.bindings[id], permission, c);
    var g: Grant :| g.permission == permission && Yields(env, l', st'.bindings[id], g, c);
    assert l(st.bindings[id].role) == l'(st.bindings[id].role);
    GivesIsLocal(env, l, l', st.bindings[id], permission, c);
  }

  // If nobody holds a system permission, no operation of anyone makes anyone hold it.
  lemma NobodyGains(env: Env, cfg: Config, gate: Gate, st: Store, actor: Principal, bs: seq<Binding>, op: Op, permission: string)
    requires ValidEnv(env) && ValidStore(st) && Lists(st, actor.subject, bs) && Allowed(env, cfg, gate, st, actor, bs, op)
    requires permission in env.cat && env.cat[permission].system && NobodyHolds(env, st, permission)
    ensures NobodyHolds(env, After(st, op), permission)
  {
    forall s, c | HoldsClause(env, After(st, op), s, permission, c)
      ensures false
    {
      match op
      case SaveRole(_, _) =>
        AfterSave(env, st, op, s, permission, c);
        var g :| g in op.role.grants && g.permission == permission;
        SavedGrantsAreHeld(env, cfg, gate, st, actor, bs, op, g);
      case Bind(b, _) =>
        AfterBind(env, st, op, s, permission, c);
        BindNeedsSystem(env, cfg, gate, st, actor, bs, op, permission);
      case _ =>
        AfterRemoval(env, st, op, s, permission, c);
    }
  }

  // Assigning a role with a system permission takes holding that permission.
  lemma BindNeedsSystem(env: Env, cfg: Config, gate: Gate, st: Store, actor: Principal, bs: seq<Binding>, op: Op, permission: string)
    requires ValidEnv(env) && ValidStore(st) && Lists(st, actor.subject, bs) && op.Bind? && Allowed(env, cfg, gate, st, actor, bs, op)
    requires permission in env.cat && env.cat[permission].system
    requires exists g :: g in Resolve(env, LookupIn(env, st.roles)(op.binding.role).value) && g.permission == permission
    ensures HoldsPermission(env, st, actor.subject, permission)
  {
    var lookup := LookupIn(env, st.roles);
    var eff := Build(env, bs, lookup);
    var chain := ChainOf(env.h, env.resolver, op.binding.scope, []).scopes;
    assert HoldsWithin(eff, permission, chain);
    var c :| c in eff.ClausesFor(permission) && c.scope in chain;
    EffectiveIsHeld(env, st, actor.subject, bs, permission, c);
  }

  // Sequences of operations ------------------------------------------------------------------

  datatype Step = Step(actor: Principal, bs: seq<Binding>, gate: Gate, op: Op)

  // A history: each operation was allowed for its actor, on what the store then held.
  ghost predicate IsHistory(env: Env, cfg: Config, sts: seq<Store>, steps: seq<Step>)
    requires ValidEnv(env)
  {
    && |sts| == |steps| + 1 && ValidStore(sts[0])
    && forall i :: 0 <= i < |steps| ==>
         && Lists(sts[i], steps[i].actor.subject, steps[i].bs)
         && Allowed(env, cfg, steps[i].gate, sts[i], steps[i].actor, steps[i].bs, steps[i].op)
         && sts[i + 1] == After(sts[i], steps[i].op)
  }

  lemma {:induction false} HistoryIsValid(env: Env, cfg: Config, sts: seq<Store>, steps: seq<Step>, i: nat)
    requires ValidEnv(env) && IsHistory(env, cfg, sts, steps) && i < |sts|
    ensures ValidStore(sts[i])
  {
    if i > 0 {
      HistoryIsValid(env, cfg, sts, steps, i - 1);
      var s := steps[i - 1];
      OpKeepsValid(env, cfg, s.gate, sts[i - 1], s.actor, s.bs, s.op);
    }
  }

  // The last step of a history so far.
  lemma HistoryStep(env: Env, cfg: Config, sts: seq<Store>, steps: seq<Step>, i: nat)
    requires ValidEnv(env) && IsHistory(env, cfg, sts, steps) && i < |steps|
    ensures ValidStore(sts[i]) && Lists(sts[i], steps[i].actor.subject, steps[i].bs)
    ensures Allowed(env, cfg, steps[i].gate, sts[i], steps[i].actor, steps[i].bs, steps[i].op)
    ensures sts[i + 1] == After(sts[i], steps[i].op)
  {
    HistoryIsValid(env, cfg, sts, steps, i);
  }

  lemma {:induction false} NoPermissionOutOfNothing(env: Env, cfg: Config, sts: seq<Store>, steps: seq<Step>, i: nat, permission: string)
    requires ValidEnv(env) && IsHistory(env, cfg, sts, steps) && i < |sts|
    requires permission in env.cat && env.cat[permission].system && NobodyHolds(env, sts[0], permission)
    ensures NobodyHolds(env, sts[i], permission)
  {
    if i > 0 {
      NoPermissionOutOfNothing(env, cfg, sts, steps, i - 1, permission);
      HistoryStep(env, cfg, sts, steps, i - 1);
      var s := steps[i - 1];
      NobodyGains(env, cfg, s.gate, sts[i - 1], s.actor, s.bs, s.op, permission);
    }
  }

  // One's own operations ---------------------------------------------------------------------

  // The subject already held the permission at least as widely and as broadly.
  ghost predicate HeldAsWidely(env: Env, st: Store, s: Subject, permission: string, c: Clause)
    requires ValidEnv(env)
  {
    exists d :: HoldsClause(env, st, s, permission, d) && d.qualifier.Covers(c.qualifier) && AttrsCover(d.attrs, c.attrs)
  }

  // Nobody's own operation gives them a permission, a qualifier or an attribute
  // value they did not hold.
  lemma OwnOperationAddsNothing(env: Env, cfg: Config, gate: Gate, st: Store, actor: Principal, bs: seq<Binding>, op: Op,
                                permission: string, c: Clause)
    requires ValidEnv(env) && ValidStore(st) && Lists(st, actor.subject, bs) && Allowed(env, cfg, gate, st, actor, bs, op)
    requires HoldsClause(env, After(st, op), actor.subject, permission, c)
    ensures HeldAsWidely(env, st, actor.subject, permission, c)
  {
    if HoldsClause(env, st, actor.subject, permission, c) {
      assert AttrsCover(c.attrs, c.attrs);
    } else {
      match op
      case SaveRole(_, _) =>
        AfterSave(env, st, op, actor.subject, permission, c);
        var g :| g in op.role.grants && g.permission == permission && c.qualifier == g.qualifier &&
                 c.attrs == AttrsFor(env.cat[permission], op.role.attrs);
        SavedGrantsAreHeld(env, cfg, gate, st, actor, bs, op, g);
      case Bind(_, _) => AfterBind(env, st, op, actor.subject, permission, c);
      case _ => AfterRemoval(env, st, op, actor.subject, permission, c);
    }
  }

  lemma AttrsCoverTransitive(a: Attrs, b: Attrs, c: Attrs)
    requires AttrsCover(a, b) && AttrsCover(b, c)
    ensures AttrsCover(a, c)
  {
    forall key | key in a
      ensures key in c && Subset(c[key], a[key])
    {
      assert Subset(b[key], a[key]) && Subset(c[key], b[key]);
    }
  }

  // And so for any sequence of a subject's own operations.
  lemma {:induction false} OwnHistoryAddsNothing(env: Env, cfg: Config, sts: seq<Store>, steps: seq<Step>, i: nat, s: Subject,
                                                 permission: string, c: Clause)
    requires ValidEnv(env) && IsHistory(env, cfg, sts, steps) && i < |sts|
    requires forall j :: 0 <= j < i ==> steps[j].actor.subject == s
    requires HoldsClause(env, sts[i], s, permission, c)
    ensures HeldAsWidely(env, sts[0], s, permission, c)
  {
    if i == 0 {
      assert AttrsCover(c.attrs, c.attrs);
    } else {
      HistoryStep(env, cfg, sts, steps, i - 1);
      var step := steps[i - 1];
      OwnOperationAddsNothing(env, cfg, step.gate, sts[i - 1], step.actor, step.bs, step.op, permission, c);
      var d :| HoldsClause(env, sts[i - 1], s, permission, d) && d.qualifier.Covers(c.qualifier) && AttrsCover(d.attrs, c.attrs);
      OwnHistoryAddsNothing(env, cfg, sts, steps, i - 1, s, permission, d);
      AsWidelyTransitive(env, sts[0], s, permission, d, c);
    }
  }

  lemma AsWidelyTransitive(env: Env, st: Store, s: Subject, permission: string, d: Clause, c: Clause)
    requires ValidEnv(env) && HeldAsWidely(env, st, s, permission, d) && d.qualifier.Covers(c.qualifier) && AttrsCover(d.attrs, c.attrs)
    ensures HeldAsWidely(env, st, s, permission, c)
  {
    var e :| HoldsClause(env, st, s, permission, e) && e.qualifier.Covers(d.qualifier) && AttrsCover(e.attrs, d.attrs);
    AttrsCoverTransitive(e.attrs, d.attrs, c.attrs);
  }
}
