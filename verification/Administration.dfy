// The administration calls one after another over a store and the cache
// (authz/admin.go, authz/engine.go): whatever is cached, every decision is the one
// the store's present contents give.
module Administration {
  import opened Wrappers
  import opened Scopes
  import opened Clauses
  import opened Engine
  import opened Access
  import opened Delegation
  import opened Admin
  import opened AdminLaws
  import opened Cache

  // The access is built from what the store holds.
  ghost predicate Current(env: Env, st: Store, s: Subject, eff: Effective)
    requires ValidEnv(env)
  {
    exists bs :: Lists(st, s, bs) && eff == Build(env, bs, LookupIn(env, st.roles))
  }

  // The same clauses, in whatever order.
  ghost predicate SameClauses(a: Effective, b: Effective) {
    forall p, c :: c in a.ClausesFor(p) <==> c in b.ClausesFor(p)
  }

  lemma CurrentAgree(env: Env, st: Store, s: Subject, a: Effective, b: Effective)
    requires ValidEnv(env) && ValidStore(st) && Current(env, st, s, a) && Current(env, st, s, b)
    ensures SameClauses(a, b)
  {
    var lookup := LookupIn(env, st.roles);
    var as_ :| Lists(st, s, as_) && a == Build(env, as_, lookup);
    var bs :| Lists(st, s, bs) && b == Build(env, bs, lookup);
    forall p, c ensures c in a.ClausesFor(p) <==> c in b.ClausesFor(p) {
      EffectiveIsHeld(env, st, s, as_, p, c);
      EffectiveIsHeld(env, st, s, bs, p, c);
    }
  }

  lemma SameHolds(a: Effective, b: Effective, p: string)
    requires SameClauses(a, b)
    ensures a.Holds(p) <==> b.Holds(p)
  {
    HoldsIsHeld(a, p);
    HoldsIsHeld(b, p);
    assert forall c :: Held(a.grants, p, c) <==> c in a.ClausesFor(p);
    assert forall c :: Held(b.grants, p, c) <==> c in b.ClausesFor(p);
  }

  // The lock-out check does not depend on the order of the bindings either.
  lemma SameKept(env: Env, as_: seq<Binding>, bs: seq<Binding>, lookup: Lookup, drop: int)
    requires ValidEnv(env) && forall b :: b in as_ <==> b in bs
    ensures SameClauses(Build(env, Without(as_, drop), lookup), Build(env, Without(bs, drop), lookup))
  {
    forall b ensures b in Without(as_, drop) <==> b in Without(bs, drop) {
      WithoutMembers(as_, drop, b);
      WithoutMembers(bs, drop, b);
    }
    forall p, c
      ensures c in Build(env, Without(as_, drop), lookup).ClausesFor(p) <==> c in Build(env, Without(bs, drop), lookup).ClausesFor(p)
    {
      BuildClauses(env, Without(as_, drop), lookup, p, c);
      BuildClauses(env, Without(bs, drop), lookup, p, c);
    }
  }

  lemma SameKeepsAccess(env: Env, a: Effective, as_: seq<Binding>, b: Effective, bs: seq<Binding>, lookup: Lookup,
                        protected: seq<string>, drop: int, override: Option<Role>)
    requires ValidEnv(env) && SameClauses(a, b) && forall x :: x in as_ <==> x in bs
    ensures KeepsAccess(env, a, as_, lookup, protected, drop, override) <==> KeepsAccess(env, b, bs, lookup, protected, drop, override)
  {
    var changed := Overriding(lookup, override);
    SameKept(env, as_, bs, changed, drop);
    forall p ensures a.Holds(p) <==> b.Holds(p) {
      SameHolds(a, b, p);
    }
    forall p ensures Build(env, Without(as_, drop), changed).Holds(p) <==> Build(env, Without(bs, drop), changed).Holds(p) {
      SameHolds(Build(env, Without(as_, drop), changed), Build(env, Without(bs, drop), changed), p);
    }
  }

  lemma SameCanSave(env: Env, a: Effective, b: Effective, role: Role)
    requires SameClauses(a, b)
    ensures CanSaveRole(env, a, role) <==> CanSaveRole(env, b, role)
  {
    if ValidRole(env, role) {
      forall g | g in Resolve(env, role) ensures GrantOk(env, g) && (HoldsGrant(env, a, role, g) <==> HoldsGrant(env, b, role, g)) {
      }
    }
  }

  lemma SameCanBind(env: Env, a: Effective, b: Effective, role: Role, scope: Scope, manage: string)
    requires ValidEnv(env) && SameClauses(a, b)
    ensures CanBind(env, a, role, scope, manage) <==> CanBind(env, b, role, scope, manage)
  {
    var chain := ChainOf(env.h, env.resolver, scope, []);
    if chain.Chain? {
      forall p ensures HoldsWithin(a, p, chain.scopes) <==> HoldsWithin(b, p, chain.scopes) {
      }
    }
    assert HoldsAtRoot(env, a, manage) <==> HoldsAtRoot(env, b, manage);
  }

  method CheckRequire(env: Env, gate: Gate, eff: Effective, permission: string) returns (ok: bool)
    ensures ok <==> Require(env, gate, eff, permission)
  {
    if permission !in env.cat {
      return false;
    }
    var clauses := eff.ClausesFor(permission);
    for i := 0 to |clauses|
      invariant forall c :: c in clauses[..i] ==> !FeatureOn(env, gate, env.cat[permission], c.scope, c.chain)
    {
      assert clauses[..i + 1] == clauses[..i] + [clauses[i]];
      if FeatureOn(env, gate, env.cat[permission], clauses[i].scope, clauses[i].chain) {
        assert clauses[i] in clauses;
        return true;
      }
    }
    assert clauses[..|clauses|] == clauses;
    return false;
  }

  method CheckManageAt(env: Env, gate: Gate, actor: Principal, eff: Effective, permission: string, scope: Scope) returns (ok: bool)
    requires ValidEnv(env)
    ensures ok <==> MayManageAt(env, gate, actor, eff, permission, scope)
  {
    if permission !in env.cat {
      return false;
    }
    ok := RequireOn(env, gate, actor, env.cat[permission], eff.ClausesFor(permission), Resource(scope, [], 0, 0, 0, map[]));
  }

  // BindingsFor, in any order.
  method BindingsFor(st: Store, s: Subject) returns (bs: seq<Binding>)
    requires ValidStore(st)
    ensures Lists(st, s, bs)
  {
    bs := [];
    var rows := set id | id in st.bindings :: st.bindings[id];
    var todo := rows;
    while todo != {}
      invariant todo <= rows
      invariant forall b :: b in bs <==> b.subject == s && b in rows - todo
      decreases todo
    {
      var b :| b in todo;
      todo := todo - {b};
      if b.subject == s {
        bs := bs + [b];
      }
    }
    assert forall b :: b in rows <==> b.id in st.bindings && st.bindings[b.id] == b;
  }

  // What a change leaves current -----------------------------------------------------------

  // A binding of one subject changes nobody else's access.
  lemma OthersStayCurrent(env: Env, st: Store, op: Op, subject: Subject, s: Subject, eff: Effective)
    requires ValidEnv(env) && ValidStore(st) && Current(env, st, s, eff) && s != subject
    requires (op.Bind? && op.binding.subject == subject && op.newBinding > 0 && op.newBinding !in st.bindings) ||
             (op.Unbind? && op.bindingId in st.bindings && st.bindings[op.bindingId].subject == subject)
    ensures Current(env, After(st, op), s, eff)
  {
    var bs :| Lists(st, s, bs) && eff == Build(env, bs, LookupIn(env, st.roles));
    assert Lists(After(st, op), s, bs);
  }

  // Access that refers to no binding of the role is the same with the role replaced
  // or removed.
  lemma UnusedRoleStaysCurrent(env: Env, st: Store, roles: map<int, Role>, id: int, s: Subject, eff: Effective)
    requires ValidEnv(env) && Current(env, st, s, eff) && id > 0 && id !in eff.roleIds
    requires forall k :: k != id ==> Get(roles, k) == Get(st.roles, k)
    ensures Current(env, st.(roles := roles), s, eff)
  {
    var l, l' := LookupIn(env, st.roles), LookupIn(env, roles);
    var bs: seq<Binding> :| Lists(st, s, bs) && eff == Build(env, bs, l);
    BuildUses(env, bs, l, id);
    forall b: Binding | b in bs && b.role.Valid() ensures l(b.role) == l'(b.role) {
    }
    BuildIsLocal(env, bs, l, l');
    assert Lists(st.(roles := roles), s, bs);
  }

  // A finite set of bindings can be listed, so every subject's can.
  ghost function Listed(rows: set<Binding>): (bs: seq<Binding>)
    ensures forall b :: b in bs <==> b in rows
  {
    if rows == {} then []
    else
      var x :| x in rows;
      [x] + Listed(rows - {x})
  }

  lemma SomeListing(st: Store, s: Subject)
    requires ValidStore(st)
    ensures exists bs :: Lists(st, s, bs)
  {
    var rows := set id | id in st.bindings && st.bindings[id].subject == s :: st.bindings[id];
    assert Lists(st, s, Listed(rows));
  }

  // What an allowed call does not take from its actor.
  lemma AllowedKeepsProtected(env: Env, cfg: Config, gate: Gate, st: Store, actor: Principal, op: Op)
    requires ValidEnv(env) && ValidStore(st) && forall bs :: Lists(st, actor.subject, bs) ==> Allowed(env, cfg, gate, st, actor, bs, op)
    ensures forall p :: p in cfg.protected && HoldsPermission(env, st, actor.subject, p) ==>
              HoldsPermission(env, After(st, op), actor.subject, p)
  {
    SomeListing(st, actor.subject);
    var bs :| Lists(st, actor.subject, bs);
    forall p | p in cfg.protected && HoldsPermission(env, st, actor.subject, p)
      ensures HoldsPermission(env, After(st, op), actor.subject, p)
    {
      ProtectedIsKept(env, cfg, gate, st, actor, bs, op, p);
    }
  }

  // The administration of one store through one cache.
  class Administrator {
    const env: Env
    const cfg: Config
    const cache: SubjectCache<Effective>
    var store: Store

    constructor (env: Env, cfg: Config, store: Store, ttl: Time)
      requires ValidEnv(env) && ValidStore(store)
      ensures Valid() && this.env == env && this.cfg == cfg && this.store == store && fresh(cache)
    {
      this.env := env;
      this.cfg := cfg;
      this.store := store;
      cache := new SubjectCache<Effective>(ttl, (eff: Effective, id: int) => id in eff.roleIds);
    }

    // Everything cached is built from what the store holds.
    ghost predicate Valid()
      reads this, cache
    {
      && ValidEnv(env) && ValidStore(store)
      && (forall eff, id :: cache.usesRole(eff, id) <==> id in eff.roleIds)
      && forall s :: s in cache.entries ==> Current(env, store, s, cache.entries[s].eff)
    }

    // Effective: from the cache when possible, otherwise built and cached.
    method EffectiveOf(s: Subject, now: Time) returns (eff: Effective)
      requires Valid()
      modifies cache
      ensures Valid() && Current(env, store, s, eff)
    {
      var cached := cache.Get(s, now);
      if cached.Some? {
        return cached.value;
      }
      var epoch := cache.BeginLoad();
      var bs := BindingsFor(store, s);
      eff := BuildEffective(env, bs, LookupIn(env, store.roles));
      cache.Put(s, eff, epoch, now);
    }

    // The check of one's access gives what every listing of one's bindings gives.
    method Keeps(s: Subject, drop: int, override: Option<Role>, now: Time) returns (ok: bool)
      requires Valid()
      modifies cache
      ensures Valid()
      ensures forall bs :: Lists(store, s, bs) ==>
                var lookup := LookupIn(env, store.roles);
                ok == KeepsAccess(env, Build(env, bs, lookup), bs, lookup, cfg.protected, drop, override)
    {
      var eff := EffectiveOf(s, now);
      var listed := BindingsFor(store, s);
      var lookup := LookupIn(env, store.roles);
      ok := CheckKeepsAccess(env, eff, listed, lookup, cfg.protected, drop, override);
      forall bs | Lists(store, s, bs)
        ensures ok == KeepsAccess(env, Build(env, bs, lookup), bs, lookup, cfg.protected, drop, override)
      {
        CurrentAgree(env, store, s, eff, Build(env, bs, lookup));
        SameKeepsAccess(env, eff, listed, Build(env, bs, lookup), bs, lookup, cfg.protected, drop, override);
      }
    }

    method Requires(gate: Gate, s: Subject, permission: string, now: Time) returns (ok: bool)
      requires Valid()
      modifies cache
      ensures Valid()
      ensures forall bs :: Lists(store, s, bs) ==> ok == Require(env, gate, Build(env, bs, LookupIn(env, store.roles)), permission)
    {
      var eff := EffectiveOf(s, now);
      ok := CheckRequire(env, gate, eff, permission);
      forall bs | Lists(store, s, bs) ensures ok == Require(env, gate, Build(env, bs, LookupIn(env, store.roles)), permission) {
        CurrentAgree(env, store, s, eff, Build(env, bs, LookupIn(env, store.roles)));
      }
    }

    method ManagesAt(gate: Gate, actor: Principal, scope: Scope, now: Time) returns (ok: bool)
      requires Valid()
      modifies cache
      ensures Valid()
      ensures forall bs :: Lists(store, actor.subject, bs) ==>
                ok == MayManageAt(env, gate, actor, Build(env, bs, LookupIn(env, store.roles)), cfg.manageBindings, scope)
    {
      var eff := EffectiveOf(actor.subject, now);
      ok := CheckManageAt(env, gate, actor, eff, cfg.manageBindings, scope);
      forall bs | Lists(store, actor.subject, bs)
        ensures ok == MayManageAt(env, gate, actor, Build(env, bs, LookupIn(env, store.roles)), cfg.manageBindings, scope)
      {
        CurrentAgree(env, store, actor.subject, eff, Build(env, bs, LookupIn(env, store.roles)));
      }
    }

    method MaySave(s: Subject, role: Role, now: Time) returns (ok: bool)
      requires Valid()
      modifies cache
      ensures Valid()
      ensures forall bs :: Lists(store, s, bs) ==> ok == CanSaveRole(env, Build(env, bs, LookupIn(env, store.roles)), role)
      ensures ok ==> role.computed.None?
    {
      var eff := EffectiveOf(s, now);
      ok := CheckCanSaveRole(env, eff, role);
      forall bs | Lists(store, s, bs) ensures ok == CanSaveRole(env, Build(env, bs, LookupIn(env, store.roles)), role) {
        CurrentAgree(env, store, s, eff, Build(env, bs, LookupIn(env, store.roles)));
        SameCanSave(env, eff, Build(env, bs, LookupIn(env, store.roles)), role);
      }
    }

    method MayBind(s: Subject, role: Role, scope: Scope, now: Time) returns (ok: bool)
      requires Valid()
      modifies cache
      ensures Valid()
      ensures forall bs :: Lists(store, s, bs) ==>
                ok == CanBind(env, Build(env, bs, LookupIn(env, store.roles)), role, scope, cfg.manageBindings)
    {
      var eff := EffectiveOf(s, now);
      ok := CheckCanBind(env, eff, role, scope, cfg.manageBindings);
      forall bs | Lists(store, s, bs)
        ensures ok == CanBind(env, Build(env, bs, LookupIn(env, store.roles)), role, scope, cfg.manageBindings)
      {
        CurrentAgree(env, store, s, eff, Build(env, bs, LookupIn(env, store.roles)));
        SameCanBind(env, eff, Build(env, bs, LookupIn(env, store.roles)), role, scope, cfg.manageBindings);
      }
    }

    // Whether the operation is allowed on a store, however the actor's bindings are listed.
    ghost predicate Decides(st: Store, gate: Gate, actor: Principal, op: Op, ok: bool)
      requires ValidEnv(env)
    {
      forall bs :: Lists(st, actor.subject, bs) ==> ok == Allowed(env, cfg, gate, st, actor, bs, op)
    }

    // SaveRole up to the write.
    method MaySaveRole(gate: Gate, actor: Principal, role: Role, newId: int, now: Time) returns (ok: bool)
      requires Valid() && newId > 0 && newId !in store.roles
      modifies cache
      ensures Valid() && Decides(store, gate, actor, Op.SaveRole(role, newId), ok)
      ensures ok ==> role.computed.None?
    {
      if !actor.subject.Valid() {
        return false;
      }
      ok := Requires(gate, actor.subject, cfg.manageRoles, now);
      if ok {
        ok := MaySave(actor.subject, role.(key := ""), now);
      }
      if ok && role.id != 0 {
        // a negative id names no role either: only the store refuses it
        if role.id !in store.roles {
          return false;
        }
        ok := Keeps(actor.subject, 0, Some(role.(key := "")), now);
      }
    }

    // Every call succeeds exactly when the operation is allowed on what the store
    // holds, changes the store exactly then and in that one row, leaves its actor every
    // protected permission it held, and nothing stale in the cache.
    method SaveRole(gate: Gate, actor: Principal, role: Role, newId: int, now: Time) returns (ok: bool)
      requires Valid() && newId > 0 && newId !in store.roles
      modifies this, cache
      ensures Valid() && Decides(old(store), gate, actor, Op.SaveRole(role, newId), ok)
      ensures store == if ok then After(old(store), Op.SaveRole(role, newId)) else old(store)
      ensures !ok ==> store == old(store)
      ensures ok ==> var id := if role.id > 0 then role.id else newId;
                     && Get(store.roles, id) == Some(Role(id, "", role.name, role.grants, role.attrs, None))
                     && store.bindings == old(store).bindings
                     && forall k :: k != id ==> Get(store.roles, k) == Get(old(store).roles, k)
      ensures ok ==> forall p :: p in cfg.protected && HoldsPermission(env, old(store), actor.subject, p) ==> HoldsPermission(env, store, actor.subject, p)
    {
      ok := MaySaveRole(gate, actor, role, newId, now);
      if ok {
        AllowedKeepsProtected(env, cfg, gate, store, actor, Op.SaveRole(role, newId));
        var saved := SavedRole(role, newId);
        ReplaceRole(store.roles[saved.id := saved], saved.id);
      }
    }

    // Writing or deleting a role, and the eviction of its users.
    method ReplaceRole(roles: map<int, Role>, id: int)
      requires Valid() && id > 0 && ValidStore(store.(roles := roles))
      requires forall k :: k != id ==> Get(roles, k) == Get(store.roles, k)
      modifies this, cache
      ensures Valid() && store == old(store).(roles := roles)
    {
      ghost var before := store;
      store := store.(roles := roles);
      cache.EvictRole(id);
      forall s | s in cache.entries ensures Current(env, store, s, cache.entries[s].eff) {
        UnusedRoleStaysCurrent(env, before, roles, id, s, cache.entries[s].eff);
      }
    }

    method DeleteRole(gate: Gate, actor: Principal, id: int, now: Time) returns (ok: bool)
      requires Valid()
      modifies this, cache
      ensures Valid() && Decides(old(store), gate, actor, Op.DeleteRole(id), ok)
      ensures store == if ok then After(old(store), Op.DeleteRole(id)) else old(store)
      ensures !ok ==> store == old(store)
      ensures ok ==> && id in old(store).roles && id !in store.roles && store.bindings == old(store).bindings
                     && (forall k :: k != id ==> Get(store.roles, k) == Get(old(store).roles, k))
                     && forall b :: b in store.bindings ==> store.bindings[b].role != RoleRef(id, "")
      ensures ok ==> forall p :: p in cfg.protected && HoldsPermission(env, old(store), actor.subject, p) ==> HoldsPermission(env, store, actor.subject, p)
    {
      if !actor.subject.Valid() {
        return false;
      }
      ok := Requires(gate, actor.subject, cfg.manageRoles, now);
      if ok {
        ok := id in store.roles && forall b :: b in store.bindings ==> store.bindings[b].role != RoleRef(id, "");
      }
      if ok {
        AllowedKeepsProtected(env, cfg, gate, store, actor, Op.DeleteRole(id));
        ReplaceRole(store.roles - {id}, id);
      }
    }

    // Writing or deleting a binding, and the eviction of its subject.
    method ChangeBinding(ghost op: Op, bindings: map<int, Binding>, subject: Subject)
      requires Valid()
      requires (op.Bind? && op.binding.subject == subject && op.newBinding > 0 && op.newBinding !in store.bindings) ||
               (op.Unbind? && op.bindingId in store.bindings && store.bindings[op.bindingId].subject == subject)
      requires bindings == After(store, op).bindings
      modifies this, cache
      ensures Valid() && store == After(old(store), op)
    {
      ghost var before := store;
      store := store.(bindings := bindings);
      cache.Evict(subject);
      forall s | s in cache.entries ensures Current(env, store, s, cache.entries[s].eff) {
        OthersStayCurrent(env, before, op, subject, s, cache.entries[s].eff);
      }
    }

    // Bind up to the write.
    method MayBindTo(gate: Gate, actor: Principal, b: Binding, newId: int, now: Time) returns (ok: bool)
      requires Valid() && newId > 0 && newId !in store.bindings
      modifies cache
      ensures Valid() && Decides(store, gate, actor, Op.Bind(b, newId), ok)
      ensures ok ==> b.subject != actor.subject
    {
      if !actor.subject.Valid() || !b.subject.Valid() || !b.role.Valid() || !Check(env.h, b.scope) || b.subject == actor.subject {
        return false;
      }
      ok := ManagesAt(gate, actor, b.scope, now);
      if ok {
        var role := LookupIn(env, store.roles)(b.role);
        if role.None? {
          return false;
        }
        ok := MayBind(actor.subject, role.value, b.scope, now);
      }
      ok := ok && !HasBinding(store, b);
    }

    method Bind(gate: Gate, actor: Principal, b: Binding, newId: int, now: Time) returns (ok: bool)
      requires Valid() && newId > 0 && newId !in store.bindings
      modifies this, cache
      ensures Valid() && Decides(old(store), gate, actor, Op.Bind(b, newId), ok)
      ensures store == if ok then After(old(store), Op.Bind(b, newId)) else old(store)
      ensures !ok ==> store == old(store)
      ensures ok ==> && b.subject != actor.subject && store.roles == old(store).roles
                     && Get(store.bindings, newId) == Some(Binding(newId, b.subject, b.role, b.scope))
                     && forall k :: k != newId ==> Get(store.bindings, k) == Get(old(store).bindings, k)
      ensures ok ==> forall p :: p in cfg.protected && HoldsPermission(env, old(store), actor.subject, p) ==> HoldsPermission(env, store, actor.subject, p)
    {
      ok := MayBindTo(gate, actor, b, newId, now);
      if ok {
        AllowedKeepsProtected(env, cfg, gate, store, actor, Op.Bind(b, newId));
        ChangeBinding(Op.Bind(b, newId), store.bindings[newId := b.(id := newId)], b.subject);
      }
    }

    // Unbind up to the write.
    method MayUnbind(gate: Gate, actor: Principal, id: int, now: Time) returns (ok: bool)
      requires Valid()
      modifies cache
      ensures Valid() && Decides(store, gate, actor, Op.Unbind(id), ok)
      ensures ok ==> id in store.bindings
    {
      if !actor.subject.Valid() || id !in store.bindings {
        return false;
      }
      var b := store.bindings[id];
      ok := ManagesAt(gate, actor, b.scope, now);
      if ok {
        var role := LookupIn(env, store.roles)(b.role);
        if role.Some? {
          ok := MayBind(actor.subject, role.value, b.scope, now);
        }
      }
      if ok && b.subject == actor.subject {
        ok := Keeps(actor.subject, b.id, None, now);
      }
    }

    method Unbind(gate: Gate, actor: Principal, id: int, now: Time) returns (ok: bool)
      requires Valid()
      modifies this, cache
      ensures Valid() && Decides(old(store), gate, actor, Op.Unbind(id), ok)
      ensures store == if ok then After(old(store), Op.Unbind(id)) else old(store)
      ensures !ok ==> store == old(store)
      ensures ok ==> && id in old(store).bindings && id !in store.bindings && store.roles == old(store).roles
                     && forall k :: k != id ==> Get(store.bindings, k) == Get(old(store).bindings, k)
      ensures ok ==> forall p :: p in cfg.protected && HoldsPermission(env, old(store), actor.subject, p) ==> HoldsPermission(env, store, actor.subject, p)
    {
      ok := MayUnbind(gate, actor, id, now);
      if ok {
        AllowedKeepsProtected(env, cfg, gate, store, actor, Op.Unbind(id));
        ChangeBinding(Op.Unbind(id), store.bindings - {id}, store.bindings[id].subject);
      }
    }
  }
}
