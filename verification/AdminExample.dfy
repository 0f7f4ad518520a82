// One store in which saving a role takes its author further (authz/admin.go,
// authz/delegation.go): bound to the managers' role at the root and holding a
// permission at dealer 3 only, the author adds that permission to the role.
module AdminExample {
  import opened Wrappers
  import opened Scopes
  import opened Clauses
  import opened Engine
  import opened Access
  import opened Delegation
  import opened Admin
  import opened AdminReach

  const ROOT: Scope := Scope("o", 0)

  const DEALER: Scope := Scope("d", 3)

  function Plain(id: string): Permission {
    Permission(id, false, false, [], "", false, "", [])
  }

  const ENV: Env := Env(Hierarchy(["o", "d"], ""), (s: Scope) => Some(ROOT),
                        map["roles:manage" := Plain("roles:manage"), "lead:view" := Plain("lead:view")],
                        ["roles:manage", "lead:view"], map[])

  const CONFIG: Config := Config("roles:manage", "roles:manage", ["roles:manage"])

  const AUTHOR: Principal := Principal(Subject(User, 1), 0)

  const MANAGERS: Role := Role(1, "", "Managers", [Grant("roles:manage", All)], map[], None)

  const SALES: Role := Role(2, "", "Sales", [Grant("lead:view", All)], map[], None)

  const AT_ROOT: Binding := Binding(1, AUTHOR.subject, RoleRef(1, ""), ROOT)

  const AT_DEALER: Binding := Binding(2, AUTHOR.subject, RoleRef(2, ""), DEALER)

  const STORE: Store := Store(map[1 := MANAGERS, 2 := SALES], map[1 := AT_ROOT, 2 := AT_DEALER])

  const LISTED: seq<Binding> := [AT_ROOT, AT_DEALER]

  // The managers' role with the permission added.
  const WIDENED: Role := Role(1, "", "Managers", [Grant("roles:manage", All), Grant("lead:view", All)], map[], None)

  const SAVE: Op := Op.SaveRole(WIDENED, 3)

  lemma EnvOk()
    ensures ValidEnv(ENV) && ValidStore(STORE) && Lists(STORE, AUTHOR.subject, LISTED)
    ensures Depth(ENV.h, "o") == 0 && Depth(ENV.h, "d") == 1
  {
    assert ENV.h.levels[0] == "o" && ENV.h.levels[1] == "d";
    LevelIndex(ENV.h, 0);
    LevelIndex(ENV.h, 1);
    assert LISTED[0] == AT_ROOT && LISTED[1] == AT_DEALER;
  }

  lemma Chains()
    requires ValidEnv(ENV)
    ensures ChainOf(ENV.h, ENV.resolver, ROOT, []) == Chain([ROOT])
    ensures ChainOf(ENV.h, ENV.resolver, DEALER, []) == Chain([DEALER, ROOT])
  {
    EnvOk();
    var none: seq<Scope> := [];
    assert Climb(ENV.h, ENV.resolver, none, ROOT, false) == Chain([ROOT]);
  }

  const EVERYWHERE: Clause := Clause(ROOT, [ROOT], All, map[], 1)

  const AT_THREE: Clause := Clause(DEALER, [DEALER, ROOT], All, map[], 2)

  // What the author holds: managing roles everywhere, leads at dealer 3.
  lemma AuthorHolds(roles: map<int, Role>)
    requires ValidEnv(ENV) && 1 in roles && 2 in roles && roles[2] == SALES
    requires Grant("roles:manage", All) in roles[1].grants && roles[1].computed.None? && roles[1].attrs == map[]
    ensures EVERYWHERE in Build(ENV, LISTED, LookupIn(ENV, roles)).ClausesFor("roles:manage")
    ensures AT_THREE in Build(ENV, LISTED, LookupIn(ENV, roles)).ClausesFor("lead:view")
  {
    Chains();
    var lookup := LookupIn(ENV, roles);
    assert Yields(ENV, lookup, AT_ROOT, Grant("roles:manage", All), EVERYWHERE);
    assert Gives(ENV, lookup, LISTED[0], "roles:manage", EVERYWHERE);
    BuildClauses(ENV, LISTED, lookup, "roles:manage", EVERYWHERE);
    assert Yields(ENV, lookup, AT_DEALER, Grant("lead:view", All), AT_THREE);
    assert Gives(ENV, lookup, LISTED[1], "lead:view", AT_THREE);
    BuildClauses(ENV, LISTED, lookup, "lead:view", AT_THREE);
  }

  lemma WidenedIsValid()
    ensures ValidRole(ENV, WIDENED)
  {
    assert WIDENED.grants[0] == Grant("roles:manage", All) && WIDENED.grants[1] == Grant("lead:view", All);
  }

  lemma WidenedIsHeld()
    requires ValidEnv(ENV) && ValidRole(ENV, WIDENED)
    ensures HoldsAll(ENV, Build(ENV, LISTED, LookupIn(ENV, STORE.roles)), WIDENED)
  {
    AuthorHolds(STORE.roles);
    var eff := Build(ENV, LISTED, LookupIn(ENV, STORE.roles));
    forall g | g in WIDENED.grants ensures g.permission in ENV.cat && HoldsGrant(ENV, eff, WIDENED, g) {
      assert g.permission == "roles:manage" || g.permission == "lead:view";
      assert AttrsFor(ENV.cat[g.permission], WIDENED.attrs) == map[];
    }
  }

  // The change locks the author out of nothing.
  lemma WidenedKeepsAccess()
    requires ValidEnv(ENV)
    ensures var lookup := LookupIn(ENV, STORE.roles);
            KeepsAccess(ENV, Build(ENV, LISTED, lookup), LISTED, lookup, CONFIG.protected, 0, Some(WIDENED))
  {
    var lookup := LookupIn(ENV, STORE.roles);
    WithoutNone(LISTED);
    var changed := LookupIn(ENV, STORE.roles[1 := WIDENED]);
    BuildIsLocal(ENV, LISTED, Overriding(lookup, Some(WIDENED)), changed);
    AuthorHolds(STORE.roles[1 := WIDENED]);
  }

  lemma SaveIsAllowed(gate: Gate)
    ensures ValidEnv(ENV) && Allowed(ENV, CONFIG, gate, STORE, AUTHOR, LISTED, SAVE)
  {
    EnvOk();
    WidenedIsValid();
    WidenedIsHeld();
    WidenedKeepsAccess();
    AuthorHolds(STORE.roles);
    assert FeatureOn(ENV, gate, ENV.cat["roles:manage"], EVERYWHERE.scope, EVERYWHERE.chain);
  }

  // Before the save every clause the author holds leads by is at dealer 3.
  lemma ViewedAtDealer(d: Clause)
    requires ValidEnv(ENV) && HoldsClause(ENV, STORE, AUTHOR.subject, "lead:view", d)
    ensures d.scope == DEALER
  {
    var id :| id in STORE.bindings && Gives(ENV, LookupIn(ENV, STORE.roles), STORE.bindings[id], "lead:view", d);
    var g: Grant :| g.permission == "lead:view" && Yields(ENV, LookupIn(ENV, STORE.roles), STORE.bindings[id], g, d);
    assert id == 1 || id == 2;
  }

  // The save is allowed, and leaves the author holding the permission at the root, which
  // nothing the author held covers.
  lemma SaveReachesWider(gate: Gate)
    ensures ValidEnv(ENV) && ValidStore(STORE) && Lists(STORE, AUTHOR.subject, LISTED)
    ensures Allowed(ENV, CONFIG, gate, STORE, AUTHOR, LISTED, SAVE)
    ensures HoldsClause(ENV, After(STORE, SAVE), AUTHOR.subject, "lead:view", EVERYWHERE)
    ensures !NoWider(ENV, STORE, After(STORE, SAVE), AUTHOR.subject)
  {
    EnvOk();
    Chains();
    SaveIsAllowed(gate);
    var g := Grant("lead:view", All);
    assert WIDENED.grants[1] == g;
    assert GrantsAt(ENV, STORE, AUTHOR.subject, WIDENED, AT_ROOT, [ROOT], g);
    SavedGrantIsHeld(ENV, STORE, SAVE, AUTHOR.subject, AT_ROOT, [ROOT], g);
    assert ClauseOf(ENV, AT_ROOT, WIDENED, [ROOT], g) == EVERYWHERE;
    forall d | HoldsClause(ENV, STORE, AUTHOR.subject, "lead:view", d) ensures !Covers(d, EVERYWHERE) {
      ViewedAtDealer(d);
    }
    assert !HeldCovering(ENV, STORE, AUTHOR.subject, "lead:view", EVERYWHERE);
  }
}
