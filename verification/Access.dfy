// RequireOn and Access (authz/access.go, authz/features.go): a record check and
// the list filter agree, and a pinned subject never leaves its tenant.
module Access {
  import opened Wrappers
  import opened Scopes
  import opened Clauses
  import opened Engine

  // The feature resolver: whether a tenant has a feature.
  type Gate = (Scope, string) -> bool

  // featureOn: the permission's gate, asked about the tenant on the chain or
  // else the fallback.
  predicate FeatureOn(env: Env, gate: Gate, perm: Permission, fallback: Scope, chain: seq<Scope>) {
    perm.feature == "" ||
    gate(match TenantOf(env.h, chain) case Some(t) => t case None => fallback, perm.feature)
  }

  // A clause lets the principal at the record.
  predicate Passes(env: Env, gate: Gate, p: Principal, perm: Permission, r: Resource, c: Clause)
    requires env.h.levels != [] && Distinct(env.h.levels)
  {
    var places := Places(env.h, env.resolver, r);
    && ((IsRoot(env.h, c.scope) && perm.feature == "") || c.scope in places)
    && MatchRecord(c, p, perm.unownedIsOwn, r)
    && if r.scope.IsZero() then FeatureOn(env, gate, perm, c.scope, c.chain) else FeatureOn(env, gate, perm, r.scope, places)
  }

  // What each part of a clause asks of a record.
  lemma PassesAsks(env: Env, gate: Gate, p: Principal, perm: Permission, r: Resource, c: Clause)
    requires ValidEnv(env) && Passes(env, gate, p, perm, r, c)
    ensures c.qualifier == Own ==>
              && p.subject.kind == User
              && (r.owner == p.subject.id || (r.coOwner != 0 && r.coOwner == p.subject.id) || (perm.unownedIsOwn && r.owner == 0))
    ensures c.qualifier == OwnLocation ==> p.location != 0 && r.ownerLocation == p.location
    ensures c.qualifier == Own || c.qualifier == OwnLocation || c.qualifier == All
    ensures forall key :: key in c.attrs ==> key in r.attrs && r.attrs[key] in c.attrs[key]
    ensures c.scope.level == env.h.levels[0] || c.scope in Places(env.h, env.resolver, r)
    ensures perm.feature != "" ==> c.scope in Places(env.h, env.resolver, r)
    ensures perm.feature != "" && !r.scope.IsZero() ==>
              match TenantOf(env.h, Places(env.h, env.resolver, r))
              case Some(t) => gate(t, perm.feature)
              case None => gate(r.scope, perm.feature)
    ensures perm.feature != "" && r.scope.IsZero() ==>
              match TenantOf(env.h, c.chain)
              case Some(t) => gate(t, perm.feature)
              case None => gate(c.scope, perm.feature)
  {
  }

  // And what is enough for it at the root, without a feature.
  lemma PassesAtRoot(env: Env, gate: Gate, p: Principal, perm: Permission, r: Resource, c: Clause)
    requires ValidEnv(env) && perm.feature == "" && c.scope.level == env.h.levels[0]
    requires forall key :: key in c.attrs ==> key in r.attrs && r.attrs[key] in c.attrs[key]
    requires || c.qualifier == All
             || (c.qualifier == OwnLocation && p.location != 0 && r.ownerLocation == p.location)
             || (c.qualifier == Own && p.subject.kind == User &&
                 (r.owner == p.subject.id || (r.coOwner != 0 && r.coOwner == p.subject.id) || (perm.unownedIsOwn && r.owner == 0)))
    ensures Passes(env, gate, p, perm, r, c)
  {
  }

  lemma PassesAtPlace(env: Env, gate: Gate, p: Principal, perm: Permission, r: Resource, c: Clause)
    requires ValidEnv(env) && c.qualifier == All && c.attrs == map[] && c.scope in Places(env.h, env.resolver, r)
    requires forall t :: gate(t, perm.feature)
    ensures Passes(env, gate, p, perm, r, c)
  {
  }

  // RequireOn. Held as Own, a permission reaches a user's own records and nobody else's;
  // held at the own location, those of that location; the attributes of a record must lie
  // within what some clause allows; and the place of the record within its scope.
  method RequireOn(env: Env, gate: Gate, p: Principal, perm: Permission, clauses: seq<Clause>, r: Resource) returns (ok: bool)
    requires ValidEnv(env)
    ensures ok <==> exists c :: c in clauses && Passes(env, gate, p, perm, r, c)
    ensures ok && (forall c :: c in clauses ==> c.qualifier == Own) ==>
              && p.subject.kind == User
              && (r.owner == p.subject.id || (r.coOwner != 0 && r.coOwner == p.subject.id) || (perm.unownedIsOwn && r.owner == 0))
    ensures ok && (forall c :: c in clauses ==> c.qualifier == OwnLocation) ==> p.location != 0 && r.ownerLocation == p.location
    ensures (forall c :: c in clauses ==> exists key :: key in c.attrs && !(key in r.attrs && r.attrs[key] in c.attrs[key])) ==> !ok
    ensures (forall c :: c in clauses ==> c.qualifier.Other?) ==> !ok
    ensures (forall c :: c in clauses ==> c.scope.level != env.h.levels[0] && c.scope !in Places(env.h, env.resolver, r)) ==> !ok
    ensures perm.feature != "" && (forall t :: !gate(t, perm.feature)) ==> !ok
    ensures perm.feature != "" && !r.scope.IsZero() && ok ==>
              match TenantOf(env.h, Places(env.h, env.resolver, r))
              case Some(t) => gate(t, perm.feature)
              case None => gate(r.scope, perm.feature)
    ensures forall c :: c in clauses && perm.feature == "" && c.scope.level == env.h.levels[0] ==>
              (forall key :: key in c.attrs ==> key in r.attrs && r.attrs[key] in c.attrs[key]) ==>
                && (c.qualifier == All ==> ok)
                && (c.qualifier == OwnLocation && p.location != 0 && r.ownerLocation == p.location ==> ok)
                && (c.qualifier == Own && p.subject.kind == User && r.owner == p.subject.id ==> ok)
                && (c.qualifier == Own && p.subject.kind == User && r.coOwner != 0 && r.coOwner == p.subject.id ==> ok)
                && (c.qualifier == Own && p.subject.kind == User && perm.unownedIsOwn && r.owner == 0 ==> ok)
    ensures (forall t :: gate(t, perm.feature)) ==>
              forall c :: c in clauses && c.qualifier == All && c.attrs == map[] && c.scope in Places(env.h, env.resolver, r) ==> ok
  {
    ok := AnyPasses(env, gate, p, perm, clauses, r);
    if ok {
      ghost var c :| c in clauses && Passes(env, gate, p, perm, r, c);
      PassesAsks(env, gate, p, perm, r, c);
    }
    forall c | c in clauses && perm.feature == "" && c.scope.level == env.h.levels[0] && (forall key :: key in c.attrs ==> key in r.attrs && r.attrs[key] in c.attrs[key]) &&
        (|| c.qualifier == All
         || (c.qualifier == OwnLocation && p.location != 0 && r.ownerLocation == p.location)
         || (c.qualifier == Own && p.subject.kind == User &&
             (r.owner == p.subject.id || (r.coOwner != 0 && r.coOwner == p.subject.id) || (perm.unownedIsOwn && r.owner == 0))))
      ensures ok
    {
      PassesAtRoot(env, gate, p, perm, r, c);
    }
    forall c | c in clauses && c.qualifier == All && c.attrs == map[] && c.scope in Places(env.h, env.resolver, r) && forall t :: gate(t, perm.feature)
      ensures ok
    {
      PassesAtPlace(env, gate, p, perm, r, c);
    }
  }

  // Its loop: the record's chain is resolved at most once, and only when a clause needs it.
  method AnyPasses(env: Env, gate: Gate, p: Principal, perm: Permission, clauses: seq<Clause>, r: Resource) returns (ok: bool)
    requires ValidEnv(env)
    ensures ok <==> exists c :: c in clauses && Passes(env, gate, p, perm, r, c)
  {
    var resChain: seq<Scope> := [];
    var chainDone := false;
    for i := 0 to |clauses|
      invariant chainDone ==> resChain == Places(env.h, env.resolver, r)
      invariant forall c :: c in clauses[..i] ==> !Passes(env, gate, p, perm, r, c)
    {
      var c := clauses[i];
      assert clauses[..i + 1] == clauses[..i] + [c];
      if !IsRoot(env.h, c.scope) || perm.feature != "" {
        if !chainDone {
          chainDone := true;
          resChain := ResourceChain(env, r);
        }
        if c.scope !in resChain {
          continue;
        }
      }
      if !MatchRecord(c, p, perm.unownedIsOwn, r) {
        continue;
      }
      var fallback, chain := c.scope, c.chain;
      if chainDone && !r.scope.IsZero() {
        fallback, chain := r.scope, resChain;
      }
      if FeatureOn(env, gate, perm, fallback, chain) {
        assert Passes(env, gate, p, perm, r, c);
        return true;
      }
    }
    assert clauses[..|clauses|] == clauses;
    return false;
  }

  method ResourceChain(env: Env, r: Resource) returns (places: seq<Scope>)
    requires ValidEnv(env)
    ensures places == Places(env.h, env.resolver, r)
    ensures r.scope.IsZero() ==> places == [Scope(env.h.levels[0], 0)]
    ensures !r.scope.IsZero() && ChainOf(env.h, env.resolver, r.scope, r.ancestors).Chain? ==>
              places == ChainOf(env.h, env.resolver, r.scope, r.ancestors).scopes
    ensures !r.scope.IsZero() && !ChainOf(env.h, env.resolver, r.scope, r.ancestors).Chain? ==> places == []
  {
    if r.scope.IsZero() {
      return [Root(env.h)];
    }
    var chain := ResolveChain(env.h, env.resolver, r.scope, r.ancestors);
    return if chain.Chain? then chain.scopes else [];
  }

  // The clauses whose own gate is open.
  function Open(env: Env, gate: Gate, perm: Permission, clauses: seq<Clause>): seq<Clause> {
    if clauses == [] then []
    else
      var last := clauses[|clauses| - 1];
      Open(env, gate, perm, clauses[..|clauses| - 1]) + if FeatureOn(env, gate, perm, last.scope, last.chain) then [last] else []
  }

  // A clause is open when its permission has no feature, or the gate says yes for the
  // tenant of its chain, or for its scope when that has none.
  lemma {:induction false} OpenMembers(env: Env, gate: Gate, perm: Permission, clauses: seq<Clause>, c: Clause)
    ensures c in Open(env, gate, perm, clauses) <==>
            && c in clauses
            && (perm.feature == "" ||
                match TenantOf(env.h, c.chain)
                case Some(t) => gate(t, perm.feature)
                case None => gate(c.scope, perm.feature))
  {
    if clauses != [] {
      OpenMembers(env, gate, perm, clauses[..|clauses| - 1], c);
      assert clauses == clauses[..|clauses| - 1] + [clauses[|clauses| - 1]];
    }
  }

  // Access: gated clauses removed, covered ones pruned.
  method AccessSet(env: Env, gate: Gate, perm: Permission, clauses: seq<Clause>) returns (set_: seq<Clause>)
    ensures var open := Open(env, gate, perm, clauses); set_ == Kept(open, |open|)
    ensures forall c :: c in set_ ==>
              && c in clauses
              && (perm.feature == "" ||
                  match TenantOf(env.h, c.chain)
                  case Some(t) => gate(t, perm.feature)
                  case None => gate(c.scope, perm.feature))
  {
    var open := [];
    for i := 0 to |clauses|
      invariant open == Open(env, gate, perm, clauses[..i])
    {
      assert clauses[..i + 1][..i] == clauses[..i];
      if FeatureOn(env, gate, perm, clauses[i].scope, clauses[i].chain) {
        open := open + [clauses[i]];
      }
    }
    assert clauses[..|clauses|] == clauses;
    set_ := Prune(open);
    forall c | c in set_ ensures c in open {
      KeptMembers(open, |open|, c);
    }
    forall c {
      OpenMembers(env, gate, perm, clauses, c);
    }
  }

  lemma {:induction false} UngatedIsOpen(env: Env, gate: Gate, perm: Permission, clauses: seq<Clause>)
    requires perm.feature == ""
    ensures Open(env, gate, perm, clauses) == clauses
  {
    if clauses != [] {
      UngatedIsOpen(env, gate, perm, clauses[..|clauses| - 1]);
    }
  }

  // The list agrees with the record check ---------------------------------------------------

  // Some clause of a list reaches the record.
  ghost predicate Reached(h: Hierarchy, res: Resolver, cs: seq<Clause>, p: Principal, unownedIsOwn: bool, r: Resource)
    requires ValidHierarchy(h)
  {
    exists c :: c in cs && Reaches(h, res, c, p, unownedIsOwn, r)
  }

  // Filtering by the pruned clauses finds the record exactly when the unpruned
  // ones let the principal at it.
  ghost predicate Agree(h: Hierarchy, res: Resolver, cs: seq<Clause>, p: Principal, unownedIsOwn: bool, r: Resource)
    requires ValidHierarchy(h)
  {
    Reached(h, res, cs, p, unownedIsOwn, r) <==> Reached(h, res, Kept(cs, |cs|), p, unownedIsOwn, r)
  }

  ghost predicate AllCoherent(h: Hierarchy, res: Resolver, cs: seq<Clause>)
    requires ValidHierarchy(h)
  {
    forall c :: c in cs ==> Coherent(h, res, c)
  }

  lemma PruningReaches(h: Hierarchy, res: Resolver, cs: seq<Clause>, p: Principal, unownedIsOwn: bool, r: Resource, i: int)
    requires ValidHierarchy(h) && AllCoherent(h, res, cs) && UpClosed(h, res, Places(h, res, r))
    requires 0 <= i < |cs| && Reaches(h, res, cs[i], p, unownedIsOwn, r)
    ensures Reached(h, res, Kept(cs, |cs|), p, unownedIsOwn, r)
  {
    PruneKeepsMeaning(h, res, cs, i);
    var k :| 0 <= k < |cs| && !Redundant(cs, k) && Covers(cs[k], cs[i]);
    CoversReaches(h, res, cs[k], cs[i], p, unownedIsOwn, r);
    KeptMembers(cs, |cs|, cs[k]);
  }

  lemma PruningAgrees(h: Hierarchy, res: Resolver, cs: seq<Clause>, p: Principal, unownedIsOwn: bool, r: Resource)
    requires ValidHierarchy(h) && AllCoherent(h, res, cs) && UpClosed(h, res, Places(h, res, r))
    ensures Agree(h, res, cs, p, unownedIsOwn, r)
  {
    forall i | 0 <= i < |cs| && Reaches(h, res, cs[i], p, unownedIsOwn, r)
      ensures Reached(h, res, Kept(cs, |cs|), p, unownedIsOwn, r)
    {
      PruningReaches(h, res, cs, p, unownedIsOwn, r, i);
    }
    forall c | c in Kept(cs, |cs|)
      ensures c in cs
    {
      KeptMembers(cs, |cs|, c);
    }
  }

  // For a permission without a feature, RequireOn passes on a record exactly when
  // some clause of Access reaches it, if the record's places hold the ancestors of each.
  lemma ListAgreesWithRecord(env: Env, gate: Gate, p: Principal, perm: Permission, bs: seq<Binding>, lookup: Lookup, r: Resource)
    requires ValidEnv(env) && perm.feature == "" && UpClosed(env.h, env.resolver, Places(env.h, env.resolver, r))
    ensures var clauses := Build(env, bs, lookup).ClausesFor(perm.id);
            var open := Open(env, gate, perm, clauses);
            (exists c :: c in clauses && Passes(env, gate, p, perm, r, c)) <==>
            Reached(env.h, env.resolver, Kept(open, |open|), p, perm.unownedIsOwn, r)
  {
    var clauses := Build(env, bs, lookup).ClausesFor(perm.id);
    UngatedIsOpen(env, gate, perm, clauses);
    forall c | c in clauses
      ensures Coherent(env.h, env.resolver, c)
      ensures Passes(env, gate, p, perm, r, c) <==> Reaches(env.h, env.resolver, c, p, perm.unownedIsOwn, r)
    {
      BuiltIsCoherent(env, bs, lookup, perm.id, c);
    }
    PruningAgrees(env.h, env.resolver, clauses, p, perm.unownedIsOwn, r);
  }

  // They do for an organization-wide record, whatever ancestors it carries, and for
  // one whose ancestors are true or left to the resolver.
  lemma TruthfulIsUpClosed(h: Hierarchy, res: Resolver, r: Resource)
    requires ValidHierarchy(h) && (r.scope.IsZero() || Truthful(h, res, r.scope, r.ancestors))
    ensures UpClosed(h, res, Places(h, res, r))
  {
    if r.scope.IsZero() {
      RootIsUpClosed(h, res);
    } else {
      KnownAncestorsAgree(h, res, r.scope, r.ancestors);
      if ChainOf(h, res, r.scope, []).Chain? {
        ChainsAreUpClosed(h, res, r.scope);
      }
    }
  }

  lemma RootIsUpClosed(h: Hierarchy, res: Resolver)
    requires ValidHierarchy(h)
    ensures UpClosed(h, res, [Root(h)])
  {
    LevelIndex(h, 0);
  }

  // Of two clauses, one at a place and one at its ancestor, pruning keeps the
  // ancestor's alone.
  lemma AncestorAlone(h: Hierarchy, res: Resolver, x: Scope, i: nat)
    requires ValidHierarchy(h) && ChainOf(h, res, x, []).Chain? && 0 < i < |ChainOf(h, res, x, []).scopes|
    ensures var chain := ChainOf(h, res, x, []).scopes;
            var low, high := Clause(x, chain, All, map[], 0), Clause(chain[i], chain[i..], All, map[], 0);
            AllCoherent(h, res, [low, high]) && forall c :: c in Kept([low, high], 2) ==> c == high
  {
    var chain := ChainOf(h, res, x, []).scopes;
    ClimbShape(h, res, [], x, false);
    ChainSuffix(h, res, x, i);
    var low, high := Clause(x, chain, All, map[], 0), Clause(chain[i], chain[i..], All, map[], 0);
    assert forall j :: i <= j < |chain| ==> chain[j].level != chain[0].level;
    assert x !in chain[i..];
    assert Covers(high, low) && !Covers(low, high);
    assert Beats([low, high], 1, 0);
    assert Redundant([low, high], 0);
    assert Kept([low, high], 1) == [];
  }

  // A clause at a place of the record and one at its ancestor.
  function At(chain: seq<Scope>, i: nat): Clause
    requires i < |chain|
  {
    Clause(chain[i], chain[i..], All, map[], 0)
  }

  // A record place whose ancestor is missing makes pruning drop the only clause that
  // reaches the record, and the two come apart.
  lemma MissingAncestorDisagrees(h: Hierarchy, res: Resolver, r: Resource, p: Principal, unownedIsOwn: bool, x: Scope, i: nat)
    requires ValidHierarchy(h) && x in Places(h, res, r) && ChainOf(h, res, x, []).Chain?
    requires var chain := ChainOf(h, res, x, []).scopes; i < |chain| && chain[i] !in Places(h, res, r)
    ensures var chain := ChainOf(h, res, x, []).scopes;
            && 0 < |chain|
            && AllCoherent(h, res, [At(chain, 0), At(chain, i)])
            && !Agree(h, res, [At(chain, 0), At(chain, i)], p, unownedIsOwn, r)
  {
    var chain := ChainOf(h, res, x, []).scopes;
    ClimbShape(h, res, [], x, false);
    assert chain[0..] == chain;
    AncestorAlone(h, res, x, i);
    RootIsAPlace(h, res, r);
    NonPlaceUnreached(h, res, r, p, unownedIsOwn, At(chain, 0), At(chain, i));
  }

  lemma NonPlaceUnreached(h: Hierarchy, res: Resolver, r: Resource, p: Principal, unownedIsOwn: bool, low: Clause, high: Clause)
    requires ValidHierarchy(h) && low.scope in Places(h, res, r) && high.scope !in Places(h, res, r)
    requires Check(h, high.scope) && Root(h) in Places(h, res, r)
    requires low.qualifier == high.qualifier == All && low.attrs == high.attrs == map[]
    requires AllCoherent(h, res, [low, high]) && forall c :: c in Kept([low, high], 2) ==> c == high
    ensures !Agree(h, res, [low, high], p, unownedIsOwn, r)
  {
    LevelIndex(h, 0);
    assert !Reaches(h, res, high, p, unownedIsOwn, r);
    assert low in [low, high] && Reaches(h, res, low, p, unownedIsOwn, r);
  }

  // A record that has a place at all has the root among its places.
  lemma RootIsAPlace(h: Hierarchy, res: Resolver, r: Resource)
    requires ValidHierarchy(h) && Places(h, res, r) != []
    ensures Root(h) in Places(h, res, r)
  {
    if !r.scope.IsZero() {
      ClimbShape(h, res, r.ancestors, r.scope, false);
      LevelIndex(h, 0);
      var c := Places(h, res, r);
      assert c[|c| - 1].level == h.levels[0];
    }
  }

  lemma NotUpClosedDisagrees(h: Hierarchy, res: Resolver, r: Resource, p: Principal)
    requires ValidHierarchy(h) && !UpClosed(h, res, Places(h, res, r))
    ensures exists cs :: AllCoherent(h, res, cs) && !Agree(h, res, cs, p, false, r)
  {
    var x, a :| x in Places(h, res, r) && ChainOf(h, res, x, []).Chain? && a in ChainOf(h, res, x, []).scopes && a !in Places(h, res, r);
    var i: nat :| i < |ChainOf(h, res, x, []).scopes| && ChainOf(h, res, x, []).scopes[i] == a;
    MissingAncestorDisagrees(h, res, r, p, false, x, i);
  }

  // Exactly then do list and record check agree for every set of clauses: when
  // the record's places hold the ancestors of each.
  lemma AgreementIff(h: Hierarchy, res: Resolver, r: Resource)
    requires ValidHierarchy(h)
    ensures UpClosed(h, res, Places(h, res, r)) <==>
            forall cs, p, unownedIsOwn :: AllCoherent(h, res, cs) ==> Agree(h, res, cs, p, unownedIsOwn, r)
  {
    if UpClosed(h, res, Places(h, res, r)) {
      forall cs, p, unownedIsOwn | AllCoherent(h, res, cs)
        ensures Agree(h, res, cs, p, unownedIsOwn, r)
      {
        PruningAgrees(h, res, cs, p, unownedIsOwn, r);
      }
    } else {
      NotUpClosedDisagrees(h, res, r, Principal(Subject(User, 1), 0));
    }
  }

  // One such record: location 7 lies in dealer 3, and the record says dealer 4.
  const DEALERS: Hierarchy := Hierarchy(["o", "d", "l"], "d")

  function InDealerThree(s: Scope): Option<Scope> {
    if s.level == "l" then Some(Scope("d", 3)) else Some(Scope("o", 0))
  }

  lemma DealersOk()
    ensures ValidHierarchy(DEALERS)
    ensures Depth(DEALERS, "o") == 0 && Depth(DEALERS, "d") == 1 && Depth(DEALERS, "l") == 2
  {
    assert DEALERS.levels[0] == "o" && DEALERS.levels[1] == "d" && DEALERS.levels[2] == "l";
    assert DEALERS.levels[1] in DEALERS.levels[1..];
    LevelIndex(DEALERS, 0);
    LevelIndex(DEALERS, 1);
    LevelIndex(DEALERS, 2);
  }

  lemma DealerChains()
    requires ValidHierarchy(DEALERS)
    ensures ChainOf(DEALERS, InDealerThree, Scope("l", 7), []) == Chain([Scope("l", 7), Scope("d", 3), Scope("o", 0)])
    ensures ChainOf(DEALERS, InDealerThree, Scope("l", 7), [Scope("d", 4)]) == Chain([Scope("l", 7), Scope("d", 4), Scope("o", 0)])
  {
    DealersOk();
    var none: seq<Scope>, said := [], [Scope("d", 4)];
    assert Climb(DEALERS, InDealerThree, none, Scope("d", 3), false) == Chain([Scope("d", 3), Scope("o", 0)]);
    assert Climb(DEALERS, InDealerThree, said, Scope("d", 4), true) == Chain([Scope("d", 4), Scope("o", 0)]);
  }

  lemma FalseAncestorDisagrees(p: Principal)
    ensures ValidHierarchy(DEALERS)
    ensures var r := Resource(Scope("l", 7), [Scope("d", 4)], 0, 0, 0, map[]);
            var chain := [Scope("l", 7), Scope("d", 3), Scope("o", 0)];
            !Agree(DEALERS, InDealerThree, [At(chain, 0), At(chain, 1)], p, false, r)
  {
    DealersOk();
    DealerChains();
    var r := Resource(Scope("l", 7), [Scope("d", 4)], 0, 0, 0, map[]);
    assert Places(DEALERS, InDealerThree, r) == [Scope("l", 7), Scope("d", 4), Scope("o", 0)];
    MissingAncestorDisagrees(DEALERS, InDealerThree, r, p, false, Scope("l", 7), 1);
  }

  // The tenant wall ------------------------------------------------------------------------------

  // When Effective.Tenant answers t, every record a clause passes has tenant t on
  // its chain.
  lemma TenantWall(env: Env, gate: Gate, p: Principal, perm: Permission, bs: seq<Binding>, lookup: Lookup, r: Resource, c: Clause)
    requires ValidEnv(env) && UpClosed(env.h, env.resolver, Places(env.h, env.resolver, r))
    requires c in Build(env, bs, lookup).ClausesFor(perm.id) && Passes(env, gate, p, perm, r, c)
    requires Build(env, bs, lookup).Tenant().Some?
    ensures TenantOf(env.h, Places(env.h, env.resolver, r)) == Some(Scope(env.h.tenant, Build(env, bs, lookup).Tenant().value))
  {
    var eff, places := Build(env, bs, lookup), Places(env.h, env.resolver, r);
    BuildClauses(env, bs, lookup, perm.id, c);
    var b :| b in bs && Gives(env, lookup, b, perm.id, c);
    BuildPins(env, bs, lookup, b, perm.id, c);
    SoleMember(eff.tenants);
    assert !IsRoot(env.h, c.scope);
    var t := TenantOf(env.h, c.chain).value;
    assert t in places;
    OneTenantPerRecord(env.h, env.resolver, r, t);
  }

  // On a chain, the scope of a level is the one FindLevel finds.
  lemma OneAtLevel(h: Hierarchy, c: seq<Scope>, t: Scope)
    requires ValidHierarchy(h) && t in c && LevelByLevel(h, c[0], c)
    ensures FindLevel(c, t.level) == Some(t)
  {
    var found := FindLevel(c, t.level);
    var i: nat :| i < |c| && c[i] == t;
    var j: nat :| j < |c| && c[j] == found.value;
    OneScopePerLevel(h, c, i, j);
  }

  lemma OneTenantPerRecord(h: Hierarchy, res: Resolver, r: Resource, t: Scope)
    requires ValidHierarchy(h) && h.tenant != "" && t in Places(h, res, r) && t.level == h.tenant
    ensures TenantOf(h, Places(h, res, r)) == Some(t)
  {
    if !r.scope.IsZero() {
      ClimbShape(h, res, r.ancestors, r.scope, false);
      OneAtLevel(h, Places(h, res, r), t);
    }
  }
}
