// Places and how they nest (authz/hierarchy.go): scopes, chains of ancestors and
// containment.
module Scopes {
  import opened Wrappers

  datatype Scope = Scope(level: string, id: int)
  {
    predicate IsZero() {
      level == "" && id == 0
    }
  }

  // The levels, root first, and the tenant level ("" for none).
  datatype Hierarchy = Hierarchy(levels: seq<string>, tenant: string)

  // What NewHierarchy and WithTenantLevel accept.
  ghost predicate ValidHierarchy(h: Hierarchy) {
    && |h.levels| >= 1 && Distinct(h.levels) && "" !in h.levels
    && (h.tenant == "" || h.tenant in h.levels[1..])
  }

  // The application's resolver: the scope one level up, if the scope exists.
  type Resolver = Scope -> Option<Scope>

  datatype Chained = Chain(scopes: seq<Scope>) | InvalidScope | ScopeNotFound

  function IndexOf(levels: seq<string>, level: string): (i: int)
    ensures if level in levels then 0 <= i < |levels| && levels[i] == level else i == -1
  {
    if levels == [] then -1
    else if levels[|levels| - 1] == level then |levels| - 1
    else IndexOf(levels[..|levels| - 1], level)
  }

  function Depth(h: Hierarchy, level: string): int {
    IndexOf(h.levels, level)
  }

  function Root(h: Hierarchy): Scope
    requires h.levels != []
  {
    Scope(h.levels[0], 0)
  }

  predicate IsRoot(h: Hierarchy, s: Scope)
    requires h.levels != []
  {
    s.level == h.levels[0]
  }

  // A known level, an id of zero at the root and a positive one below it.
  predicate Check(h: Hierarchy, s: Scope) {
    var d := Depth(h, s.level);
    d >= 0 && (d == 0 ==> s.id == 0) && (d > 0 ==> s.id > 0)
  }

  function FindLevel(scopes: seq<Scope>, level: string): (r: Option<Scope>)
    ensures r.Some? ==> r.value in scopes && r.value.level == level
    ensures r.None? ==> forall s :: s in scopes ==> s.level != level
  {
    if scopes == [] then None
    else if scopes[0].level == level then Some(scopes[0])
    else FindLevel(scopes[1..], level)
  }

  datatype Step = Up(to: Scope, fromKnown: bool) | Wrong | Missing

  // One step up from cur: a known ancestor at the level above, the root above a
  // known scope, or else what the resolver says.
  function StepUp(h: Hierarchy, res: Resolver, known: seq<Scope>, cur: Scope, curKnown: bool): (u: Step)
    requires h.levels != [] && Check(h, cur) && !IsRoot(h, cur) && forall k :: k in known ==> Check(h, k)
    requires Distinct(h.levels)
    ensures u.Up? ==> Check(h, u.to) && Depth(h, u.to.level) == Depth(h, cur.level) - 1
  {
    var want := h.levels[Depth(h, cur.level) - 1];
    var found := FindLevel(known, want);
    if found.Some? then Up(found.value, true)
    else if curKnown && want == h.levels[0] then Up(Root(h), true)
    else
      match res(cur)
      case None => Missing
      case Some(p) => if p.level != want || !Check(h, p) then Wrong else Up(p, false)
  }

  // The rest of a chain, from cur up; known ancestors spare the resolver.
  function Climb(h: Hierarchy, res: Resolver, known: seq<Scope>, cur: Scope, curKnown: bool): Chained
    requires h.levels != [] && Distinct(h.levels) && Check(h, cur) && forall k :: k in known ==> Check(h, k)
    decreases Depth(h, cur.level)
  {
    if IsRoot(h, cur) then Chain([cur])
    else
      match StepUp(h, res, known, cur, curKnown)
      case Missing => ScopeNotFound
      case Wrong => InvalidScope
      case Up(to, fromKnown) => Above(cur, Climb(h, res, known, to, fromKnown))
  }

  function Above(s: Scope, rest: Chained): Chained {
    if rest.Chain? then Chain([s] + rest.scopes) else rest
  }

  function ChainOf(h: Hierarchy, res: Resolver, s: Scope, known: seq<Scope>): Chained
    requires h.levels != [] && Distinct(h.levels)
  {
    if !Check(h, s) || exists k :: k in known && !Check(h, k) then InvalidScope else Climb(h, res, known, s, false)
  }

  // Hierarchy.Chain, with its loop below.
  method ResolveChain(h: Hierarchy, res: Resolver, s: Scope, known: seq<Scope>) returns (r: Chained)
    requires ValidHierarchy(h)
    ensures r == ChainOf(h, res, s, known)
    ensures known == [] ==> forall c :: r == Chain(c) <==> IsChain(h, res, s, c)
  {
    forall c {
      ChainIff(h, res, s, c);
    }
    r := ClimbUp(h, res, s, known);
  }

  // The scope above, from the known ancestors or the resolver.
  method NextUp(h: Hierarchy, res: Resolver, known: seq<Scope>, cur: Scope, curKnown: bool) returns (up: Step)
    requires ValidHierarchy(h) && Check(h, cur) && !IsRoot(h, cur) && forall k :: k in known ==> Check(h, k)
    ensures up == StepUp(h, res, known, cur, curKnown)
  {
    var want := h.levels[Depth(h, cur.level) - 1];
    var next := FindLevel(known, want);
    if next.None? && curKnown && want == h.levels[0] {
      next := Some(Root(h));
    }
    if next.Some? {
      return Up(next.value, true);
    }
    next := res(cur);
    if next.None? {
      return Missing;
    }
    if next.value.level != want || !Check(h, next.value) {
      return Wrong;
    }
    return Up(next.value, false);
  }

  method ClimbUp(h: Hierarchy, res: Resolver, s: Scope, known: seq<Scope>) returns (r: Chained)
    requires ValidHierarchy(h)
    ensures r == ChainOf(h, res, s, known)
  {
    if !Check(h, s) {
      return InvalidScope;
    }
    for i := 0 to |known|
      invariant forall j :: 0 <= j < i ==> Check(h, known[j])
    {
      if !Check(h, known[i]) {
        return InvalidScope;
      }
    }
    var chain := [];
    var cur, curKnown := s, false;
    while !IsRoot(h, cur)
      invariant Check(h, cur)
      invariant ChainOf(h, res, s, known) == Beneath(chain, Climb(h, res, known, cur, curKnown))
      decreases Depth(h, cur.level)
    {
      var up := NextUp(h, res, known, cur, curKnown);
      if up.Missing? {
        return ScopeNotFound;
      }
      if up.Wrong? {
        return InvalidScope;
      }
      BeneathAbove(chain, cur, Climb(h, res, known, up.to, up.fromKnown));
      chain := chain + [cur];
      cur, curKnown := up.to, up.fromKnown;
    }
    return Chain(chain + [cur]);
  }

  ghost function Beneath(below: seq<Scope>, rest: Chained): Chained {
    if rest.Chain? then Chain(below + rest.scopes) else rest
  }

  lemma BeneathAbove(below: seq<Scope>, s: Scope, rest: Chained)
    ensures Beneath(below, Above(s, rest)) == Beneath(below + [s], rest)
  {
    if rest.Chain? {
      assert below + ([s] + rest.scopes) == (below + [s]) + rest.scopes;
    }
  }

  // Shape and coherence ------------------------------------------------------------

  // A chain names one valid scope per level, from its own level up to the root.
  ghost predicate LevelByLevel(h: Hierarchy, s: Scope, c: seq<Scope>)
    requires h.levels != []
  {
    && Check(h, s) && |c| == Depth(h, s.level) + 1 && c[0] == s
    && forall i :: 0 <= i < |c| ==> c[i].level == h.levels[|c| - 1 - i] && Check(h, c[i])
  }

  lemma {:induction false} ClimbShape(h: Hierarchy, res: Resolver, known: seq<Scope>, cur: Scope, curKnown: bool)
    requires ValidHierarchy(h) && Check(h, cur) && forall k :: k in known ==> Check(h, k)
    requires Climb(h, res, known, cur, curKnown).Chain?
    ensures LevelByLevel(h, cur, Climb(h, res, known, cur, curKnown).scopes)
    decreases Depth(h, cur.level)
  {
    if !IsRoot(h, cur) {
      var up := StepUp(h, res, known, cur, curKnown);
      ClimbShape(h, res, known, up.to, up.fromKnown);
      ShapeAbove(h, cur, up.to, Climb(h, res, known, up.to, up.fromKnown).scopes);
    } else {
      LevelIndex(h, 0);
    }
  }

  lemma ShapeAbove(h: Hierarchy, s: Scope, up: Scope, c: seq<Scope>)
    requires ValidHierarchy(h) && Check(h, s) && LevelByLevel(h, up, c) && Depth(h, s.level) == Depth(h, up.level) + 1
    ensures LevelByLevel(h, s, [s] + c)
  {
  }

  lemma LevelIndex(h: Hierarchy, d: nat)
    requires Distinct(h.levels) && d < |h.levels|
    ensures Depth(h, h.levels[d]) == d
  {
  }

  // A chain of more than its scope goes on with the chain of the scope above.
  lemma ClimbNext(h: Hierarchy, res: Resolver, known: seq<Scope>, cur: Scope, curKnown: bool)
    requires ValidHierarchy(h) && Check(h, cur) && (forall k :: k in known ==> Check(h, k))
    requires var c := Climb(h, res, known, cur, curKnown); c.Chain? && 1 < |c.scopes|
    ensures !IsRoot(h, cur) && StepUp(h, res, known, cur, curKnown).Up?
    ensures var up := StepUp(h, res, known, cur, curKnown);
            var rest := Climb(h, res, known, up.to, up.fromKnown);
            rest.Chain? && rest.scopes != [] && rest.scopes[0] == up.to && Climb(h, res, known, cur, curKnown).scopes == [cur] + rest.scopes
  {
    var up := StepUp(h, res, known, cur, curKnown);
    ClimbShape(h, res, known, up.to, up.fromKnown);
  }

  // The chain of any scope on a chain is the rest of that chain.
  lemma {:induction false} ChainSuffix(h: Hierarchy, res: Resolver, s: Scope, i: nat)
    requires ValidHierarchy(h) && ChainOf(h, res, s, []).Chain? && i < |ChainOf(h, res, s, []).scopes|
    ensures var c := ChainOf(h, res, s, []).scopes; ChainOf(h, res, c[i], []) == Chain(c[i..])
    decreases i
  {
    var c := ChainOf(h, res, s, []).scopes;
    if i == 0 {
      ClimbShape(h, res, [], s, false);
      assert c[0..] == c;
    } else {
      ClimbNext(h, res, [], s, false);
      var up := StepUp(h, res, [], s, false).to;
      var rest := ChainOf(h, res, up, []).scopes;
      assert c == [s] + rest;
      ChainSuffix(h, res, up, i - 1);
      assert c[i] == rest[i - 1] && c[i..] == rest[i - 1..];
    }
  }

  // The known ancestors of a scope are truthful: each is one.
  ghost predicate Truthful(h: Hierarchy, res: Resolver, s: Scope, known: seq<Scope>)
    requires ValidHierarchy(h)
  {
    known == [] || (ChainOf(h, res, s, []).Chain? && forall k :: k in known ==> k in ChainOf(h, res, s, []).scopes)
  }

  // On a chain, a step up with truthful known ancestors leads to the next scope.
  lemma KnownStep(h: Hierarchy, res: Resolver, known: seq<Scope>, full: seq<Scope>, i: nat, curKnown: bool)
    requires ValidHierarchy(h) && i + 1 < |full| && LevelByLevel(h, full[0], full)
    requires forall k :: k in known ==> k in full && Check(h, k)
    requires Check(h, full[i]) && !IsRoot(h, full[i]) && res(full[i]) == Some(full[i + 1])
    ensures StepUp(h, res, known, full[i], curKnown).Up? && StepUp(h, res, known, full[i], curKnown).to == full[i + 1]
  {
    LevelIndex(h, |full| - 1 - i);
    LevelIndex(h, |full| - 2 - i);
    var want := h.levels[Depth(h, full[i].level) - 1];
    assert full[i + 1].level == want;
    var found := FindLevel(known, want);
    if found.Some? {
      var j :| 0 <= j < |full| && full[j] == found.value;
      OneScopePerLevel(h, full, j, i + 1);
    }
  }

  lemma {:induction false} KnownClimb(h: Hierarchy, res: Resolver, known: seq<Scope>, full: seq<Scope>, i: nat, curKnown: bool)
    requires ValidHierarchy(h) && i < |full| && LevelByLevel(h, full[0], full)
    requires forall j :: 0 <= j < |full| - 1 ==> res(full[j]) == Some(full[j + 1])
    requires forall k :: k in known ==> k in full && Check(h, k)
    ensures Climb(h, res, known, full[i], curKnown) == Chain(full[i..])
    decreases |full| - i
  {
    assert full[i..] == [full[i]] + full[i + 1..];
    assert IsRoot(h, full[i]) <==> i == |full| - 1 by {
      LevelIndex(h, |full| - 1 - i);
      LevelIndex(h, 0);
    }
    if i < |full| - 1 {
      KnownStep(h, res, known, full, i, curKnown);
      KnownClimb(h, res, known, full, i + 1, StepUp(h, res, known, full[i], curKnown).fromKnown);
      ClimbOn(h, res, known, full[i], curKnown, full[i + 1..]);
    }
  }

  lemma ClimbOn(h: Hierarchy, res: Resolver, known: seq<Scope>, cur: Scope, curKnown: bool, rest: seq<Scope>)
    requires ValidHierarchy(h) && Check(h, cur) && !IsRoot(h, cur) && (forall k :: k in known ==> Check(h, k))
    requires var up := StepUp(h, res, known, cur, curKnown); up.Up? && Climb(h, res, known, up.to, up.fromKnown) == Chain(rest)
    ensures Climb(h, res, known, cur, curKnown) == Chain([cur] + rest)
  {
  }

  // Along a chain the resolver leads from each scope to the next.
  lemma ChainNext(h: Hierarchy, res: Resolver, full: seq<Scope>, i: nat)
    requires ValidHierarchy(h) && i + 1 < |full| && ChainOf(h, res, full[0], []) == Chain(full)
    requires Check(h, full[i]) && !IsRoot(h, full[i])
    ensures res(full[i]) == Some(full[i + 1])
  {
    ChainSuffix(h, res, full[0], i);
    var up := StepUp(h, res, [], full[i], false);
    assert Chain(full[i..]) == Above(full[i], Climb(h, res, [], up.to, up.fromKnown));
    var rest := Climb(h, res, [], up.to, up.fromKnown);
    ClimbShape(h, res, [], up.to, up.fromKnown);
    assert full[i..][1] == rest.scopes[0];
  }

  lemma OneScopePerLevel(h: Hierarchy, c: seq<Scope>, i: nat, j: nat)
    requires ValidHierarchy(h) && i < |c| && j < |c| && c[i].level == c[j].level
    requires LevelByLevel(h, c[0], c)
    ensures i == j
  {
  }

  // A scope is well formed: a known level, an id of zero at the root and a positive one below.
  lemma CheckIff(h: Hierarchy, s: Scope)
    requires ValidHierarchy(h)
    ensures Check(h, s) <==> s.level in h.levels && (s.level == h.levels[0] ==> s.id == 0) && (s.level != h.levels[0] ==> s.id > 0)
  {
    LevelIndex(h, 0);
  }

  // The chain of a scope, from the resolver's answers alone: it starts there, has one well
  // formed scope for each level up to the root, and each is what the resolver says of the
  // one before.
  ghost predicate IsChain(h: Hierarchy, res: Resolver, s: Scope, c: seq<Scope>) {
    && 0 < |c| <= |h.levels| && c[0] == s
    && (forall i :: 0 <= i < |c| ==> c[i].level == h.levels[|c| - 1 - i] && (if i == |c| - 1 then c[i].id == 0 else c[i].id > 0))
    && (forall i :: 0 <= i < |c| - 1 ==> res(c[i]) == Some(c[i + 1]))
  }

  lemma IsChainShape(h: Hierarchy, res: Resolver, s: Scope, c: seq<Scope>)
    requires ValidHierarchy(h) && IsChain(h, res, s, c)
    ensures LevelByLevel(h, s, c)
  {
    forall i | 0 <= i < |c| ensures c[i].level == h.levels[|c| - 1 - i] && Depth(h, c[i].level) == |c| - 1 - i {
      LevelIndex(h, |c| - 1 - i);
    }
  }

  lemma ChainIsChain(h: Hierarchy, res: Resolver, s: Scope)
    requires ValidHierarchy(h) && ChainOf(h, res, s, []).Chain?
    ensures IsChain(h, res, s, ChainOf(h, res, s, []).scopes)
  {
    var c := ChainOf(h, res, s, []).scopes;
    ClimbShape(h, res, [], s, false);
    forall i | 0 <= i < |c| ensures Depth(h, c[i].level) == |c| - 1 - i {
      LevelIndex(h, |c| - 1 - i);
    }
    forall i | 0 <= i < |c| - 1 ensures res(c[i]) == Some(c[i + 1]) {
      ChainNext(h, res, c, i);
    }
  }

  // Resolving a scope finds its chain exactly when it has one.
  lemma ChainIff(h: Hierarchy, res: Resolver, s: Scope, c: seq<Scope>)
    requires ValidHierarchy(h)
    ensures ChainOf(h, res, s, []) == Chain(c) <==> IsChain(h, res, s, c)
  {
    if IsChain(h, res, s, c) {
      IsChainShape(h, res, s, c);
      KnownClimb(h, res, [], c, 0, false);
      assert c[0..] == c;
    }
    if ChainOf(h, res, s, []) == Chain(c) {
      ChainIsChain(h, res, s);
    }
  }

  // And otherwise says why not: a malformed scope, a parent that is missing, one that is
  // not the level above, or whatever is wrong further up.
  lemma ChainFails(h: Hierarchy, res: Resolver, s: Scope)
    requires ValidHierarchy(h)
    ensures !(s.level in h.levels && (s.level == h.levels[0] ==> s.id == 0) && (s.level != h.levels[0] ==> s.id > 0)) ==>
              ChainOf(h, res, s, []) == InvalidScope
    ensures Check(h, s) && s.level != h.levels[0] && res(s).None? ==> ChainOf(h, res, s, []) == ScopeNotFound
    ensures Check(h, s) && s.level != h.levels[0] && res(s).Some? && !ChainOf(h, res, s, []).Chain? ==>
              var p := res(s).value;
              ChainOf(h, res, s, []) == if Depth(h, p.level) + 1 == Depth(h, s.level) then ChainOf(h, res, p, []) else InvalidScope
  {
    CheckIff(h, s);
    if Check(h, s) && s.level != h.levels[0] && res(s).Some? {
      LevelIndex(h, Depth(h, s.level) - 1);
      NoneKnown(h, res, res(s).value);
    }
  }

  // With no known ancestors it does not matter whether the scope was one.
  lemma {:induction false} NoneKnown(h: Hierarchy, res: Resolver, s: Scope)
    requires ValidHierarchy(h)
    ensures Check(h, s) ==> ChainOf(h, res, s, []) == Climb(h, res, [], s, false)
  {
  }

  // An ancestor the caller supplies is taken, whatever the resolver says.
  lemma {:induction false} KnownIsTaken(h: Hierarchy, res: Resolver, known: seq<Scope>, cur: Scope, curKnown: bool, i: nat)
    requires ValidHierarchy(h) && Check(h, cur) && (forall k :: k in known ==> Check(h, k))
    requires var c := Climb(h, res, known, cur, curKnown); c.Chain? && 0 < i < |c.scopes|
    ensures var c := Climb(h, res, known, cur, curKnown).scopes;
            FindLevel(known, c[i].level).Some? ==> c[i] == FindLevel(known, c[i].level).value
    decreases Depth(h, cur.level)
  {
    ClimbNext(h, res, known, cur, curKnown);
    var up := StepUp(h, res, known, cur, curKnown);
    if i > 1 {
      KnownIsTaken(h, res, known, up.to, up.fromKnown, i - 1);
    } else {
      KnownIsUp(h, res, known, cur, curKnown);
    }
  }

  lemma KnownIsUp(h: Hierarchy, res: Resolver, known: seq<Scope>, cur: Scope, curKnown: bool)
    requires ValidHierarchy(h) && Check(h, cur) && !IsRoot(h, cur) && (forall k :: k in known ==> Check(h, k))
    ensures var up := StepUp(h, res, known, cur, curKnown);
            up.Up? && FindLevel(known, up.to.level).Some? ==> up.to == FindLevel(known, up.to.level).value
  {
  }

  lemma {:induction false} KnownClimbAlone(h: Hierarchy, res: Resolver, other: Resolver, known: seq<Scope>, cur: Scope, curKnown: bool)
    requires ValidHierarchy(h) && Check(h, cur) && (forall k :: k in known ==> Check(h, k))
    requires forall d :: 0 < d < Depth(h, cur.level) ==> FindLevel(known, h.levels[d]).Some?
    requires Depth(h, cur.level) == 1 ==> curKnown || FindLevel(known, h.levels[0]).Some?
    ensures Climb(h, res, known, cur, curKnown).Chain?
    ensures Climb(h, res, known, cur, curKnown) == Climb(h, other, known, cur, curKnown)
    decreases Depth(h, cur.level)
  {
    LevelIndex(h, 0);
    if !IsRoot(h, cur) {
      var up := StepUp(h, res, known, cur, curKnown);
      assert up.Up? && up.fromKnown && up == StepUp(h, other, known, cur, curKnown);
      KnownClimbAlone(h, res, other, known, up.to, true);
    }
  }

  // With every ancestor known down from the one below the root, the chain needs no
  // resolver: whatever a resolver says, it is there and the same.
  lemma KnownSparesResolver(h: Hierarchy, res: Resolver, other: Resolver, s: Scope, known: seq<Scope>)
    requires ValidHierarchy(h) && Check(h, s) && (forall k :: k in known ==> Check(h, k)) && Depth(h, s.level) > 1
    requires forall d :: 0 < d < Depth(h, s.level) ==> exists k :: k in known && k.level == h.levels[d]
    ensures ChainOf(h, res, s, known).Chain? && ChainOf(h, res, s, known) == ChainOf(h, other, s, known)
  {
    KnownClimbAlone(h, res, other, known, s, false);
  }

  // Truthful known ancestors only spare the resolver: the chain is the same.
  lemma KnownAncestorsAgree(h: Hierarchy, res: Resolver, s: Scope, known: seq<Scope>)
    requires ValidHierarchy(h) && Truthful(h, res, s, known)
    ensures ChainOf(h, res, s, known) == ChainOf(h, res, s, [])
  {
    if known != [] {
      var full := ChainOf(h, res, s, []).scopes;
      ClimbShape(h, res, [], s, false);
      forall j | 0 <= j < |full| - 1
        ensures res(full[j]) == Some(full[j + 1])
      {
        LevelIndex(h, |full| - 1 - j);
        ChainNext(h, res, full, j);
      }
      KnownClimb(h, res, known, full, 0, false);
      assert full[0..] == full;
    }
  }

  // A list of places that holds the ancestors of each of its places.
  ghost predicate UpClosed(h: Hierarchy, res: Resolver, places: seq<Scope>)
    requires ValidHierarchy(h)
  {
    forall x, a :: x in places && ChainOf(h, res, x, []).Chain? && a in ChainOf(h, res, x, []).scopes ==> a in places
  }

  lemma ChainsAreUpClosed(h: Hierarchy, res: Resolver, s: Scope)
    requires ValidHierarchy(h) && ChainOf(h, res, s, []).Chain?
    ensures UpClosed(h, res, ChainOf(h, res, s, []).scopes)
  {
    var c := ChainOf(h, res, s, []).scopes;
    forall x, a | x in c && ChainOf(h, res, x, []).Chain? && a in ChainOf(h, res, x, []).scopes
      ensures a in c
    {
      var i :| 0 <= i < |c| && c[i] == x;
      ChainSuffix(h, res, s, i);
    }
  }

  // The tenant scope on a chain, if the hierarchy has a tenant level.
  function TenantOf(h: Hierarchy, c: seq<Scope>): Option<Scope> {
    if h.tenant == "" then None else FindLevel(c, h.tenant)
  }

  // The tenant of a chain is its one scope at the tenant level.
  lemma TenantOnChain(h: Hierarchy, res: Resolver, s: Scope, c: seq<Scope>, t: Scope)
    requires ValidHierarchy(h) && IsChain(h, res, s, c)
    ensures TenantOf(h, c) == Some(t) <==> h.tenant != "" && t in c && t.level == h.tenant
  {
    IsChainShape(h, res, s, c);
    if t in c && t.level == h.tenant && TenantOf(h, c).Some? {
      var i, j :| 0 <= i < |c| && c[i] == t && 0 <= j < |c| && c[j] == TenantOf(h, c).value;
      OneScopePerLevel(h, c, i, j);
    }
  }
}
