// The ways a permission is held (authz/effective.go, authz/qualifier.go,
// authz/access.go): which clause covers which, pruning, and which records a
// clause reaches.
module Clauses {
  import opened Wrappers
  import opened Scopes

  // Other stands for the values of the integer type that mean nothing.
  datatype Qualifier = Own | OwnLocation | All | Other(n: int)
  {
    predicate Valid() {
      !Other?
    }

    predicate Covers(other: Qualifier) {
      this == All || this == other
    }
  }

  type Attrs = map<string, seq<string>>

  datatype RoleRef = RoleRef(id: int, key: string)
  {
    predicate Valid() {
      (id > 0) != (key != "")
    }
  }

  // One way a permission is held. binding says which binding produced it.
  datatype Clause = Clause(scope: Scope, chain: seq<Scope>, qualifier: Qualifier, attrs: Attrs, binding: int)

  predicate Subset(narrow: seq<string>, wide: seq<string>) {
    forall n :: n in narrow ==> n in wide
  }

  // Constraints a allow at least what b allows.
  predicate AttrsCover(a: Attrs, b: Attrs) {
    forall key :: key in a ==> key in b && Subset(b[key], a[key])
  }

  predicate Covers(a: Clause, b: Clause) {
    a.scope in b.chain && a.qualifier.Covers(b.qualifier) && AttrsCover(a.attrs, b.attrs)
  }

  // A clause whose chain is the chain of its scope.
  ghost predicate Coherent(h: Hierarchy, res: Resolver, c: Clause)
    requires ValidHierarchy(h)
  {
    ChainOf(h, res, c.scope, []) == Chain(c.chain)
  }

  lemma CoversReflexive(h: Hierarchy, res: Resolver, c: Clause)
    requires ValidHierarchy(h) && Coherent(h, res, c)
    ensures Covers(c, c)
  {
    ClimbShape(h, res, [], c.scope, false);
  }

  lemma CoversTransitive(h: Hierarchy, res: Resolver, a: Clause, b: Clause, c: Clause)
    requires ValidHierarchy(h) && Coherent(h, res, b) && Coherent(h, res, c)
    requires Covers(a, b) && Covers(b, c)
    ensures Covers(a, c)
  {
    ChainsAreUpClosed(h, res, c.scope);
    assert a.scope in c.chain;
    forall key | key in a.attrs
      ensures key in c.attrs && Subset(c.attrs[key], a.attrs[key])
    {
      assert Subset(b.attrs[key], a.attrs[key]) && Subset(c.attrs[key], b.attrs[key]);
    }
  }

  // Pruning ------------------------------------------------------------------------

  // Clause j makes clause i redundant: it covers it, and of two that cover each
  // other the earlier one stays.
  predicate Beats(cs: seq<Clause>, j: int, i: int)
    requires 0 <= i < |cs| && 0 <= j < |cs|
  {
    j != i && Covers(cs[j], cs[i]) && !(Covers(cs[i], cs[j]) && i < j)
  }

  predicate Redundant(cs: seq<Clause>, i: int)
    requires 0 <= i < |cs|
  {
    exists j :: 0 <= j < |cs| && Beats(cs, j, i)
  }

  function Kept(cs: seq<Clause>, n: nat): seq<Clause>
    requires n <= |cs|
  {
    if n == 0 then [] else Kept(cs, n - 1) + if Redundant(cs, n - 1) then [] else [cs[n - 1]]
  }

  // prune: the clauses no other one makes redundant, in order. A clause stays exactly
  // when whatever covers it comes later and is covered in turn.
  method Prune(cs: seq<Clause>) returns (out: seq<Clause>)
    ensures out == Kept(cs, |cs|)
    ensures forall c :: c in out <==>
              exists i :: && 0 <= i < |cs| && cs[i] == c
                          && forall j :: 0 <= j < |cs| && j != i && Covers(cs[j], c) ==> i < j && Covers(c, cs[j])
  {
    out := KeepEach(cs);
    forall c ensures c in out <==>
                     exists i :: && 0 <= i < |cs| && cs[i] == c
                                 && forall j :: 0 <= j < |cs| && j != i && Covers(cs[j], c) ==> i < j && Covers(c, cs[j])
    {
      StaysIff(cs, c);
    }
  }

  lemma StaysIff(cs: seq<Clause>, c: Clause)
    ensures c in Kept(cs, |cs|) <==>
            exists i :: && 0 <= i < |cs| && cs[i] == c
                        && forall j :: 0 <= j < |cs| && j != i && Covers(cs[j], c) ==> i < j && Covers(c, cs[j])
  {
    KeptMembers(cs, |cs|, c);
    if c in Kept(cs, |cs|) {
      var i :| 0 <= i < |cs| && cs[i] == c && !Redundant(cs, i);
      forall j | 0 <= j < |cs| && j != i && Covers(cs[j], c) ensures i < j && Covers(c, cs[j]) {
        assert !Beats(cs, j, i);
      }
    }
    if i :| && 0 <= i < |cs| && cs[i] == c
            && forall j :: 0 <= j < |cs| && j != i && Covers(cs[j], c) ==> i < j && Covers(c, cs[j]) {
      assert !Redundant(cs, i);
    }
  }

  method KeepEach(cs: seq<Clause>) returns (out: seq<Clause>)
    ensures out == Kept(cs, |cs|)
  {
    out := [];
    for i := 0 to |cs|
      invariant out == Kept(cs, i)
    {
      var redundant := false;
      for j := 0 to |cs|
        invariant !redundant && forall k :: 0 <= k < j ==> !Beats(cs, k, i)
      {
        if i == j || !Covers(cs[j], cs[i]) {
          continue;
        }
        if Covers(cs[i], cs[j]) && i < j {
          continue;
        }
        redundant := true;
        assert Beats(cs, j, i);
        break;
      }
      if !redundant {
        out := out + [cs[i]];
      }
    }
  }

  lemma {:induction false} KeptMembers(cs: seq<Clause>, n: nat, c: Clause)
    requires n <= |cs|
    ensures c in Kept(cs, n) <==> exists i :: 0 <= i < n && cs[i] == c && !Redundant(cs, i)
  {
    if n > 0 {
      KeptMembers(cs, n - 1, c);
    }
  }

  // The clauses that beat a clause.
  ghost function Above(cs: seq<Clause>, i: int): set<int>
    requires 0 <= i < |cs|
  {
    set j | 0 <= j < |cs| && Beats(cs, j, i)
  }

  lemma BeatsTransitive(h: Hierarchy, res: Resolver, cs: seq<Clause>, k: int, j: int, i: int)
    requires ValidHierarchy(h) && forall c :: c in cs ==> Coherent(h, res, c)
    requires 0 <= i < |cs| && 0 <= j < |cs| && 0 <= k < |cs| && Beats(cs, k, j) && Beats(cs, j, i)
    ensures Beats(cs, k, i)
  {
    CoversTransitive(h, res, cs[k], cs[j], cs[i]);
    if Covers(cs[i], cs[k]) {
      CoversTransitive(h, res, cs[i], cs[k], cs[j]);
      CoversTransitive(h, res, cs[j], cs[i], cs[k]);
    }
  }

  // Every clause is covered by a kept one.
  lemma {:induction false} PruneKeepsMeaning(h: Hierarchy, res: Resolver, cs: seq<Clause>, i: int)
    requires ValidHierarchy(h) && (forall c :: c in cs ==> Coherent(h, res, c)) && 0 <= i < |cs|
    ensures exists k :: 0 <= k < |cs| && !Redundant(cs, k) && Covers(cs[k], cs[i])
    decreases Above(cs, i)
  {
    if !Redundant(cs, i) {
      CoversReflexive(h, res, cs[i]);
    } else {
      var j :| 0 <= j < |cs| && Beats(cs, j, i);
      forall k | k in Above(cs, j)
        ensures k in Above(cs, i)
      {
        BeatsTransitive(h, res, cs, k, j, i);
      }
      assert j in Above(cs, i) && j !in Above(cs, j);
      PruneKeepsMeaning(h, res, cs, j);
      var k :| 0 <= k < |cs| && !Redundant(cs, k) && Covers(cs[k], cs[j]);
      CoversTransitive(h, res, cs[k], cs[j], cs[i]);
    }
  }

  // No kept clause covers another.
  lemma KeptIsMinimal(cs: seq<Clause>, i: int, k: int)
    requires 0 <= i < |cs| && 0 <= k < |cs| && i != k && !Redundant(cs, i) && !Redundant(cs, k)
    ensures !Covers(cs[k], cs[i])
  {
    assert !Beats(cs, k, i) && !Beats(cs, i, k);
  }

  // Records --------------------------------------------------------------------------

  datatype Kind = User | ServiceAccount

  datatype Subject = Subject(kind: Kind, id: int)
  {
    predicate Valid() {
      id > 0
    }
  }

  datatype Principal = Principal(subject: Subject, location: int)

  datatype Resource = Resource(scope: Scope, ancestors: seq<Scope>, owner: int, coOwner: int, ownerLocation: int,
                               attrs: map<string, string>)

  // resourceChain: the record's place and its ancestors; an organization-wide
  // record is at the root, an unknown place is within nothing.
  function Places(h: Hierarchy, res: Resolver, r: Resource): seq<Scope>
    requires h.levels != [] && Distinct(h.levels)
  {
    if r.scope.IsZero() then [Root(h)]
    else
      var c := ChainOf(h, res, r.scope, r.ancestors);
      if c.Chain? then c.scopes else []
  }

  // matchRecord: the qualifier and the attributes of a clause against a record.
  predicate MatchRecord(c: Clause, p: Principal, unownedIsOwn: bool, r: Resource) {
    && (match c.qualifier
        case All => true
        case OwnLocation => p.location != 0 && r.ownerLocation == p.location
        case Own =>
          p.subject.kind == User &&
          (r.owner == p.subject.id || (r.coOwner != 0 && r.coOwner == p.subject.id) || (unownedIsOwn && r.owner == 0))
        case Other(_) => false)
    && forall key :: key in c.attrs ==> key in r.attrs && r.attrs[key] in c.attrs[key]
  }

  // The record lies within the clause's scope and the clause matches it.
  ghost predicate Reaches(h: Hierarchy, res: Resolver, c: Clause, p: Principal, unownedIsOwn: bool, r: Resource)
    requires ValidHierarchy(h)
  {
    (IsRoot(h, c.scope) || c.scope in Places(h, res, r)) && MatchRecord(c, p, unownedIsOwn, r)
  }

  // A covering clause reaches every record the covered one reaches.
  lemma CoversReaches(h: Hierarchy, res: Resolver, a: Clause, b: Clause, p: Principal, unownedIsOwn: bool, r: Resource)
    requires ValidHierarchy(h) && Coherent(h, res, b) && Covers(a, b)
    requires UpClosed(h, res, Places(h, res, r))
    requires Reaches(h, res, b, p, unownedIsOwn, r)
    ensures Reaches(h, res, a, p, unownedIsOwn, r)
  {
    ClimbShape(h, res, [], b.scope, false);
    forall key | key in a.attrs
      ensures key in r.attrs && r.attrs[key] in a.attrs[key]
    {
      assert Subset(b.attrs[key], a.attrs[key]);
    }
    if !IsRoot(h, b.scope) {
      assert a.scope in ChainOf(h, res, b.scope, []).scopes;
      assert a.scope in Places(h, res, r);
    }
  }

  // Covering is what reaching says it is --------------------------------------------------------

  // A record at the clause's own place with the attributes given.
  function RecordAt(c: Clause, owner: int, location: int, attrs: map<string, string>): Resource {
    Resource(c.scope, [], owner, 0, location, attrs)
  }

  // For each attribute the clause constrains, a value it allows.
  function SomeValues(c: Clause): map<string, string>
    requires forall key :: key in c.attrs ==> c.attrs[key] != []
  {
    map key | key in c.attrs :: c.attrs[key][0]
  }

  // The record is found by the second clause and not by the first.
  ghost predicate Tells(h: Hierarchy, res: Resolver, a: Clause, b: Clause, p: Principal, r: Resource)
    requires ValidHierarchy(h)
  {
    UpClosed(h, res, Places(h, res, r)) && Reaches(h, res, b, p, false, r) && !Reaches(h, res, a, p, false, r)
  }

  lemma AtOwnPlace(h: Hierarchy, res: Resolver, c: Clause, owner: int, location: int, attrs: map<string, string>)
    requires ValidHierarchy(h) && Coherent(h, res, c)
    ensures Places(h, res, RecordAt(c, owner, location, attrs)) == c.chain && c.scope in c.chain && UpClosed(h, res, c.chain)
  {
    ClimbShape(h, res, [], c.scope, false);
    ChainsAreUpClosed(h, res, c.scope);
  }

  lemma ScopeTells(h: Hierarchy, res: Resolver, a: Clause, b: Clause)
    requires ValidHierarchy(h) && Coherent(h, res, a) && Coherent(h, res, b) && b.qualifier.Valid()
    requires forall key :: key in b.attrs ==> b.attrs[key] != []
    requires a.scope !in b.chain
    ensures Tells(h, res, a, b, Principal(Subject(User, 1), 1), RecordAt(b, 1, 1, SomeValues(b)))
  {
    AtOwnPlace(h, res, b, 1, 1, SomeValues(b));
    ClimbShape(h, res, [], b.scope, false);
    LevelIndex(h, 0);
    assert b.chain[|b.chain| - 1] == Root(h);
  }

  lemma QualifierTells(h: Hierarchy, res: Resolver, a: Clause, b: Clause)
    requires ValidHierarchy(h) && Coherent(h, res, b) && b.qualifier.Valid() && a.qualifier != All && a.qualifier != b.qualifier
    requires forall key :: key in b.attrs ==> b.attrs[key] != []
    ensures Tells(h, res, a, b, Principal(Subject(User, 1), 1),
                  RecordAt(b, if b.qualifier == Own then 1 else 2, if b.qualifier == OwnLocation then 1 else 2, SomeValues(b)))
  {
    AtOwnPlace(h, res, b, if b.qualifier == Own then 1 else 2, if b.qualifier == OwnLocation then 1 else 2, SomeValues(b));
  }

  lemma AttrsTell(h: Hierarchy, res: Resolver, a: Clause, b: Clause, key: string)
    requires ValidHierarchy(h) && Coherent(h, res, b) && b.qualifier.Valid()
    requires forall k :: k in b.attrs ==> b.attrs[k] != []
    requires key in a.attrs && !(key in b.attrs && Subset(b.attrs[key], a.attrs[key]))
    ensures exists r :: Tells(h, res, a, b, Principal(Subject(User, 1), 1), r)
  {
    var attrs := SomeValues(b);
    if key in b.attrs {
      var v :| v in b.attrs[key] && v !in a.attrs[key];
      attrs := attrs[key := v];
    }
    AtOwnPlace(h, res, b, 1, 1, attrs);
    assert Tells(h, res, a, b, Principal(Subject(User, 1), 1), RecordAt(b, 1, 1, attrs));
  }

  // One clause covers another exactly when it reaches every record the other reaches, for
  // every principal: neither less, so that pruning drops what it can, nor more.
  lemma CoversIff(h: Hierarchy, res: Resolver, a: Clause, b: Clause)
    requires ValidHierarchy(h) && Coherent(h, res, a) && Coherent(h, res, b) && b.qualifier.Valid()
    requires forall key :: key in b.attrs ==> b.attrs[key] != []
    ensures Covers(a, b) <==>
            forall p, unownedIsOwn, r :: UpClosed(h, res, Places(h, res, r)) && Reaches(h, res, b, p, unownedIsOwn, r) ==>
              Reaches(h, res, a, p, unownedIsOwn, r)
  {
    if Covers(a, b) {
      forall p, unownedIsOwn, r | UpClosed(h, res, Places(h, res, r)) && Reaches(h, res, b, p, unownedIsOwn, r)
        ensures Reaches(h, res, a, p, unownedIsOwn, r)
      {
        CoversReaches(h, res, a, b, p, unownedIsOwn, r);
      }
    } else if a.scope !in b.chain {
      ScopeTells(h, res, a, b);
    } else if !a.qualifier.Covers(b.qualifier) {
      QualifierTells(h, res, a, b);
    } else {
      var key :| key in a.attrs && !(key in b.attrs && Subset(b.attrs[key], a.attrs[key]));
      AttrsTell(h, res, a, b, key);
      var r :| Tells(h, res, a, b, Principal(Subject(User, 1), 1), r);
    }
  }
}
