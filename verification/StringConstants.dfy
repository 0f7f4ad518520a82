// The string constants of a module (archtest/rules_permissions.go): resolved pass
// after pass, each pass in whatever order the map yields, until nothing changes.
module StringConstants {
  import opened Wrappers

  // A package-level constant: its package's directory and its name.
  datatype Key = Key(dir: string, name: string)

  // What a constant is defined as: a basic literal (a string or not), a constant of its
  // package, a constant of an imported one, or anything else.
  datatype Expr = Lit(text: Option<string>) | Name(name: string) | Qualified(alias: string, name: string) | Other

  // The declarations of the module, with the imports of each directory by alias.
  datatype Decls = Decls(exprs: map<Key, Expr>, imports: map<string, map<string, string>>)

  // The constant an expression of the directory refers to.
  function Target(d: Decls, dir: string, e: Expr): Option<Key> {
    match e
    case Name(name) => Some(Key(dir, name))
    case Qualified(alias, name) =>
      if dir in d.imports && alias in d.imports[dir] then Some(Key(d.imports[dir][alias], name)) else None
    case _ => None
  }

  // resolveString: the value of an expression, as far as the constants are known.
  function Resolve(d: Decls, dir: string, e: Expr, consts: map<Key, string>): Option<string> {
    match e
    case Lit(text) => text
    case Name(name) => Get(consts, Key(dir, name))
    case Qualified(alias, name) =>
      if dir in d.imports && alias in d.imports[dir] then Get(consts, Key(d.imports[dir][alias], name)) else None
    case Other => None
  }

  // Each constant of the chain is defined as the next, and the last as the string.
  ghost predicate Chain(d: Decls, c: seq<Key>, v: string) {
    && c != []
    && c[0] in d.exprs
    && if |c| == 1 then d.exprs[c[0]] == Lit(Some(v))
       else Target(d, c[0].dir, d.exprs[c[0]]) == Some(c[1]) && Chain(d, c[1..], v)
  }

  ghost predicate EndsIn(d: Decls, k: Key, v: string) {
    exists c :: Chain(d, c, v) && c[0] == k
  }

  lemma {:induction false} ChainIsUnique(d: Decls, c: seq<Key>, v: string, c': seq<Key>, v': string)
    requires Chain(d, c, v) && Chain(d, c', v') && c[0] == c'[0]
    ensures c == c' && v == v'
  {
    if |c| > 1 {
      ChainIsUnique(d, c[1..], v, c'[1..], v');
      assert c == [c[0]] + c[1..] && c' == [c'[0]] + c'[1..];
    }
  }

  lemma {:induction false} ChainSuffix(d: Decls, c: seq<Key>, v: string, i: nat)
    requires Chain(d, c, v) && i < |c|
    ensures Chain(d, c[i..], v)
  {
    if i == 0 {
      assert c[0..] == c;
    } else {
      ChainSuffix(d, c[1..], v, i - 1);
      assert c[1..][i - 1..] == c[i..];
    }
  }

  // The resolution ---------------------------------------------------------------------------

  // Every value known is the end of its constant's chain and what its definition gives.
  ghost predicate Sound(d: Decls, consts: map<Key, string>) {
    forall k :: k in consts ==>
      k in d.exprs && Resolve(d, k.dir, d.exprs[k], consts) == Some(consts[k]) && EndsIn(d, k, consts[k])
  }

  // Nothing more can be resolved.
  predicate Stable(d: Decls, consts: map<Key, string>) {
    forall k :: k in d.exprs && k !in consts ==> Resolve(d, k.dir, d.exprs[k], consts).None?
  }

  // The map holds exactly the constants whose chain ends in a string, with that string.
  ghost predicate Exact(d: Decls, consts: map<Key, string>) {
    forall k, v :: k in consts && consts[k] == v <==> EndsIn(d, k, v)
  }

  lemma ReferenceEndsIn(d: Decls, k: Key, t: Key, v: string)
    requires k in d.exprs && Target(d, k.dir, d.exprs[k]) == Some(t) && EndsIn(d, t, v)
    ensures EndsIn(d, k, v)
  {
    var c :| Chain(d, c, v) && c[0] == t;
    assert ([k] + c)[1..] == c;
    assert Chain(d, [k] + c, v);
  }

  lemma AddKeepsSound(d: Decls, consts: map<Key, string>, k: Key)
    requires Sound(d, consts) && k in d.exprs && k !in consts
    requires Resolve(d, k.dir, d.exprs[k], consts).Some?
    ensures Sound(d, consts[k := Resolve(d, k.dir, d.exprs[k], consts).value])
  {
    var v := Resolve(d, k.dir, d.exprs[k], consts).value;
    if d.exprs[k].Lit? {
      assert Chain(d, [k], v);
    } else {
      var t := Target(d, k.dir, d.exprs[k]).value;
      assert EndsIn(d, t, consts[t]);
      ReferenceEndsIn(d, k, t, v);
    }
  }

  // One pass over the declarations, in any order; later ones see what it has found.
  method Pass(d: Decls, before: map<Key, string>) returns (consts: map<Key, string>, changed: bool)
    requires Sound(d, before)
    ensures Sound(d, consts) && before.Keys <= consts.Keys
    ensures changed ==> before.Keys < consts.Keys
    ensures !changed ==> consts == before && Stable(d, consts)
  {
    consts, changed := before, false;
    var todo := d.exprs.Keys;
    while todo != {}
      invariant todo <= d.exprs.Keys
      invariant Sound(d, consts) && before.Keys <= consts.Keys
      invariant changed ==> before.Keys < consts.Keys
      invariant !changed ==> consts == before
      invariant !changed ==>
                  forall k :: k in d.exprs.Keys - todo && k !in consts ==> Resolve(d, k.dir, d.exprs[k], consts).None?
      decreases todo
    {
      var k :| k in todo;
      todo := todo - {k};
      if k !in consts {
        var value := Resolve(d, k.dir, d.exprs[k], consts);
        if value.Some? {
          AddKeepsSound(d, consts, k);
          consts, changed := consts[k := value.value], true;
        }
      }
    }
  }

  // Along every chain to a string a stable map knows each constant.
  lemma {:induction false} ChainIsKnown(d: Decls, consts: map<Key, string>, c: seq<Key>, v: string)
    requires Sound(d, consts) && Stable(d, consts) && Chain(d, c, v)
    ensures c[0] in consts && consts[c[0]] == v
  {
    if |c| > 1 {
      ChainIsKnown(d, consts, c[1..], v);
      assert Resolve(d, c[0].dir, d.exprs[c[0]], consts) == Some(v);
    }
  }

  lemma StableIsExact(d: Decls, consts: map<Key, string>)
    requires Sound(d, consts) && Stable(d, consts)
    ensures Exact(d, consts)
  {
    forall k, v | EndsIn(d, k, v) ensures k in consts && consts[k] == v {
      var c :| Chain(d, c, v) && c[0] == k;
      ChainIsKnown(d, consts, c, v);
    }
  }

  // stringConstants: the loop ends, and the result does not depend on the order taken.
  // Of each constant it holds what its definition says.
  method StringConstants(d: Decls) returns (consts: map<Key, string>)
    ensures Exact(d, consts)
    ensures forall k :: k in d.exprs ==>
              Get(consts, k) == match d.exprs[k]
                                case Lit(text) => text
                                case Name(name) => Get(consts, Key(k.dir, name))
                                case Qualified(alias, name) =>
                                  if k.dir in d.imports && alias in d.imports[k.dir] then Get(consts, Key(d.imports[k.dir][alias], name)) else None
                                case Other => None
    ensures forall k :: k in consts ==> k in d.exprs
  {
    consts := map[];
    var changed := true;
    while changed
      invariant Sound(d, consts)
      invariant !changed ==> Stable(d, consts)
      decreases d.exprs.Keys - consts.Keys, changed
    {
      ghost var before := consts;
      consts, changed := Pass(d, consts);
      assert consts.Keys <= d.exprs.Keys;
      assert before.Keys <= d.exprs.Keys;
    }
    StableIsExact(d, consts);
  }

  lemma OrderDoesNotMatter(d: Decls, a: map<Key, string>, b: map<Key, string>)
    requires Exact(d, a) && Exact(d, b)
    ensures a == b
  {
    forall k ensures k in a <==> k in b {
      assert k in a ==> EndsIn(d, k, a[k]);
      assert k in b ==> EndsIn(d, k, b[k]);
    }
    forall k | k in a ensures a[k] == b[k] {
      assert EndsIn(d, k, a[k]);
    }
  }

  // Each constant of the walk refers to the next.
  ghost predicate Refers(d: Decls, p: seq<Key>) {
    forall i: nat {:trigger p[i]} :: i + 1 < |p| ==> p[i] in d.exprs && Target(d, p[i].dir, d.exprs[p[i]]) == Some(p[i + 1])
  }

  lemma {:induction false} ChainFollows(d: Decls, c: seq<Key>, v: string, p: seq<Key>, i: nat)
    requires Chain(d, c, v) && p != [] && Refers(d, p) && c[0] == p[0] && i < |p|
    ensures i < |c| && c[i] == p[i]
  {
    if i > 0 {
      ChainFollows(d, c, v, p, i - 1);
      ChainSuffix(d, c, v, i - 1);
      assert p[i - 1] in d.exprs && Target(d, p[i - 1].dir, d.exprs[p[i - 1]]) == Some(p[i]);
      assert c[i - 1..][0] == p[i - 1];
      assert c[i - 1..][1..] == c[i..];
    }
  }

  // No chain to a string passes a constant twice.
  lemma NoReturn(d: Decls, c: seq<Key>, v: string, p: seq<Key>, i: nat, j: nat)
    requires Chain(d, c, v) && Refers(d, p) && i <= j < |p| && c[0] == p[0] && p[i] == p[j]
    ensures i == j
  {
    ChainFollows(d, c, v, p, i);
    ChainFollows(d, c, v, p, j);
    ChainSuffix(d, c, v, i);
    ChainSuffix(d, c, v, j);
    ChainIsUnique(d, c[i..], v, c[j..], v);
  }

  // A constant whose definitions run into a cycle stays unresolved.
  lemma CyclicIsUnresolved(d: Decls, consts: map<Key, string>, p: seq<Key>, i: nat, j: nat)
    requires Exact(d, consts) && Refers(d, p) && i < j < |p| && p[i] == p[j]
    ensures p[0] !in consts
  {
    forall c, v ensures !(Chain(d, c, v) && c[0] == p[0]) {
      if Chain(d, c, v) && c[0] == p[0] {
        NoReturn(d, c, v, p, i, j);
      }
    }
    assert p[0] in consts ==> EndsIn(d, p[0], consts[p[0]]);
  }
}
