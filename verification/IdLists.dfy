// What ORDER BY id ASC and LIMIT make of a set of ids.
module IdLists {

  ghost predicate Ascends(s: seq<nat>) {
    forall i, j :: 0 <= i < j < |s| ==> s[i] < s[j]
  }

  // Searching downwards from any member of a set ends at its least.
  lemma {:induction false} LeastExists(s: set<nat>, from: nat)
    requires from in s
    ensures exists m :: m in s && forall x :: x in s ==> m <= x
    decreases from
  {
    if x :| x in s && x < from {
      LeastExists(s, x);
    }
  }

  function Least(s: set<nat>): (m: nat)
    requires s != {}
    ensures m in s && forall x :: x in s ==> m <= x
  {
    var from :| from in s;
    LeastExists(s, from);
    var m :| m in s && forall x :: x in s ==> m <= x;
    m
  }

  // The ids of a set, ascending.
  function Ascending(s: set<nat>): (r: seq<nat>)
    ensures Ascends(r) && |r| == |s|
    ensures forall x :: x in r <==> x in s
  {
    if s == {} then []
    else
      var m := Least(s);
      [m] + Ascending(s - {m})
  }

  // A prefix of an ascending list holds less than the rest.
  lemma PrefixIsLess(all: seq<nat>, n: nat, x: nat, y: nat)
    requires Ascends(all) && n <= |all| && x in all[..n] && y in all && y !in all[..n]
    ensures x < y
  {
    var i :| 0 <= i < n && all[..n][i] == x;
    var j :| 0 <= j < |all| && all[j] == y;
    assert forall k :: 0 <= k < n ==> all[k] in all[..n];
    assert j >= n;
  }

  // The first limit ids of a set, ascending.
  function FirstIds(s: set<nat>, limit: nat): (r: seq<nat>)
    ensures Ascends(r) && |r| == (if |s| <= limit then |s| else limit)
    ensures forall x :: x in r ==> x in s
    ensures forall x, y :: x in r && y in s && y !in r ==> x < y
  {
    var all := Ascending(s);
    var n := if |all| <= limit then |all| else limit;
    assert forall x, y :: x in all[..n] && y in s && y !in all[..n] ==> x < y by {
      forall x, y | x in all[..n] && y in s && y !in all[..n] ensures x < y {
        PrefixIsLess(all, n, x, y);
      }
    }
    all[..n]
  }

  // An ascending list is determined by what it holds.
  lemma {:induction false} AscendsUnique(a: seq<nat>, b: seq<nat>)
    requires Ascends(a) && Ascends(b) && forall x :: x in a <==> x in b
    ensures a == b
  {
    assert b != [] ==> b[0] in a;
    if a != [] {
      assert a[0] in b;
      assert b[0] in a;
      assert a[0] == b[0];
      forall x
        ensures x in a[1..] <==> x in b[1..]
      {
        assert x in a <==> x == a[0] || x in a[1..];
        assert x in b <==> x == b[0] || x in b[1..];
        assert a[0] !in a[1..] && b[0] !in b[1..];
      }
      AscendsUnique(a[1..], b[1..]);
      assert a == [a[0]] + a[1..] && b == [b[0]] + b[1..];
    }
  }

  lemma AscendsSnoc(s: seq<nat>, x: nat)
    requires Ascends(s) && forall d :: d in s ==> d < x
    ensures Ascends(s + [x])
  {
    forall i | 0 <= i < |s|
      ensures s[i] < x
    {
      assert s[i] in s;
    }
  }

  lemma AscendsCons(x: nat, s: seq<nat>)
    requires Ascends(s) && forall d :: d in s ==> x < d
    ensures Ascends([x] + s)
  {
    forall i | 0 <= i < |s|
      ensures x < s[i]
    {
      assert s[i] in s;
    }
  }
}
