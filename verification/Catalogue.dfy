// The requirements between permissions (authz/catalogue.go): Validate accepts a
// catalogue exactly when every requirement is defined and none leads back to itself.
module Catalogue {

  type Id = string

  // The permissions, each with what it requires.
  type Graph = map<Id, seq<Id>>

  // A requirement: the permission and what it requires.
  datatype Edge = Edge(id: Id, target: Id)

  predicate Closed(g: Graph) {
    forall id, r :: id in g && r in g[id] ==> r in g
  }

  // Each permission of the walk requires the next.
  ghost predicate Walk(g: Graph, p: seq<Id>) {
    forall k: nat {:trigger p[k]} :: k + 1 < |p| ==> p[k] in g && p[k + 1] in g[p[k]]
  }

  ghost predicate Cycle(g: Graph, p: seq<Id>) {
    |p| > 1 && Walk(g, p) && p[0] == p[|p| - 1]
  }

  ghost predicate Acyclic(g: Graph) {
    forall p :: !Cycle(g, p)
  }

  // The requirement lies on a cycle.
  ghost predicate OnCycle(g: Graph, e: Edge) {
    exists p :: Cycle(g, p) && p[0] == e.id && p[1] == e.target
  }

  // The end of a walk that comes back to one of its members closes a cycle.
  lemma ReturnIsCycle(g: Graph, p: seq<Id>, r: Id)
    requires |p| > 0 && Walk(g, p)
    requires p[|p| - 1] in g && r in g[p[|p| - 1]] && r in p
    ensures OnCycle(g, Edge(p[|p| - 1], r))
  {
    var i: nat :| i < |p| && p[i] == r;
    var last := p[|p| - 1];
    var back := [last] + p[i..];
    assert Walk(g, back) by {
      forall k: nat | k + 1 < |back| ensures back[k] in g && back[k + 1] in g[back[k]] {
        if k > 0 {
          assert back[k] == p[i + k - 1] && back[k + 1] == p[i + k];
        }
      }
    }
    assert Cycle(g, back) && back[0] == last && back[1] == r;
  }

  lemma WalkSnoc(g: Graph, p: seq<Id>, r: Id)
    requires Walk(g, p)
    requires |p| > 0 ==> p[|p| - 1] in g && r in g[p[|p| - 1]]
    ensures Walk(g, p + [r])
  {
    var q := p + [r];
    forall k: nat | k + 1 < |q| ensures q[k] in g && q[k + 1] in g[q[k]] {
      if k + 1 < |p| {
        assert q[k] == p[k] && q[k + 1] == p[k + 1];
      }
    }
  }

  // Ranks that fall along every requirement leave no room for a cycle.
  ghost predicate Falls(g: Graph, rank: map<Id, nat>) {
    forall id, r :: id in g && r in g[id] ==> id in rank && r in rank && rank[r] < rank[id]
  }

  lemma FallsAt(g: Graph, rank: map<Id, nat>, id: Id, r: Id)
    requires Falls(g, rank) && id in g && r in g[id]
    ensures id in rank && r in rank && rank[r] < rank[id]
  {
  }

  lemma {:induction false} RankFalls(g: Graph, rank: map<Id, nat>, p: seq<Id>, k: nat)
    requires Falls(g, rank) && Walk(g, p) && k + 1 < |p|
    ensures p[0] in rank && p[k + 1] in rank && rank[p[k + 1]] < rank[p[0]]
  {
    assert p[k] in g && p[k + 1] in g[p[k]];
    FallsAt(g, rank, p[k], p[k + 1]);
    if k > 0 {
      RankFalls(g, rank, p, k - 1);
    }
  }

  lemma FallingIsAcyclic(g: Graph, rank: map<Id, nat>)
    requires Falls(g, rank)
    ensures Acyclic(g)
  {
    forall p ensures !Cycle(g, p) {
      if |p| > 1 && Walk(g, p) {
        RankFalls(g, rank, p, |p| - 2);
      }
    }
  }

  // The depth-first search -----------------------------------------------------------------

  datatype Colour = Visiting | Visited

  // The first n requirements of x were left before the time given, or reported.
  ghost predicate Settled(g: Graph, problems: seq<Edge>, rank: map<Id, nat>, x: Id, n: nat, before: nat) {
    && x in g && n <= |g[x]|
    && forall k: nat {:trigger g[x][k]} :: k < n ==>
         (g[x][k] in rank && rank[g[x][k]] < before) || Edge(x, g[x][k]) in problems
  }

  // The permissions being visited are the walk that led here.
  ghost predicate OnPath(g: Graph, state: map<Id, Colour>, path: seq<Id>) {
    && state.Keys <= g.Keys
    && Walk(g, path)
    && forall x :: x in state && state[x].Visiting? <==> x in path
  }

  // Every visited permission was left after what it requires, unless the
  // requirement was reported.
  ghost predicate Ordered(g: Graph, state: map<Id, Colour>, problems: seq<Edge>, rank: map<Id, nat>, clock: nat) {
    && (forall x :: x in state && state[x].Visited? <==> x in rank)
    && (forall x :: x in rank ==> rank[x] < clock)
    && forall x :: x in rank ==> x in g && Settled(g, problems, rank, x, |g[x]|, rank[x])
  }

  ghost predicate Sound(g: Graph, problems: seq<Edge>) {
    forall e :: e in problems ==> OnCycle(g, e)
  }

  // Nothing left or reported is forgotten.
  ghost predicate Grown(problems: seq<Edge>, rank: map<Id, nat>, clock: nat, problems': seq<Edge>, rank': map<Id, nat>, clock': nat) {
    && clock <= clock'
    && (forall x :: x in rank ==> x in rank' && rank'[x] == rank[x])
    && forall e :: e in problems ==> e in problems'
  }

  lemma SettledGrows(g: Graph, problems: seq<Edge>, rank: map<Id, nat>, x: Id, n: nat, before: nat,
                     problems': seq<Edge>, rank': map<Id, nat>, before': nat)
    requires Settled(g, problems, rank, x, n, before) && Grown(problems, rank, before, problems', rank', before')
    ensures Settled(g, problems', rank', x, n, before')
  {
  }

  lemma EnterKeepsPath(g: Graph, state: map<Id, Colour>, path: seq<Id>, id: Id)
    requires OnPath(g, state, path) && id in g && id !in state
    requires |path| > 0 ==> path[|path| - 1] in g && id in g[path[|path| - 1]]
    ensures OnPath(g, state[id := Visiting], path + [id]) && id !in path
  {
    WalkSnoc(g, path, id);
  }

  lemma LeaveKeepsPath(g: Graph, state: map<Id, Colour>, path: seq<Id>, id: Id)
    requires OnPath(g, state, path + [id]) && id !in path
    ensures OnPath(g, state[id := Visited], path)
  {
    var here := path + [id];
    forall k: nat | k + 1 < |path| ensures path[k] in g && path[k + 1] in g[path[k]] {
      assert here[k] == path[k] && here[k + 1] == path[k + 1];
    }
    assert forall x :: x in here <==> x in path || x == id;
    assert id in here;
  }

  lemma ReportKeepsOrder(g: Graph, state: map<Id, Colour>, problems: seq<Edge>, rank: map<Id, nat>, clock: nat, e: Edge)
    requires Ordered(g, state, problems, rank, clock)
    ensures Ordered(g, state, problems + [e], rank, clock)
  {
    forall x | x in rank ensures Settled(g, problems + [e], rank, x, |g[x]|, rank[x]) {
      SettledGrows(g, problems, rank, x, |g[x]|, rank[x], problems + [e], rank, rank[x]);
    }
  }

  lemma LeaveKeepsOrder(g: Graph, state: map<Id, Colour>, problems: seq<Edge>, rank: map<Id, nat>, clock: nat, id: Id)
    requires Ordered(g, state, problems, rank, clock)
    requires id in g && id !in rank && Settled(g, problems, rank, id, |g[id]|, clock)
    ensures Ordered(g, state[id := Visited], problems, rank[id := clock], clock + 1)
  {
    var rank' := rank[id := clock];
    forall x | x in rank' ensures x in g && Settled(g, problems, rank', x, |g[x]|, rank'[x]) {
      SettledGrows(g, problems, rank, x, |g[x]|, rank'[x], problems, rank', rank'[x]);
    }
  }

  // The search of requirementCycles.
  class CycleSearch {
    const graph: Graph
    var state: map<Id, Colour>
    var problems: seq<Edge>
    // When each permission was left.
    ghost var rank: map<Id, nat>
    ghost var clock: nat

    constructor (g: Graph)
      requires Closed(g)
      ensures graph == g && state == map[] && problems == [] && Valid([])
    {
      graph := g;
      state := map[];
      problems := [];
      rank := map[];
      clock := 0;
    }

    ghost predicate Valid(path: seq<Id>)
      reads this
    {
      && Closed(graph)
      && OnPath(graph, state, path)
      && Ordered(graph, state, problems, rank, clock)
      && Sound(graph, problems)
    }

    method Visit(id: Id, ghost path: seq<Id>)
      requires Valid(path) && id in graph && id !in state
      requires |path| > 0 ==> path[|path| - 1] in graph && id in graph[path[|path| - 1]]
      modifies this
      ensures Valid(path)
      ensures id in state && state[id].Visited?
      ensures old(state.Keys) <= state.Keys
      ensures Grown(old(problems), old(rank), old(clock), problems, rank, clock)
      decreases graph.Keys - state.Keys, 0
    {
      ghost var here := path + [id];
      EnterKeepsPath(graph, state, path, id);
      state := state[id := Visiting];
      assert id in graph.Keys - old(state.Keys) && id !in graph.Keys - state.Keys;
      RequireAll(id, here);
      assert state[id].Visiting? by {
        assert id in here;
      }
      LeaveKeepsPath(graph, state, path, id);
      LeaveKeepsOrder(graph, state, problems, rank, clock, id);
      state := state[id := Visited];
      rank := rank[id := clock];
      clock := clock + 1;
    }

    // Every requirement of the permission being visited.
    method RequireAll(id: Id, ghost here: seq<Id>)
      requires Valid(here) && |here| > 0 && here[|here| - 1] == id && id in graph
      modifies this
      ensures Valid(here) && Settled(graph, problems, rank, id, |graph[id]|, clock)
      ensures old(state.Keys) <= state.Keys
      ensures Grown(old(problems), old(rank), old(clock), problems, rank, clock)
      decreases graph.Keys - state.Keys, 2
    {
      var i := 0;
      while i < |graph[id]|
        invariant i <= |graph[id]|
        invariant Valid(here)
        invariant Settled(graph, problems, rank, id, i, clock)
        invariant old(state.Keys) <= state.Keys
        invariant Grown(old(problems), old(rank), old(clock), problems, rank, clock)
      {
        Require(id, i, here);
        i := i + 1;
      }
    }

    // One requirement of the permission being visited.
    method Require(id: Id, i: nat, ghost here: seq<Id>)
      requires Valid(here) && |here| > 0 && here[|here| - 1] == id
      requires id in graph && i < |graph[id]| && Settled(graph, problems, rank, id, i, clock)
      modifies this
      ensures Valid(here) && Settled(graph, problems, rank, id, i + 1, clock)
      ensures old(state.Keys) <= state.Keys
      ensures Grown(old(problems), old(rank), old(clock), problems, rank, clock)
      decreases graph.Keys - state.Keys, 1
    {
      var r := graph[id][i];
      if r in state && state[r].Visiting? {
        ReturnIsCycle(graph, here, r);
        ReportKeepsOrder(graph, state, problems, rank, clock, Edge(id, r));
        problems := problems + [Edge(id, r)];
      } else if r !in state {
        Visit(r, here);
        SettledGrows(graph, old(problems), old(rank), id, i, old(clock), problems, rank, clock);
      }
    }

    method SearchAll(order: seq<Id>)
      requires Valid([]) && state == map[] && forall id :: id in graph <==> id in order
      modifies this
      ensures problems == [] <==> Acyclic(graph)
      ensures Sound(graph, problems)
    {
      var i := 0;
      while i < |order|
        invariant i <= |order|
        invariant Valid([])
        invariant forall k: nat {:trigger order[k]} :: k < i ==> order[k] in state
      {
        if order[i] !in state {
          Visit(order[i], []);
        }
        i := i + 1;
      }
      AllVisited(graph, state, problems, rank, clock);
    }
  }

  // A search that reported nothing left every permission after what it requires.
  lemma AllVisited(g: Graph, state: map<Id, Colour>, problems: seq<Edge>, rank: map<Id, nat>, clock: nat)
    requires Closed(g) && OnPath(g, state, []) && Ordered(g, state, problems, rank, clock) && Sound(g, problems)
    requires forall id :: id in g ==> id in state
    ensures problems == [] <==> Acyclic(g)
  {
    if problems == [] {
      assert Falls(g, rank) by {
        forall id, r | id in g && r in g[id] ensures id in rank && r in rank && rank[r] < rank[id] {
          assert state[id].Visited?;
          assert Settled(g, problems, rank, id, |g[id]|, rank[id]);
          var k: nat :| k < |g[id]| && g[id][k] == r;
        }
      }
      FallingIsAcyclic(g, rank);
    } else {
      assert OnCycle(g, problems[0]);
    }
  }

  // Validate -------------------------------------------------------------------------------

  datatype Problem = UnknownRequirement(edge: Edge) | RequirementCycle(edge: Edge)

  // The requirements of one permission that no permission meets, in order.
  function UnknownOf(g: Graph, id: Id, rs: seq<Id>): seq<Problem> {
    if rs == [] then []
    else UnknownOf(g, id, rs[..|rs| - 1]) +
         if rs[|rs| - 1] in g then [] else [UnknownRequirement(Edge(id, rs[|rs| - 1]))]
  }

  function Unknown(g: Graph, order: seq<Id>): seq<Problem>
    requires forall id :: id in order ==> id in g
  {
    if order == [] then []
    else Unknown(g, order[..|order| - 1]) + UnknownOf(g, order[|order| - 1], g[order[|order| - 1]])
  }

  lemma {:induction false} UnknownOfNone(g: Graph, id: Id, rs: seq<Id>)
    ensures UnknownOf(g, id, rs) == [] <==> forall r :: r in rs ==> r in g
  {
    if rs != [] {
      UnknownOfNone(g, id, rs[..|rs| - 1]);
      assert forall r :: r in rs <==> r in rs[..|rs| - 1] || r == rs[|rs| - 1];
    }
  }

  lemma {:induction false} UnknownNone(g: Graph, order: seq<Id>)
    requires forall id :: id in order ==> id in g
    ensures Unknown(g, order) == [] <==> forall id, r :: id in order && r in g[id] ==> r in g
  {
    if order != [] {
      var rest, last := order[..|order| - 1], order[|order| - 1];
      UnknownNone(g, rest);
      UnknownOfNone(g, last, g[last]);
      assert forall id :: id in order <==> id in rest || id == last;
    }
  }

  // The requirements reported as unknown are those no permission meets.
  lemma {:induction false} UnknownOfMembers(g: Graph, id: Id, rs: seq<Id>, p: Problem)
    ensures p in UnknownOf(g, id, rs) <==> p.UnknownRequirement? && p.edge.id == id && p.edge.target in rs && p.edge.target !in g
  {
    if rs != [] {
      UnknownOfMembers(g, id, rs[..|rs| - 1], p);
      assert forall r :: r in rs <==> r in rs[..|rs| - 1] || r == rs[|rs| - 1];
    }
  }

  lemma {:induction false} UnknownMembers(g: Graph, order: seq<Id>, p: Problem)
    requires forall id :: id in order ==> id in g
    ensures p in Unknown(g, order) <==>
            p.UnknownRequirement? && p.edge.id in order && p.edge.target in g[p.edge.id] && p.edge.target !in g
  {
    if order != [] {
      var rest, last := order[..|order| - 1], order[|order| - 1];
      UnknownMembers(g, rest, p);
      UnknownOfMembers(g, last, g[last], p);
      assert forall id :: id in order <==> id in rest || id == last;
    }
  }

  method FindUnknownOf(g: Graph, id: Id) returns (problems: seq<Problem>)
    requires id in g
    ensures problems == UnknownOf(g, id, g[id])
  {
    problems := [];
    var rs := g[id];
    var i := 0;
    while i < |rs|
      invariant i <= |rs|
      invariant problems == UnknownOf(g, id, rs[..i])
    {
      assert rs[..i + 1][..i] == rs[..i];
      if rs[i] !in g {
        problems := problems + [UnknownRequirement(Edge(id, rs[i]))];
      }
      i := i + 1;
    }
    assert rs[..i] == rs;
  }

  method FindUnknown(g: Graph, order: seq<Id>) returns (problems: seq<Problem>)
    requires forall id :: id in order ==> id in g
    ensures problems == Unknown(g, order)
  {
    problems := [];
    var i := 0;
    while i < |order|
      invariant i <= |order|
      invariant problems == Unknown(g, order[..i])
    {
      assert order[..i + 1][..i] == order[..i];
      var found := FindUnknownOf(g, order[i]);
      problems := problems + found;
      i := i + 1;
    }
    assert order[..i] == order;
  }

  // A catalogue passes exactly when every requirement is defined and none leads back
  // to itself. Undefined requirements are reported each, in order; otherwise every
  // reported requirement lies on a cycle.
  method Validate(g: Graph, order: seq<Id>) returns (problems: seq<Problem>)
    requires forall id :: id in g <==> id in order
    ensures problems == [] <==> Closed(g) && Acyclic(g)
    ensures !Closed(g) ==> problems == Unknown(g, order)
    ensures !Closed(g) ==> forall p :: p in problems <==>
              p.UnknownRequirement? && p.edge.id in g && p.edge.target in g[p.edge.id] && p.edge.target !in g
    ensures Closed(g) ==> forall p :: p in problems ==> p.RequirementCycle? && OnCycle(g, p.edge)
  {
    problems := FindUnknown(g, order);
    UnknownNone(g, order);
    forall p ensures p in Unknown(g, order) <==>
                     p.UnknownRequirement? && p.edge.id in order && p.edge.target in g[p.edge.id] && p.edge.target !in g
    {
      UnknownMembers(g, order, p);
    }
    if problems == [] {
      var search := new CycleSearch(g);
      search.SearchAll(order);
      var found := search.problems;
      assert forall e :: e in found ==> OnCycle(g, e);
      problems := seq(|found|, i requires 0 <= i < |found| => RequirementCycle(found[i]));
    }
  }
}
