// The scan of a service method (archtest/rules_service.go): which repository writes
// and audit calls it reaches through the helpers beside it, and whether inside a
// transaction closure.
module ServiceScan {
  import opened Wrappers
  import opened ServiceSyntax

  predicate HasPrefixIn(name: string, prefixes: seq<string>) {
    exists p :: p in prefixes && p <= name
  }

  // The call of a transaction: a method of one of its names.
  predicate Opens(pkg: Package, fun: Node) {
    fun.Selector? && fun.sel in pkg.cfg.txNames
  }

  // classifySelector: a method of the receiver is followed, a write-named method of a
  // repository field of it is a write.
  function CalledSelector(pkg: Package, at: Func, x: Node, sel: string, site: nat): Act {
    if x.Ident? then
      if x.name == at.recv && at.recv != "" then Follow(at.typ + "." + sel) else Other
    else if x.Selector? && x.x == Ident(at.recv) && at.typ in pkg.types && x.sel in pkg.types[at.typ].repos &&
            HasPrefixIn(sel, pkg.cfg.prefixes) then Write(x.sel, site)
    else Other
  }

  // classify, as far as it is not the audit.
  function Called(pkg: Package, at: Func, fun: Node, site: nat): Act {
    match fun
    case Ident(name) => Follow("." + name)
    case Selector(x, sel) => CalledSelector(pkg, at, x, sel, site)
    case _ => Other
  }

  // defaultAudit: Write or Record on an audit field of the receiver.
  predicate DefaultAudit(pkg: Package, at: Func, x: Node, sel: string) {
    && x.Selector? && x.x == Ident(at.recv) && at.typ in pkg.types && x.sel in pkg.types[at.typ].audits
    && (sel == "Write" || sel == "Record")
  }

  predicate AuditedBy(at: Func, x: Node, sel: string, want: AuditCall) {
    match want
    case Method(name) => sel == name
    case Member(path, name) =>
      path in at.aliases && at.aliases[path] != "" && x == Ident(at.aliases[path]) && sel == name
  }

  // isAudit: the calls the rule names, or the default when it names none.
  predicate Audits(pkg: Package, at: Func, fun: Node) {
    fun.Selector? &&
    if pkg.cfg.audit == [] then DefaultAudit(pkg, at, fun.x, fun.sel)
    else exists want :: want in pkg.cfg.audit && AuditedBy(at, fun.x, fun.sel, want)
  }

  // A call the scan classifies, and whether inside a transaction.
  datatype Found = Found(act: Act, inTx: bool)

  // The calls in a node that runs inside a transaction or not.
  ghost function Acts(pkg: Package, at: Func, n: Node, inTx: bool): set<Found> {
    match n
    case Inner(children) => ActsAll(pkg, at, children, inTx)
    case Literal(body) => Acts(pkg, at, body, inTx)
    case Ident(_) => {}
    case Selector(x, _) => Acts(pkg, at, x, inTx)
    case Call(fun, args, site) =>
      Classified(pkg, at, fun, site, inTx) + Acts(pkg, at, fun, inTx) +
      if Opens(pkg, fun) then ActsArgs(pkg, at, args, inTx) else ActsAll(pkg, at, args, inTx)
  }

  ghost function ActsAll(pkg: Package, at: Func, ns: Nodes, inTx: bool): set<Found> {
    match ns
    case Nil => {}
    case Cons(head, tail) => Acts(pkg, at, head, inTx) + ActsAll(pkg, at, tail, inTx)
  }

  // The arguments of a transaction call: its function literals are inside.
  ghost function ActsArgs(pkg: Package, at: Func, ns: Nodes, inTx: bool): set<Found> {
    match ns
    case Nil => {}
    case Cons(head, tail) =>
      (if head.Literal? then Acts(pkg, at, head.body, true) else Acts(pkg, at, head, inTx)) + ActsArgs(pkg, at, tail, inTx)
  }

  ghost function Classified(pkg: Package, at: Func, fun: Node, site: nat, inTx: bool): set<Found> {
    {Found(Called(pkg, at, fun, site), inTx)} + if Audits(pkg, at, fun) then {Found(Audit, inTx)} else {}
  }

  // The calls of a function that runs inside a transaction or not.
  ghost function FuncActs(pkg: Package, f: Func, inTx: bool): set<Found> {
    Acts(pkg, f, f.body, inTx)
  }

  // The call is among those found, inside a transaction or outside.
  ghost predicate Either(act: Act, found: set<Found>) {
    Found(act, false) in found || Found(act, true) in found
  }

  // A node that runs inside a transaction has the same calls, all inside.
  lemma {:induction false} ActsInside(pkg: Package, at: Func, n: Node, f: Found)
    ensures f in Acts(pkg, at, n, true) <==> f.inTx && Either(f.act, Acts(pkg, at, n, false))
  {
    match n
    case Inner(children) => ActsAllInside(pkg, at, children, f);
    case Literal(body) => ActsInside(pkg, at, body, f);
    case Ident(_) =>
    case Selector(x, _) => ActsInside(pkg, at, x, f);
    case Call(fun, args, site) =>
      ActsInside(pkg, at, fun, f);
      ActsAllInside(pkg, at, args, f);
      ActsArgsInside(pkg, at, args, f);
  }

  lemma {:induction false} ActsAllInside(pkg: Package, at: Func, ns: Nodes, f: Found)
    ensures f in ActsAll(pkg, at, ns, true) <==> f.inTx && Either(f.act, ActsAll(pkg, at, ns, false))
  {
    if ns.Cons? {
      ActsInside(pkg, at, ns.head, f);
      ActsAllInside(pkg, at, ns.tail, f);
    }
  }

  lemma {:induction false} ActsArgsInside(pkg: Package, at: Func, ns: Nodes, f: Found)
    ensures f in ActsArgs(pkg, at, ns, true) <==> f.inTx && Either(f.act, ActsArgs(pkg, at, ns, false))
  {
    if ns.Cons? {
      ActsArgsInside(pkg, at, ns.tail, f);
      if ns.head.Literal? {
        ActsInside(pkg, at, ns.head.body, f);
        ActsInside(pkg, at, ns.head.body, Found(f.act, true));
        ActsInside(pkg, at, ns.head.body, Found(f.act, false));
      } else {
        ActsInside(pkg, at, ns.head, f);
      }
    }
  }

  // The calls found are the calls of the text -----------------------------------------------

  // classify tells a call by the shape of what it calls.
  lemma ClassifiedIff(pkg: Package, at: Func, fun: Node, site: nat, inTx: bool, f: Found)
    requires f.act != Other
    ensures f in Classified(pkg, at, fun, site, inTx) <==> f.inTx == inTx && IsA(pkg, at, fun, site, f.act)
  {
    if f.act.Audit? {
      AuditsIff(pkg, at, fun);
    } else {
      CalledIff(pkg, at, fun, site, f.act);
    }
  }

  lemma CalledIff(pkg: Package, at: Func, fun: Node, site: nat, act: Act)
    requires act != Other && act != Audit
    ensures Called(pkg, at, fun, site) == act <==> IsA(pkg, at, fun, site, act)
  {
  }

  lemma AuditsIff(pkg: Package, at: Func, fun: Node)
    ensures Audits(pkg, at, fun) <==> IsA(pkg, at, fun, 0, Audit)
  {
    if fun.Selector? {
      forall want ensures AuditedBy(at, fun.x, fun.sel, want) <==> NamedBy(at, fun, want) {
      }
    }
  }

  // The call stands at the position, and inside a transaction when the scan is already or
  // the position is in a transaction closure.
  ghost predicate FoundAt(pkg: Package, at: Func, n: Node, inTx: bool, f: Found, pos: seq<Edge>) {
    MadeAt(pkg, at, n, pos, f.act) && f.inTx == (inTx || InClosure(pkg, n, pos))
  }

  // Found under a node that is no transaction closure of the node above.
  lemma FoundAbove(pkg: Package, at: Func, n: Node, e: Edge, m: Node, inTx: bool, f: Found, pos: seq<Edge>)
    requires Under(n, e) == Some(m) && !ClosureAt(pkg, n, [e] + pos, 0)
    ensures FoundAt(pkg, at, n, inTx, f, [e] + pos) <==> FoundAt(pkg, at, m, inTx, f, pos)
  {
    assert ([e] + pos)[1..] == pos;
    ClosureAbove(pkg, n, e, m, pos);
  }

  // Found in the body of a function literal given to a transaction.
  lemma FoundInside(pkg: Package, at: Func, n: Node, i: nat, body: Node, inTx: bool, f: Found, pos: seq<Edge>)
    requires Under(n, Arg(i)) == Some(Literal(body)) && Opens(pkg, n.fun)
    ensures FoundAt(pkg, at, n, inTx, f, [Arg(i), Body] + pos) <==> FoundAt(pkg, at, body, true, f, pos)
  {
    var longer := [Arg(i), Body] + pos;
    assert longer[1..] == [Body] + pos && ([Body] + pos)[1..] == pos && longer[..0] == [];
    assert NodeAt(Literal(body), [Body] + pos) == NodeAt(body, pos) == NodeAt(n, longer);
    assert ClosureAt(pkg, n, longer, 0);
  }

  lemma {:induction false} FoundSomewhere(pkg: Package, at: Func, n: Node, inTx: bool, f: Found)
    requires f in Acts(pkg, at, n, inTx) && f.act != Other
    ensures exists pos :: FoundAt(pkg, at, n, inTx, f, pos)
    decreases n, 1
  {
    match n
    case Inner(children) =>
      var i, pos := FoundInList(pkg, at, children, inTx, f);
      FoundAbove(pkg, at, n, Child(i), Nth(children, i).value, inTx, f, pos);
    case Literal(body) =>
      FoundSomewhere(pkg, at, body, inTx, f);
      var pos :| FoundAt(pkg, at, body, inTx, f, pos);
      FoundAbove(pkg, at, n, Body, body, inTx, f, pos);
    case Selector(x, _) =>
      FoundSomewhere(pkg, at, x, inTx, f);
      var pos :| FoundAt(pkg, at, x, inTx, f, pos);
      FoundAbove(pkg, at, n, Operand, x, inTx, f, pos);
    case Call(fun, args, site) =>
      if f in Classified(pkg, at, fun, site, inTx) {
        ClassifiedIff(pkg, at, fun, site, inTx, f);
        assert FoundAt(pkg, at, n, inTx, f, []);
      } else if f in Acts(pkg, at, fun, inTx) {
        FoundSomewhere(pkg, at, fun, inTx, f);
        var pos :| FoundAt(pkg, at, fun, inTx, f, pos);
        FoundAbove(pkg, at, n, Callee, fun, inTx, f, pos);
      } else {
        FoundInArguments(pkg, at, n, inTx, f);
      }
  }

  lemma {:induction false} FoundInArguments(pkg: Package, at: Func, n: Node, inTx: bool, f: Found)
    requires n.Call? && f.act != Other
    requires f in if Opens(pkg, n.fun) then ActsArgs(pkg, at, n.args, inTx) else ActsAll(pkg, at, n.args, inTx)
    ensures exists pos :: FoundAt(pkg, at, n, inTx, f, pos)
    decreases n, 0
  {
    if Opens(pkg, n.fun) {
      var i, pos := FoundInArgs(pkg, at, n.args, inTx, f);
      var arg := Nth(n.args, i).value;
      if arg.Literal? {
        FoundInside(pkg, at, n, i, arg.body, inTx, f, pos);
      } else {
        assert pos != [] ==> Under(arg, pos[0]).Some?;
        FoundAbove(pkg, at, n, Arg(i), arg, inTx, f, pos);
      }
    } else {
      var i, pos := FoundInList(pkg, at, n.args, inTx, f);
      FoundAbove(pkg, at, n, Arg(i), Nth(n.args, i).value, inTx, f, pos);
    }
  }

  lemma {:induction false} FoundInList(pkg: Package, at: Func, ns: Nodes, inTx: bool, f: Found) returns (i: nat, pos: seq<Edge>)
    requires f in ActsAll(pkg, at, ns, inTx) && f.act != Other
    ensures Nth(ns, i).Some? && FoundAt(pkg, at, Nth(ns, i).value, inTx, f, pos)
    decreases ns, 0
  {
    if f in Acts(pkg, at, ns.head, inTx) {
      FoundSomewhere(pkg, at, ns.head, inTx, f);
      i := 0;
      pos :| FoundAt(pkg, at, ns.head, inTx, f, pos);
    } else {
      i, pos := FoundInList(pkg, at, ns.tail, inTx, f);
      i := i + 1;
    }
  }

  lemma {:induction false} FoundInArgs(pkg: Package, at: Func, ns: Nodes, inTx: bool, f: Found) returns (i: nat, pos: seq<Edge>)
    requires f in ActsArgs(pkg, at, ns, inTx) && f.act != Other
    ensures Nth(ns, i).Some?
    ensures var arg := Nth(ns, i).value;
            if arg.Literal? then FoundAt(pkg, at, arg.body, true, f, pos) else FoundAt(pkg, at, arg, inTx, f, pos)
    decreases ns, 0
  {
    if f in ActsArgs(pkg, at, ns.tail, inTx) {
      i, pos := FoundInArgs(pkg, at, ns.tail, inTx, f);
      i := i + 1;
    } else if ns.head.Literal? {
      FoundSomewhere(pkg, at, ns.head.body, true, f);
      i := 0;
      pos :| FoundAt(pkg, at, ns.head.body, true, f, pos);
    } else {
      FoundSomewhere(pkg, at, ns.head, inTx, f);
      i := 0;
      pos :| FoundAt(pkg, at, ns.head, inTx, f, pos);
    }
  }

  // And a call at a position is found.
  lemma {:induction false} PositionIsFound(pkg: Package, at: Func, n: Node, inTx: bool, f: Found, pos: seq<Edge>)
    requires FoundAt(pkg, at, n, inTx, f, pos)
    ensures f in Acts(pkg, at, n, inTx)
    decreases |pos|
  {
    if pos == [] {
      ClassifiedIff(pkg, at, n.fun, n.site, inTx, f);
    } else {
      var e, rest := pos[0], pos[1..];
      var m := Under(n, e).value;
      assert pos == [e] + rest;
      if ClosureAt(pkg, n, pos, 0) {
        assert rest[0] == Body && NodeAt(n, pos) == NodeAt(m, rest);
        assert Under(m, rest[0]).Some?;
        assert rest == [rest[0]] + rest[1..] && pos == [e, Body] + rest[1..];
        FoundInside(pkg, at, n, e.i, m.body, inTx, f, rest[1..]);
        PositionIsFound(pkg, at, m.body, true, f, rest[1..]);
        NthOfArgs(pkg, at, n.args, inTx, f, e.i);
      } else {
        FoundAbove(pkg, at, n, e, m, inTx, f, rest);
        PositionIsFound(pkg, at, m, inTx, f, rest);
        UnderIsFound(pkg, at, n, e, m, inTx, f, rest);
      }
    }
  }

  // What is found under a node, not in a transaction closure of its own, is found in it.
  lemma UnderIsFound(pkg: Package, at: Func, n: Node, e: Edge, m: Node, inTx: bool, f: Found, pos: seq<Edge>)
    requires Under(n, e) == Some(m) && f in Acts(pkg, at, m, inTx)
    requires MadeAt(pkg, at, m, pos, f.act) && !ClosureAt(pkg, n, [e] + pos, 0)
    ensures f in Acts(pkg, at, n, inTx)
  {
    match n
    case Inner(children) => NthOfAll(pkg, at, children, inTx, f, e.i);
    case Literal(_) =>
    case Selector(_, _) =>
    case Call(fun, args, _) =>
      if e.Arg? {
        NthOfAll(pkg, at, args, inTx, f, e.i);
        if Opens(pkg, fun) {
          assert ([e] + pos)[..0] == [];
          assert !m.Literal?;
          NthOfArgs(pkg, at, args, inTx, f, e.i);
        }
      }
  }

  lemma {:induction false} NthOfAll(pkg: Package, at: Func, ns: Nodes, inTx: bool, f: Found, i: nat)
    requires Nth(ns, i).Some? && f in Acts(pkg, at, Nth(ns, i).value, inTx)
    ensures f in ActsAll(pkg, at, ns, inTx)
  {
    if i > 0 {
      NthOfAll(pkg, at, ns.tail, inTx, f, i - 1);
    }
  }

  lemma {:induction false} NthOfArgs(pkg: Package, at: Func, ns: Nodes, inTx: bool, f: Found, i: nat)
    requires Nth(ns, i).Some?
    requires var arg := Nth(ns, i).value;
             if arg.Literal? then f in Acts(pkg, at, arg.body, true) else f in Acts(pkg, at, arg, inTx)
    ensures f in ActsArgs(pkg, at, ns, inTx)
  {
    if i > 0 {
      NthOfArgs(pkg, at, ns.tail, inTx, f, i - 1);
    }
  }

  // A call is found inside exactly when the scan began inside or the call's position lies
  // in the body of a function literal given to a transaction.
  lemma FoundIff(pkg: Package, at: Func, n: Node, inTx: bool, f: Found)
    requires f.act != Other
    ensures f in Acts(pkg, at, n, inTx) <==>
            exists pos :: MadeAt(pkg, at, n, pos, f.act) && f.inTx == (inTx || InClosure(pkg, n, pos))
  {
    if f in Acts(pkg, at, n, inTx) {
      FoundSomewhere(pkg, at, n, inTx, f);
      var pos :| FoundAt(pkg, at, n, inTx, f, pos);
    }
    if pos :| MadeAt(pkg, at, n, pos, f.act) && f.inTx == (inTx || InClosure(pkg, n, pos)) {
      PositionIsFound(pkg, at, n, inTx, f, pos);
    }
  }

  lemma MakesIff(pkg: Package, f: Func, act: Act, entered: bool)
    requires act != Other
    ensures Found(act, entered) in FuncActs(pkg, f, false) <==> Makes(pkg, f, act, entered)
  {
    FoundIff(pkg, f, f.body, false, Found(act, entered));
  }

  // What a method reaches ------------------------------------------------------------------

  // One step of a call path: the helper called, and whether the call itself stands in
  // a transaction closure of its function.
  datatype Hop = Hop(key: Key, entered: bool)

  // The function a path ends in.
  function End(pkg: Package, root: Func, path: seq<Hop>): Option<Func> {
    if path == [] then Some(root) else Get(pkg.funcs, path[|path| - 1].key)
  }

  // That function makes the call.
  ghost predicate EndMakes(pkg: Package, root: Func, path: seq<Hop>, act: Act, entered: bool) {
    End(pkg, root, path).Some? && Makes(pkg, End(pkg, root, path).value, act, entered)
  }

  // Every helper is called by the function before it.
  ghost predicate CallPath(pkg: Package, root: Func, path: seq<Hop>) {
    path != [] ==>
      && CallPath(pkg, root, path[..|path| - 1])
      && EndMakes(pkg, root, path[..|path| - 1], Follow(path[|path| - 1].key), path[|path| - 1].entered)
  }

  // The path enters a transaction closure.
  predicate Enters(path: seq<Hop>) {
    exists hop :: hop in path && hop.entered
  }

  ghost predicate ReachedBy(pkg: Package, root: Func, f: Found, path: seq<Hop>, entered: bool) {
    && CallPath(pkg, root, path)
    && EndMakes(pkg, root, path, f.act, entered)
    && f.inTx == (Enters(path) || entered)
  }

  // Some call path from the method reaches the call, through a transaction closure or not.
  ghost predicate Reached(pkg: Package, root: Func, f: Found) {
    exists path, entered :: ReachedBy(pkg, root, f, path, entered)
  }

  // A helper and the transaction state it is scanned in.
  datatype Visit = Visit(key: Key, inTx: bool)

  ghost function BodyActs(pkg: Package, c: Visit): set<Found> {
    if c.key in pkg.funcs then FuncActs(pkg, pkg.funcs[c.key], c.inTx) else {}
  }

  lemma LongerPath(pkg: Package, root: Func, path: seq<Hop>, hop: Hop)
    requires CallPath(pkg, root, path) && EndMakes(pkg, root, path, Follow(hop.key), hop.entered)
    ensures CallPath(pkg, root, path + [hop])
    ensures Enters(path + [hop]) == (Enters(path) || hop.entered)
    ensures End(pkg, root, path + [hop]) == Get(pkg.funcs, hop.key)
  {
    var longer := path + [hop];
    assert longer[..|longer| - 1] == path;
    assert hop in longer;
    if Enters(path) {
      var h :| h in path && h.entered;
      assert h in longer;
    }
  }

  // The calls of a reached helper are reached.
  lemma HelperIsReached(pkg: Package, root: Func, c: Visit, f: Found)
    requires Reached(pkg, root, Found(Follow(c.key), c.inTx)) && f in BodyActs(pkg, c) && f.act != Other
    ensures Reached(pkg, root, f)
  {
    var path, entered :| ReachedBy(pkg, root, Found(Follow(c.key), c.inTx), path, entered);
    LongerPath(pkg, root, path, Hop(c.key, entered));
    ActsInside(pkg, pkg.funcs[c.key], pkg.funcs[c.key].body, f);
    var inner := if c.inTx && Found(f.act, false) in FuncActs(pkg, pkg.funcs[c.key], false) then false else f.inTx;
    MakesIff(pkg, pkg.funcs[c.key], f.act, inner);
    assert ReachedBy(pkg, root, f, path + [Hop(c.key, entered)], inner);
  }

  lemma RootIsReached(pkg: Package, root: Func, f: Found)
    requires f in FuncActs(pkg, root, false) && f.act != Other
    ensures Reached(pkg, root, f)
  {
    MakesIff(pkg, root, f.act, f.inTx);
    assert ReachedBy(pkg, root, f, [], f.inTx);
  }

  // The scan ---------------------------------------------------------------------------------

  // A recorded write.
  datatype Use = Use(field: string, site: nat, inTx: bool)

  datatype Reach = Reach(writes: seq<Use>, audited: bool)

  // What the scan has recorded of a call.
  predicate Recorded(seen: set<Visit>, reach: Reach, f: Found) {
    match f.act
    case Other => true
    case Audit => reach.audited
    case Follow(key) => Visit(key, f.inTx) in seen
    case Write(field, site) => Use(field, site, f.inTx) in reach.writes
  }

  ghost predicate Covers(seen: set<Visit>, reach: Reach, acts: set<Found>) {
    forall f :: f in acts ==> Recorded(seen, reach, f)
  }

  predicate Grown(seen: set<Visit>, reach: Reach, seen': set<Visit>, reach': Reach) {
    seen <= seen' && (forall u :: u in reach.writes ==> u in reach'.writes) && (reach.audited ==> reach'.audited)
  }

  // A stretch of the scan recorded the calls given and those of every helper it entered.
  ghost predicate Scanned(pkg: Package, seen: set<Visit>, reach: Reach, seen': set<Visit>, reach': Reach, acts: set<Found>) {
    && Grown(seen, reach, seen', reach')
    && Covers(seen', reach', acts)
    && forall c :: c in seen' - seen ==> Covers(seen', reach', BodyActs(pkg, c))
  }

  // Only what a call path reaches is recorded.
  ghost predicate Sound(pkg: Package, root: Func, seen: set<Visit>, reach: Reach) {
    && (forall c :: c in seen ==> Reached(pkg, root, Found(Follow(c.key), c.inTx)))
    && (forall u :: u in reach.writes ==> WriteReached(pkg, root, u))
    && (reach.audited ==> AuditReached(pkg, root))
  }

  ghost predicate AllReached(pkg: Package, root: Func, acts: set<Found>) {
    forall f :: f in acts && f.act != Other ==> Reached(pkg, root, f)
  }

  lemma ScannedThen(pkg: Package, seen: set<Visit>, reach: Reach, seen': set<Visit>, reach': Reach, a: set<Found>,
                    seen'': set<Visit>, reach'': Reach, b: set<Found>)
    requires Scanned(pkg, seen, reach, seen', reach', a) && Scanned(pkg, seen', reach', seen'', reach'', b)
    ensures Scanned(pkg, seen, reach, seen'', reach'', a + b)
  {
    forall c | c in seen'' - seen ensures Covers(seen'', reach'', BodyActs(pkg, c)) {
      if c in seen' {
        assert Covers(seen', reach', BodyActs(pkg, c));
      }
    }
  }

  function Visits(pkg: Package): set<Visit> {
    set k, b | k in pkg.funcs.Keys && b in {true, false} :: Visit(k, b)
  }

  // Whatever is recorded for a finished scan is complete along every path.
  lemma {:induction false} PathIsSeen(pkg: Package, root: Func, seen: set<Visit>, reach: Reach, path: seq<Hop>)
    requires Scanned(pkg, {}, Reach([], false), seen, reach, FuncActs(pkg, root, false))
    requires CallPath(pkg, root, path) && path != []
    ensures Visit(path[|path| - 1].key, Enters(path)) in seen
  {
    var before, last := path[..|path| - 1], path[|path| - 1];
    assert path == before + [last];
    CallIsRecorded(pkg, root, seen, reach, before, last.entered, Follow(last.key)) by {
      if before != [] {
        PathIsSeen(pkg, root, seen, reach, before);
      }
    }
  }

  lemma CallIsRecorded(pkg: Package, root: Func, seen: set<Visit>, reach: Reach, path: seq<Hop>, entered: bool, act: Act)
    requires Scanned(pkg, {}, Reach([], false), seen, reach, FuncActs(pkg, root, false))
    requires path != [] ==> Visit(path[|path| - 1].key, Enters(path)) in seen
    requires act != Other && EndMakes(pkg, root, path, act, entered)
    ensures Recorded(seen, reach, Found(act, Enters(path) || entered))
  {
    MakesIff(pkg, End(pkg, root, path).value, act, entered);
    if path == [] {
      assert Recorded(seen, reach, Found(act, entered));
    } else {
      var c := Visit(path[|path| - 1].key, Enters(path));
      var f := Found(act, c.inTx || entered);
      ActsInside(pkg, pkg.funcs[c.key], pkg.funcs[c.key].body, f);
      assert f in BodyActs(pkg, c);
      assert Covers(seen, reach, BodyActs(pkg, c));
    }
  }

  lemma ReachedIsRecorded(pkg: Package, root: Func, seen: set<Visit>, reach: Reach, f: Found)
    requires Scanned(pkg, {}, Reach([], false), seen, reach, FuncActs(pkg, root, false))
    requires Reached(pkg, root, f) && f.act != Other
    ensures Recorded(seen, reach, f)
  {
    var path, entered :| ReachedBy(pkg, root, f, path, entered);
    if path != [] {
      PathIsSeen(pkg, root, seen, reach, path);
    }
    CallIsRecorded(pkg, root, seen, reach, path, entered, f.act);
  }

  // The scanner of one method: helpers are entered once a transaction state.
  class Scanner {
    const pkg: Package
    ghost const root: Func
    var seen: set<Visit>
    var reach: Reach

    constructor (pkg: Package, root: Func)
      ensures this.pkg == pkg && this.root == root
      ensures seen == {} && reach == Reach([], false)
    {
      this.pkg := pkg;
      this.root := root;
      seen := {};
      reach := Reach([], false);
    }

    method Walk(at: Func, n: Node, inTx: bool)
      requires Sound(pkg, root, seen, reach) && AllReached(pkg, root, Acts(pkg, at, n, inTx))
      modifies this
      ensures Sound(pkg, root, seen, reach)
      ensures Scanned(pkg, old(seen), old(reach), seen, reach, Acts(pkg, at, n, inTx))
      decreases Visits(pkg) - seen, 2, n
    {
      match n
      case Inner(children) => WalkAll(at, children, inTx);
      case Literal(body) => Walk(at, body, inTx);
      case Ident(_) =>
      case Selector(x, _) => Walk(at, x, inTx);
      case Call(fun, args, site) =>
        Classify(at, fun, site, inTx);
        ghost var seen1, reach1 := seen, reach;
        Walk(at, fun, inTx);
        ScannedThen(pkg, old(seen), old(reach), seen1, reach1, Classified(pkg, at, fun, site, inTx), seen, reach, Acts(pkg, at, fun, inTx));
        ghost var seen2, reach2 := seen, reach;
        if Opens(pkg, fun) {
          WalkArgs(at, args, inTx);
        } else {
          WalkAll(at, args, inTx);
        }
        ScannedThen(pkg, old(seen), old(reach), seen2, reach2, Classified(pkg, at, fun, site, inTx) + Acts(pkg, at, fun, inTx),
                    seen, reach, if Opens(pkg, fun) then ActsArgs(pkg, at, args, inTx) else ActsAll(pkg, at, args, inTx));
    }

    method WalkAll(at: Func, ns: Nodes, inTx: bool)
      requires Sound(pkg, root, seen, reach) && AllReached(pkg, root, ActsAll(pkg, at, ns, inTx))
      modifies this
      ensures Sound(pkg, root, seen, reach)
      ensures Scanned(pkg, old(seen), old(reach), seen, reach, ActsAll(pkg, at, ns, inTx))
      decreases Visits(pkg) - seen, 2, ns
    {
      if ns.Cons? {
        Walk(at, ns.head, inTx);
        ghost var seen1, reach1 := seen, reach;
        WalkAll(at, ns.tail, inTx);
        ScannedThen(pkg, old(seen), old(reach), seen1, reach1, Acts(pkg, at, ns.head, inTx), seen, reach, ActsAll(pkg, at, ns.tail, inTx));
      }
    }

    // The arguments of a transaction call.
    method WalkArgs(at: Func, ns: Nodes, inTx: bool)
      requires Sound(pkg, root, seen, reach) && AllReached(pkg, root, ActsArgs(pkg, at, ns, inTx))
      modifies this
      ensures Sound(pkg, root, seen, reach)
      ensures Scanned(pkg, old(seen), old(reach), seen, reach, ActsArgs(pkg, at, ns, inTx))
      decreases Visits(pkg) - seen, 2, ns
    {
      if ns.Cons? {
        ghost var first := if ns.head.Literal? then Acts(pkg, at, ns.head.body, true) else Acts(pkg, at, ns.head, inTx);
        if ns.head.Literal? {
          Walk(at, ns.head.body, true);
        } else {
          Walk(at, ns.head, inTx);
        }
        ghost var seen1, reach1 := seen, reach;
        WalkArgs(at, ns.tail, inTx);
        ScannedThen(pkg, old(seen), old(reach), seen1, reach1, first, seen, reach, ActsArgs(pkg, at, ns.tail, inTx));
      }
    }

    method Classify(at: Func, fun: Node, site: nat, inTx: bool)
      requires Sound(pkg, root, seen, reach) && AllReached(pkg, root, Classified(pkg, at, fun, site, inTx))
      modifies this
      ensures Sound(pkg, root, seen, reach)
      ensures Scanned(pkg, old(seen), old(reach), seen, reach, Classified(pkg, at, fun, site, inTx))
      decreases Visits(pkg) - seen, 1
    {
      var act := Called(pkg, at, fun, site);
      ghost var audit := if Audits(pkg, at, fun) then {Found(Audit, inTx)} else {};
      if Audits(pkg, at, fun) {
        assert Found(Audit, inTx) in Classified(pkg, at, fun, site, inTx);
        reach := reach.(audited := true);
      }
      ghost var seen1, reach1 := seen, reach;
      assert act != Other ==> Reached(pkg, root, Found(act, inTx)) by {
        assert Found(act, inTx) in Classified(pkg, at, fun, site, inTx);
      }
      ClassifyAct(act, inTx);
      ScannedThen(pkg, old(seen), old(reach), seen1, reach1, audit, seen, reach, {Found(act, inTx)});
    }

    method ClassifyAct(act: Act, inTx: bool)
      requires Sound(pkg, root, seen, reach) && (act != Other ==> Reached(pkg, root, Found(act, inTx)))
      modifies this
      ensures Sound(pkg, root, seen, reach)
      ensures Scanned(pkg, old(seen), old(reach), seen, reach, {Found(act, inTx)})
      decreases Visits(pkg) - seen, 0, 1
    {
      match act
      case Follow(key) => FollowHelper(key, inTx);
      case Write(field, site) => reach := reach.(writes := reach.writes + [Use(field, site, inTx)]);
      case Audit => reach := reach.(audited := true);
      case Other =>
    }

    method FollowHelper(key: Key, inTx: bool)
      requires Sound(pkg, root, seen, reach) && Reached(pkg, root, Found(Follow(key), inTx))
      modifies this
      ensures Sound(pkg, root, seen, reach)
      ensures Scanned(pkg, old(seen), old(reach), seen, reach, {Found(Follow(key), inTx)})
      decreases Visits(pkg) - seen, 0, 0
    {
      var c := Visit(key, inTx);
      if c in seen {
        return;
      }
      seen := seen + {c};
      if key in pkg.funcs {
        assert c in Visits(pkg);
        assert AllReached(pkg, root, BodyActs(pkg, c)) by {
          forall f | f in BodyActs(pkg, c) && f.act != Other ensures Reached(pkg, root, f) {
            HelperIsReached(pkg, root, c, f);
          }
        }
        Walk(pkg.funcs[key], pkg.funcs[key].body, inTx);
      }
    }
  }

  ghost predicate AuditReached(pkg: Package, root: Func) {
    Reached(pkg, root, Found(Audit, false)) || Reached(pkg, root, Found(Audit, true))
  }

  ghost predicate WriteReached(pkg: Package, root: Func, u: Use) {
    Reached(pkg, root, Found(Write(u.field, u.site), u.inTx))
  }

  // A finished scan recorded exactly what some call path reaches.
  ghost predicate Exact(pkg: Package, root: Func, reach: Reach) {
    && (forall u :: u in reach.writes <==> WriteReached(pkg, root, u))
    && (reach.audited <==> AuditReached(pkg, root))
  }

  lemma FinishedIsExact(pkg: Package, root: Func, seen: set<Visit>, reach: Reach)
    requires Scanned(pkg, {}, Reach([], false), seen, reach, FuncActs(pkg, root, false))
    requires Sound(pkg, root, seen, reach)
    ensures Exact(pkg, root, reach)
  {
    forall u ensures u in reach.writes <==> WriteReached(pkg, root, u) {
      if WriteReached(pkg, root, u) {
        ReachedIsRecorded(pkg, root, seen, reach, Found(Write(u.field, u.site), u.inTx));
      }
    }
    forall inTx: bool | Reached(pkg, root, Found(Audit, inTx)) ensures reach.audited {
      ReachedIsRecorded(pkg, root, seen, reach, Found(Audit, inTx));
    }
  }

  // The scan of a method, for any package: recursion between its helpers included.
  method Scan(pkg: Package, root: Func) returns (reach: Reach)
    ensures Exact(pkg, root, reach)
  {
    var s := new Scanner(pkg, root);
    forall f | f in FuncActs(pkg, root, false) && f.act != Other ensures Reached(pkg, root, f) {
      RootIsReached(pkg, root, f);
    }
    s.Walk(root, root.body, false);
    reach := s.reach;
    FinishedIsExact(pkg, root, s.seen, reach);
  }

  // The rules --------------------------------------------------------------------------------

  // The fields written through and whether some write is outside a transaction.
  method Summarise(writes: seq<Use>) returns (fields: set<string>, outside: bool)
    ensures fields == Fields(writes)
    ensures outside <==> exists u :: u in writes && !u.inTx
  {
    fields, outside := {}, false;
    var i := 0;
    while i < |writes|
      invariant i <= |writes|
      invariant fields == Fields(writes[..i])
      invariant outside <==> exists u :: u in writes[..i] && !u.inTx
    {
      assert writes[..i + 1] == writes[..i] + [writes[i]];
      fields := fields + {writes[i].field};
      outside := outside || !writes[i].inTx;
      i := i + 1;
    }
    assert writes[..i] == writes;
  }

  // Some path reaches a write through the field, inside a transaction closure or not.
  ghost predicate Writes(pkg: Package, root: Func, field: string, inTx: bool) {
    exists site :: WriteReached(pkg, root, Use(field, site, inTx))
  }

  ghost predicate WritesField(pkg: Package, root: Func, field: string) {
    Writes(pkg, root, field, false) || Writes(pkg, root, field, true)
  }

  lemma TwoFields(fields: set<string>)
    ensures |fields| >= 2 <==> exists a, b :: a in fields && b in fields && a != b
  {
    if |fields| >= 2 {
      var a :| a in fields;
      assert |fields - {a}| >= 1;
      var b :| b in fields - {a};
    }
    forall a, b | a in fields && b in fields && a != b ensures |fields| >= 2 {
      SubsetCount({a, b}, fields);
    }
  }

  function Fields(writes: seq<Use>): set<string> {
    set u | u in writes :: u.field
  }

  lemma FieldsAreReached(pkg: Package, root: Func, reach: Reach, field: string)
    requires Exact(pkg, root, reach)
    ensures field in Fields(reach.writes) <==> WritesField(pkg, root, field)
  {
    if field in Fields(reach.writes) {
      var u :| u in reach.writes && u.field == field;
      assert WriteReached(pkg, root, Use(field, u.site, u.inTx));
    }
    if WritesField(pkg, root, field) {
      var inTx := Writes(pkg, root, field, true);
      assert Writes(pkg, root, field, inTx);
      var site :| WriteReached(pkg, root, Use(field, site, inTx));
      assert Use(field, site, inTx) in reach.writes;
    }
  }

  lemma OutsideIsReached(pkg: Package, root: Func, reach: Reach)
    requires Exact(pkg, root, reach)
    ensures (exists u :: u in reach.writes && !u.inTx) <==> exists field :: Writes(pkg, root, field, false)
  {
    if u :| u in reach.writes && !u.inTx {
      assert WriteReached(pkg, root, Use(u.field, u.site, false));
      assert Writes(pkg, root, u.field, false);
    }
    if field :| Writes(pkg, root, field, false) {
      var site :| WriteReached(pkg, root, Use(field, site, false));
      assert Use(field, site, false) in reach.writes;
    }
  }

  // A method is reported exactly when it reaches writes through two fields or more
  // and one of its writes on a path that enters no transaction closure.
  method AtomicWrites(pkg: Package, root: Func) returns (reported: bool)
    ensures reported <==>
              && (exists a, b :: a != b && WritesField(pkg, root, a) && WritesField(pkg, root, b))
              && exists field :: Writes(pkg, root, field, false)
  {
    var reach := Scan(pkg, root);
    var fields, outside := Summarise(reach.writes);
    reported := |fields| >= 2 && outside;
    forall field ensures field in fields <==> WritesField(pkg, root, field) {
      FieldsAreReached(pkg, root, reach, field);
    }
    TwoFields(fields);
    OutsideIsReached(pkg, root, reach);
  }

  // The method reaches a write and no audit call.
  ghost predicate Offends(pkg: Package, f: Func) {
    (exists field :: WritesField(pkg, f, field)) && !AuditReached(pkg, f)
  }

  method WritesUnaudited(pkg: Package, root: Func) returns (offends: bool)
    ensures offends <==> Offends(pkg, root)
  {
    var reach := Scan(pkg, root);
    offends := |reach.writes| > 0 && !reach.audited;
    forall field ensures field in Fields(reach.writes) <==> WritesField(pkg, root, field) {
      FieldsAreReached(pkg, root, reach, field);
    }
    if |reach.writes| > 0 {
      assert reach.writes[0].field in Fields(reach.writes);
    }
  }

  // A service method under its full name.
  datatype Named = Named(name: string, func: Func)

  ghost predicate OffendsAs(pkg: Package, methods: seq<Named>, name: string) {
    exists m :: m in methods && m.name == name && Offends(pkg, m.func)
  }

  // A method is reported exactly when it offends and is not exempt; an exemption is
  // stale exactly when no method of its name offends.
  method RequiresAudit(pkg: Package, methods: seq<Named>, exempt: seq<string>) returns (reported: seq<string>, stale: seq<string>)
    ensures forall name :: name in reported <==> OffendsAs(pkg, methods, name) && name !in exempt
    ensures forall name :: name in stale <==> name in exempt && !OffendsAs(pkg, methods, name)
  {
    var matched: set<string>;
    reported, matched := SortOffenders(pkg, methods, exempt);
    stale := [];
    for i := 0 to |exempt|
      invariant forall name :: name in stale <==> name in exempt[..i] && name !in matched
    {
      assert exempt[..i + 1] == exempt[..i] + [exempt[i]];
      if exempt[i] !in matched {
        stale := stale + [exempt[i]];
      }
    }
    assert exempt[..|exempt|] == exempt;
  }

  // The offending methods: those to report, and the exemptions that match one.
  method SortOffenders(pkg: Package, methods: seq<Named>, exempt: seq<string>) returns (reported: seq<string>, matched: set<string>)
    ensures forall name :: name in reported <==> OffendsAs(pkg, methods, name) && name !in exempt
    ensures forall name :: name in matched <==> OffendsAs(pkg, methods, name) && name in exempt
  {
    reported, matched := [], {};
    for i := 0 to |methods|
      invariant forall name :: name in reported <==> OffendsAs(pkg, methods[..i], name) && name !in exempt
      invariant forall name :: name in matched <==> OffendsAs(pkg, methods[..i], name) && name in exempt
    {
      var m := methods[i];
      var offends := WritesUnaudited(pkg, m.func);
      OneMore(pkg, methods[..i], m);
      assert methods[..i + 1] == methods[..i] + [m];
      if offends && m.name in exempt {
        matched := matched + {m.name};
      } else if offends {
        reported := reported + [m.name];
      }
    }
    assert methods[..|methods|] == methods;
  }

  lemma OneMore(pkg: Package, methods: seq<Named>, m: Named)
    ensures forall name :: OffendsAs(pkg, methods + [m], name) <==>
              OffendsAs(pkg, methods, name) || (name == m.name && Offends(pkg, m.func))
  {
    forall name ensures OffendsAs(pkg, methods + [m], name) <==> OffendsAs(pkg, methods, name) || (name == m.name && Offends(pkg, m.func)) {
      if OffendsAs(pkg, methods, name) {
        var d :| d in methods && d.name == name && Offends(pkg, d.func);
        assert d in methods + [m];
      }
      assert m in methods + [m];
    }
  }
}
