// The syntax of the service methods that are scanned, positions in it, and what a call
// at a position is and whether it stands in a transaction closure
// (archtest/rules_service.go).
module ServiceSyntax {
  import opened Wrappers

  type Key = string

  // The syntax the scan tells apart: names, selectors, calls at a place in the source,
  // function literals, and everything else.
  datatype Node =
    | Inner(children: Nodes)
    | Literal(body: Node)
    | Ident(name: string)
    | Selector(x: Node, sel: string)
    | Call(fun: Node, args: Nodes, site: nat)

  datatype Nodes = Nil | Cons(head: Node, tail: Nodes)

  // A struct of the scanned directory: its fields that are repositories and those that
  // write the audit log.
  datatype ServiceType = ServiceType(repos: set<string>, audits: set<string>)

  // A function: its receiver's type and name ("" for neither), the names its file gives
  // imported packages, and its body.
  datatype Func = Func(typ: string, recv: string, aliases: map<string, string>, body: Node)

  // A call the rule counts as an audit write: a method of that name, or a member of an
  // imported package.
  datatype AuditCall = Method(name: string) | Member(path: string, name: string)

  datatype Config = Config(txNames: seq<string>, prefixes: seq<string>, audit: seq<AuditCall>)

  // What is scanned: the rule's configuration, the types and the functions, the latter
  // by receiver type and name.
  datatype Package = Package(cfg: Config, types: map<string, ServiceType>, funcs: map<Key, Func>)

  // What a call is, seen from the function it stands in: a helper beside it, a write
  // through a repository field, an audit write, or nothing the scan knows.
  datatype Act = Other | Follow(key: Key) | Write(field: string, site: nat) | Audit

  // Positions --------------------------------------------------------------------------------

  // From a node to one under it: a child, the body of a function literal, the operand of
  // a selector, what a call calls, or an argument of it.
  datatype Edge = Child(i: nat) | Body | Operand | Callee | Arg(i: nat)

  function Nth(ns: Nodes, i: nat): Option<Node> {
    match ns
    case Nil => None
    case Cons(head, tail) => if i == 0 then Some(head) else Nth(tail, i - 1)
  }

  function Under(n: Node, e: Edge): Option<Node> {
    match n
    case Inner(children) => if e.Child? then Nth(children, e.i) else None
    case Literal(body) => if e.Body? then Some(body) else None
    case Ident(_) => None
    case Selector(x, _) => if e.Operand? then Some(x) else None
    case Call(fun, args, _) => if e.Callee? then Some(fun) else if e.Arg? then Nth(args, e.i) else None
  }

  // The node at a position, one edge after another.
  function NodeAt(n: Node, pos: seq<Edge>): Option<Node>
    decreases |pos|
  {
    if pos == [] then Some(n)
    else
      match Under(n, pos[0])
      case None => None
      case Some(m) => NodeAt(m, pos[1..])
  }

  // The position lies in the body of a function literal that is an argument of a call to
  // a method of a transaction's name.
  ghost predicate InClosure(pkg: Package, n: Node, pos: seq<Edge>) {
    exists k: nat :: ClosureAt(pkg, n, pos, k)
  }

  ghost predicate ClosureAt(pkg: Package, n: Node, pos: seq<Edge>, k: nat) {
    && k + 1 < |pos| && pos[k].Arg? && pos[k + 1] == Body
    && match NodeAt(n, pos[..k])
       case Some(Call(Selector(_, sel), _, _)) => sel in pkg.cfg.txNames
       case _ => false
  }

  // What a call is, by the shape of what it calls.
  ghost predicate IsA(pkg: Package, at: Func, fun: Node, site: nat, act: Act) {
    match act
    case Other => false
    case Follow(key) =>
      || (exists name :: fun == Ident(name) && key == "." + name)
      || (at.recv != "" && exists name :: fun == Selector(Ident(at.recv), name) && key == at.typ + "." + name)
    case Write(field, place) =>
      && place == site && at.typ in pkg.types && field in pkg.types[at.typ].repos
      && exists name, prefix :: fun == Selector(Selector(Ident(at.recv), field), name) && prefix in pkg.cfg.prefixes && prefix <= name
    case Audit =>
      if pkg.cfg.audit == [] then
        && at.typ in pkg.types
        && exists field :: && field in pkg.types[at.typ].audits
                           && (fun == Selector(Selector(Ident(at.recv), field), "Write") || fun == Selector(Selector(Ident(at.recv), field), "Record"))
      else
        fun.Selector? && exists want :: want in pkg.cfg.audit && NamedBy(at, fun, want)
  }

  predicate NamedBy(at: Func, fun: Node, want: AuditCall)
    requires fun.Selector?
  {
    match want
    case Method(name) => fun.sel == name
    case Member(path, name) =>
      fun.sel == name && fun.x.Ident? && fun.x.name != "" && path in at.aliases && at.aliases[path] == fun.x.name
  }

  // A call of that kind stands at the position.
  ghost predicate MadeAt(pkg: Package, at: Func, n: Node, pos: seq<Edge>, act: Act) {
    match NodeAt(n, pos)
    case Some(Call(fun, _, site)) => IsA(pkg, at, fun, site, act)
    case _ => false
  }

  // The function makes such a call, in a transaction closure of its own or not.
  ghost predicate Makes(pkg: Package, f: Func, act: Act, entered: bool) {
    exists pos :: MadeAt(pkg, f, f.body, pos, act) && entered == InClosure(pkg, f.body, pos)
  }

  // A closure around a position is around the same position seen from above, which is in
  // one more when the node above is the call and the position enters its argument's body.
  lemma ClosureAbove(pkg: Package, n: Node, e: Edge, m: Node, pos: seq<Edge>)
    requires Under(n, e) == Some(m)
    ensures InClosure(pkg, n, [e] + pos) <==> InClosure(pkg, m, pos) || ClosureAt(pkg, n, [e] + pos, 0)
  {
    var longer := [e] + pos;
    forall k: nat | k <= |pos| ensures NodeAt(n, longer[..k + 1]) == NodeAt(m, pos[..k]) {
      assert longer[..k + 1][1..] == pos[..k];
    }
    if InClosure(pkg, m, pos) {
      var k: nat :| ClosureAt(pkg, m, pos, k);
      assert ClosureAt(pkg, n, longer, k + 1);
    }
    if InClosure(pkg, n, longer) {
      var k: nat :| ClosureAt(pkg, n, longer, k);
      if k > 0 {
        assert ClosureAt(pkg, m, pos, k - 1);
      }
    }
  }
}
