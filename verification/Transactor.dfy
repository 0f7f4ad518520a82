// Transactions carried in a context (database/transactor.go) and events published
// in them (event/typed.go, event/outbox.go): every program of nested scopes over
// any connections, with errors returned, swallowed or panicking.
module Transactor {
  import opened Wrappers

  // A connection to a database. One that exposes no pool cannot be told apart
  // from others, so no transaction in a context matches it.
  datatype Conn = Conn(db: nat, exposesPool: bool)
  {
    function Pool(): Option<nat> {
      if exposesPool then Some(db) else None
    }
  }

  type TxId = nat

  // The open transactions of a context, innermost first.
  datatype Chain = NoTx | Entry(pool: Option<nat>, tx: TxId, parent: Chain)

  // find: the innermost entry on the pool, or none; no pool matches nothing.
  function Find(c: Chain, pool: Option<nat>): Chain {
    if c.Entry? && !(pool.Some? && c.pool == pool) then Find(c.parent, pool) else c
  }

  // The entry so many parents up.
  function Up(c: Chain, k: nat): Chain {
    if k == 0 || c.NoTx? then c else Up(c.parent, k - 1)
  }

  lemma {:induction false} UpOne(c: Chain, k: nat)
    ensures Up(c, k + 1) == if Up(c, k).Entry? then Up(c, k).parent else NoTx
  {
    if k > 0 && c.Entry? {
      UpOne(c.parent, k - 1);
    }
  }

  // The nearest entry on the pool, or the end when there is none.
  method FindEntry(c: Chain, pool: Option<nat>) returns (e: Chain)
    ensures e == Find(c, pool)
    ensures e.Entry? ==> pool.Some? && e.pool == pool
    ensures exists k: nat :: e == Up(c, k) && forall j :: 0 <= j < k ==> Up(c, j).Entry? && (pool.None? || Up(c, j).pool != pool)
  {
    e := c;
    ghost var k := 0;
    while e.Entry?
      invariant Find(c, pool) == Find(e, pool)
      invariant e == Up(c, k) && forall j :: 0 <= j < k ==> Up(c, j).Entry? && (pool.None? || Up(c, j).pool != pool)
      decreases e
    {
      if pool.Some? && e.pool == pool {
        return;
      }
      UpOne(c, k);
      e := e.parent;
      k := k + 1;
    }
  }

  // TxOn for the outboxes: the innermost entry on a pool the event queue lives on.
  function FindOutbox(c: Chain, outboxes: set<nat>): (e: Chain)
    ensures e.Entry? ==> e.pool.Some? && e.pool.value in outboxes
  {
    if c.Entry? && !(c.pool.Some? && c.pool.value in outboxes) then FindOutbox(c.parent, outboxes) else c
  }

  method FindOutboxEntry(c: Chain, outboxes: set<nat>) returns (e: Chain)
    ensures e == FindOutbox(c, outboxes)
    ensures e.Entry? ==> e.pool.Some? && e.pool.value in outboxes
    ensures exists k: nat :: e == Up(c, k) && forall j :: 0 <= j < k ==> Up(c, j).Entry? && (Up(c, j).pool.None? || Up(c, j).pool.value !in outboxes)
  {
    e := c;
    ghost var k := 0;
    while e.Entry?
      invariant FindOutbox(c, outboxes) == FindOutbox(e, outboxes)
      invariant e == Up(c, k)
      invariant forall j :: 0 <= j < k ==> Up(c, j).Entry? && (Up(c, j).pool.None? || Up(c, j).pool.value !in outboxes)
      decreases e
    {
      if e.pool.Some? && e.pool.value in outboxes {
        return;
      }
      UpOne(c, k);
      e := e.parent;
      k := k + 1;
    }
  }

  datatype Item = Row(v: int) | Event(v: int)

  // An item written to a database.
  datatype Wrote = Wrote(db: nat, item: Item)

  // A program. Write goes through a BaseRepository and WritePlain through a
  // PlainRepository, which ignores the context's transactions. Within runs its body in
  // a transaction on the connection; begins and commits say whether the database lets
  // it, and encodes whether a payload can be encoded. Try swallows an error, Recover
  // turns a panic into one.
  datatype Prog =
    | Skip
    | Seq(first: Prog, second: Prog)
    | Write(conn: Conn, v: int)
    | WritePlain(conn: Conn, v: int)
    | Publish(v: int, encodes: bool)
    | Within(conn: Conn, body: Prog, begins: bool, commits: bool)
    | Try(body: Prog)
    | Recover(body: Prog)
    | Fail
    | Panic

  datatype Error = Returned | NotBegun | NotCommitted | NoTransaction | ForeignTransaction | NotEncoded

  datatype Outcome = Ok | Err(error: Error) | Panicked

  // The databases while a program runs: what is committed, the open transactions with
  // what they hold, everything written so far, and every context a statement ran in.
  datatype World = World(committed: seq<Wrote>, open: map<TxId, seq<Wrote>>, nextTx: TxId, wrote: seq<Wrote>, seen: seq<Chain>)

  datatype Done = Done(outcome: Outcome, world: World)

  // A write goes to the transaction of the entry; without one it is committed at once.
  function WriteOn(w: World, e: Chain, item: Wrote): World {
    var w' := w.(wrote := w.wrote + [item]);
    if e.NoTx? then w'.(committed := w.committed + [item])
    else w'.(open := w.open[e.tx := Held(w, e.tx) + [item]])
  }

  function Held(w: World, t: TxId): seq<Wrote> {
    if t in w.open then w.open[t] else []
  }

  // A new transaction is open, empty and innermost.
  function Begun(w: World): World {
    w.(open := w.open[w.nextTx := []], nextTx := w.nextTx + 1)
  }

  // The end of the transaction: what it holds is committed, or lost.
  function Close(d: Done, t: TxId, commits: bool): Done {
    var closed := d.world.(open := d.world.open - {t});
    if d.outcome != Ok then Done(d.outcome, closed)
    else if commits then Done(Ok, closed.(committed := closed.committed + Held(d.world, t)))
    else Done(Err(NotCommitted), closed)
  }

  // Publish: in the innermost transaction on an outbox connection, or not at all.
  function PublishIn(ctx: Chain, outboxes: set<nat>, w: World, v: int, encodes: bool): Done {
    var e := FindOutbox(ctx, outboxes);
    if e.NoTx? then Done(Err(if ctx.Entry? then ForeignTransaction else NoTransaction), w)
    else if !encodes then Done(Err(NotEncoded), w)
    else Done(Ok, WriteOn(w, e, Wrote(e.pool.value, Event(v))))
  }

  function Run(p: Prog, ctx: Chain, outboxes: set<nat>, before: World): Done {
    var w := before.(seen := before.seen + [ctx]);
    match p
    case Skip => Done(Ok, w)
    case Fail => Done(Err(Returned), w)
    case Panic => Done(Panicked, w)
    case Seq(p1, p2) =>
      var d := Run(p1, ctx, outboxes, w);
      if d.outcome == Ok then Run(p2, ctx, outboxes, d.world) else d
    case Try(body) =>
      var d := Run(body, ctx, outboxes, w);
      if d.outcome.Err? then d.(outcome := Ok) else d
    case Recover(body) =>
      var d := Run(body, ctx, outboxes, w);
      if d.outcome == Panicked then d.(outcome := Err(Returned)) else d
    case Write(conn, v) => Done(Ok, WriteOn(w, Find(ctx, conn.Pool()), Wrote(conn.db, Row(v))))
    case WritePlain(conn, v) => Done(Ok, WriteOn(w, NoTx, Wrote(conn.db, Row(v))))
    case Publish(v, encodes) => PublishIn(ctx, outboxes, w, v, encodes)
    case Within(conn, body, begins, commits) =>
      if Find(ctx, conn.Pool()).Entry? then Run(body, ctx, outboxes, w)
      else if !begins then Done(Err(NotBegun), w)
      else
        Close(Run(body, Entry(conn.Pool(), w.nextTx, ctx), outboxes, Begun(w)), w.nextTx, commits)
  }

  // What a program means --------------------------------------------------------------

  // The outcome, what waits on the connections already in a transaction, what is
  // kept for good, and everything that was written, whatever became of it.
  datatype Meaning = Meaning(outcome: Outcome, pending: seq<Wrote>, kept: seq<Wrote>, wrote: seq<Wrote>)

  function Only(s: seq<Wrote>, db: nat): seq<Wrote> {
    if s == [] then []
    else if s[|s| - 1].db == db then Only(s[..|s| - 1], db) + [s[|s| - 1]]
    else Only(s[..|s| - 1], db)
  }

  function Except(s: seq<Wrote>, db: nat): seq<Wrote> {
    if s == [] then []
    else if s[|s| - 1].db != db then Except(s[..|s| - 1], db) + [s[|s| - 1]]
    else Except(s[..|s| - 1], db)
  }

  // The innermost database in a transaction that the queue lives on.
  function OutboxIn(inTx: seq<Option<nat>>, outboxes: set<nat>): Option<nat> {
    if inTx == [] then None
    else if inTx[0].Some? && inTx[0].value in outboxes then inTx[0]
    else OutboxIn(inTx[1..], outboxes)
  }

  function Then(a: Meaning, b: Meaning): Meaning {
    Meaning(b.outcome, a.pending + b.pending, a.kept + b.kept, a.wrote + b.wrote)
  }

  // The connection has a pool, and there is a transaction on it.
  predicate Joins(conn: Conn, inTx: seq<Option<nat>>) {
    conn.exposesPool && Some(conn.db) in inTx
  }

  // The meaning of a scope that is outermost on its connection, from its body's.
  function Scope(conn: Conn, m: Meaning, commits: bool): Meaning {
    var outcome := if m.outcome == Ok && !commits then Err(NotCommitted) else m.outcome;
    if !conn.exposesPool then m.(outcome := outcome)
    else Meaning(outcome, Except(m.pending, conn.db), m.kept + if outcome == Ok then Only(m.pending, conn.db) else [], m.wrote)
  }

  // inTx are the pools of the open transactions, innermost first. A scope on one of
  // them joins; a scope on another is the outermost on it, and its end decides.
  function Means(p: Prog, inTx: seq<Option<nat>>, outboxes: set<nat>): Meaning {
    match p
    case Skip => Meaning(Ok, [], [], [])
    case Fail => Meaning(Err(Returned), [], [], [])
    case Panic => Meaning(Panicked, [], [], [])
    case Seq(p1, p2) =>
      var m := Means(p1, inTx, outboxes);
      if m.outcome == Ok then Then(m, Means(p2, inTx, outboxes)) else m
    case Try(body) =>
      var m := Means(body, inTx, outboxes);
      if m.outcome.Err? then m.(outcome := Ok) else m
    case Recover(body) =>
      var m := Means(body, inTx, outboxes);
      if m.outcome == Panicked then m.(outcome := Err(Returned)) else m
    case Write(conn, v) =>
      var item := Wrote(conn.db, Row(v));
      if Joins(conn, inTx) then Meaning(Ok, [item], [], [item]) else Meaning(Ok, [], [item], [item])
    case WritePlain(conn, v) => Meaning(Ok, [], [Wrote(conn.db, Row(v))], [Wrote(conn.db, Row(v))])
    case Publish(v, encodes) =>
      (match OutboxIn(inTx, outboxes)
       case None => Meaning(Err(if inTx == [] then NoTransaction else ForeignTransaction), [], [], [])
       case Some(db) =>
         if encodes then Meaning(Ok, [Wrote(db, Event(v))], [], [Wrote(db, Event(v))]) else Meaning(Err(NotEncoded), [], [], []))
    case Within(conn, body, begins, commits) =>
      if Joins(conn, inTx) then Means(body, inTx, outboxes)
      else if !begins then Meaning(Err(NotBegun), [], [], [])
      else Scope(conn, Means(body, [conn.Pool()] + inTx, outboxes), commits)
  }

  // The law of the outermost scope --------------------------------------------------------

  lemma {:induction false} OnlyConcat(a: seq<Wrote>, b: seq<Wrote>, db: nat)
    ensures Only(a + b, db) == Only(a, db) + Only(b, db)
    ensures Except(a + b, db) == Except(a, db) + Except(b, db)
  {
    if b == [] {
      assert a + b == a;
    } else {
      OnlyConcat(a, b[..|b| - 1], db);
      assert (a + b)[..|a + b| - 1] == a + b[..|b| - 1];
    }
  }

  lemma OnlyOne(item: Wrote, db: nat)
    ensures Only([item], db) == if item.db == db then [item] else []
  {
    assert [item][..0] == [];
  }

  lemma {:induction false} OnlyOfOnly(s: seq<Wrote>, db: nat, other: nat)
    ensures Only(Only(s, db), other) == if other == db then Only(s, db) else []
  {
    if s != [] {
      OnlyOfOnly(s[..|s| - 1], db, other);
      var last := s[|s| - 1];
      if last.db == db {
        OnlyConcat(Only(s[..|s| - 1], db), [last], other);
        assert [last][..0] == [];
      }
    }
  }

  lemma {:induction false} OnlyOfExcept(s: seq<Wrote>, db: nat, other: nat)
    ensures Only(Except(s, db), other) == if other == db then [] else Only(s, other)
  {
    if s != [] {
      OnlyOfExcept(s[..|s| - 1], db, other);
      var last := s[|s| - 1];
      if last.db != db {
        OnlyConcat(Except(s[..|s| - 1], db), [last], other);
        assert [last][..0] == [];
      }
    }
  }

  // Inside a scope on a database every write on it waits: nothing on it is kept yet.
  predicate Waits(m: Meaning, db: nat) {
    Only(m.kept, db) == [] && Only(m.pending, db) == Only(m.wrote, db)
  }

  lemma ThenWaits(a: Meaning, b: Meaning, db: nat)
    requires Waits(a, db) && Waits(b, db)
    ensures Waits(Then(a, b), db)
  {
    OnlyConcat(a.kept, b.kept, db);
    OnlyConcat(a.pending, b.pending, db);
    OnlyConcat(a.wrote, b.wrote, db);
  }

  // A scope on another database passes this one's waiting writes on untouched.
  lemma ScopeWaits(conn: Conn, m: Meaning, commits: bool, db: nat)
    requires conn.db != db && Waits(m, db)
    ensures Waits(Scope(conn, m, commits), db)
  {
    var ended := if Scope(conn, m, commits).outcome == Ok then Only(m.pending, conn.db) else [];
    assert Only(ended, db) == [] by {
      OnlyOfOnly(m.pending, conn.db, db);
    }
    OnlyConcat(m.kept, ended, db);
    OnlyOfExcept(m.pending, conn.db, db);
  }

  // Nothing waits on a database that is in no transaction.
  lemma {:induction false} NothingWaitsOutside(p: Prog, inTx: seq<Option<nat>>, outboxes: set<nat>, db: nat)
    requires Some(db) !in inTx
    ensures Only(Means(p, inTx, outboxes).pending, db) == []
  {
    match p
    case Seq(p1, p2) =>
      NothingWaitsOutside(p1, inTx, outboxes, db);
      NothingWaitsOutside(p2, inTx, outboxes, db);
      OnlyConcat(Means(p1, inTx, outboxes).pending, Means(p2, inTx, outboxes).pending, db);
    case Try(body) => NothingWaitsOutside(body, inTx, outboxes, db);
    case Recover(body) => NothingWaitsOutside(body, inTx, outboxes, db);
    case Publish(v, encodes) => OutboxIsOpen(inTx, outboxes);
    case Within(conn, body, begins, commits) =>
      if Joins(conn, inTx) {
        NothingWaitsOutside(body, inTx, outboxes, db);
      } else {
        if conn.Pool() != Some(db) {
          NothingWaitsOutside(body, [conn.Pool()] + inTx, outboxes, db);
        }
        OnlyOfExcept(Means(body, [conn.Pool()] + inTx, outboxes).pending, conn.db, db);
      }
    case _ =>
  }

  lemma {:induction false} OutboxIsOpen(inTx: seq<Option<nat>>, outboxes: set<nat>)
    ensures OutboxIn(inTx, outboxes).Some? <==> exists d :: Some(d) in inTx && d in outboxes
    ensures var o := OutboxIn(inTx, outboxes); o.Some? ==> o in inTx && o.value in outboxes
  {
    if inTx != [] {
      OutboxIsOpen(inTx[1..], outboxes);
      assert forall o :: o in inTx <==> o == inTx[0] || o in inTx[1..];
    }
  }

  // Every program run inside a scope on a database leaves its writes there waiting.
  lemma {:induction false} WritesWait(p: Prog, inTx: seq<Option<nat>>, outboxes: set<nat>, db: nat)
    requires Some(db) in inTx
    requires WellWired(p, db)
    ensures Waits(Means(p, inTx, outboxes), db)
  {
    match p
    case Seq(p1, p2) =>
      WritesWait(p1, inTx, outboxes, db);
      WritesWait(p2, inTx, outboxes, db);
      ThenWaits(Means(p1, inTx, outboxes), Means(p2, inTx, outboxes), db);
    case Try(body) => WritesWait(body, inTx, outboxes, db);
    case Recover(body) => WritesWait(body, inTx, outboxes, db);
    case Within(conn, body, begins, commits) =>
      if Joins(conn, inTx) {
        WritesWait(body, inTx, outboxes, db);
      } else {
        WritesWait(body, [conn.Pool()] + inTx, outboxes, db);
        ScopeWaits(conn, Means(body, [conn.Pool()] + inTx, outboxes), commits, db);
      }
    case _ =>
  }

  // Every repository the program uses on the database joins: none is plain, and every
  // handle exposes its pool.
  predicate WellWired(p: Prog, db: nat) {
    match p
    case Seq(p1, p2) => WellWired(p1, db) && WellWired(p2, db)
    case Try(body) => WellWired(body, db)
    case Recover(body) => WellWired(body, db)
    case Write(conn, v) => conn.db == db ==> conn.exposesPool
    case WritePlain(conn, v) => conn.db != db
    case Within(conn, body, begins, commits) => (conn.db == db ==> conn.exposesPool) && WellWired(body, db)
    case _ => true
  }

  // The outermost scope on a database decides for everything written on it inside,
  // at any depth: all of it is kept when the scope returned no error and committed,
  // and none of it otherwise.
  lemma OutermostDecides(conn: Conn, body: Prog, begins: bool, commits: bool, inTx: seq<Option<nat>>, outboxes: set<nat>)
    requires conn.exposesPool && Some(conn.db) !in inTx
    requires WellWired(body, conn.db)
    ensures var m := Means(Within(conn, body, begins, commits), inTx, outboxes);
            && Only(m.pending, conn.db) == []
            && Only(m.kept, conn.db) == if m.outcome == Ok then Only(m.wrote, conn.db) else []
  {
    NothingWaitsOutside(Within(conn, body, begins, commits), inTx, outboxes, conn.db);
    if begins {
      WritesWait(body, [conn.Pool()] + inTx, outboxes, conn.db);
      var m := Means(body, [conn.Pool()] + inTx, outboxes);
      OnlyOfOnly(m.pending, conn.db, conn.db);
      OnlyConcat(m.kept, Only(m.pending, conn.db), conn.db);
      OnlyConcat(m.kept, [], conn.db);
    }
  }

  // The run means what the program means ------------------------------------------------

  // The pools of the chain's transactions, innermost first.
  function Pools(c: Chain): seq<Option<nat>> {
    match c
    case NoTx => []
    case Entry(p, tx, parent) => [p] + Pools(parent)
  }

  // At most one open transaction a connection.
  predicate OneEach(c: Chain) {
    c.Entry? ==> (c.pool.Some? ==> c.pool !in Pools(c.parent)) && OneEach(c.parent)
  }

  // The transactions of the chain are open, and older ones are further out.
  predicate Open(c: Chain, open: set<TxId>, bound: TxId) {
    c.Entry? ==> c.tx in open && c.tx < bound && Open(c.parent, open, c.tx)
  }

  ghost predicate Fits(c: Chain, w: World) {
    && OneEach(c)
    && Open(c, w.open.Keys, w.nextTx)
    && forall t :: t in w.open ==> t < w.nextTx
  }

  // The database a transaction of the chain is on.
  function TxPool(c: Chain, t: TxId): Option<nat> {
    if c.NoTx? then None else if c.tx == t then c.pool else TxPool(c.parent, t)
  }

  lemma {:induction false} OpenWiden(c: Chain, open: set<TxId>, bound: TxId, open': set<TxId>, bound': TxId)
    requires Open(c, open, bound) && open <= open' && bound <= bound'
    ensures Open(c, open', bound')
  {
    if c.Entry? {
      OpenWiden(c.parent, open, c.tx, open', c.tx);
    }
  }

  lemma {:induction false} TxPoolOpen(c: Chain, open: set<TxId>, bound: TxId, t: TxId)
    requires Open(c, open, bound) && TxPool(c, t).Some?
    ensures t in open && t < bound && TxPool(c, t) in Pools(c)
  {
    if c.tx != t {
      TxPoolOpen(c.parent, open, c.tx, t);
    }
  }

  // An entry of the chain is the one transaction on its database.
  ghost predicate Sole(c: Chain, e: Chain, db: nat) {
    e.Entry? && e.pool == Some(db) && forall t :: TxPool(c, t) == Some(db) <==> t == e.tx
  }

  lemma SoleHead(c: Chain, open: set<TxId>, bound: TxId)
    requires c.Entry? && c.pool.Some? && OneEach(c) && Open(c, open, bound)
    ensures Sole(c, c, c.pool.value)
  {
    forall t | TxPool(c, t) == c.pool ensures t == c.tx {
      if t != c.tx {
        TxPoolOpen(c.parent, open, c.tx, t);
      }
    }
  }

  lemma SoleTail(c: Chain, e: Chain, db: nat, open: set<TxId>, bound: TxId)
    requires c.Entry? && Open(c, open, bound) && Sole(c.parent, e, db) && c.pool != Some(db)
    ensures Sole(c, e, db)
  {
    assert TxPool(c.parent, e.tx) == Some(db);
    TxPoolOpen(c.parent, open, c.tx, e.tx);
  }

  lemma {:induction false} FindIsSole(c: Chain, db: nat, open: set<TxId>, bound: TxId)
    requires OneEach(c) && Open(c, open, bound)
    ensures var e := Find(c, Some(db)); if Some(db) in Pools(c) then Sole(c, e, db) else e.NoTx?
  {
    if c.Entry? {
      if c.pool == Some(db) {
        SoleHead(c, open, bound);
      } else {
        FindIsSole(c.parent, db, open, c.tx);
        if Some(db) in Pools(c.parent) {
          SoleTail(c, Find(c.parent, Some(db)), db, open, bound);
        }
      }
    }
  }

  lemma {:induction false} FindNothing(c: Chain)
    ensures Find(c, None).NoTx?
  {
    if c.Entry? {
      FindNothing(c.parent);
    }
  }

  lemma {:induction false} OutboxIsSole(c: Chain, outboxes: set<nat>, open: set<TxId>, bound: TxId)
    requires OneEach(c) && Open(c, open, bound)
    ensures var e := FindOutbox(c, outboxes); var o := OutboxIn(Pools(c), outboxes);
            if o.Some? then Sole(c, e, o.value) else e.NoTx?
  {
    if c.Entry? {
      if c.pool.Some? && c.pool.value in outboxes {
        SoleHead(c, open, bound);
      } else {
        OutboxIsSole(c.parent, outboxes, open, c.tx);
        assert Pools(c)[1..] == Pools(c.parent);
        var o := OutboxIn(Pools(c.parent), outboxes);
        assert OutboxIn(Pools(c), outboxes) == o;
        if o.Some? {
          OutboxIsOpen(Pools(c.parent), outboxes);
          SoleTail(c, FindOutbox(c.parent, outboxes), o.value, open, bound);
        }
      }
    }
  }

  // What an open transaction gained.
  function Gained(c: Chain, t: TxId, pending: seq<Wrote>): seq<Wrote> {
    match TxPool(c, t)
    case None => []
    case Some(db) => Only(pending, db)
  }

  // The run did what the program means: outcome, what is kept, what was written, what
  // each open transaction gained, and no transaction left behind.
  ghost predicate Realises(c: Chain, w: World, d: Done, m: Meaning) {
    && d.outcome == m.outcome
    && d.world.committed == w.committed + m.kept
    && d.world.wrote == w.wrote + m.wrote
    && w.nextTx <= d.world.nextTx
    && d.world.open.Keys == w.open.Keys
    && forall t :: t in w.open ==> d.world.open[t] == w.open[t] + Gained(c, t, m.pending)
  }

  lemma RealisedFits(c: Chain, w: World, d: Done, m: Meaning)
    requires Fits(c, w) && Realises(c, w, d, m)
    ensures Fits(c, d.world)
  {
    OpenWiden(c, w.open.Keys, w.nextTx, d.world.open.Keys, d.world.nextTx);
  }

  lemma RealisesThen(c: Chain, w: World, d: Done, m: Meaning, d': Done, m': Meaning)
    requires Realises(c, w, d, m) && Realises(c, d.world, d', m')
    ensures Realises(c, w, d', Then(m, m'))
  {
    forall t | t in w.open ensures d'.world.open[t] == w.open[t] + Gained(c, t, m.pending + m'.pending) {
      if TxPool(c, t).Some? {
        OnlyConcat(m.pending, m'.pending, TxPool(c, t).value);
      }
    }
  }

  lemma WriteRealises(c: Chain, w: World, e: Chain, item: Wrote)
    requires Fits(c, w) && Sole(c, e, item.db)
    ensures Realises(c, w, Done(Ok, WriteOn(w, e, item)), Meaning(Ok, [item], [], [item]))
  {
    TxPoolOpen(c, w.open.Keys, w.nextTx, e.tx);
    assert w.committed + [] == w.committed;
    var w' := WriteOn(w, e, item);
    assert w'.open.Keys == w.open.Keys;
    forall t | t in w.open ensures w'.open[t] == w.open[t] + Gained(c, t, [item]) {
      if TxPool(c, t).Some? {
        OnlyOne(item, TxPool(c, t).value);
      }
    }
  }

  lemma AutocommitRealises(c: Chain, w: World, item: Wrote)
    ensures Realises(c, w, Done(Ok, WriteOn(w, NoTx, item)), Meaning(Ok, [], [item], [item]))
  {
  }

  lemma NothingRealises(c: Chain, w: World, outcome: Outcome)
    ensures Realises(c, w, Done(outcome, w), Meaning(outcome, [], [], []))
  {
    assert w.committed + [] == w.committed && w.wrote + [] == w.wrote;
    forall t | t in w.open ensures w.open[t] == w.open[t] + Gained(c, t, []) {
      assert Gained(c, t, []) == [];
    }
  }

  lemma BegunFits(c: Chain, w: World, conn: Conn)
    requires Fits(c, w) && (conn.exposesPool ==> Some(conn.db) !in Pools(c))
    ensures Fits(Entry(conn.Pool(), w.nextTx, c), Begun(w))
  {
    OpenWiden(c, w.open.Keys, w.nextTx, Begun(w).open.Keys, w.nextTx);
  }

  lemma CloseGains(c: Chain, w: World, conn: Conn, d: Done, m: Meaning, commits: bool, t: TxId)
    requires Fits(c, w) && (conn.exposesPool ==> Some(conn.db) !in Pools(c)) && t in w.open
    requires Realises(Entry(conn.Pool(), w.nextTx, c), Begun(w), d, m)
    ensures t in Close(d, w.nextTx, commits).world.open
    ensures Close(d, w.nextTx, commits).world.open[t] == w.open[t] + Gained(c, t, Scope(conn, m, commits).pending)
  {
    assert d.world.open[t] == w.open[t] + Gained(c, t, m.pending);
    if conn.exposesPool && TxPool(c, t).Some? {
      TxPoolOpen(c, w.open.Keys, w.nextTx, t);
      OnlyOfExcept(m.pending, conn.db, TxPool(c, t).value);
    }
  }

  lemma CloseCommits(c: Chain, w: World, conn: Conn, d: Done, m: Meaning, commits: bool)
    requires Realises(Entry(conn.Pool(), w.nextTx, c), Begun(w), d, m)
    ensures Close(d, w.nextTx, commits).outcome == Scope(conn, m, commits).outcome
    ensures Close(d, w.nextTx, commits).world.committed == w.committed + Scope(conn, m, commits).kept
  {
    assert Held(d.world, w.nextTx) == if conn.exposesPool then Only(m.pending, conn.db) else [];
    assert w.committed + (m.kept + []) == w.committed + m.kept;
  }

  lemma CloseRealises(c: Chain, w: World, conn: Conn, d: Done, m: Meaning, commits: bool)
    requires Fits(c, w) && (conn.exposesPool ==> Some(conn.db) !in Pools(c))
    requires Realises(Entry(conn.Pool(), w.nextTx, c), Begun(w), d, m)
    ensures Realises(c, w, Close(d, w.nextTx, commits), Scope(conn, m, commits))
  {
    CloseCommits(c, w, conn, d, m, commits);
    var closed := Close(d, w.nextTx, commits).world;
    assert closed.open.Keys == w.open.Keys;
    forall t | t in w.open
      ensures closed.open[t] == w.open[t] + Gained(c, t, Scope(conn, m, commits).pending)
    {
      CloseGains(c, w, conn, d, m, commits, t);
    }
  }

  // Whatever the program and whichever transactions are open around it.
  lemma {:induction false} RunMeans(p: Prog, ctx: Chain, outboxes: set<nat>, before: World)
    requires Fits(ctx, before)
    ensures Realises(ctx, before, Run(p, ctx, outboxes, before), Means(p, Pools(ctx), outboxes))
    decreases p
  {
    var w := before.(seen := before.seen + [ctx]);
    assert Fits(ctx, w);
    match p
    case Skip => NothingRealises(ctx, w, Ok);
    case Fail => NothingRealises(ctx, w, Err(Returned));
    case Panic => NothingRealises(ctx, w, Panicked);
    case Seq(p1, p2) =>
      RunMeans(p1, ctx, outboxes, w);
      var d, m := Run(p1, ctx, outboxes, w), Means(p1, Pools(ctx), outboxes);
      if d.outcome == Ok {
        RealisedFits(ctx, w, d, m);
        RunMeans(p2, ctx, outboxes, d.world);
        RealisesThen(ctx, w, d, m, Run(p2, ctx, outboxes, d.world), Means(p2, Pools(ctx), outboxes));
      }
    case Try(body) => RunMeans(body, ctx, outboxes, w);
    case Recover(body) => RunMeans(body, ctx, outboxes, w);
    case Write(conn, v) => WriteMeans(conn, v, ctx, outboxes, w);
    case WritePlain(conn, v) => AutocommitRealises(ctx, w, Wrote(conn.db, Row(v)));
    case Publish(v, encodes) => PublishMeans(v, encodes, ctx, outboxes, w);
    case Within(conn, body, begins, commits) =>
      JoinsIff(conn, ctx, w);
      if Find(ctx, conn.Pool()).Entry? {
        RunMeans(body, ctx, outboxes, w);
      } else if begins {
        BegunFits(ctx, w, conn);
        var c := Entry(conn.Pool(), w.nextTx, ctx);
        RunMeans(body, c, outboxes, Begun(w));
        CloseRealises(ctx, w, conn, Run(body, c, outboxes, Begun(w)), Means(body, Pools(c), outboxes), commits);
      } else {
        NothingRealises(ctx, w, Err(NotBegun));
      }
  }

  // A connection is joined exactly when it exposes a pool the chain has a transaction on.
  lemma JoinsIff(conn: Conn, ctx: Chain, w: World)
    requires Fits(ctx, w)
    ensures Find(ctx, conn.Pool()).Entry? <==> Joins(conn, Pools(ctx))
    ensures Joins(conn, Pools(ctx)) ==> Sole(ctx, Find(ctx, conn.Pool()), conn.db)
  {
    FindIsSole(ctx, conn.db, w.open.Keys, w.nextTx);
    FindNothing(ctx);
  }

  lemma WriteMeans(conn: Conn, v: int, ctx: Chain, outboxes: set<nat>, w: World)
    requires Fits(ctx, w)
    ensures Realises(ctx, w, Done(Ok, WriteOn(w, Find(ctx, conn.Pool()), Wrote(conn.db, Row(v)))),
                     Means(Write(conn, v), Pools(ctx), outboxes))
  {
    JoinsIff(conn, ctx, w);
    if Joins(conn, Pools(ctx)) {
      WriteRealises(ctx, w, Find(ctx, conn.Pool()), Wrote(conn.db, Row(v)));
    } else {
      AutocommitRealises(ctx, w, Wrote(conn.db, Row(v)));
    }
  }

  lemma PublishMeans(v: int, encodes: bool, ctx: Chain, outboxes: set<nat>, w: World)
    requires Fits(ctx, w)
    ensures Realises(ctx, w, PublishIn(ctx, outboxes, w, v, encodes), Means(Publish(v, encodes), Pools(ctx), outboxes))
  {
    OutboxIsSole(ctx, outboxes, w.open.Keys, w.nextTx);
    var e := FindOutbox(ctx, outboxes);
    if e.Entry? && encodes {
      WriteRealises(ctx, w, e, Wrote(e.pool.value, Event(v)));
    } else {
      NothingRealises(ctx, w, PublishIn(ctx, outboxes, w, v, encodes).outcome);
    }
  }

  // An open transaction on a connection the event queue lives on.
  predicate OnOutbox(e: Chain, outboxes: set<nat>) {
    e.Entry? && e.pool.Some? && e.pool.value in outboxes
  }

  // The walk of Publish meets the innermost transaction on an outbox connection.
  lemma {:induction false} OutboxIsNearest(c: Chain, outboxes: set<nat>, k: nat)
    requires OnOutbox(Up(c, k), outboxes)
    requires forall j: nat :: j < k ==> !OnOutbox(Up(c, j), outboxes)
    ensures FindOutbox(c, outboxes) == Up(c, k)
    decreases k
  {
    assert Up(c, 0) == c;
    if k > 0 {
      forall j: nat | j < k - 1 ensures !OnOutbox(Up(c.parent, j), outboxes) {
        assert Up(c, j + 1) == Up(c.parent, j);
      }
      OutboxIsNearest(c.parent, outboxes, k - 1);
    }
  }

  lemma {:induction false} NoOutbox(c: Chain, outboxes: set<nat>)
    requires forall j: nat :: !OnOutbox(Up(c, j), outboxes)
    ensures FindOutbox(c, outboxes) == NoTx
    decreases c
  {
    assert Up(c, 0) == c;
    if c.Entry? {
      forall j: nat ensures !OnOutbox(Up(c.parent, j), outboxes) {
        assert Up(c, j + 1) == Up(c.parent, j);
      }
      NoOutbox(c.parent, outboxes);
    }
  }

  // Where an event goes: to the innermost transaction on an outbox connection, behind what
  // it holds; with a transaction but none of these, or with none at all, nowhere.
  lemma PublishGoesTo(v: int, ctx: Chain, outboxes: set<nat>, w: World, k: nat)
    requires OnOutbox(Up(ctx, k), outboxes)
    requires forall j: nat :: j < k ==> !OnOutbox(Up(ctx, j), outboxes)
    ensures var d := Run(Publish(v, true), ctx, outboxes, w);
            var e := Up(ctx, k);
            && d.outcome == Ok && d.world.committed == w.committed
            && Held(d.world, e.tx) == Held(w, e.tx) + [Wrote(e.pool.value, Event(v))]
            && forall t :: t != e.tx ==> Held(d.world, t) == Held(w, t)
    ensures var d := Run(Publish(v, false), ctx, outboxes, w);
            d.outcome == Err(NotEncoded) && d.world.committed == w.committed && d.world.open == w.open
  {
    OutboxIsNearest(ctx, outboxes, k);
  }

  lemma PublishGoesNowhere(v: int, encodes: bool, ctx: Chain, outboxes: set<nat>, w: World)
    requires forall j: nat :: !OnOutbox(Up(ctx, j), outboxes)
    ensures var d := Run(Publish(v, encodes), ctx, outboxes, w);
            && d.outcome == Err(if ctx.NoTx? then NoTransaction else ForeignTransaction)
            && d.world.committed == w.committed && d.world.open == w.open && d.world.wrote == w.wrote
  {
    NoOutbox(ctx, outboxes);
  }

  // What a scope returns: the body's outcome, unless its own begin or commit fails.
  lemma ScopeOutcome(conn: Conn, body: Prog, begins: bool, commits: bool, ctx: Chain, outboxes: set<nat>, w: World)
    requires Fits(ctx, w)
    ensures var d := Run(Within(conn, body, begins, commits), ctx, outboxes, w);
            if conn.exposesPool && Some(conn.db) in Pools(ctx) then d.outcome == Means(body, Pools(ctx), outboxes).outcome
            else if !begins then d.outcome == Err(NotBegun) && d.world.committed == w.committed && d.world.wrote == w.wrote
            else
              var inner := Means(body, [conn.Pool()] + Pools(ctx), outboxes).outcome;
              d.outcome == if inner == Ok && !commits then Err(NotCommitted) else inner
  {
    RunMeans(Within(conn, body, begins, commits), ctx, outboxes, w);
    JoinsIff(conn, ctx, w);
  }

  const FRESH: World := World([], map[], 0, [], [])

  // A program run with no transaction open: its outcome, exactly what it kept, what it
  // wrote, and no transaction left open.
  lemma ProgramRuns(p: Prog, outboxes: set<nat>, committed: seq<Wrote>)
    ensures var d := Run(p, NoTx, outboxes, FRESH.(committed := committed));
            var m := Means(p, [], outboxes);
            d.outcome == m.outcome && d.world.committed == committed + m.kept && d.world.wrote == m.wrote && d.world.open == map[]
  {
    var w := FRESH.(committed := committed);
    RunMeans(p, NoTx, outboxes, w);
    assert Run(p, NoTx, outboxes, w).world.open.Keys == {};
  }

  // What a scope's end leaves in its database: every row written and every event
  // published on it inside, at any depth and through any handle, when the scope
  // returned no error and committed, and not one of them otherwise.
  lemma PublishedIffCommitted(conn: Conn, body: Prog, begins: bool, commits: bool, outboxes: set<nat>, committed: seq<Wrote>)
    requires conn.exposesPool && WellWired(body, conn.db)
    ensures var d := Run(Within(conn, body, begins, commits), NoTx, outboxes, FRESH.(committed := committed));
            Only(d.world.committed, conn.db) ==
              Only(committed, conn.db) + if d.outcome == Ok then Only(d.world.wrote, conn.db) else []
  {
    var p := Within(conn, body, begins, commits);
    ProgramRuns(p, outboxes, committed);
    OutermostDecides(conn, body, begins, commits, [], outboxes);
    OnlyConcat(committed, Means(p, [], outboxes).kept, conn.db);
  }

  // Every statement of a run sees at most one open transaction a connection.
  lemma {:induction false} OneTransactionEach(p: Prog, ctx: Chain, outboxes: set<nat>, w: World)
    requires Fits(ctx, w) && forall c :: c in w.seen ==> OneEach(c)
    ensures forall c :: c in Run(p, ctx, outboxes, w).world.seen ==> OneEach(c)
    decreases p
  {
    var now := w.(seen := w.seen + [ctx]);
    assert Fits(ctx, now);
    match p
    case Skip =>
    case Fail =>
    case Panic =>
    case Seq(p1, p2) =>
      OneTransactionEach(p1, ctx, outboxes, now);
      RunMeans(p1, ctx, outboxes, now);
      var d := Run(p1, ctx, outboxes, now);
      if d.outcome == Ok {
        RealisedFits(ctx, now, d, Means(p1, Pools(ctx), outboxes));
        OneTransactionEach(p2, ctx, outboxes, d.world);
      }
    case Try(body) => OneTransactionEach(body, ctx, outboxes, now);
    case Recover(body) => OneTransactionEach(body, ctx, outboxes, now);
    case Write(conn, v) =>
    case WritePlain(conn, v) =>
    case Publish(v, encodes) =>
    case Within(conn, body, begins, commits) =>
      JoinsIff(conn, ctx, now);
      if Find(ctx, conn.Pool()).Entry? {
        OneTransactionEach(body, ctx, outboxes, now);
      } else if begins {
        BegunFits(ctx, now, conn);
        OneTransactionEach(body, Entry(conn.Pool(), now.nextTx, ctx), outboxes, Begun(now));
      }
  }

  // A program that reaches the connection's database through this handle alone, and by
  // no plain repository.
  predicate Through(p: Prog, conn: Conn) {
    match p
    case Seq(p1, p2) => Through(p1, conn) && Through(p2, conn)
    case Try(body) => Through(body, conn)
    case Recover(body) => Through(body, conn)
    case Write(other, v) => other.db == conn.db ==> other == conn
    case WritePlain(other, v) => other.db != conn.db
    case Within(other, body, begins, commits) => (other.db == conn.db ==> other == conn) && Through(body, conn)
    case _ => true
  }

  // The scope keeps what was written on its database exactly when it succeeds.
  ghost predicate Decides(conn: Conn, body: Prog, commits: bool, outboxes: set<nat>) {
    var m := Means(Within(conn, body, true, commits), [], outboxes);
    Only(m.kept, conn.db) == if m.outcome == Ok then Only(m.wrote, conn.db) else []
  }

  lemma {:induction false} ThroughIsWellWired(p: Prog, conn: Conn)
    requires Through(p, conn) && conn.exposesPool
    ensures WellWired(p, conn.db)
  {
    match p
    case Seq(p1, p2) =>
      ThroughIsWellWired(p1, conn);
      ThroughIsWellWired(p2, conn);
    case Try(body) => ThroughIsWellWired(body, conn);
    case Recover(body) => ThroughIsWellWired(body, conn);
    case Within(other, body, begins, commits) => ThroughIsWellWired(body, conn);
    case _ =>
  }

  // Without a pool a write inside the scope is on its own: it stays though the
  // scope rolled back.
  lemma WriteEscapes(conn: Conn, v: int, commits: bool, outboxes: set<nat>)
    requires !conn.exposesPool
    ensures !Decides(conn, Seq(Write(conn, v), Fail), commits, outboxes)
  {
    Escapes(conn, Write(conn, v), v, commits, outboxes);
  }

  // So is a write by a plain repository, whatever the connection.
  lemma PlainWriteEscapes(conn: Conn, v: int, commits: bool, outboxes: set<nat>)
    ensures !Decides(conn, Seq(WritePlain(conn, v), Fail), commits, outboxes)
  {
    Escapes(conn, WritePlain(conn, v), v, commits, outboxes);
  }

  lemma Escapes(conn: Conn, p: Prog, v: int, commits: bool, outboxes: set<nat>)
    requires var item := Wrote(conn.db, Row(v)); Means(p, [conn.Pool()], outboxes) == Meaning(Ok, [], [item], [item])
    ensures !Decides(conn, Seq(p, Fail), commits, outboxes)
  {
    var item, body := Wrote(conn.db, Row(v)), Seq(p, Fail);
    assert [conn.Pool()] + [] == [conn.Pool()];
    assert Means(body, [conn.Pool()], outboxes) == Meaning(Err(Returned), [], [item], [item]);
    var m := Means(Within(conn, body, true, commits), [], outboxes);
    assert m == Scope(conn, Means(body, [conn.Pool()], outboxes), commits);
    assert m.kept == [item] && m.outcome == Err(Returned);
    OnlyOne(item, conn.db);
  }

  // A scope decides for every program that goes through its connection if and only
  // if the connection exposes its pool.
  lemma DecidesIff(conn: Conn, outboxes: set<nat>)
    ensures (forall body, commits :: Through(body, conn) ==> Decides(conn, body, commits, outboxes)) <==> conn.exposesPool
  {
    if conn.exposesPool {
      forall body, commits | Through(body, conn) ensures Decides(conn, body, commits, outboxes) {
        ThroughIsWellWired(body, conn);
        OutermostDecides(conn, body, true, commits, [], outboxes);
      }
    } else {
      WriteEscapes(conn, 0, true, outboxes);
      assert Through(Write(conn, 0), conn) && Through(Fail, conn);
      assert Through(Seq(Write(conn, 0), Fail), conn);
    }
  }
}
