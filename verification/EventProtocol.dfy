// The event queue as a concurrent protocol: any number of workers, dead-letter
// retries and housekeepers run their transactions interleaved. A transaction
// locks outbox rows one by one, takes its snapshot at its first plain read, and
// writes and commits in one step. What it read before it began (the candidates
// of a claim, the ids of a sweep) may be arbitrarily stale.
module EventProtocol {
  import opened Wrappers
  import opened EventTables

  type TxId = nat

  // A claimed event in a worker's hands: which claim leased it and the attempts
  // the claim saw.
  datatype Handling = Handling(claim: TxId, event: EventId, consumer: Consumer, seen: nat)
  {
    function Row(): Key {
      Key(event, consumer.name)
    }
  }

  datatype Job =
    | Lease(consumer: Consumer, candidates: set<EventId>, now: Time)
    | Finish(handling: Handling, outcome: Outcome, now: Time)
    | Retry(letter: Key, now: Time)
    | Prune(ids: set<EventId>, cutoff: Time)
    | Expire(ids: set<EventId>, cutoff: Time)

  // An open transaction: the outbox rows it still waits for, those it locked
  // (and that met the locking read's condition), and its snapshot.
  datatype Tx = Tx(job: Job, waiting: set<EventId>, held: set<EventId>, snap: Option<Tables>)

  // tables is what is committed. kinds remembers every id ever published: ids
  // are never reused. lastClaim is the latest claim of each event by each
  // consumer; it is bookkeeping no transaction reads.
  datatype State = State(tables: Tables, kinds: map<EventId, string>, txs: map<TxId, Tx>, nextTx: TxId,
                         handlings: set<Handling>, lastClaim: map<Key, TxId>)

  datatype Label =
    | Publish(id: EventId, kind: string)
    | Begin(job: Job)
    | Lock(t: TxId, e: EventId)
    | Snapshot(t: TxId)
    | Commit(t: TxId)
    | Abort(t: TxId)

  // The outbox rows a transaction's locking read names.
  function Wanted(job: Job): set<EventId> {
    match job
    case Lease(_, candidates, _) => candidates
    case Finish(h, _, _) => {h.event}
    case Retry(k, _) => {k.event}
    case Prune(ids, _) => ids
    case Expire(ids, _) => ids
  }

  // The locking read's own condition on a row.
  predicate Matches(job: Job, row: OutboxRow) {
    match job
    case Lease(_, _, _) => row.processedAt.None?
    case Prune(_, cutoff) => ProcessedBefore(row, cutoff)
    case _ => true
  }

  predicate Init(s: State) {
    s == State(Tables(map[], map[]), map[], map[], 0, {}, map[])
  }

  // Candidates are ids of the consumer's event type, read at some time; an
  // outcome is that of a claimed event, reported once; the ids of an expiry
  // come from attempts rows, so their events were published.
  ghost predicate MayBegin(cs: seq<Consumer>, s: State, job: Job) {
    match job
    case Lease(c, candidates, _) => c in cs && forall e :: e in candidates ==> e in s.kinds && s.kinds[e] == c.event
    case Finish(h, _, _) => h in s.handlings
    case Expire(ids, _) => ids <= s.kinds.Keys
    case _ => true
  }

  // A retry whose event is gone or that finds no dead letter rolls back.
  predicate MayCommit(s: State, tx: Tx) {
    && tx.waiting == {}
    && match tx.job
       case Retry(k, _) => k.event in tx.held && k.event in s.tables.outbox && IsLetter(s.tables, k)
       case Expire(_, _) => true
       case _ => tx.snap.Some?
  }

  ghost predicate Enabled(cs: seq<Consumer>, s: State, l: Label) {
    match l
    case Publish(id, _) => id !in s.kinds
    case Begin(job) => MayBegin(cs, s, job)
    case Lock(t, e) => t in s.txs && e in s.txs[t].waiting && forall u :: u in s.txs && u != t ==> e !in s.txs[u].held
    case Snapshot(t) => t in s.txs && s.txs[t].waiting == {} && s.txs[t].snap.None?
    case Commit(t) => t in s.txs && MayCommit(s, s.txs[t])
    case Abort(t) => t in s.txs
  }

  // What a committing transaction leaves in the tables.
  ghost function Effect(cs: seq<Consumer>, t: Tables, tx: Tx): Tables
    requires tx.job.Retry? ==> IsLetter(t, tx.job.letter) && tx.job.letter.event in t.outbox
    requires tx.job.Lease? || tx.job.Finish? || tx.job.Prune? ==> tx.snap.Some?
  {
    match tx.job
    case Lease(c, _, now) => LeaseEffect(t, tx.snap.value.attempts, tx.held, c.name, now)
    case Finish(h, outcome, now) =>
      FinishEffect(t, tx.snap.value.attempts, h.event in tx.held, h.Row(),
                   OutcomeRow(h.seen, h.consumer.retry, outcome, now), Siblings(cs, h.consumer.event), now)
    case Retry(k, now) => RetryEffect(t, k, now)
    case Prune(_, _) => WithoutEvents(t, Doomed(tx.snap.value.attempts, tx.held))
    case Expire(ids, cutoff) => WithoutLetters(t, ids, cutoff)
  }

  // The events a committing lease hands to its worker.
  function ClaimedBy(tx: Tx): set<EventId> {
    match tx.job
    case Lease(c, _, now) => if tx.snap.Some? then Claimed(tx.snap.value.attempts, tx.held, c.name, now) else {}
    case _ => {}
  }

  function NewHandlings(t: TxId, tx: Tx): set<Handling> {
    if tx.job.Lease? && tx.snap.Some? then
      set e | e in ClaimedBy(tx) ::
        Handling(t, e, tx.job.consumer, AttemptsSeen(tx.snap.value.attempts, Key(e, tx.job.consumer.name)))
    else {}
  }

  function NewClaims(t: TxId, tx: Tx): map<Key, TxId> {
    if tx.job.Lease? then map e | e in ClaimedBy(tx) :: Key(e, tx.job.consumer.name) := t else map[]
  }

  ghost function Next(cs: seq<Consumer>, s: State, l: Label): State
    requires Enabled(cs, s, l)
  {
    match l
    case Publish(id, kind) =>
      s.(tables := s.tables.(outbox := s.tables.outbox[id := OutboxRow(kind, None)]), kinds := s.kinds[id := kind])
    case Begin(job) =>
      s.(txs := s.txs[s.nextTx := Tx(job, Wanted(job), {}, None)], nextTx := s.nextTx + 1,
         handlings := if job.Finish? then s.handlings - {job.handling} else s.handlings)
    case Lock(t, e) =>
      var tx := s.txs[t];
      var locks := e in s.tables.outbox && Matches(tx.job, s.tables.outbox[e]);
      s.(txs := s.txs[t := tx.(waiting := tx.waiting - {e}, held := if locks then tx.held + {e} else tx.held)])
    case Snapshot(t) => s.(txs := s.txs[t := s.txs[t].(snap := Some(s.tables))])
    case Commit(t) =>
      var tx := s.txs[t];
      s.(tables := Effect(cs, s.tables, tx), txs := s.txs - {t},
         handlings := s.handlings + NewHandlings(t, tx), lastClaim := s.lastClaim + NewClaims(t, tx))
    case Abort(t) => s.(txs := s.txs - {t})
  }

  // The invariant ----------------------------------------------------------------

  // Two states of the tables agree on everything about one event.
  ghost predicate SameEvent(a: Tables, b: Tables, e: EventId) {
    && Get(a.outbox, e) == Get(b.outbox, e)
    && forall k: Key :: k.event == e ==>
         (k in a.attempts <==> k in b.attempts) && (k in a.attempts ==> a.attempts[k] == b.attempts[k])
  }

  ghost predicate IdsOk(s: State) {
    && (forall k :: k in s.tables.attempts ==> k.event in s.kinds)
    && (forall e :: e in s.tables.outbox ==> e in s.kinds && s.tables.outbox[e].kind == s.kinds[e])
  }

  // A row is never both done and dead, never has more failures than the policy
  // allows, and below it while it is not dead.
  ghost predicate RowOk(c: Consumer, row: AttemptRow) {
    && !(row.doneAt.Some? && row.deadAt.Some?)
    && row.attempts <= c.retry.attempts
    && (row.deadAt.None? ==> row.attempts < c.retry.attempts)
  }

  // The consumer a row belongs to: one of the event's own.
  ghost predicate Owns(cs: seq<Consumer>, kinds: map<EventId, string>, c: Consumer, k: Key) {
    c in cs && c.name == k.consumer && k.event in kinds && c.event == kinds[k.event]
  }

  ghost predicate RowsOk(cs: seq<Consumer>, s: State) {
    forall k :: k in s.tables.attempts ==> exists c :: Owns(cs, s.kinds, c, k) && RowOk(c, s.tables.attempts[k])
  }

  ghost predicate HandlingOk(cs: seq<Consumer>, s: State, h: Handling) {
    && h.consumer in cs && h.seen < h.consumer.retry.attempts
    && h.event in s.kinds && s.kinds[h.event] == h.consumer.event
    && h.claim < s.nextTx
  }

  // A transaction waits for and holds rows its locking read names.
  ghost predicate AskedOk(s: State) {
    forall t :: t in s.txs ==> t < s.nextTx && s.txs[t].held <= Wanted(s.txs[t].job) && s.txs[t].waiting <= Wanted(s.txs[t].job)
  }

  // A row that is held is there and still meets the locking read's condition.
  ghost predicate HeldOk(s: State) {
    forall t, e :: t in s.txs && e in s.txs[t].held ==> e in s.tables.outbox && Matches(s.txs[t].job, s.tables.outbox[e])
  }

  ghost predicate Exclusive(s: State) {
    forall t, u, e :: t in s.txs && u in s.txs && e in s.txs[t].held && e in s.txs[u].held ==> t == u
  }

  ghost predicate LocksOk(s: State) {
    AskedOk(s) && HeldOk(s) && Exclusive(s)
  }

  // Every event a snapshot holder locked is still as its snapshot shows it.
  ghost predicate SnapsOk(s: State) {
    forall t :: t in s.txs && s.txs[t].snap.Some? ==>
      s.txs[t].waiting == {} && forall e :: e in s.txs[t].held ==> SameEvent(s.txs[t].snap.value, s.tables, e)
  }

  ghost predicate JobOk(cs: seq<Consumer>, s: State, tx: Tx) {
    match tx.job
    case Lease(c, candidates, _) => c in cs && forall e :: e in candidates ==> e in s.kinds && s.kinds[e] == c.event
    case Finish(h, _, _) =>
      HandlingOk(cs, s, h) && (h.event in s.tables.outbox ==> h.event in tx.waiting || h.event in tx.held)
    case Expire(ids, _) =>
      ids <= s.kinds.Keys && forall e :: e in ids && e in s.tables.outbox ==> e in tx.waiting || e in tx.held
    case _ => true
  }

  // An unprocessed event that has consumers has one that is neither done nor dead.
  ghost predicate SomeoneOpen(cs: seq<Consumer>, t: Tables, e: EventId)
    requires e in t.outbox
  {
    exists n :: n in Siblings(cs, t.outbox[e].kind) && !FinishedBy(t.attempts, e, n)
  }

  ghost predicate OpenOk(cs: seq<Consumer>, s: State) {
    forall e :: e in s.tables.outbox && s.tables.outbox[e].processedAt.None? ==>
      Siblings(cs, s.tables.outbox[e].kind) != [] ==> SomeoneOpen(cs, s.tables, e)
  }

  ghost predicate Inv(cs: seq<Consumer>, s: State) {
    && IdsOk(s)
    && RowsOk(cs, s)
    && LocksOk(s)
    && SnapsOk(s)
    && (forall h :: h in s.handlings ==> HandlingOk(cs, s, h))
    && (forall t :: t in s.txs ==> JobOk(cs, s, s.txs[t]))
    && OpenOk(cs, s)
  }
}
