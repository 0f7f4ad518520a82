// What holds in every run of the queue's protocol, overruns and expiry included:
// no event stays unprocessed once all its consumers finished, no row outlives
// its retry budget, and a lease excludes every other claim until it ends.
module EventRuns {
  import opened Wrappers
  import opened EventTables
  import opened EventProtocol
  import opened EventInvariant

  // A run: its states and, between each two, the step taken.
  ghost predicate IsRun(cs: seq<Consumer>, ss: seq<State>, ls: seq<Label>) {
    && |ss| == |ls| + 1
    && Init(ss[0])
    && forall i :: 0 <= i < |ls| ==> Enabled(cs, ss[i], ls[i]) && ss[i + 1] == Next(cs, ss[i], ls[i])
  }

  lemma {:induction false} RunKeepsInv(cs: seq<Consumer>, ss: seq<State>, ls: seq<Label>, i: nat)
    requires ValidConsumers(cs) && IsRun(cs, ss, ls) && i < |ss|
    ensures Inv(cs, ss[i])
  {
    if i > 0 {
      RunKeepsInv(cs, ss, ls, i - 1);
      StepKeepsInv(cs, ss[i - 1], ls[i - 1]);
    }
  }

  // The last finisher sees all the others: an event whose consumers have all
  // finished is marked processed.
  lemma LastFinisherMarksProcessed(cs: seq<Consumer>, ss: seq<State>, ls: seq<Label>, i: nat, e: EventId)
    requires ValidConsumers(cs) && IsRun(cs, ss, ls) && i < |ss|
    requires e in ss[i].tables.outbox
    requires Siblings(cs, ss[i].tables.outbox[e].kind) != []
    requires forall n :: n in Siblings(cs, ss[i].tables.outbox[e].kind) ==> FinishedBy(ss[i].tables.attempts, e, n)
    ensures ss[i].tables.outbox[e].processedAt.Some?
  {
    RunKeepsInv(cs, ss, ls, i);
    assert !SomeoneOpen(cs, ss[i].tables, e);
  }

  // No row ever counts more failures than its consumer's policy allows, and one
  // that is not dead counts fewer.
  lemma AttemptsWithinPolicy(cs: seq<Consumer>, ss: seq<State>, ls: seq<Label>, i: nat, c: Consumer, e: EventId)
    requires ValidConsumers(cs) && IsRun(cs, ss, ls) && i < |ss|
    requires c in cs && Key(e, c.name) in ss[i].tables.attempts
    ensures var row := ss[i].tables.attempts[Key(e, c.name)];
            row.attempts <= c.retry.attempts && (row.attempts == c.retry.attempts ==> row.deadAt.Some?)
  {
    RunKeepsInv(cs, ss, ls, i);
    var k := Key(e, c.name);
    var d :| Owns(cs, ss[i].kinds, d, k) && RowOk(d, ss[i].tables.attempts[k]);
    assert d == c;
  }

  // The transactions are serial -------------------------------------------------------

  // What a transaction leaves when it runs alone on the committed tables and has the
  // rows given locked.
  ghost function AloneEffect(cs: seq<Consumer>, t: Tables, job: Job, locked: set<EventId>): Tables
    requires job.Retry? ==> IsLetter(t, job.letter) && job.letter.event in t.outbox
  {
    match job
    case Lease(c, _, now) => LeaseEffect(t, t.attempts, locked, c.name, now)
    case Finish(h, outcome, now) =>
      FinishEffect(t, t.attempts, h.event in locked, h.Row(),
                   OutcomeRow(h.seen, h.consumer.retry, outcome, now), Siblings(cs, h.consumer.event), now)
    case Retry(k, now) => RetryEffect(t, k, now)
    case Prune(_, _) => WithoutEvents(t, Doomed(t.attempts, locked))
    case Expire(ids, cutoff) => WithoutLetters(t, ids, cutoff)
  }

  // The rows it would lock if it did run alone.
  function AloneLocks(t: Tables, job: Job): set<EventId> {
    set e | e in Wanted(job) && e in t.outbox && Matches(job, t.outbox[e])
  }

  lemma LeaseIsSerial(t: Tables, snap: Tables, held: set<EventId>, c: string, now: Time)
    requires forall e :: e in held ==> SameEvent(snap, t, e)
    ensures LeaseEffect(t, snap.attempts, held, c, now) == LeaseEffect(t, t.attempts, held, c, now)
  {
    forall e | e in held
      ensures Due(snap.attempts, Key(e, c), now) == Due(t.attempts, Key(e, c), now)
      ensures AttemptsSeen(snap.attempts, Key(e, c)) == AttemptsSeen(t.attempts, Key(e, c))
    {
      assert SameEvent(snap, t, e);
    }
    assert Claimed(snap.attempts, held, c, now) == Claimed(t.attempts, held, c, now);
  }

  lemma FinishIsSerial(t: Tables, snap: Tables, k: Key, row: AttemptRow, siblings: seq<string>, now: Time)
    requires SameEvent(snap, t, k.event)
    ensures FinishEffect(t, snap.attempts, true, k, row, siblings, now) == FinishEffect(t, t.attempts, true, k, row, siblings, now)
  {
    forall n | n in siblings
      ensures FinishedBy(snap.attempts[k := row], k.event, n) == FinishedBy(t.attempts[k := row], k.event, n)
    {
    }
    assert FinishedAmong(snap.attempts[k := row], k.event, siblings) == FinishedAmong(t.attempts[k := row], k.event, siblings);
  }

  lemma PruneIsSerial(t: Tables, snap: Tables, held: set<EventId>)
    requires forall e :: e in held ==> SameEvent(snap, t, e)
    ensures Doomed(snap.attempts, held) == Doomed(t.attempts, held)
  {
    forall e | e in held
      ensures HasLetter(snap.attempts, e) == HasLetter(t.attempts, e)
    {
      assert SameEvent(snap, t, e);
    }
  }

  // The rows a committing transaction holds are among those it would lock now. A lease
  // or a prune may hold fewer: a row that did not match when it was locked may match
  // now. The others hold exactly those.
  lemma HeldIsAlone(cs: seq<Consumer>, s: State, t: TxId)
    requires Inv(cs, s) && Enabled(cs, s, Commit(t))
    ensures s.txs[t].held <= AloneLocks(s.tables, s.txs[t].job)
    ensures !s.txs[t].job.Lease? && !s.txs[t].job.Prune? ==> s.txs[t].held == AloneLocks(s.tables, s.txs[t].job)
  {
    assert JobOk(cs, s, s.txs[t]);
  }

  // Every commit, for all its stale reads and its early snapshot, leaves the tables as
  // if its transaction had run alone at that moment on the rows it locked; and as if it
  // had run alone altogether whenever those are the rows it would lock now.
  lemma CommitsAreSerial(cs: seq<Consumer>, ss: seq<State>, ls: seq<Label>, i: nat)
    requires ValidConsumers(cs) && IsRun(cs, ss, ls) && i < |ls| && ls[i].Commit?
    ensures var t, tx := ss[i].tables, ss[i].txs[ls[i].t];
            && ss[i + 1].tables == AloneEffect(cs, t, tx.job, tx.held)
            && tx.held <= AloneLocks(t, tx.job)
            && (!tx.job.Lease? && !tx.job.Prune? ==> ss[i + 1].tables == AloneEffect(cs, t, tx.job, AloneLocks(t, tx.job)))
  {
    RunKeepsInv(cs, ss, ls, i);
    HeldIsAlone(cs, ss[i], ls[i].t);
    var t, tx := ss[i].tables, ss[i].txs[ls[i].t];
    assert JobOk(cs, ss[i], tx);
    match tx.job
    case Lease(c, _, now) => LeaseIsSerial(t, tx.snap.value, tx.held, c.name, now);
    case Finish(h, outcome, now) =>
      if h.event in tx.held {
        FinishIsSerial(t, tx.snap.value, h.Row(), OutcomeRow(h.seen, h.consumer.retry, outcome, now),
                       Siblings(cs, h.consumer.event), now);
      }
    case Retry(_, _) =>
    case Prune(_, _) => PruneIsSerial(t, tx.snap.value, tx.held);
    case Expire(_, _) =>
  }

  // Lease exclusion ----------------------------------------------------------------

  // The step commits a claim of the event by the consumer.
  ghost predicate Claims(s: State, l: Label, k: Key) {
    && l.Commit? && l.t in s.txs && s.txs[l.t].job.Lease?
    && s.txs[l.t].job.consumer.name == k.consumer && k.event in ClaimedBy(s.txs[l.t])
  }

  // The claimer's clock reading.
  ghost function ClaimedAt(s: State, l: Label): Time
    requires l.Commit? && l.t in s.txs && s.txs[l.t].job.Lease?
  {
    s.txs[l.t].job.now
  }

  // The step records an outcome of the event for the consumer.
  ghost predicate Records(s: State, l: Label, k: Key) {
    l.Commit? && l.t in s.txs && s.txs[l.t].job.Finish? && s.txs[l.t].job.handling.Row() == k
  }

  // While the event exists, it is leased to the consumer until the given time.
  ghost predicate Leased(s: State, k: Key, until: Time) {
    && k.event in s.kinds
    && (k.event in s.tables.outbox ==>
          k in s.tables.attempts && !s.tables.attempts[k].Finished() && s.tables.attempts[k].nextAt >= until)
  }

  // A committing claim read the row as it is, and found it due.
  lemma ClaimReads(cs: seq<Consumer>, s: State, l: Label, k: Key)
    requires Inv(cs, s) && Enabled(cs, s, l) && Claims(s, l, k)
    ensures k.event in s.tables.outbox
    ensures var snap := s.txs[l.t].snap.value.attempts;
            Get(s.tables.attempts, k) == Get(snap, k) && Due(snap, k, ClaimedAt(s, l))
  {
    assert SameEvent(s.txs[l.t].snap.value, s.tables, k.event);
    assert k == Key(k.event, s.txs[l.t].job.consumer.name);
  }

  lemma LeaseTables(cs: seq<Consumer>, s: State, l: Label)
    requires Enabled(cs, s, l) && l.Commit? && s.txs[l.t].job.Lease?
    ensures var tx := s.txs[l.t];
            Next(cs, s, l).tables == LeaseEffect(s.tables, tx.snap.value.attempts, tx.held, tx.job.consumer.name, tx.job.now)
  {
  }

  // And leaves it leased until the claim's end, with the attempts it saw.
  lemma ClaimWrites(cs: seq<Consumer>, s: State, l: Label, k: Key)
    requires Enabled(cs, s, l) && Claims(s, l, k) && Get(s.tables.attempts, k) == Get(s.txs[l.t].snap.value.attempts, k)
    ensures Next(cs, s, l).tables.outbox == s.tables.outbox
    ensures Get(Next(cs, s, l).tables.attempts, k)
         == Some(AttemptRow(AttemptsSeen(s.txs[l.t].snap.value.attempts, k), ClaimedAt(s, l) + CLAIM_LEASE, None, None))
  {
    LeaseTables(cs, s, l);
    ClaimedKey(s.tables, s.txs[l.t], k);
  }

  lemma ClaimedKey(t: Tables, tx: Tx, k: Key)
    requires tx.job.Lease? && tx.snap.Some? && tx.job.consumer.name == k.consumer && k.event in ClaimedBy(tx)
    requires Get(t.attempts, k) == Get(tx.snap.value.attempts, k)
    ensures Get(LeaseEffect(t, tx.snap.value.attempts, tx.held, tx.job.consumer.name, tx.job.now).attempts, k)
         == Some(AttemptRow(AttemptsSeen(tx.snap.value.attempts, k), tx.job.now + CLAIM_LEASE, None, None))
  {
    assert k == Key(k.event, k.consumer);
    ClaimedRow(t, tx.snap.value.attempts, tx.held, k.consumer, tx.job.now, k.event);
  }

  lemma ClaimLeases(cs: seq<Consumer>, s: State, l: Label, k: Key)
    requires Inv(cs, s) && Enabled(cs, s, l) && Claims(s, l, k)
    ensures Leased(Next(cs, s, l), k, ClaimedAt(s, l) + CLAIM_LEASE)
  {
    ClaimReads(cs, s, l, k);
    ClaimWrites(cs, s, l, k);
  }

  // However stale its candidates, a claim finds the lease in its snapshot.
  lemma ClaimRespectsLease(cs: seq<Consumer>, s: State, l: Label, k: Key, until: Time)
    requires Inv(cs, s) && Enabled(cs, s, l) && Claims(s, l, k) && Leased(s, k, until)
    ensures ClaimedAt(s, l) >= until
  {
    var tx := s.txs[l.t];
    assert SameEvent(tx.snap.value, s.tables, k.event);
    assert k == Key(k.event, tx.job.consumer.name);
  }

  lemma CommitKeepsLease(cs: seq<Consumer>, s: State, l: Label, k: Key, until: Time)
    requires Inv(cs, s) && Enabled(cs, s, l) && l.Commit? && Leased(s, k, until) && !Records(s, l, k) && !Claims(s, l, k)
    ensures Leased(Next(cs, s, l), k, until)
  {
    var tx, s' := s.txs[l.t], Next(cs, s, l);
    match tx.job
    case Lease(c, _, now) =>
      assert forall e :: e in ClaimedBy(tx) ==> Key(e, c.name) != k;
    case Finish(_, _, _) =>
    case Retry(_, _) =>
    case Prune(_, _) =>
    case Expire(_, _) =>
  }

  lemma StepKeepsLease(cs: seq<Consumer>, s: State, l: Label, k: Key, until: Time)
    requires Inv(cs, s) && Enabled(cs, s, l) && Leased(s, k, until) && !Records(s, l, k)
    ensures Leased(Next(cs, s, l), k, until)
  {
    if Claims(s, l, k) {
      ClaimRespectsLease(cs, s, l, k, until);
      ClaimLeases(cs, s, l, k);
    } else if l.Commit? {
      CommitKeepsLease(cs, s, l, k, until);
    }
  }

  lemma {:induction false} RunKeepsLease(cs: seq<Consumer>, ss: seq<State>, ls: seq<Label>, i: nat, j: nat, k: Key, until: Time)
    requires ValidConsumers(cs) && IsRun(cs, ss, ls) && i <= j < |ss|
    requires Leased(ss[i], k, until)
    requires forall m :: i <= m < j ==> !Records(ss[m], ls[m], k)
    ensures Leased(ss[j], k, until)
  {
    if i < j {
      RunKeepsLease(cs, ss, ls, i, j - 1, k, until);
      RunKeepsInv(cs, ss, ls, j - 1);
      StepKeepsLease(cs, ss[j - 1], ls[j - 1], k, until);
    }
  }

  // Of two claims of one event by one consumer with no outcome recorded between
  // them, the second claimer's clock had reached the end of the first's lease.
  lemma LeaseExclusion(cs: seq<Consumer>, ss: seq<State>, ls: seq<Label>, i: nat, j: nat, k: Key)
    requires ValidConsumers(cs) && IsRun(cs, ss, ls) && i < j < |ls|
    requires Claims(ss[i], ls[i], k) && Claims(ss[j], ls[j], k)
    requires forall m :: i < m < j ==> !Records(ss[m], ls[m], k)
    ensures ClaimedAt(ss[j], ls[j]) >= ClaimedAt(ss[i], ls[i]) + CLAIM_LEASE
  {
    RunKeepsInv(cs, ss, ls, i);
    RunKeepsInv(cs, ss, ls, j);
    var until := ClaimedAt(ss[i], ls[i]) + CLAIM_LEASE;
    ClaimLeases(cs, ss[i], ls[i], k);
    RunKeepsLease(cs, ss, ls, i + 1, j, k, until);
    ClaimRespectsLease(cs, ss[j], ls[j], k, until);
  }
}
