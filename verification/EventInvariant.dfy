// Every step of the queue's protocol keeps its invariant.
module EventInvariant {
  import opened Wrappers
  import opened EventTables
  import opened EventProtocol

  lemma LeaseFrame(t: Tables, snap: map<Key, AttemptRow>, locked: set<EventId>, c: string, now: Time, e: EventId)
    requires e !in locked
    ensures SameEvent(t, LeaseEffect(t, snap, locked, c, now), e)
  {
  }

  lemma PruneFrame(t: Tables, doomed: set<EventId>, e: EventId)
    requires e !in doomed
    ensures SameEvent(t, WithoutEvents(t, doomed), e)
  {
  }

  lemma ExpireFrame(t: Tables, ids: set<EventId>, cutoff: Time, e: EventId)
    requires e !in ids
    ensures SameEvent(t, WithoutLetters(t, ids, cutoff), e)
  {
  }

  // The locking rule the protocol rests on: a commit changes nothing about an
  // existing event whose outbox row it did not lock.
  lemma WritesOnlyUnderLock(cs: seq<Consumer>, s: State, t: TxId, e: EventId)
    requires t in s.txs && JobOk(cs, s, s.txs[t]) && MayCommit(s, s.txs[t])
    requires e in s.tables.outbox && e !in s.txs[t].held
    ensures SameEvent(s.tables, Effect(cs, s.tables, s.txs[t]), e)
  {
    var tx := s.txs[t];
    match tx.job
    case Lease(c, _, now) => LeaseFrame(s.tables, tx.snap.value.attempts, tx.held, c.name, now, e);
    case Finish(_, _, _) =>
    case Retry(_, _) =>
    case Prune(_, _) => PruneFrame(s.tables, Doomed(tx.snap.value.attempts, tx.held), e);
    case Expire(ids, cutoff) => ExpireFrame(s.tables, ids, cutoff, e);
  }

  // A transaction ends and leaves untouched the events it did not lock: the
  // others keep their locks and their snapshots of what they locked.
  lemma FrameLocks(s: State, t: TxId, after: Tables)
    requires LocksOk(s) && t in s.txs
    requires forall e :: e in s.tables.outbox && e !in s.txs[t].held ==> Get(s.tables.outbox, e) == Get(after.outbox, e)
    ensures LocksOk(s.(tables := after, txs := s.txs - {t}))
  {
    forall u, e | u in s.txs && u != t && e in s.txs[u].held
      ensures e in after.outbox && after.outbox[e] == s.tables.outbox[e]
    {
      assert e !in s.txs[t].held;
    }
  }

  lemma FrameSnaps(s: State, t: TxId, after: Tables)
    requires LocksOk(s) && SnapsOk(s) && t in s.txs
    requires forall e :: e in s.tables.outbox && e !in s.txs[t].held ==> SameEvent(s.tables, after, e)
    ensures SnapsOk(s.(tables := after, txs := s.txs - {t}))
  {
    forall u, e | u in s.txs && u != t && s.txs[u].snap.Some? && e in s.txs[u].held
      ensures SameEvent(s.txs[u].snap.value, after, e)
    {
      assert e !in s.txs[t].held && SameEvent(s.tables, after, e) && SameEvent(s.txs[u].snap.value, s.tables, e);
    }
  }

  lemma CommitKeepsLocks(cs: seq<Consumer>, s: State, t: TxId)
    requires LocksOk(s) && SnapsOk(s) && Enabled(cs, s, Commit(t)) && JobOk(cs, s, s.txs[t])
    ensures LocksOk(Next(cs, s, Commit(t)))
    ensures SnapsOk(Next(cs, s, Commit(t)))
  {
    var after := Effect(cs, s.tables, s.txs[t]);
    forall e | e in s.tables.outbox && e !in s.txs[t].held
      ensures SameEvent(s.tables, after, e)
    {
      WritesOnlyUnderLock(cs, s, t, e);
    }
    FrameLocks(s, t, after);
    FrameSnaps(s, t, after);
    LocksIgnoreClaims(s.(tables := after, txs := s.txs - {t}), Next(cs, s, Commit(t)));
  }

  lemma LocksIgnoreClaims(s: State, s': State)
    requires LocksOk(s) && SnapsOk(s) && s'.tables == s.tables && s'.txs == s.txs && s'.nextTx == s.nextTx
    ensures LocksOk(s') && SnapsOk(s')
  {
  }

  // Rows and ids -------------------------------------------------------------------

  lemma OutcomeRowOk(h: Handling, outcome: Outcome, now: Time)
    requires h.seen < h.consumer.retry.attempts
    ensures RowOk(h.consumer, OutcomeRow(h.seen, h.consumer.retry, outcome, now))
  {
  }

  lemma LeaseKeepsRows(cs: seq<Consumer>, s: State, t: TxId)
    requires ValidConsumers(cs) && Inv(cs, s) && Enabled(cs, s, Commit(t)) && s.txs[t].job.Lease?
    ensures RowsOk(cs, Next(cs, s, Commit(t)))
    ensures forall h :: h in NewHandlings(t, s.txs[t]) ==> HandlingOk(cs, s, h)
  {
    var tx, s' := s.txs[t], Next(cs, s, Commit(t));
    var c, snap := tx.job.consumer, tx.snap.value;
    forall e | e in ClaimedBy(tx)
      ensures var k := Key(e, c.name); k in s'.tables.attempts && RowOk(c, s'.tables.attempts[k])
      ensures AttemptsSeen(snap.attempts, Key(e, c.name)) < c.retry.attempts
    {
      var k := Key(e, c.name);
      assert SameEvent(snap, s.tables, e);
      if k in s.tables.attempts {
        var d :| Owns(cs, s.kinds, d, k) && RowOk(d, s.tables.attempts[k]);
        assert d == c;
      }
    }
    forall k | k in s'.tables.attempts
      ensures exists d :: Owns(cs, s'.kinds, d, k) && RowOk(d, s'.tables.attempts[k])
    {
      if k.consumer == c.name && k.event in ClaimedBy(tx) {
        assert k == Key(k.event, c.name);
        assert Owns(cs, s'.kinds, c, k) && RowOk(c, s'.tables.attempts[k]);
      } else {
        assert k in s.tables.attempts && s.tables.attempts[k] == s'.tables.attempts[k];
      }
    }
  }

  lemma CommitKeepsRows(cs: seq<Consumer>, s: State, t: TxId)
    requires ValidConsumers(cs) && Inv(cs, s) && Enabled(cs, s, Commit(t))
    ensures RowsOk(cs, Next(cs, s, Commit(t)))
  {
    var tx, s' := s.txs[t], Next(cs, s, Commit(t));
    match tx.job
    case Lease(_, _, _) => LeaseKeepsRows(cs, s, t);
    case Finish(h, outcome, now) =>
      OutcomeRowOk(h, outcome, now);
      assert s'.tables.attempts == s.tables.attempts[h.Row() := OutcomeRow(h.seen, h.consumer.retry, outcome, now)];
      assert Owns(cs, s'.kinds, h.consumer, h.Row());
    case Retry(k, now) =>
      var c :| Owns(cs, s.kinds, c, k) && RowOk(c, s.tables.attempts[k]);
      assert Owns(cs, s'.kinds, c, k) && RowOk(c, s'.tables.attempts[k]);
      assert forall j :: j in s'.tables.attempts && j != k ==> s'.tables.attempts[j] == s.tables.attempts[j];
    case Prune(_, _) => 
    case Expire(_, _) => 
  }

  lemma CommitKeepsIds(cs: seq<Consumer>, s: State, t: TxId)
    requires Inv(cs, s) && Enabled(cs, s, Commit(t))
    ensures IdsOk(Next(cs, s, Commit(t)))
    ensures forall e :: e in Next(cs, s, Commit(t)).tables.outbox ==> e in s.tables.outbox
  {
    var tx, s' := s.txs[t], Next(cs, s, Commit(t));
    if tx.job.Lease? {
      forall k | k in s'.tables.attempts
        ensures k.event in s.kinds
      {
        assert k in s.tables.attempts || k.event in ClaimedBy(tx);
      }
    }
  }

  // The last finisher sees all the others --------------------------------------------

  // An outcome that is final and leaves the event open found a sibling open, in
  // its snapshot and therefore in the tables.
  lemma FinishKeepsOpen(cs: seq<Consumer>, s: State, t: TxId)
    requires ValidConsumers(cs) && Inv(cs, s) && Enabled(cs, s, Commit(t)) && s.txs[t].job.Finish?
    ensures OpenOk(cs, Next(cs, s, Commit(t)))
  {
    var tx, s' := s.txs[t], Next(cs, s, Commit(t));
    var h, snap := tx.job.handling, tx.snap.value.attempts;
    var k, row := h.Row(), OutcomeRow(h.seen, h.consumer.retry, tx.job.outcome, tx.job.now);
    forall e | e in s'.tables.outbox && s'.tables.outbox[e].processedAt.None? &&
               Siblings(cs, s'.tables.outbox[e].kind) != []
      ensures SomeoneOpen(cs, s'.tables, e)
    {
      if e != h.event {
        var n :| n in Siblings(cs, s.tables.outbox[e].kind) && !FinishedBy(s.tables.attempts, e, n);
        assert !FinishedBy(s'.tables.attempts, e, n);
      } else if !row.Finished() {
        SiblingsMembers(cs, h.consumer.event, h.consumer.name);
        assert !FinishedBy(s'.tables.attempts, e, h.consumer.name);
      } else {
        SiblingsDistinct(cs, h.consumer.event);
        CountMeansAll(snap[k := row], e, Siblings(cs, h.consumer.event));
        var n :| n in Siblings(cs, h.consumer.event) && !FinishedBy(snap[k := row], e, n);
        assert SameEvent(tx.snap.value, s.tables, e);
        assert Key(e, n) != k;
        assert !FinishedBy(s'.tables.attempts, e, n);
      }
    }
  }

  // A transaction that reopens no event and finishes no row keeps someone open.
  lemma QuietKeepsOpen(cs: seq<Consumer>, s: State, s': State)
    requires OpenOk(cs, s)
    requires forall e :: e in s'.tables.outbox ==> e in s.tables.outbox && s'.tables.outbox[e] == s.tables.outbox[e]
    requires forall k :: k in s'.tables.attempts && s'.tables.attempts[k].Finished() ==>
               k in s.tables.attempts && s.tables.attempts[k].Finished()
    ensures OpenOk(cs, s')
  {
    forall e | e in s'.tables.outbox && s'.tables.outbox[e].processedAt.None? &&
               Siblings(cs, s'.tables.outbox[e].kind) != []
      ensures SomeoneOpen(cs, s'.tables, e)
    {
      assert SomeoneOpen(cs, s.tables, e);
      var n :| n in Siblings(cs, s.tables.outbox[e].kind) && !FinishedBy(s.tables.attempts, e, n);
      assert !FinishedBy(s'.tables.attempts, e, n);
    }
  }

  lemma LeaseFinishesNothing(t: Tables, snap: map<Key, AttemptRow>, locked: set<EventId>, c: string, now: Time, k: Key)
    requires k in LeaseEffect(t, snap, locked, c, now).attempts && LeaseEffect(t, snap, locked, c, now).attempts[k].Finished()
    ensures k in t.attempts && t.attempts[k].Finished()
  {
  }

  lemma CommitKeepsOpen(cs: seq<Consumer>, s: State, t: TxId)
    requires ValidConsumers(cs) && Inv(cs, s) && Enabled(cs, s, Commit(t))
    ensures OpenOk(cs, Next(cs, s, Commit(t)))
  {
    var tx := s.txs[t];
    match tx.job
    case Finish(_, _, _) => FinishKeepsOpen(cs, s, t);
    case Retry(_, _) => RetryKeepsOpen(cs, s, t);
    case Lease(c, _, now) =>
      forall k | k in LeaseEffect(s.tables, tx.snap.value.attempts, tx.held, c.name, now).attempts &&
                 LeaseEffect(s.tables, tx.snap.value.attempts, tx.held, c.name, now).attempts[k].Finished()
        ensures k in s.tables.attempts && s.tables.attempts[k].Finished()
      {
        LeaseFinishesNothing(s.tables, tx.snap.value.attempts, tx.held, c.name, now, k);
      }
      QuietKeepsOpen(cs, s, Next(cs, s, Commit(t)));
    case Prune(_, _) => QuietKeepsOpen(cs, s, Next(cs, s, Commit(t)));
    case Expire(_, _) => QuietKeepsOpen(cs, s, Next(cs, s, Commit(t)));
  }

  // A retried letter's consumer is open again.
  lemma RetryKeepsOpen(cs: seq<Consumer>, s: State, t: TxId)
    requires ValidConsumers(cs) && Inv(cs, s) && Enabled(cs, s, Commit(t)) && s.txs[t].job.Retry?
    ensures OpenOk(cs, Next(cs, s, Commit(t)))
  {
    var s', k := Next(cs, s, Commit(t)), s.txs[t].job.letter;
    forall e | e in s'.tables.outbox && s'.tables.outbox[e].processedAt.None? &&
               Siblings(cs, s'.tables.outbox[e].kind) != []
      ensures SomeoneOpen(cs, s'.tables, e)
    {
      if e == k.event {
        var c :| Owns(cs, s.kinds, c, k) && RowOk(c, s.tables.attempts[k]);
        SiblingsMembers(cs, c.event, c.name);
        assert !FinishedBy(s'.tables.attempts, e, c.name);
      } else {
        var n :| n in Siblings(cs, s.tables.outbox[e].kind) && !FinishedBy(s.tables.attempts, e, n);
        assert !FinishedBy(s'.tables.attempts, e, n);
      }
    }
  }

  // Every step -----------------------------------------------------------------------

  // Jobs and handlings depend on the published ids and on which events exist.
  lemma ShrinkKeepsJobs(cs: seq<Consumer>, s: State, s': State)
    requires forall t :: t in s.txs ==> JobOk(cs, s, s.txs[t])
    requires forall h :: h in s.handlings ==> HandlingOk(cs, s, h)
    requires s'.kinds == s.kinds && s'.nextTx == s.nextTx
    requires forall e :: e in s'.tables.outbox ==> e in s.tables.outbox
    requires forall t :: t in s'.txs ==> t in s.txs && s'.txs[t] == s.txs[t]
    requires forall h :: h in s'.handlings ==> h in s.handlings || HandlingOk(cs, s, h)
    ensures forall t :: t in s'.txs ==> JobOk(cs, s', s'.txs[t])
    ensures forall h :: h in s'.handlings ==> HandlingOk(cs, s', h)
  {
    forall t | t in s'.txs
      ensures JobOk(cs, s', s'.txs[t])
    {
      assert JobOk(cs, s, s.txs[t]);
    }
  }

  lemma CommitKeepsInv(cs: seq<Consumer>, s: State, t: TxId)
    requires ValidConsumers(cs) && Inv(cs, s) && Enabled(cs, s, Commit(t))
    ensures Inv(cs, Next(cs, s, Commit(t)))
  {
    CommitKeepsLocks(cs, s, t);
    CommitKeepsRows(cs, s, t);
    CommitKeepsIds(cs, s, t);
    CommitKeepsOpen(cs, s, t);
    if s.txs[t].job.Lease? {
      LeaseKeepsRows(cs, s, t);
    }
    ShrinkKeepsJobs(cs, s, Next(cs, s, Commit(t)));
  }

  lemma PublishKeepsOpen(cs: seq<Consumer>, s: State, l: Label)
    requires IdsOk(s) && OpenOk(cs, s) && Enabled(cs, s, l) && l.Publish?
    ensures OpenOk(cs, Next(cs, s, l))
  {
    var s' := Next(cs, s, l);
    forall e | e in s'.tables.outbox && s'.tables.outbox[e].processedAt.None? &&
               Siblings(cs, s'.tables.outbox[e].kind) != []
      ensures SomeoneOpen(cs, s'.tables, e)
    {
      if e == l.id {
        var n := Siblings(cs, l.kind)[0];
        assert !FinishedBy(s'.tables.attempts, e, n);
      } else {
        assert SomeoneOpen(cs, s.tables, e);
      }
    }
  }

  lemma PublishKeepsRows(cs: seq<Consumer>, s: State, l: Label)
    requires IdsOk(s) && RowsOk(cs, s) && Enabled(cs, s, l) && l.Publish?
    ensures IdsOk(Next(cs, s, l)) && RowsOk(cs, Next(cs, s, l))
  {
    var s' := Next(cs, s, l);
    forall k | k in s'.tables.attempts
      ensures exists c :: Owns(cs, s'.kinds, c, k) && RowOk(c, s'.tables.attempts[k])
    {
      var c :| Owns(cs, s.kinds, c, k) && RowOk(c, s.tables.attempts[k]);
      assert Owns(cs, s'.kinds, c, k);
    }
  }

  lemma PublishKeepsLocks(cs: seq<Consumer>, s: State, l: Label)
    requires IdsOk(s) && LocksOk(s) && SnapsOk(s) && Enabled(cs, s, l) && l.Publish?
    ensures LocksOk(Next(cs, s, l)) && SnapsOk(Next(cs, s, l))
  {
    var s' := Next(cs, s, l);
    forall t, e | t in s.txs && e in s.txs[t].held
      ensures e in s.tables.outbox && SameEvent(s.tables, s'.tables, e)
    {
    }
  }

  lemma PublishKeepsJobs(cs: seq<Consumer>, s: State, l: Label)
    requires IdsOk(s) && Enabled(cs, s, l) && l.Publish?
    requires forall t :: t in s.txs ==> JobOk(cs, s, s.txs[t])
    requires forall h :: h in s.handlings ==> HandlingOk(cs, s, h)
    ensures var s' := Next(cs, s, l);
            && (forall t :: t in s'.txs ==> JobOk(cs, s', s'.txs[t]))
            && (forall h :: h in s'.handlings ==> HandlingOk(cs, s', h))
  {
    var s' := Next(cs, s, l);
    forall t | t in s'.txs
      ensures JobOk(cs, s', s'.txs[t])
    {
      assert JobOk(cs, s, s.txs[t]);
    }
  }

  lemma PublishKeepsInv(cs: seq<Consumer>, s: State, l: Label)
    requires Inv(cs, s) && Enabled(cs, s, l) && l.Publish?
    ensures Inv(cs, Next(cs, s, l))
  {
    PublishKeepsOpen(cs, s, l);
    PublishKeepsRows(cs, s, l);
    PublishKeepsLocks(cs, s, l);
    PublishKeepsJobs(cs, s, l);
  }

  // A row is locked only when nobody else holds it.
  lemma LockStaysExclusive(cs: seq<Consumer>, s: State, t: TxId, e: EventId)
    requires Exclusive(s) && Enabled(cs, s, Lock(t, e))
    ensures Exclusive(Next(cs, s, Lock(t, e)))
  {
    var s' := Next(cs, s, Lock(t, e));
    assert forall u, d :: u in s'.txs && d in s'.txs[u].held ==> d in s.txs[u].held || (u == t && d == e);
  }

  lemma LockKeepsHeld(cs: seq<Consumer>, s: State, t: TxId, e: EventId)
    requires AskedOk(s) && HeldOk(s) && Enabled(cs, s, Lock(t, e))
    ensures AskedOk(Next(cs, s, Lock(t, e))) && HeldOk(Next(cs, s, Lock(t, e)))
  {
    assert e in Wanted(s.txs[t].job);
  }

  lemma LockKeepsLocks(cs: seq<Consumer>, s: State, t: TxId, e: EventId)
    requires LocksOk(s) && Enabled(cs, s, Lock(t, e))
    ensures LocksOk(Next(cs, s, Lock(t, e)))
  {
    LockStaysExclusive(cs, s, t, e);
    LockKeepsHeld(cs, s, t, e);
  }

  lemma LockKeepsSnaps(cs: seq<Consumer>, s: State, t: TxId, e: EventId)
    requires SnapsOk(s) && Enabled(cs, s, Lock(t, e))
    ensures SnapsOk(Next(cs, s, Lock(t, e)))
  {
    var s' := Next(cs, s, Lock(t, e));
    assert s'.txs[t].snap.None?;
    assert forall u :: u in s'.txs && u != t ==> s'.txs[u] == s.txs[u];
  }

  // A transaction that holds nothing disturbs no lock, nor do reading and giving up.
  lemma LockingKeepsAsked(cs: seq<Consumer>, s: State, l: Label)
    requires AskedOk(s) && Enabled(cs, s, l) && (l.Begin? || l.Snapshot? || l.Abort?)
    ensures AskedOk(Next(cs, s, l))
  {
  }

  lemma LockingKeepsHeld(cs: seq<Consumer>, s: State, l: Label)
    requires HeldOk(s) && Enabled(cs, s, l) && (l.Begin? || l.Snapshot? || l.Abort?)
    ensures HeldOk(Next(cs, s, l))
  {
  }

  lemma LockingStaysExclusive(cs: seq<Consumer>, s: State, l: Label)
    requires Exclusive(s) && Enabled(cs, s, l) && (l.Begin? || l.Snapshot? || l.Abort?)
    ensures Exclusive(Next(cs, s, l))
  {
  }

  lemma LockingKeepsLocks(cs: seq<Consumer>, s: State, l: Label)
    requires LocksOk(s) && Enabled(cs, s, l) && (l.Begin? || l.Snapshot? || l.Abort?)
    ensures LocksOk(Next(cs, s, l))
  {
    LockingKeepsAsked(cs, s, l);
    LockingKeepsHeld(cs, s, l);
    LockingStaysExclusive(cs, s, l);
  }

  lemma LockingKeepsSnaps(cs: seq<Consumer>, s: State, l: Label)
    requires SnapsOk(s) && Enabled(cs, s, l) && (l.Begin? || l.Snapshot? || l.Abort?)
    ensures SnapsOk(Next(cs, s, l))
  {
    if l.Snapshot? {
      assert forall e :: e in s.txs[l.t].held ==> SameEvent(s.tables, s.tables, e);
    }
  }

  lemma LockingKeepsJobs(cs: seq<Consumer>, s: State, l: Label)
    requires forall t :: t in s.txs ==> JobOk(cs, s, s.txs[t])
    requires forall h :: h in s.handlings ==> HandlingOk(cs, s, h)
    requires Enabled(cs, s, l) && (l.Begin? || l.Lock? || l.Snapshot? || l.Abort?)
    ensures var s' := Next(cs, s, l);
            && (forall t :: t in s'.txs ==> JobOk(cs, s', s'.txs[t]))
            && (forall h :: h in s'.handlings ==> HandlingOk(cs, s', h))
  {
    var s' := Next(cs, s, l);
    forall t | t in s'.txs
      ensures JobOk(cs, s', s'.txs[t])
    {
      if t in s.txs {
        assert JobOk(cs, s, s.txs[t]);
      }
    }
  }

  lemma LockingKeepsInv(cs: seq<Consumer>, s: State, l: Label)
    requires Inv(cs, s) && Enabled(cs, s, l) && (l.Begin? || l.Lock? || l.Snapshot? || l.Abort?)
    ensures Inv(cs, Next(cs, s, l))
  {
    if l.Lock? {
      LockKeepsLocks(cs, s, l.t, l.e);
      LockKeepsSnaps(cs, s, l.t, l.e);
    } else {
      LockingKeepsLocks(cs, s, l);
      LockingKeepsSnaps(cs, s, l);
    }
    LockingKeepsJobs(cs, s, l);
    QuietKeepsOpen(cs, s, Next(cs, s, l));
  }

  lemma StepKeepsInv(cs: seq<Consumer>, s: State, l: Label)
    requires ValidConsumers(cs) && Inv(cs, s) && Enabled(cs, s, l)
    ensures Inv(cs, Next(cs, s, l))
  {
    match l
    case Publish(_, _) => PublishKeepsInv(cs, s, l);
    case Commit(t) => CommitKeepsInv(cs, s, t);
    case _ => LockingKeepsInv(cs, s, l);
  }
}
