// What each committed transaction of the queue leaves, told by the rows alone, and
// what stays so (event/queue.go, event/worker.go, event/deadletter.go,
// event/housekeeping.go).
module EventLaws {
  import opened Wrappers
  import opened EventTables
  import opened EventProtocol
  import opened EventInvariant
  import opened EventRuns

  // The step commits the job.
  ghost predicate Commits(s: State, l: Label, job: Job) {
    l.Commit? && l.t in s.txs && s.txs[l.t].job == job
  }

  // Outcomes -----------------------------------------------------------------------------------

  // A success is done; a malformed payload and the last failure allowed are dead; any
  // other failure counts and waits.
  lemma OutcomeIsRecorded(cs: seq<Consumer>, s: State, l: Label, h: Handling, outcome: Outcome, now: Time)
    requires Enabled(cs, s, l) && Commits(s, l, Finish(h, outcome, now))
    ensures var k, attempts := Key(h.event, h.consumer.name), Next(cs, s, l).tables.attempts;
            && k in attempts && attempts == s.tables.attempts[k := attempts[k]]
            && (outcome == Succeeded ==> attempts[k] == AttemptRow(h.seen, now, Some(now), None))
            && (outcome == Malformed ==> attempts[k] == AttemptRow(h.seen + 1, now, None, Some(now)))
            && (outcome == Failed && h.seen + 1 >= h.consumer.retry.attempts ==> attempts[k] == AttemptRow(h.seen + 1, now, None, Some(now)))
            && (outcome == Failed && h.seen + 1 < h.consumer.retry.attempts ==>
                  attempts[k] == AttemptRow(h.seen + 1, now + Delay(h.consumer.retry, h.seen + 1), None, None))
  {
  }

  // The row is a dead letter.
  ghost predicate Dead(t: Tables, k: Key) {
    k in t.attempts && t.attempts[k].deadAt.Some?
  }

  // What may end a dead letter: an outcome of an overrun, its retry, its expiry.
  ghost predicate Ends(s: State, l: Label, k: Key) {
    l.Commit? && l.t in s.txs &&
    match s.txs[l.t].job
    case Finish(h, _, _) => h.event == k.event && h.consumer.name == k.consumer
    case Retry(letter, _) => letter == k
    case Expire(ids, cutoff) => k.event in ids && k in s.tables.attempts && s.tables.attempts[k].deadAt.Some? && s.tables.attempts[k].deadAt.value < cutoff
    case _ => false
  }

  lemma LeaseKeepsDead(cs: seq<Consumer>, s: State, l: Label, k: Key)
    requires Inv(cs, s) && Enabled(cs, s, l) && Dead(s.tables, k) && l.Commit? && s.txs[l.t].job.Lease?
    ensures Get(Next(cs, s, l).tables.attempts, k) == Get(s.tables.attempts, k)
  {
    var tx := s.txs[l.t];
    if k.event in tx.held {
      assert SameEvent(tx.snap.value, s.tables, k.event);
    }
    LeaseTables(cs, s, l);
  }

  lemma PruneKeepsDead(cs: seq<Consumer>, s: State, l: Label, k: Key)
    requires Inv(cs, s) && Enabled(cs, s, l) && Dead(s.tables, k) && l.Commit? && s.txs[l.t].job.Prune?
    ensures Get(Next(cs, s, l).tables.attempts, k) == Get(s.tables.attempts, k)
  {
    var tx := s.txs[l.t];
    if k.event in tx.held {
      assert SameEvent(tx.snap.value, s.tables, k.event);
      assert HasLetter(tx.snap.value.attempts, k.event);
    }
  }

  lemma StepKeepsDead(cs: seq<Consumer>, s: State, l: Label, k: Key)
    requires Inv(cs, s) && Enabled(cs, s, l) && Dead(s.tables, k) && !Ends(s, l, k)
    ensures Get(Next(cs, s, l).tables.attempts, k) == Get(s.tables.attempts, k)
  {
    if l.Commit? && s.txs[l.t].job.Lease? {
      LeaseKeepsDead(cs, s, l, k);
    } else if l.Commit? && s.txs[l.t].job.Prune? {
      PruneKeepsDead(cs, s, l, k);
    }
  }

  lemma {:induction false} RunKeepsDead(cs: seq<Consumer>, ss: seq<State>, ls: seq<Label>, i: nat, j: nat, k: Key)
    requires ValidConsumers(cs) && IsRun(cs, ss, ls) && i <= j < |ss| && Dead(ss[i].tables, k)
    requires forall m :: i <= m < j ==> !Ends(ss[m], ls[m], k)
    ensures Dead(ss[j].tables, k)
  {
    if i < j {
      RunKeepsDead(cs, ss, ls, i, j - 1, k);
      RunKeepsInv(cs, ss, ls, j - 1);
      StepKeepsDead(cs, ss[j - 1], ls[j - 1], k);
    }
  }

  // A payload that cannot be decoded is given up on at once: from its outcome on the row
  // is a dead letter and no claim takes the event for the consumer at any clock reading,
  // until the letter is retried or expires or an overrun reports.
  lemma MalformedIsFinal(cs: seq<Consumer>, ss: seq<State>, ls: seq<Label>, i: nat, j: nat, h: Handling, now: Time)
    requires ValidConsumers(cs) && IsRun(cs, ss, ls) && i < j < |ss| && Commits(ss[i], ls[i], Finish(h, Malformed, now))
    requires forall m :: i < m < j ==> !Ends(ss[m], ls[m], Key(h.event, h.consumer.name))
    ensures var k := Key(h.event, h.consumer.name); k in ss[j].tables.attempts && ss[j].tables.attempts[k].deadAt.Some?
    ensures j < |ls| ==> !Claims(ss[j], ls[j], Key(h.event, h.consumer.name))
  {
    var k := Key(h.event, h.consumer.name);
    OutcomeIsRecorded(cs, ss[i], ls[i], h, Malformed, now);
    RunKeepsDead(cs, ss, ls, i + 1, j, k);
    if j < |ls| {
      RunKeepsInv(cs, ss, ls, j);
      ClaimsIff(cs, ss[j], ls[j], k);
    }
  }

  // Claims -------------------------------------------------------------------------------------

  // A committing lease claims exactly the events it locked whose row for the consumer, as
  // it is now, is missing or neither final nor waiting; each is there and unprocessed.
  lemma ClaimsIff(cs: seq<Consumer>, s: State, l: Label, k: Key)
    requires Inv(cs, s) && Enabled(cs, s, l)
    ensures Claims(s, l, k) <==>
            && l.Commit? && s.txs[l.t].job.Lease? && s.txs[l.t].job.consumer.name == k.consumer && k.event in s.txs[l.t].held
            && (k in s.tables.attempts ==>
                  && s.tables.attempts[k].doneAt.None? && s.tables.attempts[k].deadAt.None?
                  && s.tables.attempts[k].nextAt <= s.txs[l.t].job.now)
    ensures Claims(s, l, k) ==> k.event in s.tables.outbox && s.tables.outbox[k.event].processedAt.None?
  {
    if l.Commit? && s.txs[l.t].job.Lease? && k.event in s.txs[l.t].held {
      assert SameEvent(s.txs[l.t].snap.value, s.tables, k.event);
      assert k == Key(k.event, k.consumer);
    }
  }

  // A row is locked exactly when it is there and, for a lease, still unprocessed, for a
  // prune, processed before the cutoff.
  lemma LocksIff(cs: seq<Consumer>, s: State, t: TxId, e: EventId)
    requires Enabled(cs, s, Lock(t, e)) && e !in s.txs[t].held
    ensures e in Next(cs, s, Lock(t, e)).txs[t].held <==>
            && e in s.tables.outbox
            && (s.txs[t].job.Lease? ==> s.tables.outbox[e].processedAt.None?)
            && (s.txs[t].job.Prune? ==> s.tables.outbox[e].processedAt.Some? && s.tables.outbox[e].processedAt.value < s.txs[t].job.cutoff)
  {
  }

  // A published event is open to every one of its consumers: unprocessed and without a row.
  lemma PublishedIsOpen(cs: seq<Consumer>, s: State, id: EventId, kind: string)
    requires Inv(cs, s) && Enabled(cs, s, Publish(id, kind))
    ensures var t := Next(cs, s, Publish(id, kind)).tables;
            t.outbox == s.tables.outbox[id := OutboxRow(kind, None)] && t.attempts == s.tables.attempts &&
            forall k :: k in t.attempts ==> k.event != id
  {
  }

  // Retries ------------------------------------------------------------------------------------

  // A retried letter starts again, due at the retry's clock reading, and its event is open;
  // nothing else changes.
  lemma RetriedIsDue(cs: seq<Consumer>, s: State, l: Label, k: Key, now: Time)
    requires Enabled(cs, s, l) && Commits(s, l, Retry(k, now))
    ensures k in s.tables.attempts && s.tables.attempts[k].deadAt.Some? && k.event in s.tables.outbox
    ensures var t := Next(cs, s, l).tables;
            && t.attempts == s.tables.attempts[k := AttemptRow(0, now, s.tables.attempts[k].doneAt, None)]
            && t.outbox == s.tables.outbox[k.event := OutboxRow(s.tables.outbox[k.event].kind, None)]
  {
  }

  // What goes ----------------------------------------------------------------------------------

  // When a step removes an event, no attempts row of it is left.
  lemma GoneWithItsRows(cs: seq<Consumer>, s: State, l: Label, e: EventId)
    requires Inv(cs, s) && Enabled(cs, s, l) && e in s.tables.outbox && e !in Next(cs, s, l).tables.outbox
    ensures forall k :: k in Next(cs, s, l).tables.attempts ==> k.event != e
  {
  }

  // An attempts row that a step removes went with its event, or was a dead letter older
  // than the cutoff of an expiry.
  lemma OnlyOldLettersGo(cs: seq<Consumer>, s: State, l: Label, k: Key)
    requires Inv(cs, s) && Enabled(cs, s, l) && k in s.tables.attempts && k !in Next(cs, s, l).tables.attempts
    ensures l.Commit? && (s.txs[l.t].job.Prune? || s.txs[l.t].job.Expire?)
    ensures s.txs[l.t].job.Prune? ==> k.event in s.tables.outbox && k.event !in Next(cs, s, l).tables.outbox
    ensures s.txs[l.t].job.Expire? ==> s.tables.attempts[k].deadAt.Some? && s.tables.attempts[k].deadAt.value < s.txs[l.t].job.cutoff
  {
    if l.Commit? && s.txs[l.t].job.Prune? {
      assert k.event in s.txs[l.t].held;
    }
  }

  // An expiry removes every such letter of the events it names; a prune every event it
  // locked that no dead letter keeps.
  lemma ExpiryIsComplete(cs: seq<Consumer>, s: State, l: Label, ids: set<EventId>, cutoff: Time)
    requires Enabled(cs, s, l) && Commits(s, l, Expire(ids, cutoff))
    ensures forall k :: k in Next(cs, s, l).tables.attempts && k.event in ids && Next(cs, s, l).tables.attempts[k].deadAt.Some? ==>
              Next(cs, s, l).tables.attempts[k].deadAt.value >= cutoff
  {
  }

  lemma PruneIsComplete(cs: seq<Consumer>, s: State, l: Label, e: EventId)
    requires Inv(cs, s) && Enabled(cs, s, l) && l.Commit? && s.txs[l.t].job.Prune? && e in s.txs[l.t].held
    ensures e in s.tables.outbox
    ensures e !in Next(cs, s, l).tables.outbox <==> forall k :: k in s.tables.attempts && k.event == e ==> s.tables.attempts[k].deadAt.None?
  {
    var tx := s.txs[l.t];
    assert SameEvent(tx.snap.value, s.tables, e);
  }

  // Marking ------------------------------------------------------------------------------------

  // A committed outcome marks its event processed exactly when the event is there, the
  // outcome is final and every consumer of the event is then done or dead.
  lemma OutcomeMarksIff(cs: seq<Consumer>, s: State, l: Label, h: Handling, outcome: Outcome, now: Time)
    requires ValidConsumers(cs) && Inv(cs, s) && Enabled(cs, s, l) && Commits(s, l, Finish(h, outcome, now))
    ensures var t := Next(cs, s, l).tables;
            t.outbox == if && h.event in s.tables.outbox && (outcome == Failed ==> h.seen + 1 >= h.consumer.retry.attempts)
                           && forall c :: c in cs && c.event == h.consumer.event ==>
                                var k := Key(h.event, c.name); k in t.attempts && (t.attempts[k].doneAt.Some? || t.attempts[k].deadAt.Some?)
                        then s.tables.outbox[h.event := s.tables.outbox[h.event].(processedAt := Some(now))] else s.tables.outbox
  {
    var tx := s.txs[l.t];
    assert JobOk(cs, s, tx);
    var row, siblings := OutcomeRow(h.seen, h.consumer.retry, outcome, now), Siblings(cs, h.consumer.event);
    if h.event in tx.held {
      FinishIsSerial(s.tables, tx.snap.value, h.Row(), row, siblings, now);
      SiblingsDistinct(cs, h.consumer.event);
      CountMeansAll(s.tables.attempts[h.Row() := row], h.event, siblings);
      AllSiblings(cs, h.consumer.event, s.tables.attempts[h.Row() := row], h.event);
    }
  }

  lemma AllSiblings(cs: seq<Consumer>, event: string, attempts: map<Key, AttemptRow>, e: EventId)
    ensures (forall n :: n in Siblings(cs, event) ==> FinishedBy(attempts, e, n)) <==>
            forall c :: c in cs && c.event == event ==>
              var k := Key(e, c.name); k in attempts && (attempts[k].doneAt.Some? || attempts[k].deadAt.Some?)
  {
    forall n ensures n in Siblings(cs, event) <==> exists c :: c in cs && c.event == event && c.name == n {
      SiblingsMembers(cs, event, n);
    }
    if forall n :: n in Siblings(cs, event) ==> FinishedBy(attempts, e, n) {
      forall c | c in cs && c.event == event ensures FinishedBy(attempts, e, c.name) {
        assert c.name in Siblings(cs, event);
      }
    }
  }
}
