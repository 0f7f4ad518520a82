// What "processed" promises (event/queue.go, event/housekeeping.go): exactly which
// steps leave a processed event with an unfinished consumer, that nothing is dropped
// early in any run without one, and a run in which it is.
module EventProcessed {
  import opened Wrappers
  import opened EventTables
  import opened EventProtocol
  import opened EventRuns

  ghost predicate AllFinished(cs: seq<Consumer>, t: Tables, e: EventId)
    requires e in t.outbox
  {
    forall n :: n in Siblings(cs, t.outbox[e].kind) ==> FinishedBy(t.attempts, e, n)
  }

  // Every processed event was finished by all of its consumers.
  ghost predicate ProcessedOk(cs: seq<Consumer>, s: State) {
    forall e :: e in s.tables.outbox && s.tables.outbox[e].processedAt.Some? ==> AllFinished(cs, s.tables, e)
  }

  predicate Processed(t: Tables, e: EventId) {
    e in t.outbox && t.outbox[e].processedAt.Some?
  }

  // The row the outcome of a recording transaction writes.
  function RowOf(job: Job): AttemptRow
    requires job.Finish?
  {
    OutcomeRow(job.handling.seen, job.handling.consumer.retry, job.outcome, job.now)
  }

  // The step records a failure to be retried for an event already processed.
  ghost predicate FailsLate(s: State, l: Label) {
    && l.Commit? && l.t in s.txs && s.txs[l.t].job.Finish?
    && Processed(s.tables, s.txs[l.t].job.handling.event) && !RowOf(s.txs[l.t].job).Finished()
  }

  // The step expires a dead letter of an event already processed.
  ghost predicate ExpiresProcessed(s: State, l: Label) {
    && l.Commit? && l.t in s.txs && s.txs[l.t].job.Expire?
    && exists k :: k in s.tables.attempts && ExpiredBy(s, s.txs[l.t].job, k) && Processed(s.tables, k.event)
  }

  predicate ExpiredBy(s: State, job: Job, k: Key)
    requires job.Expire? && k in s.tables.attempts
  {
    k.event in job.ids && Expired(s.tables.attempts[k], job.cutoff)
  }

  // One step -------------------------------------------------------------------------------

  // A final outcome that marks its event processed saw every consumer finished.
  lemma MarkedMeansFinished(t: Tables, snap: Tables, k: Key, row: AttemptRow, siblings: seq<string>, now: Time)
    requires Distinct(siblings) && k.event in t.outbox && t.outbox[k.event].processedAt.None?
    requires SameEvent(snap, t, k.event)
    requires FinishEffect(t, snap.attempts, true, k, row, siblings, now).outbox[k.event].processedAt.Some?
    ensures forall n :: n in siblings ==> FinishedBy(t.attempts[k := row], k.event, n)
  {
    CountMeansAll(snap.attempts[k := row], k.event, siblings);
  }

  // An outcome leaves its event finished by all when it is processed, unless it comes
  // late and is not final.
  lemma FinishKeepsOwn(cs: seq<Consumer>, s: State, l: Label)
    requires ValidConsumers(cs) && Inv(cs, s) && ProcessedOk(cs, s) && Enabled(cs, s, l)
    requires l.Commit? && s.txs[l.t].job.Finish? && !FailsLate(s, l)
    ensures var e, t := s.txs[l.t].job.handling.event, Next(cs, s, l).tables; Processed(t, e) ==> AllFinished(cs, t, e)
  {
    var tx := s.txs[l.t];
    var h := tx.job.handling;
    assert JobOk(cs, s, tx);
    if h.event in s.tables.outbox {
      if s.tables.outbox[h.event].processedAt.Some? {
        assert AllFinished(cs, s.tables, h.event);
      } else if Processed(Next(cs, s, l).tables, h.event) {
        SiblingsDistinct(cs, h.consumer.event);
        MarkedMeansFinished(s.tables, tx.snap.value, h.Row(), RowOf(tx.job), Siblings(cs, h.consumer.event), tx.job.now);
      }
    }
  }

  lemma FinishKeepsProcessed(cs: seq<Consumer>, s: State, l: Label)
    requires ValidConsumers(cs) && Inv(cs, s) && ProcessedOk(cs, s) && Enabled(cs, s, l)
    requires l.Commit? && s.txs[l.t].job.Finish? && !FailsLate(s, l)
    ensures ProcessedOk(cs, Next(cs, s, l))
  {
    FinishKeepsOwn(cs, s, l);
    var s', h := Next(cs, s, l), s.txs[l.t].job.handling;
    forall e | Processed(s'.tables, e) && e != h.event ensures AllFinished(cs, s'.tables, e) {
      assert AllFinished(cs, s.tables, e);
    }
  }

  // A late failure leaves its own consumer unfinished.
  lemma FailsLateBreaks(cs: seq<Consumer>, s: State, l: Label)
    requires ValidConsumers(cs) && Inv(cs, s) && Enabled(cs, s, l) && FailsLate(s, l)
    ensures !ProcessedOk(cs, Next(cs, s, l))
  {
    var tx := s.txs[l.t];
    var h, t := tx.job.handling, Next(cs, s, l).tables;
    assert JobOk(cs, s, tx);
    SiblingsMembers(cs, h.consumer.event, h.consumer.name);
    assert !FinishedBy(t.attempts, h.event, h.consumer.name);
    assert Processed(t, h.event) && !AllFinished(cs, t, h.event);
  }

  // An expired letter of a processed event leaves its consumer with no row.
  lemma ExpiryBreaks(cs: seq<Consumer>, s: State, l: Label)
    requires Inv(cs, s) && Enabled(cs, s, l) && ExpiresProcessed(s, l)
    ensures !ProcessedOk(cs, Next(cs, s, l))
  {
    var t := Next(cs, s, l).tables;
    var k :| k in s.tables.attempts && ExpiredBy(s, s.txs[l.t].job, k) && Processed(s.tables, k.event);
    var c :| Owns(cs, s.kinds, c, k) && RowOk(c, s.tables.attempts[k]);
    SiblingsMembers(cs, c.event, c.name);
    assert !FinishedBy(t.attempts, k.event, k.consumer);
    assert Processed(t, k.event) && !AllFinished(cs, t, k.event);
  }

  lemma ExpiryKeepsProcessed(cs: seq<Consumer>, s: State, l: Label)
    requires ProcessedOk(cs, s) && Enabled(cs, s, l) && l.Commit? && s.txs[l.t].job.Expire? && !ExpiresProcessed(s, l)
    ensures ProcessedOk(cs, Next(cs, s, l))
  {
    var t := Next(cs, s, l).tables;
    forall e | Processed(t, e) ensures AllFinished(cs, t, e) {
      assert AllFinished(cs, s.tables, e);
      forall n | FinishedBy(s.tables.attempts, e, n) ensures FinishedBy(t.attempts, e, n) {
        assert !ExpiredBy(s, s.txs[l.t].job, Key(e, n));
      }
    }
  }

  // A step that records no outcome and expires nothing leaves a processed event and
  // its final rows alone.
  lemma OtherKeepsFinished(cs: seq<Consumer>, s: State, l: Label, e: EventId)
    requires Inv(cs, s) && Enabled(cs, s, l) && !(l.Commit? && (s.txs[l.t].job.Finish? || s.txs[l.t].job.Expire?))
    requires Processed(Next(cs, s, l).tables, e)
    ensures e in s.tables.outbox && s.tables.outbox[e] == Next(cs, s, l).tables.outbox[e]
    ensures forall n :: FinishedBy(s.tables.attempts, e, n) ==> FinishedBy(Next(cs, s, l).tables.attempts, e, n)
  {
  }

  lemma OtherKeepsProcessed(cs: seq<Consumer>, s: State, l: Label)
    requires Inv(cs, s) && ProcessedOk(cs, s) && Enabled(cs, s, l)
    requires !(l.Commit? && (s.txs[l.t].job.Finish? || s.txs[l.t].job.Expire?))
    ensures ProcessedOk(cs, Next(cs, s, l))
  {
    forall e | Processed(Next(cs, s, l).tables, e) ensures AllFinished(cs, Next(cs, s, l).tables, e) {
      OtherKeepsFinished(cs, s, l, e);
      assert AllFinished(cs, s.tables, e);
    }
  }

  // Exactly two kinds of step break the promise: a failure to be retried recorded for
  // an event already processed, and the expiry of a processed event's dead letter.
  lemma ProcessedStepIff(cs: seq<Consumer>, s: State, l: Label)
    requires ValidConsumers(cs) && Inv(cs, s) && ProcessedOk(cs, s) && Enabled(cs, s, l)
    ensures ProcessedOk(cs, Next(cs, s, l)) <==> !FailsLate(s, l) && !ExpiresProcessed(s, l)
  {
    if FailsLate(s, l) {
      FailsLateBreaks(cs, s, l);
    } else if ExpiresProcessed(s, l) {
      ExpiryBreaks(cs, s, l);
    } else if l.Commit? && s.txs[l.t].job.Finish? {
      FinishKeepsProcessed(cs, s, l);
    } else if l.Commit? && s.txs[l.t].job.Expire? {
      ExpiryKeepsProcessed(cs, s, l);
    } else {
      OtherKeepsProcessed(cs, s, l);
    }
  }

  // Whole runs ---------------------------------------------------------------------------------

  // No step of the run so far breaks the promise.
  ghost predicate Timely(ss: seq<State>, ls: seq<Label>, i: nat)
    requires i <= |ls| < |ss|
  {
    forall j :: 0 <= j < i ==> !FailsLate(ss[j], ls[j]) && !ExpiresProcessed(ss[j], ls[j])
  }

  lemma {:induction false} TimelyKeepsProcessed(cs: seq<Consumer>, ss: seq<State>, ls: seq<Label>, i: nat)
    requires ValidConsumers(cs) && IsRun(cs, ss, ls) && i <= |ls| && Timely(ss, ls, i)
    ensures ProcessedOk(cs, ss[i])
  {
    if i > 0 {
      TimelyKeepsProcessed(cs, ss, ls, i - 1);
      RunKeepsInv(cs, ss, ls, i - 1);
      ProcessedStepIff(cs, ss[i - 1], ls[i - 1]);
    }
  }

  // For every run: processed has always meant finished by all if and only if no step
  // broke the promise.
  lemma ProcessedRunIff(cs: seq<Consumer>, ss: seq<State>, ls: seq<Label>, i: nat)
    requires ValidConsumers(cs) && IsRun(cs, ss, ls) && i <= |ls|
    ensures (forall j: nat :: j <= i ==> ProcessedOk(cs, ss[j])) <==> Timely(ss, ls, i)
  {
    if Timely(ss, ls, i) {
      forall j: nat | j <= i ensures ProcessedOk(cs, ss[j]) {
        TimelyKeepsProcessed(cs, ss, ls, j);
      }
    }
    if forall j: nat :: j <= i ==> ProcessedOk(cs, ss[j]) {
      forall j | 0 <= j < i ensures !FailsLate(ss[j], ls[j]) && !ExpiresProcessed(ss[j], ls[j]) {
        assert ProcessedOk(cs, ss[j]) && ProcessedOk(cs, ss[j + 1]);
        RunKeepsInv(cs, ss, ls, j);
        ProcessedStepIff(cs, ss[j], ls[j]);
      }
    }
  }

  // A processed event was finished by every one of its consumers.
  lemma ProcessedMeansFinished(cs: seq<Consumer>, ss: seq<State>, ls: seq<Label>, i: nat, e: EventId, n: string)
    requires ValidConsumers(cs) && IsRun(cs, ss, ls) && i <= |ls| && Timely(ss, ls, i)
    requires Processed(ss[i].tables, e) && n in Siblings(cs, ss[i].tables.outbox[e].kind)
    ensures FinishedBy(ss[i].tables.attempts, e, n)
  {
    TimelyKeepsProcessed(cs, ss, ls, i);
    assert AllFinished(cs, ss[i].tables, e);
  }

  // An event that disappears was processed before its housekeeper's cutoff and
  // recorded done by every one of its consumers.
  lemma NothingDroppedEarly(cs: seq<Consumer>, ss: seq<State>, ls: seq<Label>, i: nat, e: EventId)
    requires ValidConsumers(cs) && IsRun(cs, ss, ls) && i < |ls| && Timely(ss, ls, i)
    requires e in ss[i].tables.outbox && e !in ss[i + 1].tables.outbox
    ensures ls[i].Commit? && ls[i].t in ss[i].txs && ss[i].txs[ls[i].t].job.Prune?
    ensures ss[i].tables.outbox[e].processedAt.Some? && ss[i].tables.outbox[e].processedAt.value < ss[i].txs[ls[i].t].job.cutoff
    ensures forall n :: n in Siblings(cs, ss[i].tables.outbox[e].kind) ==>
              Key(e, n) in ss[i].tables.attempts && ss[i].tables.attempts[Key(e, n)].doneAt.Some?
  {
    var s, l := ss[i], ls[i];
    TimelyKeepsProcessed(cs, ss, ls, i);
    RunKeepsInv(cs, ss, ls, i);
    assert l.Commit?;
    var tx := s.txs[l.t];
    assert tx.job.Prune?;
    assert e in Doomed(tx.snap.value.attempts, tx.held);
    assert SameEvent(tx.snap.value, s.tables, e);
    assert AllFinished(cs, s.tables, e);
    forall n | n in Siblings(cs, s.tables.outbox[e].kind)
      ensures Key(e, n) in s.tables.attempts && s.tables.attempts[Key(e, n)].doneAt.Some?
    {
      assert FinishedBy(s.tables.attempts, e, n);
      assert Key(e, n) in tx.snap.value.attempts;
    }
  }
}
