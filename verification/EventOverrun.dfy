// A run in which an event is dropped early (event/queue.go, event/worker.go,
// event/housekeeping.go): a worker outlives its lease and reports a failure after
// another finished the event.
module EventOverrun {
  import opened Wrappers
  import opened EventTables
  import opened EventProtocol
  import opened EventRuns

  // Transactions with nothing beside them ------------------------------------------------------

  // A run as far as it has come, with no transaction open.
  ghost predicate Resting(cs: seq<Consumer>, ss: seq<State>, ls: seq<Label>, s: State) {
    IsRun(cs, ss, ls) && ss[|ls|] == s && s.txs == map[]
  }

  lemma Extended(cs: seq<Consumer>, ss: seq<State>, ls: seq<Label>, l: Label)
    requires IsRun(cs, ss, ls) && Enabled(cs, ss[|ls|], l)
    ensures IsRun(cs, ss + [Next(cs, ss[|ls|], l)], ls + [l])
  {
  }

  // The transaction of a job on one existing event that its locking read matches.
  function Alone(s: State, job: Job, e: EventId): Tx {
    Tx(job, {}, {e}, Some(s.tables))
  }

  ghost predicate CanRunAlone(cs: seq<Consumer>, s: State, job: Job, e: EventId) {
    && s.txs == map[] && !job.Retry? && MayBegin(cs, s, job)
    && Wanted(job) == {e} && e in s.tables.outbox && Matches(job, s.tables.outbox[e])
  }

  // What such a transaction leaves.
  ghost function AfterAlone(cs: seq<Consumer>, s: State, job: Job, e: EventId): State
    requires !job.Retry?
  {
    var tx := Alone(s, job, e);
    State(Effect(cs, s.tables, tx), s.kinds, map[], s.nextTx + 1,
          (if job.Finish? then s.handlings - {job.handling} else s.handlings) + NewHandlings(s.nextTx, tx),
          s.lastClaim + NewClaims(s.nextTx, tx))
  }

  // The state of the transaction once it has locked its row and read.
  ghost function Reading(s: State, job: Job, e: EventId): State {
    s.(txs := map[s.nextTx := Alone(s, job, e)], nextTx := s.nextTx + 1,
       handlings := if job.Finish? then s.handlings - {job.handling} else s.handlings)
  }

  lemma RunToReading(cs: seq<Consumer>, ss: seq<State>, ls: seq<Label>, s: State, job: Job, e: EventId)
    returns (ss': seq<State>, ls': seq<Label>)
    requires Resting(cs, ss, ls, s) && CanRunAlone(cs, s, job, e)
    ensures IsRun(cs, ss', ls') && ss'[|ls'|] == Reading(s, job, e)
  {
    var t := s.nextTx;
    var begun := Next(cs, s, Begin(job));
    Extended(cs, ss, ls, Begin(job));
    var locked := Next(cs, begun, Lock(t, e));
    Extended(cs, ss + [begun], ls + [Begin(job)], Lock(t, e));
    assert locked.txs[t] == Tx(job, {}, {e}, None);
    assert locked.txs.Keys == {t};
    Extended(cs, ss + [begun] + [locked], ls + [Begin(job)] + [Lock(t, e)], Snapshot(t));
    ss' := ss + [begun] + [locked] + [Next(cs, locked, Snapshot(t))];
    ls' := ls + [Begin(job)] + [Lock(t, e)] + [Snapshot(t)];
  }

  lemma CommitsAlone(cs: seq<Consumer>, s: State, job: Job, e: EventId)
    requires CanRunAlone(cs, s, job, e)
    ensures Enabled(cs, Reading(s, job, e), Commit(s.nextTx))
    ensures Next(cs, Reading(s, job, e), Commit(s.nextTx)) == AfterAlone(cs, s, job, e)
  {
    assert Next(cs, Reading(s, job, e), Commit(s.nextTx)).txs == map[];
  }

  lemma RunAlone(cs: seq<Consumer>, ss: seq<State>, ls: seq<Label>, s: State, job: Job, e: EventId)
    returns (ss': seq<State>, ls': seq<Label>)
    requires Resting(cs, ss, ls, s) && CanRunAlone(cs, s, job, e)
    ensures Resting(cs, ss', ls', AfterAlone(cs, s, job, e))
    ensures |ls'| > 0 && ss'[|ls'| - 1].tables == s.tables
  {
    ss', ls' := RunToReading(cs, ss, ls, s, job, e);
    CommitsAlone(cs, s, job, e);
    Extended(cs, ss', ls', Commit(s.nextTx));
    ss', ls' := ss' + [AfterAlone(cs, s, job, e)], ls' + [Commit(s.nextTx)];
  }

  // The run --------------------------------------------------------------------------------------

  const SLOW: Consumer := Consumer("c", "a", RetryPolicy(2, 1, 1))

  const FIRST: Handling := Handling(0, 1, SLOW, 0)

  const SECOND: Handling := Handling(1, 1, SLOW, 0)

  lemma SoleSibling()
    ensures Siblings([SLOW], "a") == ["c"] && ValidConsumers([SLOW])
  {
    assert [SLOW][1..] == [];
  }

  // Event 1, its row for the consumer, and the claims in workers' hands.
  ghost predicate At(s: State, processedAt: Option<Time>, row: Option<AttemptRow>, inHand: set<Handling>, claims: nat) {
    && s.tables.outbox == map[1 := OutboxRow("a", processedAt)]
    && s.tables.attempts == (if row.Some? then map[Key(1, "c") := row.value] else map[])
    && s.kinds == map[1 := "a"] && s.handlings == inHand && s.nextTx == claims
  }

  lemma Published() returns (ss: seq<State>, ls: seq<Label>, s: State)
    ensures Resting([SLOW], ss, ls, s) && At(s, None, None, {}, 0)
  {
    var start := State(Tables(map[], map[]), map[], map[], 0, {}, map[]);
    s := Next([SLOW], start, Publish(1, "a"));
    Extended([SLOW], [start], [], Publish(1, "a"));
    ss, ls := [start] + [s], [] + [Publish(1, "a")];
  }

  lemma ClaimHandsOver(s: State, row: Option<AttemptRow>, now: Time)
    requires At(s, None, row, s.handlings, s.nextTx) && (row.Some? ==> !row.value.Finished() && row.value.nextAt <= now && row.value.attempts == 0)
    ensures var s' := AfterAlone([SLOW], s, Lease(SLOW, {1}, now), 1);
            s'.handlings == s.handlings + {Handling(s.nextTx, 1, SLOW, 0)}
  {
    var tx := Alone(s, Lease(SLOW, {1}, now), 1);
    assert ClaimedBy(tx) == {1};
    assert NewHandlings(s.nextTx, tx) == {Handling(s.nextTx, 1, SLOW, 0)};
  }

  lemma ClaimLeasesRow(s: State, row: Option<AttemptRow>, now: Time)
    requires At(s, None, row, s.handlings, s.nextTx)
    requires row.Some? ==> !row.value.Finished() && row.value.nextAt <= now && row.value.attempts == 0
    ensures AfterAlone([SLOW], s, Lease(SLOW, {1}, now), 1).tables.attempts
         == map[Key(1, "c") := AttemptRow(0, now + CLAIM_LEASE, None, None)]
  {
    var after := AfterAlone([SLOW], s, Lease(SLOW, {1}, now), 1).tables.attempts;
    assert Claimed(s.tables.attempts, {1}, "c", now) == {1};
    ClaimedRow(s.tables, s.tables.attempts, {1}, "c", now, 1);
    assert after.Keys == {Key(1, "c")};
  }

  // Claimed, and claimed again when the first lease ends.
  lemma ClaimedOnce() returns (ss: seq<State>, ls: seq<Label>, s: State)
    ensures Resting([SLOW], ss, ls, s) && At(s, None, Some(AttemptRow(0, CLAIM_LEASE, None, None)), {FIRST}, 1)
  {
    ss, ls, s := Published();
    ClaimHandsOver(s, None, 0);
    ClaimLeasesRow(s, None, 0);
    ss, ls := RunAlone([SLOW], ss, ls, s, Lease(SLOW, {1}, 0), 1);
    s := AfterAlone([SLOW], s, Lease(SLOW, {1}, 0), 1);
  }

  lemma ClaimedTwice() returns (ss: seq<State>, ls: seq<Label>, s: State)
    ensures Resting([SLOW], ss, ls, s) && At(s, None, Some(AttemptRow(0, 2 * CLAIM_LEASE, None, None)), {FIRST, SECOND}, 2)
  {
    ss, ls, s := ClaimedOnce();
    var row := AttemptRow(0, CLAIM_LEASE, None, None);
    ClaimHandsOver(s, Some(row), CLAIM_LEASE);
    ClaimLeasesRow(s, Some(row), CLAIM_LEASE);
    ss, ls := RunAlone([SLOW], ss, ls, s, Lease(SLOW, {1}, CLAIM_LEASE), 1);
    s := AfterAlone([SLOW], s, Lease(SLOW, {1}, CLAIM_LEASE), 1);
  }

  // The second worker succeeds: the event is processed.
  lemma SuccessMarks(s: State, row: AttemptRow)
    requires At(s, None, Some(row), {FIRST, SECOND}, 2)
    ensures At(AfterAlone([SLOW], s, Finish(SECOND, Succeeded, CLAIM_LEASE), 1),
               Some(CLAIM_LEASE), Some(AttemptRow(0, CLAIM_LEASE, Some(CLAIM_LEASE), None)), {FIRST}, 3)
  {
    SoleSibling();
    var written := AttemptRow(0, CLAIM_LEASE, Some(CLAIM_LEASE), None);
    assert FinishedAmong(s.tables.attempts[Key(1, "c") := written], 1, ["c"]) == {"c"};
  }

  lemma SecondSucceeded() returns (ss: seq<State>, ls: seq<Label>, s: State)
    ensures Resting([SLOW], ss, ls, s)
    ensures At(s, Some(CLAIM_LEASE), Some(AttemptRow(0, CLAIM_LEASE, Some(CLAIM_LEASE), None)), {FIRST}, 3)
  {
    ss, ls, s := ClaimedTwice();
    SuccessMarks(s, AttemptRow(0, 2 * CLAIM_LEASE, None, None));
    ss, ls := RunAlone([SLOW], ss, ls, s, Finish(SECOND, Succeeded, CLAIM_LEASE), 1);
    s := AfterAlone([SLOW], s, Finish(SECOND, Succeeded, CLAIM_LEASE), 1);
  }

  // The first then reports a failure to be retried.
  lemma FirstFailed() returns (ss: seq<State>, ls: seq<Label>, s: State)
    ensures Resting([SLOW], ss, ls, s)
    ensures At(s, Some(CLAIM_LEASE), Some(AttemptRow(1, CLAIM_LEASE + 1, None, None)), {}, 4)
  {
    ss, ls, s := SecondSucceeded();
    assert Delay(SLOW.retry, 1) == 1;
    ss, ls := RunAlone([SLOW], ss, ls, s, Finish(FIRST, Failed, CLAIM_LEASE), 1);
    s := AfterAlone([SLOW], s, Finish(FIRST, Failed, CLAIM_LEASE), 1);
  }

  // And the housekeeper deletes the event though its only consumer is to try it again.
  lemma LateFailureDropsEvent() returns (ss: seq<State>, ls: seq<Label>, i: nat)
    ensures ValidConsumers([SLOW]) && IsRun([SLOW], ss, ls) && i < |ls|
    ensures 1 in ss[i].tables.outbox && 1 !in ss[i + 1].tables.outbox
    ensures "c" in Siblings([SLOW], ss[i].tables.outbox[1].kind) && !FinishedBy(ss[i].tables.attempts, 1, "c")
  {
    SoleSibling();
    var s: State;
    ss, ls, s := FirstFailed();
    assert Doomed(s.tables.attempts, {1}) == {1};
    ss, ls := RunAlone([SLOW], ss, ls, s, Prune({1}, CLAIM_LEASE + 1), 1);
    i := |ls| - 1;
  }
}
