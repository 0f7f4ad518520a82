// Runs without an overrun (no outcome recorded after a later claim of the same
// event by the same consumer) that keep dead letters for ever: no step breaks what
// "processed" promises, and every consumer runs out of work on every event.
module EventCalm {
  import opened Wrappers
  import opened EventTables
  import opened EventProtocol
  import opened EventInvariant
  import opened EventRuns
  import opened EventProcessed

  // The claim is the latest of its event by its consumer.
  ghost predicate Latest(s: State, h: Handling) {
    h.Row() in s.lastClaim && s.lastClaim[h.Row()] == h.claim
  }

  // The step is no overrun, and no dead letter expires.
  ghost predicate Calm(s: State, l: Label) {
    l.Commit? && l.t in s.txs ==>
      && !s.txs[l.t].job.Expire?
      && (s.txs[l.t].job.Finish? ==> Latest(s, s.txs[l.t].job.handling))
  }

  ghost predicate IsCalmRun(cs: seq<Consumer>, ss: seq<State>, ls: seq<Label>) {
    IsRun(cs, ss, ls) && forall i :: 0 <= i < |ls| ==> Calm(ss[i], ls[i])
  }

  // A claim whose outcome is still to come: in a worker's hands, or being recorded.
  ghost predicate Recording(s: State, t: TxId, h: Handling) {
    t in s.txs && s.txs[t].job.Finish? && s.txs[t].job.handling == h
  }

  ghost predicate InPlay(s: State, h: Handling) {
    h in s.handlings || exists t :: Recording(s, t, h)
  }

  // Every claim yields at most one outcome.
  ghost predicate OnceEach(s: State) {
    && (forall g, h :: InPlay(s, g) && InPlay(s, h) && g.claim == h.claim && g.event == h.event ==> g == h)
    && (forall t, h :: Recording(s, t, h) ==> h !in s.handlings)
    && (forall t, u, h :: Recording(s, t, h) && Recording(s, u, h) ==> t == u)
    && (forall h :: InPlay(s, h) ==> h.claim < s.nextTx && h.claim !in s.txs)
  }

  // The latest claim of an event finds its event there and its row as it left it.
  ghost predicate LatestOk(s: State) {
    forall h :: InPlay(s, h) && Latest(s, h) ==>
      && h.event in s.tables.outbox && h.Row() in s.tables.attempts
      && !s.tables.attempts[h.Row()].Finished() && s.tables.attempts[h.Row()].attempts == h.seen
  }

  ghost predicate CalmInv(cs: seq<Consumer>, s: State) {
    Inv(cs, s) && OnceEach(s) && LatestOk(s) && ProcessedOk(cs, s)
  }

  lemma InPlayIsOk(cs: seq<Consumer>, s: State, h: Handling)
    requires Inv(cs, s) && InPlay(s, h)
    ensures HandlingOk(cs, s, h)
  {
    if h !in s.handlings {
      var t :| Recording(s, t, h);
      assert JobOk(cs, s, s.txs[t]);
    }
  }

  // Once each -------------------------------------------------------------------------

  // What a step puts into play: the events a committing lease claimed.
  lemma NewInPlay(cs: seq<Consumer>, s: State, l: Label, h: Handling)
    requires LocksOk(s) && Enabled(cs, s, l) && InPlay(Next(cs, s, l), h)
    ensures InPlay(s, h) || (l.Commit? && h in NewHandlings(l.t, s.txs[l.t]))
  {
    var s' := Next(cs, s, l);
    if h !in s'.handlings {
      var t :| Recording(s', t, h);
      if t in s.txs {
        assert Recording(s, t, h);
      }
    }
  }

  lemma NewHandlingFacts(t: TxId, tx: Tx, h: Handling)
    requires h in NewHandlings(t, tx)
    ensures h.claim == t && tx.job.Lease? && tx.snap.Some? && h.event in ClaimedBy(tx) && h.consumer == tx.job.consumer
    ensures h.seen == AttemptsSeen(tx.snap.value.attempts, h.Row())
  {
  }

  lemma RecordingKept(cs: seq<Consumer>, s: State, l: Label, t: TxId, h: Handling)
    requires LocksOk(s) && Enabled(cs, s, l) && Recording(Next(cs, s, l), t, h)
    ensures Recording(s, t, h) || (l.Begin? && t == s.nextTx && h in s.handlings && h !in Next(cs, s, l).handlings)
  {
  }

  lemma StepKeepsOnceEach(cs: seq<Consumer>, s: State, l: Label)
    requires LocksOk(s) && OnceEach(s) && Enabled(cs, s, l)
    ensures OnceEach(Next(cs, s, l))
  {
    var s' := Next(cs, s, l);
    forall h | InPlay(s', h)
      ensures InPlay(s, h) || (l.Commit? && h.claim == l.t && h in NewHandlings(l.t, s.txs[l.t]))
      ensures h.claim < s'.nextTx && h.claim !in s'.txs
    {
      NewInPlay(cs, s, l, h);
    }
    forall t, h | Recording(s', t, h)
      ensures h !in s'.handlings
    {
      RecordingKept(cs, s, l, t, h);
      if Recording(s, t, h) {
        assert InPlay(s, h);
      }
    }
    forall t, u, h | Recording(s', t, h) && Recording(s', u, h)
      ensures t == u
    {
      RecordingKept(cs, s, l, t, h);
      RecordingKept(cs, s, l, u, h);
    }
    forall g, h | InPlay(s', g) && InPlay(s', h) && g.claim == h.claim && g.event == h.event
      ensures g == h
    {
    }
  }

  // Nothing is dropped early -------------------------------------------------------------

  // Any commit but that of its own claim's outcome leaves the latest claim's row alone.
  lemma CommitKeepsLatest(cs: seq<Consumer>, s: State, l: Label, h: Handling)
    requires CalmInv(cs, s) && Enabled(cs, s, l) && Calm(s, l) && l.Commit?
    requires InPlay(s, h) && Latest(s, h) && !Claims(s, l, h.Row()) && !Records(s, l, h.Row())
    ensures var s' := Next(cs, s, l);
            && h.event in s'.tables.outbox && h.Row() in s'.tables.attempts
            && s'.tables.attempts[h.Row()] == s.tables.attempts[h.Row()]
  {
    var tx, k := s.txs[l.t], h.Row();
    match tx.job
    case Lease(c, _, _) => assert forall e :: e in ClaimedBy(tx) ==> Key(e, c.name) != k;
    case Finish(_, _, _) =>
    case Retry(_, _) =>
    case Prune(_, cutoff) =>
      InPlayIsOk(cs, s, h);
      SiblingsMembers(cs, h.consumer.event, h.consumer.name);
      assert !FinishedBy(s.tables.attempts, h.event, h.consumer.name);
      assert !AllFinished(cs, s.tables, h.event);
      assert h.event !in tx.held;
  }

  lemma ClaimIsLatest(cs: seq<Consumer>, s: State, l: Label, h: Handling)
    requires Inv(cs, s) && Enabled(cs, s, l) && l.Commit? && h in NewHandlings(l.t, s.txs[l.t])
    ensures var t := Next(cs, s, l).tables;
            && h.event in t.outbox && h.Row() in t.attempts
            && !t.attempts[h.Row()].Finished() && t.attempts[h.Row()].attempts == h.seen
  {
    NewHandlingFacts(l.t, s.txs[l.t], h);
    ClaimReads(cs, s, l, h.Row());
    ClaimWrites(cs, s, l, h.Row());
  }

  // An outcome recorded takes its claim out of play.
  lemma RecordedIsOut(cs: seq<Consumer>, s: State, l: Label, h: Handling)
    requires CalmInv(cs, s) && Enabled(cs, s, l) && Calm(s, l) && Records(s, l, h.Row()) && InPlay(s, h) && Latest(s, h)
    ensures !InPlay(Next(cs, s, l), h)
  {
    var s' := Next(cs, s, l);
    var g := s.txs[l.t].job.handling;
    assert Recording(s, l.t, g) && InPlay(s, g);
    assert g == h;
    forall t | Recording(s', t, h)
      ensures false
    {
      assert Recording(s, t, h);
    }
  }

  lemma CommitKeepsLatestOk(cs: seq<Consumer>, s: State, l: Label)
    requires CalmInv(cs, s) && Enabled(cs, s, l) && Calm(s, l) && l.Commit?
    ensures LatestOk(Next(cs, s, l))
  {
    var s', tx := Next(cs, s, l), s.txs[l.t];
    forall h | InPlay(s', h) && Latest(s', h)
      ensures && h.event in s'.tables.outbox && h.Row() in s'.tables.attempts
              && !s'.tables.attempts[h.Row()].Finished() && s'.tables.attempts[h.Row()].attempts == h.seen
    {
      NewInPlay(cs, s, l, h);
      if h in NewHandlings(l.t, tx) {
        ClaimIsLatest(cs, s, l, h);
      } else {
        assert h.claim != l.t;
        assert h.Row() !in NewClaims(l.t, tx);
        assert Latest(s, h);
        if Records(s, l, h.Row()) {
          RecordedIsOut(cs, s, l, h);
        }
        CommitKeepsLatest(cs, s, l, h);
      }
    }
  }

  lemma QuietKeepsLatestOk(cs: seq<Consumer>, s: State, l: Label)
    requires CalmInv(cs, s) && Enabled(cs, s, l) && !l.Commit?
    ensures LatestOk(Next(cs, s, l))
  {
    var s' := Next(cs, s, l);
    forall h | InPlay(s', h) && Latest(s', h)
      ensures InPlay(s, h) && Latest(s, h) && h.event in s'.tables.outbox && h.event in s.tables.outbox
    {
      NewInPlay(cs, s, l, h);
    }
  }

  // Without an overrun, an outcome meets its event open.
  lemma FinishMeetsOpen(cs: seq<Consumer>, s: State, l: Label)
    requires ValidConsumers(cs) && CalmInv(cs, s) && Enabled(cs, s, l) && Calm(s, l) && l.Commit? && s.txs[l.t].job.Finish?
    ensures var e := s.txs[l.t].job.handling.event; e in s.tables.outbox && s.tables.outbox[e].processedAt.None?
  {
    var h := s.txs[l.t].job.handling;
    assert Recording(s, l.t, h) && InPlay(s, h);
    InPlayIsOk(cs, s, h);
    SiblingsMembers(cs, h.consumer.event, h.consumer.name);
    assert !FinishedBy(s.tables.attempts, h.event, h.consumer.name);
    assert !AllFinished(cs, s.tables, h.event);
  }

  // So a calm step breaks no promise.
  lemma CalmStepIsTimely(cs: seq<Consumer>, s: State, l: Label)
    requires ValidConsumers(cs) && CalmInv(cs, s) && Enabled(cs, s, l) && Calm(s, l)
    ensures !FailsLate(s, l) && !ExpiresProcessed(s, l)
  {
    if l.Commit? && s.txs[l.t].job.Finish? {
      FinishMeetsOpen(cs, s, l);
    }
  }

  lemma StepKeepsCalmInv(cs: seq<Consumer>, s: State, l: Label)
    requires ValidConsumers(cs) && CalmInv(cs, s) && Enabled(cs, s, l) && Calm(s, l)
    ensures CalmInv(cs, Next(cs, s, l))
  {
    StepKeepsInv(cs, s, l);
    StepKeepsOnceEach(cs, s, l);
    CalmStepIsTimely(cs, s, l);
    ProcessedStepIff(cs, s, l);
    if l.Commit? {
      CommitKeepsLatestOk(cs, s, l);
    } else {
      QuietKeepsLatestOk(cs, s, l);
    }
  }

  lemma {:induction false} CalmRunKeepsInv(cs: seq<Consumer>, ss: seq<State>, ls: seq<Label>, i: nat)
    requires ValidConsumers(cs) && IsCalmRun(cs, ss, ls) && i < |ss|
    ensures CalmInv(cs, ss[i])
  {
    if i > 0 {
      CalmRunKeepsInv(cs, ss, ls, i - 1);
      StepKeepsCalmInv(cs, ss[i - 1], ls[i - 1]);
    }
  }

  // What holds of every timely run holds of every calm one.
  lemma CalmIsTimely(cs: seq<Consumer>, ss: seq<State>, ls: seq<Label>, i: nat)
    requires ValidConsumers(cs) && IsCalmRun(cs, ss, ls) && i <= |ls|
    ensures Timely(ss, ls, i)
  {
    forall j | 0 <= j < i ensures !FailsLate(ss[j], ls[j]) && !ExpiresProcessed(ss[j], ls[j]) {
      CalmRunKeepsInv(cs, ss, ls, j);
      CalmStepIsTimely(cs, ss[j], ls[j]);
    }
  }

  // Every consumer runs out of work ---------------------------------------------------------

  // The outcomes a consumer can still record for an event.
  ghost function Remaining(s: State, c: Consumer, e: EventId): int {
    var k := Key(e, c.name);
    if e !in s.kinds then c.retry.attempts
    else if e !in s.tables.outbox then 0
    else if k !in s.tables.attempts then c.retry.attempts
    else if s.tables.attempts[k].Finished() then 0
    else c.retry.attempts - s.tables.attempts[k].attempts
  }

  // How many outcomes of the event for the consumer the run records.
  ghost function Outcomes(ss: seq<State>, ls: seq<Label>, k: Key, i: nat): nat
    requires i <= |ls| < |ss|
  {
    if i == 0 then 0 else Outcomes(ss, ls, k, i - 1) + if Records(ss[i - 1], ls[i - 1], k) then 1 else 0
  }

  // The step retries the dead letter of the event and consumer.
  ghost predicate Retries(s: State, l: Label, k: Key) {
    l.Commit? && l.t in s.txs && s.txs[l.t].job.Retry? && s.txs[l.t].job.letter == k
  }

  // Each recorded outcome uses up at least one of those remaining.
  lemma OutcomeUsesOne(cs: seq<Consumer>, s: State, l: Label, c: Consumer, e: EventId)
    requires ValidConsumers(cs) && CalmInv(cs, s) && Enabled(cs, s, l) && Calm(s, l) && c in cs && Records(s, l, Key(e, c.name))
    ensures 0 <= Remaining(Next(cs, s, l), c, e) < Remaining(s, c, e)
  {
    var h := s.txs[l.t].job.handling;
    assert Recording(s, l.t, h) && InPlay(s, h);
    InPlayIsOk(cs, s, h);
    assert h.consumer == c;
  }

  lemma ClaimUsesNone(cs: seq<Consumer>, s: State, l: Label, c: Consumer, e: EventId)
    requires Inv(cs, s) && Enabled(cs, s, l) && Claims(s, l, Key(e, c.name))
    ensures Remaining(Next(cs, s, l), c, e) <= Remaining(s, c, e)
  {
    ClaimReads(cs, s, l, Key(e, c.name));
    ClaimWrites(cs, s, l, Key(e, c.name));
  }

  lemma RemainingIsNat(cs: seq<Consumer>, s: State, c: Consumer, e: EventId)
    requires ValidConsumers(cs) && Inv(cs, s) && c in cs
    ensures Remaining(s, c, e) >= 0
  {
    var k := Key(e, c.name);
    if k in s.tables.attempts {
      var d :| Owns(cs, s.kinds, d, k) && RowOk(d, s.tables.attempts[k]);
      assert d == c;
    }
  }

  // The event is where it was and the row is as it was.
  lemma SameRowSameRemaining(s: State, s': State, c: Consumer, e: EventId)
    requires (e in s'.kinds <==> e in s.kinds) && (e in s'.tables.outbox <==> e in s.tables.outbox)
    requires Get(s'.tables.attempts, Key(e, c.name)) == Get(s.tables.attempts, Key(e, c.name))
    ensures Remaining(s', c, e) == Remaining(s, c, e)
  {
  }

  lemma PublishUsesNone(cs: seq<Consumer>, s: State, l: Label, c: Consumer, e: EventId)
    requires IdsOk(s) && Enabled(cs, s, l) && l.Publish?
    ensures Remaining(Next(cs, s, l), c, e) == Remaining(s, c, e)
  {
  }

  lemma PruneUsesNone(cs: seq<Consumer>, s: State, l: Label, c: Consumer, e: EventId)
    requires ValidConsumers(cs) && Inv(cs, s) && Enabled(cs, s, l) && c in cs && l.Commit? && s.txs[l.t].job.Prune?
    ensures Remaining(Next(cs, s, l), c, e) <= Remaining(s, c, e)
  {
    RemainingIsNat(cs, s, c, e);
    if e in Next(cs, s, l).tables.outbox {
      SameRowSameRemaining(s, Next(cs, s, l), c, e);
    }
  }

  // A commit that neither claims, records nor retries the row, nor prunes.
  lemma CommitUsesNone(cs: seq<Consumer>, s: State, l: Label, c: Consumer, e: EventId)
    requires Inv(cs, s) && Enabled(cs, s, l) && Calm(s, l) && l.Commit? && !s.txs[l.t].job.Prune?
    requires var k := Key(e, c.name); !Claims(s, l, k) && !Records(s, l, k) && !Retries(s, l, k)
    ensures Remaining(Next(cs, s, l), c, e) == Remaining(s, c, e)
  {
    SameRowSameRemaining(s, Next(cs, s, l), c, e);
  }

  lemma OthersUseNone(cs: seq<Consumer>, s: State, l: Label, c: Consumer, e: EventId)
    requires ValidConsumers(cs) && Inv(cs, s) && Enabled(cs, s, l) && Calm(s, l) && c in cs
    requires !Records(s, l, Key(e, c.name)) && !Retries(s, l, Key(e, c.name))
    ensures Remaining(Next(cs, s, l), c, e) <= Remaining(s, c, e)
  {
    if Claims(s, l, Key(e, c.name)) {
      ClaimUsesNone(cs, s, l, c, e);
    } else if l.Publish? {
      PublishUsesNone(cs, s, l, c, e);
    } else if l.Commit? && s.txs[l.t].job.Prune? {
      PruneUsesNone(cs, s, l, c, e);
    } else if l.Commit? {
      CommitUsesNone(cs, s, l, c, e);
    } else {
      SameRowSameRemaining(s, Next(cs, s, l), c, e);
    }
  }

  lemma {:induction false} OutcomesAndRemaining(cs: seq<Consumer>, ss: seq<State>, ls: seq<Label>, i: nat, c: Consumer, e: EventId)
    requires ValidConsumers(cs) && IsCalmRun(cs, ss, ls) && i <= |ls| && c in cs
    requires forall m :: 0 <= m < i ==> !Retries(ss[m], ls[m], Key(e, c.name))
    ensures Outcomes(ss, ls, Key(e, c.name), i) + Remaining(ss[i], c, e) <= c.retry.attempts
  {
    if i > 0 {
      OutcomesAndRemaining(cs, ss, ls, i - 1, c, e);
      CalmRunKeepsInv(cs, ss, ls, i - 1);
      if Records(ss[i - 1], ls[i - 1], Key(e, c.name)) {
        OutcomeUsesOne(cs, ss[i - 1], ls[i - 1], c, e);
      } else {
        OthersUseNone(cs, ss[i - 1], ls[i - 1], c, e);
      }
    }
  }

  // Without a retry of it, a consumer records at most its policy's attempts for an event.
  lemma OutcomesAreBounded(cs: seq<Consumer>, ss: seq<State>, ls: seq<Label>, c: Consumer, e: EventId)
    requires ValidConsumers(cs) && IsCalmRun(cs, ss, ls) && c in cs
    requires forall m :: 0 <= m < |ls| ==> !Retries(ss[m], ls[m], Key(e, c.name))
    ensures Outcomes(ss, ls, Key(e, c.name), |ls|) <= c.retry.attempts
  {
    OutcomesAndRemaining(cs, ss, ls, |ls|, c, e);
    CalmRunKeepsInv(cs, ss, ls, |ls|);
    var k := Key(e, c.name);
    if k in ss[|ls|].tables.attempts {
      AttemptsWithinPolicy(cs, ss, ls, |ls|, c, e);
    }
  }
}
