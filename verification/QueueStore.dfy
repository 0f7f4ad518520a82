// The transactions of the queue as code over the two tables, one at a time: the
// loops of lease, RetryAll and the housekeeper's sweep.
module QueueStore {
  import opened Wrappers
  import opened EventTables
  import opened IdLists

  const PRUNE_BATCH: nat := 500
  const RETENTION: Time := 30 * 24 * 3600 * 1_000_000_000

  datatype ClaimedEvent = ClaimedEvent(id: EventId, attempts: nat)

  // The locked events still due, in order, with the attempts their rows count.
  function ClaimList(attempts: map<Key, AttemptRow>, locked: seq<EventId>, consumer: string, now: Time): seq<ClaimedEvent> {
    if locked == [] then []
    else
      var e := locked[|locked| - 1];
      var before := ClaimList(attempts, locked[..|locked| - 1], consumer, now);
      if Due(attempts, Key(e, consumer), now)
      then before + [ClaimedEvent(e, AttemptsSeen(attempts, Key(e, consumer)))] else before
  }

  ghost function Ids(s: seq<ClaimedEvent>): seq<EventId> {
    seq(|s|, i requires 0 <= i < |s| => s[i].id)
  }

  lemma ClaimListSnoc(attempts: map<Key, AttemptRow>, before: seq<EventId>, e: EventId, consumer: string, now: Time)
    ensures ClaimList(attempts, before + [e], consumer, now) == ClaimList(attempts, before, consumer, now) +
              (if Due(attempts, Key(e, consumer), now) then [ClaimedEvent(e, AttemptsSeen(attempts, Key(e, consumer)))] else [])
  {
    assert (before + [e])[..|before|] == before;
  }

  // Claiming locked events in id order claims exactly the due ones, in id order.
  lemma {:induction false} ClaimListIds(attempts: map<Key, AttemptRow>, locked: seq<EventId>, consumer: string, now: Time)
    requires Ascends(locked)
    ensures Ascends(Ids(ClaimList(attempts, locked, consumer, now)))
    ensures forall e :: e in Ids(ClaimList(attempts, locked, consumer, now)) <==> e in locked && Due(attempts, Key(e, consumer), now)
  {
    if locked != [] {
      var before, e := locked[..|locked| - 1], locked[|locked| - 1];
      ClaimListIds(attempts, before, consumer, now);
      assert locked == before + [e];
      IdsOfSnoc(attempts, before, e, consumer, now);
      if Due(attempts, Key(e, consumer), now) {
        AscendsSnoc(Ids(ClaimList(attempts, before, consumer, now)), e);
      }
    }
  }

  lemma IdsOfSnoc(attempts: map<Key, AttemptRow>, before: seq<EventId>, e: EventId, consumer: string, now: Time)
    ensures var ids := Ids(ClaimList(attempts, before, consumer, now));
            Ids(ClaimList(attempts, before + [e], consumer, now)) == if Due(attempts, Key(e, consumer), now) then ids + [e] else ids
  {
    ClaimListSnoc(attempts, before, e, consumer, now);
    var list := ClaimList(attempts, before, consumer, now);
    if Due(attempts, Key(e, consumer), now) {
      IdsSnoc(list, ClaimedEvent(e, AttemptsSeen(attempts, Key(e, consumer))));
    } else {
      assert list + [] == list;
    }
  }

  lemma IdsSnoc(list: seq<ClaimedEvent>, c: ClaimedEvent)
    ensures Ids(list + [c]) == Ids(list) + [c.id]
  {
  }

  // The lease upsert, row by row: a row that is there keeps everything but its
  // next attempt.
  function UpsertLeases(attempts: map<Key, AttemptRow>, claimed: seq<ClaimedEvent>, consumer: string, until: Time): map<Key, AttemptRow> {
    if claimed == [] then attempts
    else
      var c := claimed[|claimed| - 1];
      var before := UpsertLeases(attempts, claimed[..|claimed| - 1], consumer, until);
      var k := Key(c.id, consumer);
      before[k := if k in before then before[k].(nextAt := until) else AttemptRow(c.attempts, until, None, None)]
  }

  lemma UpsertSnoc(attempts: map<Key, AttemptRow>, list: seq<ClaimedEvent>, c: ClaimedEvent, consumer: string, until: Time)
    ensures var before, k := UpsertLeases(attempts, list, consumer, until), Key(c.id, consumer);
            UpsertLeases(attempts, list + [c], consumer, until)
            == before[k := if k in before then before[k].(nextAt := until) else AttemptRow(c.attempts, until, None, None)]
  {
    assert (list + [c])[..|list|] == list;
  }

  lemma OneMoreLease(attempts: map<Key, AttemptRow>, claimed: set<EventId>, e: EventId, consumer: string, until: Time)
    requires e !in claimed
    ensures var k := Key(e, consumer);
            && Get(WithLeases(attempts, attempts, claimed, consumer, until), k) == Get(attempts, k)
            && WithLeases(attempts, attempts, claimed + {e}, consumer, until)
            == WithLeases(attempts, attempts, claimed, consumer, until)[k := LeaseRow(attempts, k, AttemptsSeen(attempts, k), until)]
  {
  }

  // The claimed events, collected in the order of the loop.
  ghost function ClaimedSoFar(attempts: map<Key, AttemptRow>, locked: seq<EventId>, consumer: string, now: Time): (r: set<EventId>)
    ensures forall e :: e in r <==> e in locked && Due(attempts, Key(e, consumer), now)
  {
    if locked == [] then {}
    else
      var e := locked[|locked| - 1];
      assert locked == locked[..|locked| - 1] + [e];
      ClaimedSoFar(attempts, locked[..|locked| - 1], consumer, now) + if Due(attempts, Key(e, consumer), now) then {e} else {}
  }

  lemma UpsertStep(attempts: map<Key, AttemptRow>, list: seq<ClaimedEvent>, claimed: set<EventId>, e: EventId, consumer: string, until: Time)
    requires e !in claimed && UpsertLeases(attempts, list, consumer, until) == WithLeases(attempts, attempts, claimed, consumer, until)
    ensures UpsertLeases(attempts, list + [ClaimedEvent(e, AttemptsSeen(attempts, Key(e, consumer)))], consumer, until)
         == WithLeases(attempts, attempts, claimed + {e}, consumer, until)
  {
    UpsertSnoc(attempts, list, ClaimedEvent(e, AttemptsSeen(attempts, Key(e, consumer))), consumer, until);
    OneMoreLease(attempts, claimed, e, consumer, until);
  }

  lemma ClaimedSnoc(attempts: map<Key, AttemptRow>, before: seq<EventId>, e: EventId, consumer: string, now: Time)
    ensures ClaimedSoFar(attempts, before + [e], consumer, now)
         == ClaimedSoFar(attempts, before, consumer, now) + if Due(attempts, Key(e, consumer), now) then {e} else {}
  {
    assert (before + [e])[..|before|] == before;
  }

  // Upserting the leases of the events claimed is the effect of a lease.
  ghost predicate UpsertsLeases(attempts: map<Key, AttemptRow>, locked: seq<EventId>, consumer: string, now: Time) {
    UpsertLeases(attempts, ClaimList(attempts, locked, consumer, now), consumer, now + CLAIM_LEASE)
    == WithLeases(attempts, attempts, ClaimedSoFar(attempts, locked, consumer, now), consumer, now + CLAIM_LEASE)
  }

  lemma NothingToLease(attempts: map<Key, AttemptRow>, consumer: string, now: Time)
    ensures UpsertsLeases(attempts, [], consumer, now)
  {
  }

  lemma {:induction false} UpsertIsLease(attempts: map<Key, AttemptRow>, locked: seq<EventId>, consumer: string, now: Time)
    requires Ascends(locked)
    ensures UpsertsLeases(attempts, locked, consumer, now)
  {
    if locked == [] {
      NothingToLease(attempts, consumer, now);
    } else {
      var before, e := locked[..|locked| - 1], locked[|locked| - 1];
      assert locked == before + [e] && e !in before;
      UpsertIsLease(attempts, before, consumer, now);
      UpsertSnocIsLease(attempts, before, e, consumer, now);
    }
  }

  lemma UpsertSnocIsLease(attempts: map<Key, AttemptRow>, before: seq<EventId>, e: EventId, consumer: string, now: Time)
    requires e !in before && UpsertsLeases(attempts, before, consumer, now)
    ensures UpsertsLeases(attempts, before + [e], consumer, now)
  {
    ClaimListSnoc(attempts, before, e, consumer, now);
    ClaimedSnoc(attempts, before, e, consumer, now);
    var list := ClaimList(attempts, before, consumer, now);
    var claimed := ClaimedSoFar(attempts, before, consumer, now);
    if Due(attempts, Key(e, consumer), now) {
      UpsertStep(attempts, list, claimed, e, consumer, now + CLAIM_LEASE);
    } else {
      assert list + [] == list && claimed + {} == claimed;
    }
  }

  datatype RetryResult = Retried | LetterNotFound | EventGone

  // The rows a claim's locking read returns.
  function Lockable(t: Tables, candidates: seq<EventId>): set<EventId> {
    set e | e in candidates && e in t.outbox && t.outbox[e].processedAt.None?
  }

  lemma LockedAreClaimed(t: Tables, candidates: seq<EventId>, consumer: string, now: Time)
    ensures ClaimedSoFar(t.attempts, Ascending(Lockable(t, candidates)), consumer, now)
         == Claimed(t.attempts, Lockable(t, candidates), consumer, now)
  {
  }

  // The consumer's dead letters whose event is still there.
  function Retryable(t: Tables, consumer: string): set<EventId> {
    set k | k in t.attempts && k.consumer == consumer && IsLetter(t, k) && k.event in t.outbox :: k.event
  }

  // Several letters of a consumer, back in the queue. The clock is read anew for each.
  function Revived(t: Tables, events: set<EventId>, consumer: string, clock: EventId -> Time): Tables {
    Tables(map e | e in t.outbox :: if e in events then t.outbox[e].(processedAt := None) else t.outbox[e],
           map k | k in t.attempts ::
             if k.consumer == consumer && k.event in events
             then t.attempts[k].(attempts := 0, nextAt := clock(k.event), deadAt := None) else t.attempts[k])
  }

  lemma ReviveOneMore(t: Tables, events: set<EventId>, e: EventId, consumer: string, clock: EventId -> Time)
    requires e !in events && e in t.outbox && IsLetter(t, Key(e, consumer))
    ensures IsLetter(Revived(t, events, consumer, clock), Key(e, consumer))
    ensures Revived(t, events + {e}, consumer, clock)
         == RetryEffect(Revived(t, events, consumer, clock), Key(e, consumer), clock(e))
  {
  }

  // The sweep in one go: the letters past their age, then the events processed
  // before the cutoff that no letter keeps, with their rows.
  function AfterExpiry(t: Tables, now: Time, deadFor: Time): Tables {
    if deadFor <= 0 then t else WithoutLetters(t, set k | k in t.attempts :: k.event, now - deadFor)
  }

  function Prunable(t: Tables, cutoff: Time): set<EventId> {
    set e | e in t.outbox && ProcessedBefore(t.outbox[e], cutoff) && !HasLetter(t.attempts, e)
  }

  lemma WithoutMoreEvents(t: Tables, a: set<EventId>, b: set<EventId>)
    ensures WithoutEvents(WithoutEvents(t, a), b) == WithoutEvents(t, a + b)
    ensures WithoutEvents(t, {}) == t
  {
  }

  lemma WithoutMoreLetters(t: Tables, a: set<EventId>, b: set<EventId>, cutoff: Time)
    ensures WithoutLetters(WithoutLetters(t, a, cutoff), b, cutoff) == WithoutLetters(t, a + b, cutoff)
    ensures WithoutLetters(t, {}, cutoff) == t
  {
  }

  // Deleting some prunable events leaves exactly the others prunable.
  lemma PrunableLeft(t: Tables, gone: set<EventId>, cutoff: Time)
    ensures Prunable(WithoutEvents(t, gone), cutoff) == Prunable(t, cutoff) - gone
  {
    var left := WithoutEvents(t, gone);
    forall e | e !in gone
      ensures HasLetter(left.attempts, e) <==> HasLetter(t.attempts, e)
    {
      if HasLetter(t.attempts, e) {
        var k :| k in t.attempts && k.event == e && t.attempts[k].deadAt.Some?;
        assert k in left.attempts;
      }
    }
  }

  // The events that have a letter past its age.
  function Expirable(t: Tables, cutoff: Time): set<EventId> {
    set k | k in t.attempts && Expired(t.attempts[k], cutoff) :: k.event
  }

  lemma ExpirableLeft(t: Tables, gone: set<EventId>, cutoff: Time)
    ensures Expirable(WithoutLetters(t, gone, cutoff), cutoff) == Expirable(t, cutoff) - gone
  {
    var left := WithoutLetters(t, gone, cutoff);
    forall e | e in Expirable(t, cutoff) - gone
      ensures e in Expirable(left, cutoff)
    {
      var k :| k in t.attempts && Expired(t.attempts[k], cutoff) && k.event == e;
      assert k in left.attempts;
    }
  }

  lemma ExpireAll(t: Tables, cutoff: Time)
    ensures WithoutLetters(t, Expirable(t, cutoff), cutoff) == WithoutLetters(t, set k | k in t.attempts :: k.event, cutoff)
  {
    var all := set k | k in t.attempts :: k.event;
    forall k | k in t.attempts
      ensures k.event in all && (Expired(t.attempts[k], cutoff) ==> k.event in Expirable(t, cutoff))
    {
    }
  }

  function UpTo(all: set<EventId>, cursor: EventId): set<EventId> {
    set e | e in all && e <= cursor
  }

  function Beyond(all: set<EventId>, cursor: EventId): set<EventId> {
    set e | e in all && e > cursor
  }

  lemma PageEnd(all: set<EventId>, after: EventId, limit: nat, page: seq<EventId>)
    requires limit > 0 && page == FirstIds(Beyond(all, after), limit) && page != []
    ensures var last := page[|page| - 1]; last in Beyond(all, after) && forall e :: e in page ==> after < e <= last
    ensures forall e :: e in all && after < e <= page[|page| - 1] ==> e in page
  {
    var last := page[|page| - 1];
    assert last in page;
    forall e | e in page
      ensures after < e <= last
    {
      assert e in Beyond(all, after);
      var i :| 0 <= i < |page| && page[i] == e;
    }
    forall e | e in all && after < e <= last
      ensures e in page
    {
      assert e in Beyond(all, after);
    }
  }

  // A page of the ids beyond a cursor, taken in order, moves the cursor past
  // exactly the ids of the page.
  lemma PageStep(all: set<EventId>, after: EventId, limit: nat, page: seq<EventId>)
    requires limit > 0 && page == FirstIds(Beyond(all, after), limit) && page != []
    ensures UpTo(all, page[|page| - 1]) == UpTo(all, after) + Elements(page)
    ensures UpTo(all, after) !! Elements(page) && Elements(page) <= all
    ensures Beyond(all, page[|page| - 1]) < Beyond(all, after)
  {
    var last := page[|page| - 1];
    PageEnd(all, after, limit, page);
    assert last in Beyond(all, after) && last !in Beyond(all, last);
  }

  lemma PrunableBeyond(t: Tables, after: EventId, cutoff: Time)
    ensures Prunable(WithoutEvents(t, UpTo(Prunable(t, cutoff), after)), cutoff) == Beyond(Prunable(t, cutoff), after)
  {
    PrunableLeft(t, UpTo(Prunable(t, cutoff), after), cutoff);
  }

  lemma ExpirableBeyond(t: Tables, after: EventId, cutoff: Time)
    ensures Expirable(WithoutLetters(t, UpTo(Expirable(t, cutoff), after), cutoff), cutoff) == Beyond(Expirable(t, cutoff), after)
  {
    ExpirableLeft(t, UpTo(Expirable(t, cutoff), after), cutoff);
  }

  // A batch: nothing beyond the cursor, or a page that moves it.
  lemma BatchStep(all: set<EventId>, after: EventId, ids: seq<EventId>)
    requires ids == FirstIds(Beyond(Beyond(all, after), after), PRUNE_BATCH)
    ensures ids == [] ==> UpTo(all, after) == all
    ensures ids != [] ==>
              && UpTo(all, ids[|ids| - 1]) == UpTo(all, after) + Elements(ids)
              && |UpTo(all, ids[|ids| - 1])| == |UpTo(all, after)| + |Elements(ids)|
              && Elements(ids) * Beyond(all, after) == Elements(ids)
              && Beyond(all, ids[|ids| - 1]) < Beyond(all, after)
  {
    assert Beyond(Beyond(all, after), after) == Beyond(all, after);
    if ids != [] {
      PageStep(all, after, PRUNE_BATCH, ids);
    } else {
      assert forall e :: e in all ==> e !in Beyond(all, after) && e <= after;
    }
  }

  // Ids start at 1, so a sweep's first cursor is below them all.
  lemma NothingUpToZero(t: Tables, cutoff: Time)
    requires (forall e :: e in t.outbox ==> e > 0) && (forall k :: k in t.attempts ==> k.event > 0)
    ensures UpTo(Prunable(t, cutoff), 0) == {} == UpTo(Expirable(t, cutoff), 0)
  {
  }

  // The events of ids, as far as the loop has come, that are among goal.
  ghost function DoneOf(goal: set<EventId>, ids: seq<EventId>, i: nat): set<EventId>
    requires i <= |ids|
  {
    set e | e in goal && e in ids[..i]
  }

  lemma DoneNext(goal: set<EventId>, ids: seq<EventId>, i: nat)
    requires Ascends(ids) && i < |ids|
    ensures ids[i] !in DoneOf(goal, ids, i)
    ensures DoneOf(goal, ids, i + 1) == DoneOf(goal, ids, i) + if ids[i] in goal then {ids[i]} else {}
  {
    assert ids[..i + 1] == ids[..i] + [ids[i]];
  }

  // The events of the consumer's dead letters.
  function Letters(t: Tables, consumer: string): set<EventId> {
    set k | k in t.attempts && k.consumer == consumer && IsLetter(t, k) :: k.event
  }

  lemma LettersAre(t: Tables, consumer: string, e: EventId)
    ensures e in Letters(t, consumer) <==> IsLetter(t, Key(e, consumer))
    ensures e in Retryable(t, consumer) <==> IsLetter(t, Key(e, consumer)) && e in t.outbox
  {
    assert forall k: Key :: k.consumer == consumer && k.event == e ==> k == Key(e, consumer);
    assert Key(e, consumer).event == e;
  }

  // What the loop of RetryAll has done after i letters, and what the next does.
  ghost function RevivedSoFar(t: Tables, consumer: string, i: nat, clock: EventId -> Time): Tables
    requires i <= |Letters(t, consumer)|
  {
    Revived(t, DoneOf(Retryable(t, consumer), Ascending(Letters(t, consumer)), i), consumer, clock)
  }

  ghost function CountSoFar(t: Tables, consumer: string, i: nat): nat
    requires i <= |Letters(t, consumer)|
  {
    |DoneOf(Retryable(t, consumer), Ascending(Letters(t, consumer)), i)|
  }

  lemma ReviveStep(t: Tables, consumer: string, i: nat, clock: EventId -> Time)
    requires i < |Letters(t, consumer)|
    ensures var e, now := Ascending(Letters(t, consumer))[i], RevivedSoFar(t, consumer, i, clock);
            if e in now.outbox
            then IsLetter(now, Key(e, consumer)) &&
                 RevivedSoFar(t, consumer, i + 1, clock) == RetryEffect(now, Key(e, consumer), clock(e)) &&
                 CountSoFar(t, consumer, i + 1) == CountSoFar(t, consumer, i) + 1
            else RevivedSoFar(t, consumer, i + 1, clock) == now && CountSoFar(t, consumer, i + 1) == CountSoFar(t, consumer, i)
  {
    var goal, ids := Retryable(t, consumer), Ascending(Letters(t, consumer));
    assert ids[i] in ids;
    DoneNext(goal, ids, i);
    LettersAre(t, consumer, ids[i]);
    if ids[i] in t.outbox {
      ReviveOneMore(t, DoneOf(goal, ids, i), ids[i], consumer, clock);
    } else {
      assert DoneOf(goal, ids, i + 1) == DoneOf(goal, ids, i);
    }
  }

  lemma ReviveStarts(t: Tables, consumer: string, clock: EventId -> Time)
    ensures RevivedSoFar(t, consumer, 0, clock) == t && CountSoFar(t, consumer, 0) == 0
  {
    assert DoneOf(Retryable(t, consumer), Ascending(Letters(t, consumer)), 0) == {};
    RevivedNone(t, consumer, clock);
  }

  lemma RevivedNone(t: Tables, consumer: string, clock: EventId -> Time)
    ensures Revived(t, {}, consumer, clock) == t
  {
  }

  lemma DoneAll(goal: set<EventId>, ids: seq<EventId>)
    requires forall e :: e in goal ==> e in ids
    ensures DoneOf(goal, ids, |ids|) == goal
  {
    assert ids[..|ids|] == ids;
  }

  lemma ReviveEnds(t: Tables, consumer: string, clock: EventId -> Time)
    ensures RevivedSoFar(t, consumer, |Letters(t, consumer)|, clock) == Revived(t, Retryable(t, consumer), consumer, clock)
    ensures CountSoFar(t, consumer, |Letters(t, consumer)|) == |Retryable(t, consumer)|
  {
    assert Retryable(t, consumer) <= Letters(t, consumer);
    DoneAll(Retryable(t, consumer), Ascending(Letters(t, consumer)));
  }

  // What the list of a lease holds, and where.
  lemma {:induction false} ClaimListMembers(attempts: map<Key, AttemptRow>, locked: seq<EventId>, consumer: string, now: Time, c: ClaimedEvent)
    ensures c in ClaimList(attempts, locked, consumer, now) <==>
            var k := Key(c.id, consumer);
            && c.id in locked
            && (if k in attempts
                then attempts[k].doneAt.None? && attempts[k].deadAt.None? && attempts[k].nextAt <= now && attempts[k].attempts == c.attempts
                else c.attempts == 0)
  {
    if locked != [] {
      var before, e := locked[..|locked| - 1], locked[|locked| - 1];
      ClaimListMembers(attempts, before, consumer, now, c);
      assert locked == before + [e];
    }
  }

  lemma ClaimListAscends(attempts: map<Key, AttemptRow>, locked: seq<EventId>, consumer: string, now: Time)
    requires Ascends(locked)
    ensures var list := ClaimList(attempts, locked, consumer, now);
            forall i, j :: 0 <= i < j < |list| ==> list[i].id < list[j].id
  {
    var list := ClaimList(attempts, locked, consumer, now);
    ClaimListIds(attempts, locked, consumer, now);
    assert forall i :: 0 <= i < |list| ==> Ids(list)[i] == list[i].id;
  }

  // The rows a lease leaves: those of the claimed events leased, the others as they were.
  ghost predicate LeasedRows(before: map<Key, AttemptRow>, after: map<Key, AttemptRow>, claimed: seq<ClaimedEvent>, consumer: string, until: Time) {
    && (forall c :: c in claimed ==> Get(after, Key(c.id, consumer)) == Some(AttemptRow(c.attempts, until, None, None)))
    && (forall k: Key :: (forall c :: c in claimed ==> k != Key(c.id, consumer)) ==> Get(after, k) == Get(before, k))
  }

  lemma LeaseLeaves(t: Tables, locked: set<EventId>, consumer: string, now: Time)
    ensures var after := LeaseEffect(t, t.attempts, locked, consumer, now).attempts;
            LeasedRows(t.attempts, after, ClaimList(t.attempts, Ascending(locked), consumer, now), consumer, now + CLAIM_LEASE)
  {
    var list := ClaimList(t.attempts, Ascending(locked), consumer, now);
    var after := LeaseEffect(t, t.attempts, locked, consumer, now).attempts;
    forall c | c in list ensures Get(after, Key(c.id, consumer)) == Some(AttemptRow(c.attempts, now + CLAIM_LEASE, None, None)) {
      ClaimListMembers(t.attempts, Ascending(locked), consumer, now, c);
      ClaimedRow(t, t.attempts, locked, consumer, now, c.id);
    }
    forall k: Key | forall c :: c in list ==> k != Key(c.id, consumer) ensures Get(after, k) == Get(t.attempts, k) {
      ClaimListMembers(t.attempts, Ascending(locked), consumer, now, ClaimedEvent(k.event, AttemptsSeen(t.attempts, Key(k.event, consumer))));
    }
  }

  // Without some events: their rows are gone from both tables, everything else is as it was.
  lemma WithoutEventsLeaves(t: Tables, gone: set<EventId>)
    ensures var after := WithoutEvents(t, gone);
            && (forall e :: Get(after.outbox, e) == if e in gone then None else Get(t.outbox, e))
            && (forall k: Key :: Get(after.attempts, k) == if k.event in gone then None else Get(t.attempts, k))
  {
  }

  lemma WithoutLettersLeaves(t: Tables, events: set<EventId>, cutoff: Time)
    ensures var after := WithoutLetters(t, events, cutoff);
            && after.outbox == t.outbox
            && forall k: Key :: Get(after.attempts, k) ==
                 if k in t.attempts && k.event in events && t.attempts[k].deadAt.Some? && t.attempts[k].deadAt.value < cutoff
                 then None else Get(t.attempts, k)
  {
  }

  // An event may go: processed before the cutoff, and no dead letter of it is left.
  lemma PrunableIff(t: Tables, cutoff: Time, e: EventId)
    ensures e in Prunable(t, cutoff) <==>
            && e in t.outbox && t.outbox[e].processedAt.Some? && t.outbox[e].processedAt.value < cutoff
            && forall k :: k in t.attempts && k.event == e ==> t.attempts[k].deadAt.None?
  {
  }

  // Every dead letter of the consumer whose event is there starts again, and its event
  // is open; nothing else changes.
  lemma RetryableIff(t: Tables, consumer: string)
    ensures Retryable(t, consumer) == set e | e in t.outbox && Key(e, consumer) in t.attempts && t.attempts[Key(e, consumer)].deadAt.Some?
  {
    forall e | e in t.outbox && Key(e, consumer) in t.attempts && t.attempts[Key(e, consumer)].deadAt.Some?
      ensures e in Retryable(t, consumer)
    {
      assert IsLetter(t, Key(e, consumer));
    }
  }

  lemma RevivedLeaves(t: Tables, consumer: string, clock: EventId -> Time)
    ensures var after := Revived(t, Retryable(t, consumer), consumer, clock);
            && (forall k: Key :: Get(after.attempts, k) ==
                  if k in t.attempts && k.consumer == consumer && t.attempts[k].deadAt.Some? && k.event in t.outbox
                  then Some(AttemptRow(0, clock(k.event), t.attempts[k].doneAt, None)) else Get(t.attempts, k))
            && (forall e :: Get(after.outbox, e) ==
                  if e in t.outbox && Key(e, consumer) in t.attempts && t.attempts[Key(e, consumer)].deadAt.Some?
                  then Some(OutboxRow(t.outbox[e].kind, None)) else Get(t.outbox, e))
    ensures |Retryable(t, consumer)| == |set e | e in t.outbox && Key(e, consumer) in t.attempts && t.attempts[Key(e, consumer)].deadAt.Some?|
  {
    RetryableIff(t, consumer);
    forall k: Key | k.consumer == consumer ensures k == Key(k.event, consumer) {
    }
  }

  // Pruned: some prunable events gone, with every attempts row of them.
  lemma PruneLeaves(t: Tables, doomed: set<EventId>, cutoff: Time)
    requires doomed <= Prunable(t, cutoff)
    ensures var after := WithoutEvents(t, doomed);
            && (forall e :: Get(after.outbox, e) == if e in doomed then None else Get(t.outbox, e))
            && (forall k: Key :: Get(after.attempts, k) == if k.event in t.outbox && k.event !in after.outbox then None else Get(t.attempts, k))
            && t.outbox.Keys - after.outbox.Keys == doomed
    ensures forall e :: e in Prunable(t, cutoff) <==>
              && e in t.outbox && t.outbox[e].processedAt.Some? && t.outbox[e].processedAt.value < cutoff
              && forall k :: k in t.attempts && k.event == e ==> t.attempts[k].deadAt.None?
  {
    WithoutEventsLeaves(t, doomed);
    forall e {
      PrunableIff(t, cutoff, e);
    }
  }

  class Database {
    var outbox: map<EventId, OutboxRow>
    var attempts: map<Key, AttemptRow>

    ghost function Contents(): Tables
      reads this
    {
      Tables(outbox, attempts)
    }

    // Ids are assigned from 1 on.
    ghost predicate Valid()
      reads this
    {
      (forall e :: e in outbox ==> e > 0) && (forall k :: k in attempts ==> k.event > 0)
    }

    // lease: locks the candidates and leases the ones still due, in id order.
    method Lease(consumer: string, candidates: seq<EventId>, now: Time) returns (claimed: seq<ClaimedEvent>)
      modifies this`attempts
      ensures Contents() == LeaseEffect(old(Contents()), old(attempts), Lockable(old(Contents()), candidates), consumer, now)
      ensures claimed == ClaimList(old(attempts), Ascending(Lockable(old(Contents()), candidates)), consumer, now)
      ensures forall i, j :: 0 <= i < j < |claimed| ==> claimed[i].id < claimed[j].id
      ensures forall c :: c in claimed <==>
                var k := Key(c.id, consumer);
                && c.id in candidates && c.id in outbox && outbox[c.id].processedAt.None?
                && (if k in old(attempts)
                    then old(attempts)[k].doneAt.None? && old(attempts)[k].deadAt.None? &&
                         old(attempts)[k].nextAt <= now && old(attempts)[k].attempts == c.attempts
                    else c.attempts == 0)
      ensures forall c :: c in claimed ==> Get(attempts, Key(c.id, consumer)) == Some(AttemptRow(c.attempts, now + 300_000_000_000, None, None))
      ensures forall k: Key :: (forall c :: c in claimed ==> k != Key(c.id, consumer)) ==> Get(attempts, k) == Get(old(attempts), k)
    {
      LeaseLeaves(Contents(), Lockable(Contents(), candidates), consumer, now);
      ClaimListAscends(attempts, Ascending(Lockable(Contents(), candidates)), consumer, now);
      forall c {
        ClaimListMembers(attempts, Ascending(Lockable(Contents(), candidates)), consumer, now, c);
      }
      var locked := Ascending(Lockable(Tables(outbox, attempts), candidates));
      claimed := StillDue(consumer, locked, now);
      LockedAreClaimed(Contents(), candidates, consumer, now);
      UpsertIsLease(attempts, locked, consumer, now);
      WriteLeases(consumer, claimed, now + CLAIM_LEASE);
    }

    // The lease upsert.
    method WriteLeases(consumer: string, claimed: seq<ClaimedEvent>, until: Time)
      modifies this`attempts
      ensures attempts == UpsertLeases(old(attempts), claimed, consumer, until)
    {
      for i := 0 to |claimed|
        invariant attempts == UpsertLeases(old(attempts), claimed[..i], consumer, until)
      {
        var k := Key(claimed[i].id, consumer);
        assert claimed[..i + 1] == claimed[..i] + [claimed[i]];
        UpsertSnoc(old(attempts), claimed[..i], claimed[i], consumer, until);
        attempts := attempts[k := if k in attempts then attempts[k].(nextAt := until)
                                  else AttemptRow(claimed[i].attempts, until, None, None)];
      }
      assert claimed[..|claimed|] == claimed;
    }

    // The loop of lease that drops what another worker leased or finished meanwhile.
    method StillDue(consumer: string, locked: seq<EventId>, now: Time) returns (claimed: seq<ClaimedEvent>)
      ensures claimed == ClaimList(attempts, locked, consumer, now)
    {
      claimed := [];
      for i := 0 to |locked|
        invariant claimed == ClaimList(attempts, locked[..i], consumer, now)
      {
        var e := locked[i];
        assert locked[..i + 1] == locked[..i] + [e];
        ClaimListSnoc(attempts, locked[..i], e, consumer, now);
        var k := Key(e, consumer);
        if k in attempts && (attempts[k].doneAt.Some? || attempts[k].deadAt.Some? || attempts[k].nextAt > now) {
          continue;
        }
        claimed := claimed + [ClaimedEvent(e, if k in attempts then attempts[k].attempts else 0)];
      }
      assert locked[..|locked|] == locked;
    }

    // finish, on the tables as they are: record the outcome, and mark the event
    // processed exactly when the outcome is final and every sibling has finished.
    method Finish(k: Key, row: AttemptRow, siblings: seq<string>, now: Time)
      modifies this
      ensures Contents() == FinishEffect(old(Contents()), old(attempts), k.event in old(outbox), k, row, siblings, now)
      ensures attempts == old(attempts)[k := row]
      ensures Distinct(siblings) ==>
                outbox == if && k.event in old(outbox) && (row.doneAt.Some? || row.deadAt.Some?)
                             && forall n :: n in siblings ==>
                                  var s := Key(k.event, n); s in attempts && (attempts[s].doneAt.Some? || attempts[s].deadAt.Some?)
                          then old(outbox)[k.event := old(outbox)[k.event].(processedAt := Some(now))] else old(outbox)
    {
      if Distinct(siblings) {
        CountMeansAll(attempts[k := row], k.event, siblings);
      }
      attempts := attempts[k := row];
      if k.event !in outbox || (row.doneAt.None? && row.deadAt.None?) {
        return;
      }
      var finished := |FinishedAmong(attempts, k.event, siblings)|;
      if finished < |siblings| {
        return;
      }
      outbox := outbox[k.event := outbox[k.event].(processedAt := Some(now))];
    }

    // run, once the handler returned: fill in the row field by field and record it.
    method Run(e: EventId, seen: nat, c: Consumer, outcome: Outcome, now: Time, siblings: seq<string>)
      modifies this
      ensures Contents() == FinishEffect(old(Contents()), old(attempts), e in old(outbox), Key(e, c.name),
                                         OutcomeRow(seen, c.retry, outcome, now), siblings, now)
      ensures var k := Key(e, c.name);
              && k in attempts && attempts == old(attempts)[k := attempts[k]]
              && (outcome == Succeeded ==> attempts[k] == AttemptRow(seen, now, Some(now), None))
              && (outcome == Malformed ==> attempts[k] == AttemptRow(seen + 1, now, None, Some(now)))
              && (outcome == Failed && seen + 1 >= c.retry.attempts ==> attempts[k] == AttemptRow(seen + 1, now, None, Some(now)))
              && (outcome == Failed && seen + 1 < c.retry.attempts ==>
                    attempts[k] == AttemptRow(seen + 1, now + Delay(c.retry, seen + 1), None, None))
      ensures var k := Key(e, c.name);
              Distinct(siblings) ==>
                outbox == if && e in old(outbox) && (outcome == Failed ==> seen + 1 >= c.retry.attempts)
                             && forall n :: n in siblings ==>
                                  var s := Key(e, n); s in attempts && (attempts[s].doneAt.Some? || attempts[s].deadAt.Some?)
                          then old(outbox)[e := old(outbox)[e].(processedAt := Some(now))] else old(outbox)
    {
      var row := AttemptRow(seen, now, None, None);
      if outcome == Succeeded {
        row := row.(doneAt := Some(now));
      } else if outcome == Malformed || seen + 1 >= c.retry.attempts {
        row := row.(attempts := row.attempts + 1);
        row := row.(deadAt := Some(now));
      } else {
        row := row.(attempts := row.attempts + 1);
        row := row.(nextAt := now + Delay(c.retry, row.attempts));
      }
      Finish(Key(e, c.name), row, siblings, now);
    }

    method Retry(e: EventId, consumer: string, now: Time) returns (r: RetryResult)
      modifies this
      ensures r == if e !in old(outbox) then EventGone
                   else if IsLetter(old(Contents()), Key(e, consumer)) then Retried else LetterNotFound
      ensures Contents() == if r == Retried then RetryEffect(old(Contents()), Key(e, consumer), now) else old(Contents())
      ensures var k := Key(e, consumer);
              if e in old(outbox) && k in old(attempts) && old(attempts)[k].deadAt.Some?
              then r == Retried && attempts == old(attempts)[k := AttemptRow(0, now, old(attempts)[k].doneAt, None)] &&
                   outbox == old(outbox)[e := OutboxRow(old(outbox)[e].kind, None)]
              else r == (if e in old(outbox) then LetterNotFound else EventGone) && attempts == old(attempts) && outbox == old(outbox)
    {
      var k := Key(e, consumer);
      if e !in outbox {
        return EventGone;
      }
      if k !in attempts || attempts[k].deadAt.None? {
        return LetterNotFound;
      }
      attempts := attempts[k := attempts[k].(deadAt := None, attempts := 0, nextAt := now)];
      outbox := outbox[e := outbox[e].(processedAt := None)];
      return Retried;
    }

    // RetryAll puts back every letter whose event is still there, and counts them.
    method RetryAll(consumer: string, clock: EventId -> Time) returns (retried: nat)
      modifies this
      ensures Contents() == Revived(old(Contents()), Retryable(old(Contents()), consumer), consumer, clock)
      ensures retried == |Retryable(old(Contents()), consumer)|
      ensures forall k: Key :: Get(attempts, k) ==
                if k in old(attempts) && k.consumer == consumer && old(attempts)[k].deadAt.Some? && k.event in old(outbox)
                then Some(AttemptRow(0, clock(k.event), old(attempts)[k].doneAt, None)) else Get(old(attempts), k)
      ensures forall e :: Get(outbox, e) ==
                if e in old(outbox) && Key(e, consumer) in old(attempts) && old(attempts)[Key(e, consumer)].deadAt.Some?
                then Some(OutboxRow(old(outbox)[e].kind, None)) else Get(old(outbox), e)
      ensures retried == |set e | e in old(outbox) && Key(e, consumer) in old(attempts) && old(attempts)[Key(e, consumer)].deadAt.Some?|
    {
      RevivedLeaves(Contents(), consumer, clock);
      retried := RetryEach(consumer, clock);
    }

    // The loop of RetryAll, letter by letter.
    method RetryEach(consumer: string, clock: EventId -> Time) returns (retried: nat)
      modifies this
      ensures Contents() == Revived(old(Contents()), Retryable(old(Contents()), consumer), consumer, clock)
      ensures retried == |Retryable(old(Contents()), consumer)|
    {
      ghost var t := Contents();
      var ids := Ascending(Letters(Tables(outbox, attempts), consumer));
      retried := 0;
      ReviveStarts(t, consumer, clock);
      ReviveEnds(t, consumer, clock);
      for i := 0 to |ids|
        invariant Contents() == RevivedSoFar(t, consumer, i, clock)
        invariant retried == CountSoFar(t, consumer, i)
      {
        ReviveStep(t, consumer, i, clock);
        var r := Retry(ids[i], consumer, clock(ids[i]));
        if r == Retried {
          retried := retried + 1;
        }
      }
    }

    // prune: the events among ids still processed and without a letter, gone.
    method Prune(ids: seq<EventId>, cutoff: Time) returns (n: nat)
      modifies this
      ensures var doomed := Elements(ids) * Prunable(old(Contents()), cutoff);
              Contents() == WithoutEvents(old(Contents()), doomed) && n == |doomed|
      ensures forall e :: Get(outbox, e) ==
                if && e in ids && e in old(outbox) && old(outbox)[e].processedAt.Some? && old(outbox)[e].processedAt.value < cutoff
                   && (forall k :: k in old(attempts) && k.event == e ==> old(attempts)[k].deadAt.None?)
                then None else Get(old(outbox), e)
      ensures forall k: Key :: Get(attempts, k) == if k.event in old(outbox) && k.event !in outbox then None else Get(old(attempts), k)
      ensures n == |old(outbox).Keys - outbox.Keys|
    {
      PruneLeaves(Contents(), Elements(ids) * Prunable(Contents(), cutoff), cutoff);
      n := DeleteEvents(ids, cutoff);
    }

    // The rows a prune deletes from both tables.
    method DeleteEvents(ids: seq<EventId>, cutoff: Time) returns (n: nat)
      modifies this
      ensures var doomed := Elements(ids) * Prunable(old(Contents()), cutoff);
              Contents() == WithoutEvents(old(Contents()), doomed) && n == |doomed|
    {
      var locked := set e | e in ids && e in outbox && ProcessedBefore(outbox[e], cutoff);
      var dead := set k | k in attempts && k.event in locked && attempts[k].deadAt.Some? :: k.event;
      var doomed := locked - dead;
      assert doomed == Elements(ids) * Prunable(Contents(), cutoff);
      if doomed == {} {
        WithoutMoreEvents(Contents(), {}, {});
        return 0;
      }
      attempts := map k | k in attempts && k.event !in doomed :: attempts[k];
      outbox := map e | e in outbox && e !in doomed :: outbox[e];
      return |doomed|;
    }

    // deleteLetters: the expired letters of the events, gone, and how many they were.
    method DeleteLetters(ids: seq<EventId>, cutoff: Time) returns (n: nat)
      modifies this`attempts
      ensures Contents() == WithoutLetters(old(Contents()), Elements(ids), cutoff)
      ensures forall k: Key :: Get(attempts, k) ==
                if k in old(attempts) && k.event in ids && old(attempts)[k].deadAt.Some? && old(attempts)[k].deadAt.value < cutoff
                then None else Get(old(attempts), k)
      ensures n == |old(attempts).Keys - attempts.Keys|
    {
      assert (set k | k in attempts && k.event in ids && Expired(attempts[k], cutoff))
          == attempts.Keys - WithoutLetters(Contents(), Elements(ids), cutoff).attempts.Keys;
      n := |set k | k in attempts && k.event in ids && Expired(attempts[k], cutoff)|;
      attempts := map k | k in attempts && !(k.event in ids && Expired(attempts[k], cutoff)) :: attempts[k];
    }

    // expireDeadLetters, batch by batch: every letter past its age, and nothing else.
    method ExpireDeadLetters(now: Time, deadFor: Time)
      requires Valid()
      modifies this`attempts
      ensures Valid() && Contents() == AfterExpiry(old(Contents()), now, deadFor)
      ensures forall k: Key :: Get(attempts, k) ==
                if deadFor > 0 && k in old(attempts) && old(attempts)[k].deadAt.Some? && old(attempts)[k].deadAt.value < now - deadFor
                then None else Get(old(attempts), k)
    {
      WithoutLettersLeaves(Contents(), set k | k in attempts :: k.event, now - deadFor);
      if deadFor <= 0 {
        return;
      }
      ghost var t := Contents();
      var cutoff := now - deadFor;
      ghost var all := Expirable(t, cutoff);
      var after: EventId := 0;
      NothingUpToZero(t, cutoff);
      WithoutMoreLetters(t, {}, {}, cutoff);
      while true
        invariant Contents() == WithoutLetters(t, UpTo(all, after), cutoff)
        decreases Beyond(all, after)
      {
        var ids := FirstIds(Beyond(Expirable(Tables(outbox, attempts), cutoff), after), PRUNE_BATCH);
        ExpirableBeyond(t, after, cutoff);
        BatchStep(all, after, ids);
        if ids == [] {
          break;
        }
        WithoutMoreLetters(t, UpTo(all, after), Elements(ids), cutoff);
        var _ := DeleteLetters(ids, cutoff);
        after := ids[|ids| - 1];
      }
      ExpireAll(t, cutoff);
    }

    // The batches of Sweep: every event processed before the cutoff that no
    // letter keeps, with its rows.
    method PruneAll(cutoff: Time) returns (deleted: nat)
      requires Valid()
      modifies this
      ensures var doomed := Prunable(old(Contents()), cutoff);
              Contents() == WithoutEvents(old(Contents()), doomed) && deleted == |doomed|
      ensures forall e :: Get(outbox, e) ==
                if && e in old(outbox) && old(outbox)[e].processedAt.Some? && old(outbox)[e].processedAt.value < cutoff
                   && (forall k :: k in old(attempts) && k.event == e ==> old(attempts)[k].deadAt.None?)
                then None else Get(old(outbox), e)
      ensures forall k: Key :: Get(attempts, k) == if k.event in old(outbox) && k.event !in outbox then None else Get(old(attempts), k)
      ensures deleted == |old(outbox).Keys - outbox.Keys|
    {
      ghost var t := Contents();
      ghost var all := Prunable(t, cutoff);
      PruneLeaves(t, all, cutoff);
      deleted := 0;
      var after: EventId := 0;
      NothingUpToZero(t, cutoff);
      WithoutMoreEvents(t, {}, {});
      while true
        invariant Contents() == WithoutEvents(t, UpTo(all, after))
        invariant deleted == |UpTo(all, after)|
        decreases Beyond(all, after)
      {
        var ids := FirstIds(Beyond(Prunable(Tables(outbox, attempts), cutoff), after), PRUNE_BATCH);
        PrunableBeyond(t, after, cutoff);
        BatchStep(all, after, ids);
        if ids == [] {
          break;
        }
        WithoutMoreEvents(t, UpTo(all, after), Elements(ids));
        var n := Prune(ids, cutoff);
        deleted := deleted + n;
        after := ids[|ids| - 1];
      }
    }

    // Sweep: first the letters past their age, then the events nothing keeps, each with
    // its own reading of the clock; it returns how many events it deleted.
    method Sweep(expireAt: Time, pruneAt: Time, deadFor: Time) returns (deleted: nat)
      requires Valid()
      modifies this
      ensures var expired := AfterExpiry(old(Contents()), expireAt, deadFor);
              var doomed := Prunable(expired, pruneAt - RETENTION);
              Contents() == WithoutEvents(expired, doomed) && deleted == |doomed|
      ensures forall k: Key :: Get(attempts, k) ==
                if || (deadFor > 0 && k in old(attempts) && old(attempts)[k].deadAt.Some? && old(attempts)[k].deadAt.value < expireAt - deadFor)
                   || (k.event in old(outbox) && k.event !in outbox)
                then None else Get(old(attempts), k)
      ensures forall e :: Get(outbox, e) ==
                if && e in old(outbox) && old(outbox)[e].processedAt.Some?
                   && old(outbox)[e].processedAt.value < pruneAt - 2_592_000_000_000_000
                   && (forall k :: k in old(attempts) && k.event == e && old(attempts)[k].deadAt.Some? ==>
                         deadFor > 0 && old(attempts)[k].deadAt.value < expireAt - deadFor)
                then None else Get(old(outbox), e)
      ensures deleted == |old(outbox).Keys - outbox.Keys|
    {
      ExpireDeadLetters(expireAt, deadFor);
      assert forall k: Key :: k in attempts ==> k in old(attempts) && attempts[k] == old(attempts)[k];
      deleted := PruneAll(pruneAt - RETENTION);
    }
  }
}
