// The two tables of the event queue and what each transaction of the queue
// writes to them (event/queue.go, event/worker.go, event/deadletter.go,
// event/housekeeping.go).
module EventTables {
  import opened Wrappers

  type EventId = nat
  type Time = int  // nanoseconds; a worker's clock reading

  // claimLease: how long a worker owns the events it claimed (5 minutes).
  const CLAIM_LEASE: Time := 300_000_000_000

  // An outbox_events row. The payload plays no part in the queue's decisions.
  datatype OutboxRow = OutboxRow(kind: string, processedAt: Option<Time>)

  // An event_consumer_attempts row: one consumer's state for one event.
  datatype AttemptRow = AttemptRow(attempts: nat, nextAt: Time, doneAt: Option<Time>, deadAt: Option<Time>)
  {
    predicate Finished() {
      doneAt.Some? || deadAt.Some?
    }
  }

  datatype Key = Key(event: EventId, consumer: string)

  datatype Tables = Tables(outbox: map<EventId, OutboxRow>, attempts: map<Key, AttemptRow>)

  datatype RetryPolicy = RetryPolicy(attempts: int, firstDelay: Time, maxDelay: Time)

  datatype Consumer = Consumer(name: string, event: string, retry: RetryPolicy)

  // What the start-up check demands of the consumers (Problems): distinct names
  // and a retry policy that can work.
  ghost predicate ValidConsumers(cs: seq<Consumer>) {
    && (forall i, j :: 0 <= i < j < |cs| ==> cs[i].name != cs[j].name)
    && (forall i :: 0 <= i < |cs| ==> cs[i].retry.attempts >= 1)
  }

  // The names of every consumer of an event.
  function Siblings(cs: seq<Consumer>, event: string): seq<string> {
    if cs == [] then []
    else if cs[0].event == event then [cs[0].name] + Siblings(cs[1..], event)
    else Siblings(cs[1..], event)
  }

  lemma {:induction false} SiblingsMembers(cs: seq<Consumer>, event: string, name: string)
    ensures name in Siblings(cs, event) <==> exists c :: c in cs && c.event == event && c.name == name
  {
    if cs != [] {
      SiblingsMembers(cs[1..], event, name);
      assert forall c :: c in cs <==> c == cs[0] || c in cs[1..];
    }
  }

  lemma {:induction false} SiblingsDistinct(cs: seq<Consumer>, event: string)
    requires ValidConsumers(cs)
    ensures Distinct(Siblings(cs, event))
  {
    if cs != [] {
      SiblingsDistinct(cs[1..], event);
      SiblingsMembers(cs[1..], event, cs[0].name);
    }
  }

  // A consumer's state for an event is final: done, or given up on.
  predicate FinishedBy(attempts: map<Key, AttemptRow>, e: EventId, consumer: string) {
    Key(e, consumer) in attempts && attempts[Key(e, consumer)].Finished()
  }

  // The consumers among names whose row is final; finish counts them.
  function FinishedAmong(attempts: map<Key, AttemptRow>, e: EventId, names: seq<string>): set<string> {
    set n | n in names && FinishedBy(attempts, e, n)
  }

  // With distinct names, counting as many final rows as there are siblings says
  // that every sibling finished.
  lemma CountMeansAll(attempts: map<Key, AttemptRow>, e: EventId, names: seq<string>)
    requires Distinct(names)
    ensures |FinishedAmong(attempts, e, names)| >= |names| <==> forall n :: n in names ==> FinishedBy(attempts, e, n)
  {
    DistinctCount(names);
    var finished := FinishedAmong(attempts, e, names);
    SubsetCount(finished, Elements(names));
    if forall n :: n in names ==> FinishedBy(attempts, e, n) {
      assert finished == Elements(names);
    }
    if |finished| >= |names| {
      assert forall n :: n in names ==> n in Elements(names);
    }
  }

  // Claiming ------------------------------------------------------------------

  // Due for the consumer at now: no row, or one neither final, nor leased, nor
  // waiting for a retry.
  predicate Due(attempts: map<Key, AttemptRow>, k: Key, now: Time) {
    k in attempts ==> !attempts[k].Finished() && attempts[k].nextAt <= now
  }

  function AttemptsSeen(attempts: map<Key, AttemptRow>, k: Key): nat {
    if k in attempts then attempts[k].attempts else 0
  }

  // The lease upsert: a conflict updates next_attempt_at only.
  function LeaseRow(current: map<Key, AttemptRow>, k: Key, seen: nat, until: Time): AttemptRow {
    if k in current then current[k].(nextAt := until) else AttemptRow(seen, until, None, None)
  }

  // The locked events that the snapshot still shows as due.
  function Claimed(snap: map<Key, AttemptRow>, locked: set<EventId>, consumer: string, now: Time): set<EventId> {
    set e | e in locked && Due(snap, Key(e, consumer), now)
  }

  // The leases of the claimed events, written over the current rows.
  function WithLeases(current: map<Key, AttemptRow>, snap: map<Key, AttemptRow>, claimed: set<EventId>,
                      consumer: string, until: Time): map<Key, AttemptRow>
  {
    current + map e | e in claimed ::
      Key(e, consumer) := LeaseRow(current, Key(e, consumer), AttemptsSeen(snap, Key(e, consumer)), until)
  }

  function LeaseEffect(t: Tables, snap: map<Key, AttemptRow>, locked: set<EventId>, consumer: string, now: Time): Tables {
    t.(attempts := WithLeases(t.attempts, snap, Claimed(snap, locked, consumer, now), consumer, now + CLAIM_LEASE))
  }

  // The row of a claimed event: leased, with the attempts the claim saw.
  lemma ClaimedRow(t: Tables, snap: map<Key, AttemptRow>, locked: set<EventId>, consumer: string, now: Time, e: EventId)
    requires e in Claimed(snap, locked, consumer, now)
    requires Get(t.attempts, Key(e, consumer)) == Get(snap, Key(e, consumer))
    ensures Get(LeaseEffect(t, snap, locked, consumer, now).attempts, Key(e, consumer))
         == Some(AttemptRow(AttemptsSeen(snap, Key(e, consumer)), now + CLAIM_LEASE, None, None))
  {
    var k := Key(e, consumer);
    assert LeaseRow(t.attempts, k, AttemptsSeen(snap, k), now + CLAIM_LEASE) == AttemptRow(AttemptsSeen(snap, k), now + CLAIM_LEASE, None, None);
  }

  // Recording an outcome --------------------------------------------------------

  datatype Outcome = Succeeded | Failed | Malformed

  // The wait after the given number of failures, as a closed form: the first
  // delay doubled once per further failure, at most the longest.
  function Doubled(first: int, times: nat): int {
    if times == 0 then first else 2 * Doubled(first, times - 1)
  }

  function Delay(p: RetryPolicy, failures: int): Time {
    var d := Doubled(p.firstDelay, if failures < 1 then 0 else failures - 1);
    if d < p.maxDelay then d else p.maxDelay
  }

  // The row a worker writes once its handler returned.
  function OutcomeRow(seen: nat, retry: RetryPolicy, outcome: Outcome, now: Time): AttemptRow {
    if outcome == Succeeded then AttemptRow(seen, now, Some(now), None)
    else if outcome == Malformed || seen + 1 >= retry.attempts then AttemptRow(seen + 1, now, None, Some(now))
    else AttemptRow(seen + 1, now + Delay(retry, seen + 1), None, None)
  }

  // finish: the upsert, then, when the event is there and the row is final, the
  // count over the snapshot with the transaction's own row laid over it.
  function FinishEffect(t: Tables, snap: map<Key, AttemptRow>, locked: bool, k: Key, row: AttemptRow,
                        siblings: seq<string>, now: Time): Tables
  {
    var written := t.(attempts := t.attempts[k := row]);
    if locked && k.event in t.outbox && row.Finished() &&
       |FinishedAmong(snap[k := row], k.event, siblings)| >= |siblings|
    then written.(outbox := t.outbox[k.event := t.outbox[k.event].(processedAt := Some(now))])
    else written
  }

  // Dead letters ----------------------------------------------------------------

  predicate IsLetter(t: Tables, k: Key) {
    k in t.attempts && t.attempts[k].deadAt.Some?
  }

  // Retry: the letter's attempts start again and the event is open again.
  function RetryEffect(t: Tables, k: Key, now: Time): Tables
    requires IsLetter(t, k) && k.event in t.outbox
  {
    Tables(t.outbox[k.event := t.outbox[k.event].(processedAt := None)],
           t.attempts[k := t.attempts[k].(attempts := 0, nextAt := now, deadAt := None)])
  }

  // Housekeeping ----------------------------------------------------------------

  predicate ProcessedBefore(row: OutboxRow, cutoff: Time) {
    row.processedAt.Some? && row.processedAt.value < cutoff
  }

  predicate HasLetter(attempts: map<Key, AttemptRow>, e: EventId) {
    exists k :: k in attempts && k.event == e && attempts[k].deadAt.Some?
  }

  // The locked events no dead letter keeps.
  function Doomed(snap: map<Key, AttemptRow>, locked: set<EventId>): set<EventId> {
    set e | e in locked && !HasLetter(snap, e)
  }

  // Some events, with every consumer's row of each, gone.
  function WithoutEvents(t: Tables, doomed: set<EventId>): Tables {
    Tables(map e | e in t.outbox && e !in doomed :: t.outbox[e],
           map k | k in t.attempts && k.event !in doomed :: t.attempts[k])
  }

  predicate Expired(row: AttemptRow, cutoff: Time) {
    row.deadAt.Some? && row.deadAt.value < cutoff
  }

  // deleteLetters: the letters of the events that died before the cutoff, gone.
  function WithoutLetters(t: Tables, events: set<EventId>, cutoff: Time): Tables {
    t.(attempts := map k | k in t.attempts && !(k.event in events && Expired(t.attempts[k], cutoff)) :: t.attempts[k])
  }
}
