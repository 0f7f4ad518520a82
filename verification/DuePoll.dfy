// The combined poll of all consumers (dueFor) against the single one (claim's
// first step).
module DuePoll {
  import opened Wrappers
  import opened EventTables
  import opened IdLists

  // The events due for a consumer.
  function DueIds(t: Tables, c: Consumer, now: Time): set<EventId> {
    set e | e in t.outbox && t.outbox[e].processedAt.None? && t.outbox[e].kind == c.event && Due(t.attempts, Key(e, c.name), now)
  }

  // What claim's first step picks: the due ids, ascending, at most limit.
  function Pick(t: Tables, c: Consumer, now: Time, limit: nat): seq<EventId> {
    FirstIds(DueIds(t, c, now), limit)
  }

  // An event is due for a consumer: its kind, unprocessed, and either no row or one that
  // is neither final nor waiting.
  predicate IsDue(t: Tables, c: Consumer, now: Time, e: EventId) {
    && e in t.outbox && t.outbox[e].processedAt.None? && t.outbox[e].kind == c.event
    && var k := Key(e, c.name);
       k in t.attempts ==> t.attempts[k].doneAt.None? && t.attempts[k].deadAt.None? && t.attempts[k].nextAt <= now
  }

  // The list is the limit least due ids, ascending: all of them when it is shorter.
  ghost predicate PicksFirst(t: Tables, c: Consumer, now: Time, limit: nat, ids: seq<EventId>) {
    && |ids| <= limit && (forall i, j :: 0 <= i < j < |ids| ==> ids[i] < ids[j])
    && (forall e :: e in ids ==> IsDue(t, c, now, e))
    && (forall e :: IsDue(t, c, now, e) && e !in ids ==> |ids| == limit && forall x :: x in ids ==> x < e)
  }

  lemma PickIsFirst(t: Tables, c: Consumer, now: Time, limit: nat)
    ensures PicksFirst(t, c, now, limit, Pick(t, c, now, limit))
  {
    var due, ids := DueIds(t, c, now), Pick(t, c, now, limit);
    assert forall e :: e in due <==> IsDue(t, c, now, e);
    forall e | e in due && e !in ids ensures |ids| == limit {
      if |due| <= limit {
        AscendingCount(ids);
        SubsetIsAll(Elements(ids), due);
      }
    }
  }

  lemma AscendingCount(ids: seq<EventId>)
    requires Ascends(ids)
    ensures |Elements(ids)| == |ids|
  {
    DistinctCount(ids);
  }

  lemma SubsetIsAll(a: set<EventId>, b: set<EventId>)
    requires a <= b && |a| == |b|
    ensures a == b
  {
    forall x | x in b ensures x in a {
      if x !in a {
        SubsetCount(a, b - {x});
      }
    }
  }

  // A row of the combined select: an id and the index of the consumer it is due for.
  datatype Row = Row(id: EventId, k: nat)

  // The parts of the UNION ALL, one ordered, limited select per consumer.
  function Tagged(ids: seq<EventId>, k: nat): seq<Row> {
    seq(|ids|, i requires 0 <= i < |ids| => Row(ids[i], k))
  }

  function Parts(picks: seq<seq<EventId>>, n: nat): seq<Row>
    requires n <= |picks|
  {
    if n == 0 then [] else Parts(picks, n - 1) + Tagged(picks[n - 1], n - 1)
  }

  function Picks(t: Tables, cs: seq<Consumer>, now: Time, limit: nat): seq<seq<EventId>> {
    seq(|cs|, i requires 0 <= i < |cs| => Pick(t, cs[i], now, limit))
  }

  // The parts together hold exactly the picks, each under its consumer, once.
  lemma {:induction false} PartsHold(picks: seq<seq<EventId>>, n: nat, r: Row)
    requires n <= |picks| && forall i :: 0 <= i < |picks| ==> Ascends(picks[i])
    ensures multiset(Parts(picks, n))[r] == if r.k < n && r.id in picks[r.k] then 1 else 0
  {
    if n > 0 {
      PartsHold(picks, n - 1, r);
      TaggedHolds(picks[n - 1], n - 1, r);
    }
  }

  lemma {:induction false} TaggedHolds(ids: seq<EventId>, k: nat, r: Row)
    requires Ascends(ids)
    ensures multiset(Tagged(ids, k))[r] == if r.k == k && r.id in ids then 1 else 0
  {
    if ids != [] {
      var before := ids[..|ids| - 1];
      TaggedHolds(before, k, r);
      assert ids == before + [ids[|ids| - 1]];
      assert Tagged(ids, k) == Tagged(before, k) + [Row(ids[|ids| - 1], k)];
    }
  }

  // Insertion into an ascending list, as slices.Sort leaves one.
  function Insert(x: EventId, s: seq<EventId>): (r: seq<EventId>)
    requires Ascends(s) && x !in s
    ensures Ascends(r) && forall y :: y in r <==> y == x || y in s
  {
    if s == [] || x < s[0] then [x] + s
    else
      assert s == [s[0]] + s[1..];
      var rest := Insert(x, s[1..]);
      AscendsCons(s[0], rest);
      [s[0]] + rest
  }

  function Sort(s: seq<EventId>): (r: seq<EventId>)
    requires Distinct(s)
    ensures Ascends(r) && forall y :: y in r <==> y in s
  {
    if s == [] then [] else Insert(s[0], Sort(s[1..]))
  }

  // The ids a list of rows holds for a consumer, in the order they came.
  function Offered(rows: seq<Row>, k: nat): seq<EventId> {
    if rows == [] then []
    else
      var before := Offered(rows[..|rows| - 1], k);
      if rows[|rows| - 1].k == k then before + [rows[|rows| - 1].id] else before
  }

  lemma {:induction false} OfferedHolds(rows: seq<Row>, k: nat, id: EventId)
    ensures multiset(Offered(rows, k))[id] == multiset(rows)[Row(id, k)]
  {
    if rows != [] {
      OfferedHolds(rows[..|rows| - 1], k, id);
      assert rows == rows[..|rows| - 1] + [rows[|rows| - 1]];
    }
  }

  lemma {:induction false} OnceIsDistinct(s: seq<EventId>)
    requires forall x :: x in s ==> multiset(s)[x] == 1
    ensures Distinct(s)
  {
    if s != [] {
      var before, last := s[..|s| - 1], s[|s| - 1];
      assert s == before + [last];
      assert multiset(s) == multiset(before) + multiset{last};
      assert last in s && multiset(s)[last] == 1;
      assert multiset(before)[last] == 0 && last !in before;
      forall x | x in before
        ensures multiset(before)[x] == 1
      {
        assert x in s && x != last;
      }
      OnceIsDistinct(before);
    }
  }

  // Whatever order the rows came in, sorting what a consumer was offered gives
  // its pick.
  lemma SortedOfferIsPick(picks: seq<seq<EventId>>, rows: seq<Row>, k: nat)
    requires forall i :: 0 <= i < |picks| ==> Ascends(picks[i])
    requires multiset(rows) == multiset(Parts(picks, |picks|))
    ensures Distinct(Offered(rows, k))
    ensures k < |picks| ==> Sort(Offered(rows, k)) == picks[k]
    ensures k >= |picks| ==> Offered(rows, k) == []
  {
    var offered := Offered(rows, k);
    forall id
      ensures multiset(offered)[id] == if k < |picks| && id in picks[k] then 1 else 0
    {
      OfferedHolds(rows, k, id);
      PartsHold(picks, |picks|, Row(id, k));
    }
    forall id | id in offered
      ensures multiset(offered)[id] == 1 && k < |picks| && id in picks[k]
    {
      assert id in multiset(offered);
    }
    OnceIsDistinct(offered);
    if k < |picks| {
      forall id | id in picks[k]
        ensures id in offered
      {
        assert multiset(offered)[id] == 1;
      }
      AscendsUnique(Sort(offered), picks[k]);
    } else {
      assert multiset(offered) == multiset{};
    }
  }

  // The grouping loop of dueFor.
  method Group(rows: seq<Row>) returns (out: map<nat, seq<EventId>>)
    ensures forall k: nat :: k in out <==> Offered(rows, k) != []
    ensures forall k: nat :: k in out ==> out[k] == Offered(rows, k)
  {
    out := map[];
    for i := 0 to |rows|
      invariant forall k: nat :: k in out <==> Offered(rows[..i], k) != []
      invariant forall k: nat :: k in out ==> out[k] == Offered(rows[..i], k)
    {
      var r := rows[i];
      assert rows[..i + 1][..i] == rows[..i];
      out := out[r.k := (if r.k in out then out[r.k] else []) + [r.id]];
    }
    assert rows[..|rows|] == rows;
  }

  // The sorting loop of dueFor, over the consumers in any order.
  method SortOffers(rows: seq<Row>, ghost picks: seq<seq<EventId>>) returns (out: map<nat, seq<EventId>>)
    requires forall i :: 0 <= i < |picks| ==> Ascends(picks[i])
    requires multiset(rows) == multiset(Parts(picks, |picks|))
    ensures forall k: nat :: k in out <==> k < |picks| && picks[k] != []
    ensures forall k: nat :: k in out && k < |picks| ==> out[k] == picks[k]
  {
    out := Group(rows);
    ghost var grouped := out;
    forall k | k in grouped
      ensures k < |picks| && picks[k] != []
    {
      SortedOfferIsPick(picks, rows, k);
    }
    forall k: nat | k < |picks| && picks[k] != []
      ensures k in grouped
    {
      SortedOfferIsPick(picks, rows, k);
    }
    var left := out.Keys;
    while left != {}
      invariant left <= out.Keys == grouped.Keys
      invariant forall k: nat :: k in left ==> out[k] == grouped[k]
      invariant forall k: nat :: k in out && k !in left ==> out[k] == picks[k]
      decreases left
    {
      var k :| k in left;
      SortedOfferIsPick(picks, rows, k);
      out := out[k := Sort(out[k])];
      left := left - {k};
    }
  }

  // dueFor: rows is what the UNION ALL returned, in whatever order. The result
  // holds, for each consumer that has any, exactly what claim would pick for it.
  method DueFor(t: Tables, cs: seq<Consumer>, now: Time, limit: nat, rows: seq<Row>) returns (out: map<nat, seq<EventId>>)
    requires multiset(rows) == multiset(Parts(Picks(t, cs, now, limit), |cs|))
    ensures forall k: nat :: k in out <==> k < |cs| && Pick(t, cs[k], now, limit) != []
    ensures forall k: nat :: k in out ==> k < |cs| && out[k] == Pick(t, cs[k], now, limit)
    ensures forall k: nat :: k in out ==> PicksFirst(t, cs[k], now, limit, out[k])
    ensures forall k: nat :: k < |cs| && k !in out ==> PicksFirst(t, cs[k], now, limit, [])
  {
    forall k: nat | k < |cs| ensures PicksFirst(t, cs[k], now, limit, Pick(t, cs[k], now, limit)) {
      PickIsFirst(t, cs[k], now, limit);
    }
    ghost var picks := Picks(t, cs, now, limit);
    out := SortOffers(rows, picks);
  }
}
