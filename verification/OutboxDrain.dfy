/** One pass of the runOutbox ticker over a table nobody else touches, and how fast it drains a backlog. */
module OutboxDrain {
  import opened Outbox
  import opened OutboxWorkers

  /** What happens to a claimed row: how PublishRaw ends, and whether the acknowledgement or release that
      follows reaches the table. */
  datatype Fate = Fate(outcome: Outcome, lands: bool)

  /** A claimed row after its publish and the step that follows. */
  function Settled(row: Row, now: int, f: Fate): Row {
    if !f.lands then row
    else if f.outcome.Confirmed? then row.(publishedAt := At(now), claimedAt := Null)
    else row.(claimedAt := Null, claim := NoToken)
  }

  function Claimed(row: Row, token: Token, now: int): Row {
    row.(claimedAt := At(now), claim := Held(token), attempts := row.attempts + 1)
  }

  /** A row after a whole tick that took it. */
  function Concluded(row: Row, token: Token, now: int, f: Fate): Row {
    Settled(Claimed(row, token, now), now, f)
  }

  function CallsOf(ids: seq<Id>, token: Token, fates: Id -> Fate): seq<PublishCall> {
    seq(|ids|, i requires 0 <= i < |ids| => PublishCall(ids[i], token, fates(ids[i]).outcome))
  }

  ghost predicate TickResult(t: Table, t': Table, token: Token, hostNow: int, now: int, fates: Id -> Fate, ids: seq<Id>) {
    && OldestFirst(t, Candidates(t, hostNow, {}), ids, BATCH)
    && t' == map id | id in t :: if id in ids then Concluded(t[id], token, now, fates(id)) else t[id]
  }

  /** The table once the first `n` of the claimed rows have been settled. */
  ghost predicate SettledUpTo(t: Table, rows: Table, ids: seq<Id>, n: nat, token: Token, now: int, fates: Id -> Fate) {
    && n <= |ids| && rows.Keys == t.Keys && (forall id :: id in ids ==> id in t)
    && (forall id :: id in t && id !in ids ==> rows[id] == t[id])
    && (forall k :: 0 <= k < n ==> rows[ids[k]] == Concluded(t[ids[k]], token, now, fates(ids[k])))
    && (forall k :: n <= k < |ids| ==> rows[ids[k]] == Claimed(t[ids[k]], token, now))
  }

  lemma ClaimStarts(t: Table, ids: seq<Id>, token: Token, now: int, fates: Id -> Fate)
    requires Ids(ids) <= t.Keys
    ensures SettledUpTo(t, ClaimRows(t, Ids(ids), token, now), ids, 0, token, now, fates)
  {
    assert forall id :: id in ids <==> id in Ids(ids);
  }

  lemma SettleNext(t: Table, rows: Table, ids: seq<Id>, n: nat, token: Token, now: int, fates: Id -> Fate)
    requires Distinct(ids) && SettledUpTo(t, rows, ids, n, token, now, fates) && n < |ids|
    ensures SettledUpTo(t, rows[ids[n] := Settled(rows[ids[n]], now, fates(ids[n]))], ids, n + 1, token, now, fates)
    ensures Owns(rows, ids[n], token)
  {
  }

  method Tick(outbox: OutboxTable, token: Token, hostNow: int, now: int, fates: Id -> Fate)
    returns (ids: seq<Id>, calls: seq<PublishCall>)
    modifies outbox
    ensures TickResult(old(outbox.rows), outbox.rows, token, hostNow, now, fates, ids)
    ensures calls == CallsOf(ids, token, fates)
  {
    ids := outbox.ClaimPending(BATCH, token, hostNow, now, {});
    calls := [];
    ghost var t := old(outbox.rows);
    ClaimStarts(t, ids, token, now, fates);
    for i := 0 to |ids|
      invariant |calls| == i && forall k :: 0 <= k < i ==> calls[k] == CallsOf(ids, token, fates)[k]
      invariant SettledUpTo(t, outbox.rows, ids, i, token, now, fates)
    {
      calls := calls + [PublishCall(ids[i], token, fates(ids[i]).outcome)];
      SettleNext(t, outbox.rows, ids, i, token, now, fates);
      Settle(outbox, ids[i], token, now, fates(ids[i]));
    }
  }

  /** What follows the publish of one row. */
  method Settle(outbox: OutboxTable, id: Id, token: Token, now: int, f: Fate)
    requires Owns(outbox.rows, id, token)
    modifies outbox
    ensures outbox.rows == old(outbox.rows)[id := Settled(old(outbox.rows)[id], now, f)]
  {
    if !f.outcome.Confirmed? {
      if f.lands {
        outbox.ReleaseClaim(id, token);
      }
    } else if f.lands {
      outbox.MarkPublished(id, token, now);
    }
  }

  function Unpublished(t: Table): set<Id> { set id | id in t && t[id].publishedAt.Null? }

  /** Everything unpublished is free to be claimed: not claimed, or claimed more than 30 s ago by the
      publishing host's clock. */
  ghost predicate Backlog(t: Table, hostNow: int) {
    forall id :: id in t && t[id].publishedAt.Null? ==>
      t[id].claimedAt.Null? || hostNow - t[id].claimedAt.time > 30_000
  }

  function Works(id: Id): Fate { Fate(Confirmed, true) }

  /** A tick in which every publish and every acknowledgement works. */
  ghost predicate CleanTick(t: Table, t': Table, hostNow: int, ids: seq<Id>) {
    exists token, now :: TickResult(t, t', token, hostNow, now, Works, ids)
  }

  lemma CleanTickPublishes(t: Table, t': Table, hostNow: int, ids: seq<Id>)
    requires Backlog(t, hostNow) && CleanTick(t, t', hostNow, ids)
    ensures Backlog(t', hostNow) && t'.Keys == t.Keys
    ensures Unpublished(t') == Unpublished(t) - Ids(ids) && Ids(ids) <= Unpublished(t)
    ensures |Ids(ids)| == if |Unpublished(t)| < 100 then |Unpublished(t)| else 100
    ensures forall i, j :: i in ids && j in Unpublished(t') ==> t[i].createdAt <= t[j].createdAt
    ensures forall id :: id in t' ==> t'[id].createdAt == t[id].createdAt
  {
    var token, now :| TickResult(t, t', token, hostNow, now, Works, ids);
    assert Candidates(t, hostNow, {}) == Unpublished(t);
    DistinctSize(ids);
    assert forall id :: id in ids <==> id in Ids(ids);
  }

  /** A chain of clean ticks from a backlog: the tables before and after each, the host's clock at
      each, which never goes back, and the rows it took. */
  ghost predicate CleanTicks(tables: seq<Table>, hostTimes: seq<int>, batches: seq<seq<Id>>) {
    && |tables| == |batches| + 1 && |hostTimes| == |batches|
    && (forall i :: 0 <= i < |batches| ==> CleanTick(tables[i], tables[i + 1], hostTimes[i], batches[i]))
    && (forall i, j :: 0 <= i <= j < |hostTimes| ==> hostTimes[i] <= hostTimes[j])
    && (hostTimes != [] ==> Backlog(tables[0], hostTimes[0]))
  }

  lemma LaterBacklog(t: Table, hostNow: int, later: int)
    requires Backlog(t, hostNow) && hostNow <= later
    ensures Backlog(t, later)
  {
  }

  /** The i-th tick of such a chain. */
  lemma TickOfChain(tables: seq<Table>, hostTimes: seq<int>, batches: seq<seq<Id>>, i: nat)
    requires CleanTicks(tables, hostTimes, batches) && i < |batches|
    requires Backlog(tables[i], hostTimes[i])
    ensures i + 1 < |batches| ==> Backlog(tables[i + 1], hostTimes[i + 1])
    ensures Unpublished(tables[i + 1]) == Unpublished(tables[i]) - Ids(batches[i])
    ensures Ids(batches[i]) <= Unpublished(tables[i])
    ensures |Ids(batches[i])| == if |Unpublished(tables[i])| < 100 then |Unpublished(tables[i])| else 100
  {
    assert CleanTick(tables[i], tables[i + 1], hostTimes[i], batches[i]);
    CleanTickPublishes(tables[i], tables[i + 1], hostTimes[i], batches[i]);
    if i + 1 < |batches| {
      LaterBacklog(tables[i + 1], hostTimes[i], hostTimes[i + 1]);
    }
  }

  /** After k clean ticks the backlog is shorter by 100 k. */
  lemma {:induction false} TicksDrain(tables: seq<Table>, hostTimes: seq<int>, batches: seq<seq<Id>>, k: nat)
    requires CleanTicks(tables, hostTimes, batches) && k <= |batches|
    ensures k < |batches| ==> Backlog(tables[k], hostTimes[k])
    ensures |Unpublished(tables[k])| ==
            if |Unpublished(tables[0])| < k * 100 then 0 else |Unpublished(tables[0])| - k * 100
    decreases k
  {
    if k == 0 {
    } else {
      TicksDrain(tables, hostTimes, batches, k - 1);
      TickOfChain(tables, hostTimes, batches, k - 1);
      SubsetDifference(Unpublished(tables[k - 1]), Ids(batches[k - 1]));
    }
  }

  /** The rows a tick takes were unpublished until then and are published from then on. */
  lemma {:induction false} TakenStaysPublished(tables: seq<Table>, hostTimes: seq<int>, batches: seq<seq<Id>>, i: nat, k: nat)
    requires CleanTicks(tables, hostTimes, batches) && i < k <= |batches|
    ensures Ids(batches[i]) !! Unpublished(tables[k])
    decreases k - i
  {
    TicksDrain(tables, hostTimes, batches, k - 1);
    TickOfChain(tables, hostTimes, batches, k - 1);
    if i == k - 1 {
    } else {
      TakenStaysPublished(tables, hostTimes, batches, i, k - 1);
    }
  }

  /** No row is taken by two ticks. */
  lemma TakenOnce(tables: seq<Table>, hostTimes: seq<int>, batches: seq<seq<Id>>, i: nat, j: nat)
    requires CleanTicks(tables, hostTimes, batches) && i < j < |batches|
    ensures Ids(batches[i]) !! Ids(batches[j])
  {
    TakenStaysPublished(tables, hostTimes, batches, i, j);
    TicksDrain(tables, hostTimes, batches, j);
    TickOfChain(tables, hostTimes, batches, j);
  }

  lemma SubsetDifference(s: set<Id>, r: set<Id>)
    requires r <= s
    ensures |s - r| == |s| - |r|
  {
    assert s == (s - r) + r;
  }

  /** A backlog of n rows with no new arrivals is empty after ceil(n / 100) clean ticks, each of its rows
      having been published in exactly one of them. */
  lemma BacklogDrains(tables: seq<Table>, hostTimes: seq<int>, batches: seq<seq<Id>>)
    requires CleanTicks(tables, hostTimes, batches)
    requires |batches| == (|Unpublished(tables[0])| + 99) / 100
    ensures Unpublished(tables[|batches|]) == {}
    ensures forall id :: id in Unpublished(tables[0]) ==> exists i :: 0 <= i < |batches| && id in batches[i]
    ensures forall i, j :: 0 <= i < j < |batches| ==> Ids(batches[i]) !! Ids(batches[j])
  {
    TicksDrain(tables, hostTimes, batches, |batches|);
    forall id | id in Unpublished(tables[0]) ensures exists i :: 0 <= i < |batches| && id in batches[i] {
      SomeTickTook(tables, hostTimes, batches, id, |batches|);
    }
    forall i, j | 0 <= i < j < |batches| ensures Ids(batches[i]) !! Ids(batches[j]) {
      TakenOnce(tables, hostTimes, batches, i, j);
    }
  }

  lemma {:induction false} SomeTickTook(tables: seq<Table>, hostTimes: seq<int>, batches: seq<seq<Id>>, id: Id, k: nat)
    requires CleanTicks(tables, hostTimes, batches) && k <= |batches|
    requires id in Unpublished(tables[0]) && id !in Unpublished(tables[k])
    ensures exists i :: 0 <= i < k && id in batches[i]
    decreases k
  {
    if id in Unpublished(tables[k - 1]) {
      TicksDrain(tables, hostTimes, batches, k - 1);
      TickOfChain(tables, hostTimes, batches, k - 1);
      assert id in batches[k - 1];
    } else {
      SomeTickTook(tables, hostTimes, batches, id, k - 1);
    }
  }
}
