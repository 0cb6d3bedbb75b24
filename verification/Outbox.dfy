/** The event_outbox table of apps/api/services/database/outbox.go. Times are milliseconds; the
    database stamps claims with its own clock, the claiming host judges their age by its own. */
module Outbox {
  import opened Wrappers

  const CLAIM_AGE := 30_000

  type Id = nat
  type Token = nat

  datatype Stamp = Null | At(time: int)
  datatype TokenField = NoToken | Held(token: Token)

  datatype Row = Row(createdAt: int, publishedAt: Stamp, claimedAt: Stamp, claim: TokenField, attempts: nat)

  type Table = map<Id, Row>

  predicate Published(t: Table, id: Id) { id in t && t[id].publishedAt.At? }

  predicate Claimable(row: Row, cutoff: int) {
    row.publishedAt.Null? && (row.claimedAt.Null? || row.claimedAt.time < cutoff)
  }

  predicate Owns(t: Table, id: Id, token: Token) { id in t && t[id].claim == Held(token) }

  function Candidates(t: Table, hostNow: int, locked: set<Id>): set<Id> {
    set id | id in t && Claimable(t[id], hostNow - CLAIM_AGE) && id !in locked
  }

  function ClaimRows(t: Table, ids: set<Id>, token: Token, now: int): Table {
    map id | id in t ::
      if id in ids then t[id].(claimedAt := At(now), claim := Held(token), attempts := t[id].attempts + 1) else t[id]
  }

  function MarkRow(t: Table, id: Id, token: Token, now: int): Table {
    if Owns(t, id, token) then t[id := t[id].(publishedAt := At(now), claimedAt := Null)] else t
  }

  function ReleaseRow(t: Table, id: Id, token: Token): Table {
    if Owns(t, id, token) then t[id := t[id].(claimedAt := Null, claim := NoToken)] else t
  }

  predicate Distinct(ids: seq<Id>) { forall i, j :: 0 <= i < j < |ids| ==> ids[i] != ids[j] }

  ghost function Ids(ids: seq<Id>): set<Id> { set id | id in ids }

  /** The rows a claim takes: the oldest candidates, as many as the limit allows. */
  ghost predicate OldestFirst(t: Table, cands: set<Id>, ids: seq<Id>, limit: nat) {
    && Distinct(ids) && Ids(ids) <= cands <= t.Keys
    && |ids| == (if |cands| < limit then |cands| else limit)
    && (forall i, j :: i in ids && j in cands && j !in ids ==> t[i].createdAt <= t[j].createdAt)
  }

  class OutboxTable {
    var rows: Table

    method Enqueue(id: Id, now: int)
      requires id !in rows
      modifies this
      ensures rows == old(rows)[id := Row(now, Null, Null, NoToken, 0)]
    {
      rows := rows[id := Row(now, Null, Null, NoToken, 0)];
    }

    /** Claims up to `limit` rows under `token`, skipping rows other transactions have locked. */
    method ClaimPending(limit: nat, token: Token, hostNow: int, now: int, locked: set<Id>) returns (ids: seq<Id>)
      modifies this
      ensures OldestFirst(old(rows), Candidates(old(rows), hostNow, locked), ids, limit)
      ensures rows == ClaimRows(old(rows), Ids(ids), token, now)
    {
      ids := SelectOldest(rows, Candidates(rows, hostNow, locked), limit);
      rows := map id | id in rows ::
        if id in ids then rows[id].(claimedAt := At(now), claim := Held(token), attempts := rows[id].attempts + 1)
        else rows[id];
    }

    method MarkPublished(id: Id, token: Token, now: int)
      modifies this
      ensures rows == MarkRow(old(rows), id, token, now)
    {
      if id in rows && rows[id].claim == Held(token) {
        rows := rows[id := rows[id].(publishedAt := At(now), claimedAt := Null)];
      }
    }

    method ReleaseClaim(id: Id, token: Token)
      modifies this
      ensures rows == ReleaseRow(old(rows), id, token)
    {
      if id in rows && rows[id].claim == Held(token) {
        rows := rows[id := rows[id].(claimedAt := Null, claim := NoToken)];
      }
    }
  }

  /** ORDER BY created_at LIMIT: ties may go either way. */
  method SelectOldest(t: Table, cands: set<Id>, limit: nat) returns (ids: seq<Id>)
    requires cands <= t.Keys
    ensures OldestFirst(t, cands, ids, limit)
  {
    var rest := cands;
    ids := [];
    while |ids| < limit && rest != {}
      invariant Distinct(ids) && |ids| <= limit
      invariant rest == cands - Ids(ids) && Ids(ids) <= cands && |rest| == |cands| - |ids|
      invariant forall i, j :: i in Ids(ids) && j in rest ==> t[i].createdAt <= t[j].createdAt
      decreases limit - |ids|
    {
      OldestExists(t, rest);
      var id :| id in rest && forall j :: j in rest ==> t[id].createdAt <= t[j].createdAt;
      IdsSnoc(ids, id);
      ids := ids + [id];
      rest := rest - {id};
    }
    assert forall i :: i in ids <==> i in Ids(ids);
  }

  /// What the statements do, field by field

  /** A row can be claimed iff it is unpublished, nobody has it locked, and it is unclaimed or was claimed
      more than 30 s ago by the host's clock. */
  lemma ClaimableIff(t: Table, hostNow: int, locked: set<Id>, id: Id)
    ensures id in Candidates(t, hostNow, locked) <==>
            && id in t && id !in locked && t[id].publishedAt == Null
            && (t[id].claimedAt.At? ==> hostNow - t[id].claimedAt.time > 30_000)
  {
  }

  /** With room for all of them, every claimable row is taken: one left behind by a crashed publisher more
      than 30 s ago, too. */
  lemma StaleClaimIsTaken(t: Table, ids: seq<Id>, limit: nat, hostNow: int, id: Id, claimed: int)
    requires OldestFirst(t, Candidates(t, hostNow, {}), ids, limit) && |t| <= limit
    requires id in t && t[id].publishedAt == Null && t[id].claimedAt == At(claimed) && hostNow - claimed > 30_000
    ensures id in ids
  {
    TakesAllWithRoom(t, ids, limit, hostNow, id);
  }

  lemma FreeRowIsTaken(t: Table, ids: seq<Id>, limit: nat, hostNow: int, id: Id)
    requires OldestFirst(t, Candidates(t, hostNow, {}), ids, limit) && |t| <= limit
    requires id in t && t[id].publishedAt == Null && t[id].claimedAt == Null
    ensures id in ids
  {
    TakesAllWithRoom(t, ids, limit, hostNow, id);
  }

  lemma TakesAllWithRoom(t: Table, ids: seq<Id>, limit: nat, hostNow: int, id: Id)
    requires OldestFirst(t, Candidates(t, hostNow, {}), ids, limit) && |t| <= limit
    requires id in Candidates(t, hostNow, {})
    ensures id in ids
  {
    var cands := Candidates(t, hostNow, {});
    SubsetSize(cands, t.Keys);
    DistinctSize(ids);
    if id !in ids {
      SubsetSize(Ids(ids), cands - {id});
    }
  }

  lemma {:induction false} DistinctSize(ids: seq<Id>)
    requires Distinct(ids)
    ensures |Ids(ids)| == |ids|
    decreases |ids|
  {
    if ids == [] {
    } else {
      var n := |ids| - 1;
      DistinctSize(ids[..n]);
      assert Ids(ids) == Ids(ids[..n]) + {ids[n]} && ids[n] !in ids[..n];
    }
  }

  /** A claim stamps, re-tokens and counts exactly the rows it takes; it holds for 30 s of the host's clock
      against every other claim. */
  lemma ClaimMeaning(t: Table, ids: set<Id>, token: Token, now: int, id: Id, hostNow: int)
    requires id in t
    ensures var t' := ClaimRows(t, ids, token, now);
            && t'.Keys == t.Keys
            && (id !in ids ==> t'[id] == t[id])
            && (id in ids ==>
                  && t'[id].claimedAt == At(now) && t'[id].claim == Held(token)
                  && t'[id].attempts == t[id].attempts + 1
                  && t'[id].publishedAt == t[id].publishedAt && t'[id].createdAt == t[id].createdAt)
            && (id in ids && t[id].publishedAt == Null ==> (id in Candidates(t', hostNow, {}) <==> hostNow - now > 30_000))
  {
  }

  /** An acknowledgement publishes a row still under the token, a release frees it; under another token
      neither changes anything. */
  lemma ConclusionMeaning(t: Table, id: Id, token: Token, now: int, hostNow: int)
    requires id in t
    ensures var m, r := MarkRow(t, id, token, now), ReleaseRow(t, id, token);
            && m.Keys == t.Keys && r.Keys == t.Keys
            && (forall other :: other in t && other != id ==> m[other] == t[other] && r[other] == t[other])
            && (t[id].claim != Held(token) ==> m == t && r == t)
            && (t[id].claim == Held(token) ==>
                  && m[id] == t[id].(publishedAt := At(now), claimedAt := Null) && id !in Candidates(m, hostNow, {})
                  && r[id] == t[id].(claimedAt := Null, claim := NoToken)
                  && (t[id].publishedAt == Null ==> id in Candidates(r, hostNow, {})))
  {
  }

  lemma IdsSnoc(ids: seq<Id>, id: Id)
    ensures Ids(ids + [id]) == Ids(ids) + {id}
    ensures Distinct(ids) && id !in Ids(ids) ==> Distinct(ids + [id])
  {
    assert forall i :: i in ids <==> i in Ids(ids);
  }

  lemma {:induction false} OldestExists(t: Table, s: set<Id>)
    requires s != {} && s <= t.Keys
    ensures exists id :: id in s && forall j :: j in s ==> t[id].createdAt <= t[j].createdAt
    decreases |s|
  {
    var x :| x in s;
    if s == {x} {
    } else {
      OldestExists(t, s - {x});
      var y :| y in s - {x} && forall j :: j in s - {x} ==> t[y].createdAt <= t[j].createdAt;
      var z := if t[x].createdAt <= t[y].createdAt then x else y;
      assert forall j :: j in s ==> t[z].createdAt <= t[j].createdAt;
    }
  }
}
