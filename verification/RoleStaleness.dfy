/** The role cache under interleaving: readers fetch a role and store it in separate steps while handlers
    change the table, invalidate, or fail to. How old can a cached role be? */
module RoleStaleness {
  import opened Roles

  type Reader = nat

  /** A cached role, when it was stored, and when the reader that stored it had read the table. */
  datatype Cached = Cached(role: string, readAt: int, setAt: int)

  datatype InFlight = InFlight(key: MemberKey, role: string, readAt: int)

  datatype Sys = Sys(
    clock: int,
    db: Members,
    cache: map<MemberKey, Cached>,
    readers: map<Reader, InFlight>,
    seen: set<(MemberKey, string, int)>) // every table read: key, role, time

  datatype Action =
    | Tick(d: nat)
    | Put(k: MemberKey, role: string)     // any handler's insert or update
    | Delete(k: MemberKey)
    | Drop(k: MemberKey)                  // an invalidation that reaches the cache
    | Read(r: Reader, k: MemberKey)
    | Fill(r: Reader, lands: bool)

  predicate Enabled(s: Sys, a: Action) {
    match a
    case Read(r, k) => r !in s.readers && k in s.db
    case Fill(r, _) => r in s.readers
    case _ => true
  }

  function Apply(s: Sys, a: Action): Sys
    requires Enabled(s, a)
  {
    match a
    case Tick(d) => s.(clock := s.clock + d)
    case Put(k, role) => s.(db := s.db[k := role])
    case Delete(k) => s.(db := s.db - {k})
    case Drop(k) => s.(cache := s.cache - {k})
    case Read(r, k) =>
      s.(readers := s.readers[r := InFlight(k, s.db[k], s.clock)], seen := s.seen + {(k, s.db[k], s.clock)})
    case Fill(r, lands) =>
      var f := s.readers[r];
      s.(readers := s.readers - {r},
         cache := if lands then s.cache[f.key := Cached(f.role, f.readAt, s.clock)] else s.cache)
  }

  predicate Valid(s: Sys, acts: seq<Action>)
    decreases |acts|
  {
    acts == [] || (Enabled(s, acts[0]) && Valid(Apply(s, acts[0]), acts[1..]))
  }

  function Run(s: Sys, acts: seq<Action>): Sys
    requires Valid(s, acts)
    decreases |acts|
  {
    if acts == [] then s else Run(Apply(s, acts[0]), acts[1..])
  }

  function Init(clock: int, db: Members): Sys { Sys(clock, db, map[], map[], {}) }

  /** A check at time `clock` is answered from the cache. */
  predicate Hits(s: Sys, k: MemberKey, ttl: nat) { k in s.cache && s.clock <= s.cache[k].setAt + ttl }

  /** A role that is read and stored is found by every check within the TTL, unless it is invalidated. */
  lemma StoredRoleIsFound(s: Sys, r: Reader, k: MemberKey, ttl: nat, d: nat)
    requires Enabled(s, Read(r, k))
    ensures Enabled(Apply(s, Read(r, k)), Fill(r, true))
    ensures var s' := Apply(Apply(Apply(s, Read(r, k)), Fill(r, true)), Tick(d));
            && (Hits(s', k, ttl) <==> d <= ttl)
            && k in s'.cache && s'.cache[k].role == s.db[k]
            && !Hits(Apply(s', Drop(k)), k, ttl)
  {
  }

  /** At some state of the run the clock stood at `t` and the table held `role` for `k`. */
  ghost predicate HeldAt(s: Sys, acts: seq<Action>, k: MemberKey, role: string, t: int)
    requires Valid(s, acts)
    decreases |acts|
  {
    || (s.clock == t && k in s.db && s.db[k] == role)
    || (acts != [] && HeldAt(Apply(s, acts[0]), acts[1..], k, role, t))
  }

  ghost predicate Backed(s: Sys) {
    && (forall k :: k in s.cache ==> (k, s.cache[k].role, s.cache[k].readAt) in s.seen)
    && (forall r :: r in s.readers ==> (s.readers[r].key, s.readers[r].role, s.readers[r].readAt) in s.seen)
  }

  lemma {:induction false} RunBacked(s: Sys, acts: seq<Action>)
    requires Valid(s, acts) && Backed(s)
    ensures Backed(Run(s, acts))
    decreases |acts|
  {
    if acts == [] {
    } else {
      RunBacked(Apply(s, acts[0]), acts[1..]);
    }
  }

  lemma {:induction false} SeenWasHeld(s: Sys, acts: seq<Action>, k: MemberKey, role: string, t: int)
    requires Valid(s, acts) && (k, role, t) !in s.seen && (k, role, t) in Run(s, acts).seen
    ensures HeldAt(s, acts, k, role, t)
    decreases |acts|
  {
    var s' := Apply(s, acts[0]);
    if (k, role, t) in s'.seen {
    } else {
      SeenWasHeld(s', acts[1..], k, role, t);
    }
  }

  /** A role answered from the cache was in the table no earlier than one TTL, plus the time its reader
      took between reading and storing it, before now. */
  lemma StalenessBound(clock: int, db: Members, acts: seq<Action>, k: MemberKey, ttl: nat)
    requires Valid(Init(clock, db), acts) && Hits(Run(Init(clock, db), acts), k, ttl)
    ensures var s := Run(Init(clock, db), acts);
            var e := s.cache[k];
            && HeldAt(Init(clock, db), acts, k, e.role, e.readAt)
            && e.readAt >= s.clock - ttl - (e.setAt - e.readAt)
  {
    var s := Run(Init(clock, db), acts);
    RunBacked(Init(clock, db), acts);
    SeenWasHeld(Init(clock, db), acts, k, s.cache[k].role, s.cache[k].readAt);
  }

  /// After an invalidation that reached the cache

  /** A reader that had already read `k` when `s` was reached. */
  ghost predicate Overlaps(s: Sys, k: MemberKey, role: string) {
    exists r :: r in s.readers && s.readers[r].key == k && s.readers[r].role == role
  }

  predicate LeavesRow(a: Action, k: MemberKey) { !(a.Put? && a.k == k) && !(a.Delete? && a.k == k) }

  ghost predicate FreshOrCarried(s: Sys, k: MemberKey, start: Sys) {
    && (k in s.db) == (k in start.db) && (k in s.db ==> s.db[k] == start.db[k])
    && (k in s.cache ==> (k in s.db && s.cache[k].role == s.db[k]) || Overlaps(start, k, s.cache[k].role))
    && (forall r :: r in s.readers && s.readers[r].key == k ==>
          (k in s.db && s.readers[r].role == s.db[k]) || Overlaps(start, k, s.readers[r].role))
  }

  lemma {:induction false} RunFreshOrCarried(s: Sys, acts: seq<Action>, k: MemberKey, start: Sys)
    requires Valid(s, acts) && FreshOrCarried(s, k, start)
    requires forall i :: 0 <= i < |acts| ==> LeavesRow(acts[i], k)
    ensures FreshOrCarried(Run(s, acts), k, start)
    decreases |acts|
  {
    if acts == [] {
    } else {
      assert LeavesRow(acts[0], k);
      RunFreshOrCarried(Apply(s, acts[0]), acts[1..], k, start);
    }
  }

  /** Once a change has been invalidated, and until the row changes again, a cached role differs from the
      table only if some reader had read the old role before the invalidation and stored it afterwards. */
  lemma StaleOnlyFromOverlap(s: Sys, acts: seq<Action>, k: MemberKey)
    requires Valid(s, [Drop(k)] + acts)
    requires forall i :: 0 <= i < |acts| ==> LeavesRow(acts[i], k)
    ensures var s' := Run(s, [Drop(k)] + acts);
            k in s'.cache && !(k in s'.db && s'.db[k] == s'.cache[k].role) ==> Overlaps(s, k, s'.cache[k].role)
  {
    var all := [Drop(k)] + acts;
    assert all[0] == Drop(k) && all[1..] == acts;
    var s1 := Apply(s, Drop(k));
    forall r | r in s1.readers && s1.readers[r].key == k ensures Overlaps(s, k, s1.readers[r].role) {
      assert r in s.readers && s.readers[r] == s1.readers[r];
    }
    RunFreshOrCarried(s1, acts, k, s);
  }
}
